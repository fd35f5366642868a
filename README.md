# libdmodel in Dafny

This project models the core of libdmodel, the content-model library behind
Endless knowledge apps. It covers the C/GObject library under `dmodel/` and the
GJS override in `overrides/DModel.js`.

The model follows the library's own layers:

- **Model objects.** `Props`, `Objects`, `Content`, `Media`, `Image`, `Video`,
  `Audio`, `Sets` and `Base` cover the model objects. These are the JSON-LD
  key tables of each class and the GParameter list that
  `add_json_to_params` builds. They also cover `set_property` and
  `get_property` over the class hierarchy, the mock-id step of
  `DmContent::constructed`, and the `@type` dispatch of
  `dm_model_from_json_node`.
- **Shards.** `Records`, `Shards`, `EosShard` and `OpenZim` cover the
  shards. These are the ref-counted shard record, the shard base class and
  its cached database offset, the eos-shard backend (record lookup, metadata,
  data streams, link table, and its `init` callback), and the ZIM backend
  (`namespace/url` ids, redirects, the synthesised JSON model, and the Xapian
  full-text offset).
- **Search.** `DatabaseManager` and `Queries` cover search. This includes the
  prefix and stopword metadata, opening a database over all shards that
  carry an index, the stopword filter and the spelling-correction cleanup in
  `fix_query`, the stemmer cache, and `query`.
- **Domains and engine.** `Domains` and `Engines` cover one content domain and
  the per-app domain cache. A domain covers manifest and subscription
  import, link tables, object loading by id, query fixing, query execution,
  and `ekn://` URI reads. The engine caches domains per app id and routes
  `get_object`, `test_link` and `query` through them.
- **JavaScript override.** `GjsOverride` covers the override: the
  dash-to-underscore property aliases, property marshallers, the
  table-of-contents variant round trip, and `new_from_object`.
- **Build-time version macros.** `Macros` covers the version macros of
  `dm-macros.h`.

`Strings` holds the GLib string helpers the core relies on:
`g_strsplit`, `g_strjoinv`, `g_strchomp`, `g_strchug` and `g_strstrip`.
`Json` holds the JSON node tree. `Xapian` holds the search engine's
observable results. `Errors` and `Wrappers` hold the error domains and
Option/Result.

Objects that the source updates in place are classes:

- `Props.ParamArray`
- `Content.MockIds` (the static mock-id counter)
- `Records.ShardRecord`
- `Shards.Shard`
- `QueryResults.Results`
- `DatabaseManager.Manager`
- `Domains.Domain`
- `Engines.Engine`
- `GjsOverride.JsObject`

The loops in `create_database_from_shards`, `fix_query_internal`,
`import_subscriptions`, `setup_link_tables`, `query_task`, the ToC marshaller
and `new_from_object` are `while` loops. Each is proved against a
specification function, and the properties are proved about that function.
Each `add_json_to_params` is its source's run of appends, proved row by row
against the class's key table. Model values,
shard files, manifests and ZIM archives are datatypes.

Two version-macro edge cases are worth knowing:

- For an odd minor version, `DM_VERSION_PREV_STABLE` is the version below it.
- For minor version 0 it is an encoding below `DM_VERSION_0_0`. `Macros.PrevBeforeCur`
  states this. It is harmless, because the macro is only compared with
  `DM_VERSION_MIN_REQUIRED`.

## Model

| member | source | states |
|---|---|---|
| Json.Member | dmodel/dm-content.c:545-615 | a JSON member lookup succeeds exactly when the key is present and returns that member |
| Props.ParseDecimal | dmodel/dm-content.c:545-615 | a decimal string parses exactly when it is non-empty and all digits, to the number its digits spell |
| Props.StringsOf | dmodel/dm-content.c:545-615 | a JSON array becomes a string list exactly when every element is a string, element by element |
| Props.Coerce | dmodel/dm-content.c:545-615 | a coerced JSON member always has the property's type; a string property accepts exactly JSON strings, unchanged; an unsigned property accepts exactly an integer or a decimal string within guint range, and holds that number |
| Props.FromMember | dmodel/dm-content.c:545-615 | one table row adds at most one well-typed parameter, and adds one exactly when the member is present and coerces |
| Props.ParamsOfShape | dmodel/dm-content.c:545-615 | the parameters built from a key table are well typed, no more than its rows, and each names a property of the table |
| Props.ParamsOfAppend | dmodel/dm-media.c:186-213 | building from a parent table followed by a child table is building from each in turn (the chained parent call) |
| Props.LastForAppend | dmodel/dm-base.c:25-94 | in the model's fold over a parameter list, the value of a property set in the appended part comes from that part, otherwise from the front; the tables never set a property twice (Base.TableForDistinct) |
| Props.LastForTable | dmodel/dm-content.c:545-615 | with distinct properties, the value a table row sets is exactly the value its JSON member coerces to |
| Props.LastForAbsent | dmodel/dm-content.c:545-615 | a property not in the table is never set by the parameters built from it |
| Props.ParamsUpToPrefix | dmodel/dm-content.c:545-615 | the parameters appended after the first k rows equal the parameters built from those rows |
| Props.ParamsUpToAll | dmodel/dm-content.c:545-615 | after the last row the partial list is the whole parameter list |
| Props.ParamArray.constructor | dmodel/dm-content.c:699-712 | a new parameter array is empty |
| Props.ParamArray.AppendMember | dmodel/dm-content.c:545-615 | appending a member adds exactly what that row contributes and nothing else |
| Objects.Default | dmodel/dm-content.c:316-529 | a fresh object of any class has that class and the content defaults of the class_init pspecs |
| Objects.SetProperty | dmodel/dm-content.c:162-266 | setting a property never changes the object's class |
| Objects.GetProperty | dmodel/dm-content.c:70-159 | a property can be read exactly when the object's class installs it |
| Objects.Apply | dmodel/dm-base.c:25-94 | applying a parameter list keeps the object's class |
| Objects.Construct | dmodel/dm-base.c:25-94 | g_object_newv builds an object of the requested class |
| Objects.SetThenGet | dmodel/dm-content.c:70-266 | reading a property just set gives back the value set |
| Objects.SetKeepsOthers | dmodel/dm-video.c:36-91 | setting one property leaves every other property's value unchanged, across all classes |
| Objects.ContentSetKeepsContent | dmodel/dm-content.c:162-266 | setting a content property leaves the other content properties unchanged |
| Objects.MixedSetKeepsOthers | dmodel/dm-media.c:41-104 | setting a content property leaves subclass properties unchanged, and the reverse |
| Objects.OwnSetKeepsOthers | dmodel/dm-audio.c:34-80 | setting a subclass property leaves the other subclass properties unchanged |
| Objects.VideoSetKeepsOthers | dmodel/dm-video.c:36-91 | setting a video property leaves the video's other own properties unchanged |
| Objects.AudioSetKeepsOthers | dmodel/dm-audio.c:34-80 | setting an audio property leaves the audio's other own properties unchanged |
| Objects.MediaSetKeepsOthers | dmodel/dm-media.c:41-104 | setting a media property leaves the other media, video or audio properties unchanged |
| Objects.ContentSetKeepsOthers | dmodel/dm-content.c:162-266 | on the content fields, setting one property leaves every other content property unchanged |
| Objects.StringSetKeepsOthers | dmodel/dm-content.c:162-266 | setting a string content property leaves every other content property unchanged |
| Objects.OwnGetIgnoresContent | dmodel/dm-media.c:41-70 | reading a subclass property does not depend on the content fields |
| Objects.SameContentSameGet | dmodel/dm-content.c:70-159 | reading a content property depends only on the content fields |
| Objects.ApplyGet | dmodel/dm-base.c:25-94 | after a parameter list is applied, a property reads as the list gives it (the last setting in the model's fold, the only one in any list the tables build), or as before when it is not set |
| Content.Table | dmodel/dm-content.c:545-615 | the content key table has the nineteen rows of add_json_to_params, in order |
| Content.TableIndex | dmodel/dm-content.c:545-615 | every content property has a row in the content table |
| Content.TableCoversContent | dmodel/dm-content.c:545-615 | the content table's properties are distinct and are all content properties |
| Content.TableKeysDistinct | dmodel/dm-content.c:545-615 | the content table reads each JSON key once |
| Content.TypeKeyNotInTable | dmodel/dm-content.c:545-615 | no content row reads the `@type` key |
| Content.AddJsonToParams | dmodel/dm-content.c:545-615 | the method appends exactly the content parameters of the node to the array |
| Content.Constructed | dmodel/dm-content.c:269-288 | after construction the id is never empty; a given id is kept and an empty one becomes the mock id |
| Content.MockIdsDistinct | dmodel/dm-content.c:273-285 | up to 2^64 id-less models constructed one after another from a counter get pairwise distinct mock ids, provided the digest does not collide on the counter range |
| Content.FinishedInOrderIds | dmodel/dm-content.c:273-285 | the i-th of a run of id-less models gets the mock id of the starting counter plus i, wrapped at 2^64 |
| Content.SuccessiveMockIdsDistinct | dmodel/dm-content.c:273-285 | two id-less models constructed in a row get different mock ids, provided the digest does not collide |
| Content.Finished | dmodel/dm-content.c:269-288 | finishing construction keeps the class and leaves a non-empty id |
| Content.MockIds.constructor | dmodel/dm-content.c:273-285 | the mock-id counter starts at zero |
| Content.MockIds.Finish | dmodel/dm-content.c:269-288 | construction applies the mock-id step and advances the counter only when it used a mock id |
| Content.NewFromJsonNode | dmodel/dm-content.c:699-712 | a content object is built from exactly the node's content parameters, with the mock-id step |
| Media.AddJsonToParams | dmodel/dm-media.c:186-213 | the media parameters are the content parameters followed by the media rows |
| Media.NewFromJsonNode | dmodel/dm-media.c:225-238 | a media object is built from exactly the node's media parameters |
| Image.NewFromJsonNode | dmodel/dm-image.c:39-52 | an image object is built from the media parameters |
| Video.AddJsonToParams | dmodel/dm-video.c:153-177 | the video parameters are the media parameters followed by the video rows |
| Video.NewFromJsonNode | dmodel/dm-video.c:189-202 | a video object is built from exactly the node's video parameters |
| Audio.AddJsonToParams | dmodel/dm-audio.c:138-159 | the audio parameters are the content parameters followed by the audio rows |
| Audio.NewFromJsonNode | dmodel/dm-audio.c:171-184 | an audio object is built from exactly the node's audio parameters |
| Sets.AddJsonToParams | dmodel/dm-set.c:120-138 | the set parameters are the content parameters followed by the set rows |
| Sets.NewFromJsonNode | dmodel/dm-set.c:167-180 | a set object is built from exactly the node's set parameters |
| Base.KindOfTypeExact | dmodel/dm-base.c:25-94 | each class has one `@type` URI and the dispatch maps exactly that URI to it |
| Base.ParamsForTable | dmodel/dm-base.c:25-94 | each class's chained add_json_to_params reads its class's key table |
| Base.TableForShape | dmodel/dm-base.c:25-94 | each class's key table sets distinct properties, all installed on that class |
| Base.TableForDistinct | dmodel/dm-set.c:120-138 | no property is read twice along a class's parent chain |
| Base.SetTableDistinct | dmodel/dm-set.c:120-138 | the set table adds no property the content table sets |
| Base.MediaTableDistinct | dmodel/dm-media.c:186-213 | the media table adds no property the content table sets |
| Base.AudioTableDistinct | dmodel/dm-audio.c:138-159 | the audio chain (content, then audio) sets each property once |
| Base.VideoTableDistinct | dmodel/dm-video.c:153-177 | the video chain (content, media, video) sets each property once |
| Base.TableForProps | dmodel/dm-base.c:25-94 | every key-table row names a property installed on the class |
| Base.BuiltProperty | dmodel/dm-base.c:25-94 | the object built for a class reads each table property as its JSON member coerces, or as the default |
| Base.FromJson | dmodel/dm-base.c:25-94 | the node builds a model exactly when it is an object whose `@type` is a known class URI; otherwise the error is BadFormat |
| Base.FromJsonProperty | dmodel/dm-base.c:25-94 | a built model reads each of its table's properties as its JSON member coerces, or as the default |
| Base.ContentRowProperty | dmodel/dm-base.c:25-94 | a built model of any class reads each content row as its JSON member coerces, or as the default |
| Base.ContentOnlyNewFromJsonNode | dmodel/dm-base.c:25-94 | articles and dictionary entries are built from the content parameters with the mock-id step |
| Base.Constructing | dmodel/dm-content.c:269-288 | a build failure passes through with the counter unchanged; a built model keeps its class and always has an id; a model that had an id is kept whole with the counter unchanged |
| Base.Decimal666 | tests/dmodel/testMedia.js:9-10 | the JSON string "666" gives the unsigned value 666 |
| Base.Decimal9000 | tests/dmodel/testAudio.js:8 | the JSON string "9000" gives the unsigned value 9000 |
| Base.MediaSizeFixture | tests/dmodel/testMedia.js:5-38 | the media test document builds a media object 666 wide and 666 high |
| Base.ImageSizeFixture | tests/dmodel/testImage.js:5-35 | the image test document builds an image object 666 wide and 666 high |
| Base.AudioDurationFixture | tests/dmodel/testAudio.js:5-33 | the audio test document builds an audio object whose duration is 9000 |
| Base.ModelFromJsonNode | dmodel/dm-base.c:25-94 | the method returns the dispatch's error unchanged and leaves the counter alone, or builds the class's object with the mock-id step; either way it is the `constructed` step applied to the dispatch |
| Base.RejectsMalformed | tests/dmodel/testContentFromJson.js:10-25 | an array, an object without `@type` and an unknown `@type` are rejected as BadFormat |
| Base.BareTypeBuildsDefault | tests/dmodel/testContentFromJson.js:27-33 | a node holding only `@type` builds the class's default object |
| Base.TypeKeyNotInTableFor | dmodel/dm-base.c:25-94 | no key table of any class reads `@type` |
| Base.NoMembersNoParams | dmodel/dm-content.c:545-615 | a node with none of a table's keys contributes no parameters |
| Records.ShardRecord.constructor | dmodel/dm-shard-record.c:34-47 | a new record holds the shard, the native object and its destroy function, with one reference |
| Records.GetShard | dmodel/dm-shard-record.c:125-131 | the shard is returned exactly for a live record |
| Records.GetNative | dmodel/dm-shard-record.c:141-147 | the native object is returned only for a live record |
| Records.Ref | dmodel/dm-shard-record.c:91-99 | ref on a live record adds one reference and returns the same record; a dead or null record gives null |
| Records.Unref | dmodel/dm-shard-record.c:109-116 | unref drops one reference and releases the native object exactly when the last one goes |
| Records.Copy | dmodel/dm-shard-record.c:59-70 | a copy is a new record with the same shard, native object and destroy function |
| Records.RefsThenUnrefs | dmodel/dm-shard-record.c:73-116 | n refs followed by n+1 unrefs release the native object exactly once |
| Shards.Find | dmodel/dm-shard.c:140-150 | a backend's lookup returns only natives of that backend |
| Shards.StreamMatchesSize | dmodel/dm-shard.c:189-221 | for either backend, a data stream is as long as the reported data size |
| Shards.ZimModelIdRoundTrip | dmodel/dm-shard.c:140-175 | the id of a ZIM article's model finds that article again; the model, after the `constructed` step, reads back that id and leaves the mock-id counter unchanged |
| Shards.Shard.constructor | dmodel/dm-shard.c:122-127 | a new shard has no offset override and no cached offset |
| Shards.Shard.OverrideDbOffset | dmodel/dm-shard.c:269-274 | a non-negative override becomes the effective offset; a negative one restores the calculated offset |
| Shards.Shard.GetDbOffset | dmodel/dm-shard.c:277-288 | the override wins; otherwise the offset is calculated once and cached, and -1 results are recalculated |
| Shards.Shard.FindById | dmodel/dm-shard.c:140-150 | a hit returns a fresh record holding this shard and the backend's native; a miss returns null |
| Shards.ReadOffsetTwice | dmodel/dm-shard.c:277-288 | two reads agree, and only a -1 result is calculated twice |
| EosShard.FindRecord | dmodel/dm-shard-eos-shard.c:76-86 | a record is found exactly when its hex name is in the shard file |
| EosShard.GetModel | dmodel/dm-shard-eos-shard.c:89-104 | a record without metadata is a JSON error; otherwise the model is what its metadata builds, after the `constructed` step: it always has an id, and the counter moves only when the mock id was used; a build error leaves the counter alone |
| EosShard.StreamData | dmodel/dm-shard-eos-shard.c:107-119 | a stream exists exactly when the record has a data blob, and it is that blob |
| EosShard.DataSize | dmodel/dm-shard-eos-shard.c:122-132 | the size is the blob's length, or 0 without a blob |
| EosShard.StreamMatchesSize | dmodel/dm-shard-eos-shard.c:107-132 | a stream is as long as the reported size; no stream means size 0 |
| EosShard.LoadLinkTable | dmodel/dm-shard-eos-shard.c:154-180 | the link table is the dictionary reading of the data blob of the link-table record; there is none when that record, its data blob or its dictionary is missing |
| EosShard.TestLink | dmodel/dm-shard-eos-shard.c:135-145 | a link resolves exactly when the link table holds it, to its entry |
| EosShard.InitAsWritten | dmodel/dm-shard-eos-shard.c:154-180 | as written, init succeeds exactly when the async result is valid, whatever the shard file's own init did |
| EosShard.InitIgnoresFileFailure | dmodel/dm-shard-eos-shard.c:154-180 | as written, a failed shard-file init still reports success |
| EosShard.Init | dmodel/dm-shard-eos-shard.c:154-180 | corrected: init succeeds exactly when both the result and the shard-file init succeed, and loads the link table |
| EosShard.InitAgreesOnSuccess | dmodel/dm-shard-eos-shard.c:154-180 | the corrected init agrees with the code whenever the shard file opens |
| OpenZim.GoodArticle | dmodel/dm-shard-open-zim.c:58-82 | an article is returned exactly when the namespace and url name a good article |
| OpenZim.Resolve | dmodel/dm-shard-open-zim.c:58-82 | resolving keeps presence and returns non-redirects unchanged |
| OpenZim.FindWithoutSlash | dmodel/dm-shard-open-zim.c:58-82 | an id without a slash finds nothing |
| OpenZim.FindByIdRoundTrip | dmodel/dm-shard-open-zim.c:58-82 | `ns/url` finds the resolved good article at that namespace and url |
| OpenZim.TagNodes | dmodel/dm-shard-open-zim.c:85-142 | the tag list becomes a JSON array of the same strings |
| OpenZim.GetModelFields | dmodel/dm-shard-open-zim.c:85-142 | a ZIM model has the namespace's class and reads back the id, title, content type and tags it was given |
| OpenZim.ModelJsonMembers | dmodel/dm-shard-open-zim.c:85-142 | the synthesised JSON holds `@type`, `@id`, title, content type and tags |
| OpenZim.GetModelKind | dmodel/dm-shard-open-zim.c:85-142 | the synthesised JSON always builds a model of the namespace's class |
| OpenZim.ConstructingKeepsModel | dmodel/dm-shard-open-zim.c:85-142 | the `constructed` step keeps a ZIM model as built and leaves the mock-id counter unchanged, because the model always has an id |
| OpenZim.ModelString | dmodel/dm-shard-open-zim.c:85-142 | a string member of the JSON reads back from the model |
| OpenZim.ModelTags | dmodel/dm-shard-open-zim.c:85-142 | the tags member reads back from the model as the tag list |
| OpenZim.RowFromMember | dmodel/dm-shard-open-zim.c:85-142 | a content row's coerced member value reads back from the model |
| OpenZim.TagsEntry | dmodel/dm-shard-open-zim.c:85-142 | the tags row of the content table reads the tag array as the tag list |
| OpenZim.TagsCoerce | dmodel/dm-shard-open-zim.c:85-142 | a JSON array of strings coerces to that string list |
| OpenZim.ModelIdFindsArticle | dmodel/dm-shard-open-zim.c:58-142 | the id in a ZIM model finds the same article again |
| OpenZim.PdfArticleFixture | tests/dmodel/testShardOpenZim.js:41-50 | `A/article.pdf` finds the article, an Article model titled "Flotación sucia" with content type application/pdf |
| OpenZim.PdfArticleFound | tests/dmodel/testShardOpenZim.js:41-50 | `A/article.pdf` finds the good, non-redirect article stored there |
| OpenZim.ArticleModelFields | dmodel/dm-shard-open-zim.c:85-142 | an `A` namespace article is an Article model with its title and content type |
| OpenZim.StreamMatchesSize | dmodel/dm-shard-open-zim.c:145-164 | a ZIM stream is as long as the reported size |
| OpenZim.CalculateDbOffset | dmodel/dm-shard-open-zim.c:167-179 | the offset is the full-text index's blob offset when the index exists, otherwise -1 |
| OpenZim.IndexUrlRoundTrip | dmodel/dm-shard-open-zim.c:167-179 | the full-text index url finds the article at namespace X, `fulltext/xapian` |
| QueryResults.Results.constructor | dmodel/dm-query-results.c:67-89 | results hold the given models, and the upper bound defaults to 0 |
| QueryResults.NewForTesting | dmodel/dm-query-results.c:183-190 | testing results hold the given models with upper bound 42 |
| Queries.WithFixes | dmodel/dm-domain.c:809-843 | a fixed query replaces only the stop-word-free and corrected terms it is given |
| Strings.SplitAll | dmodel/dm-database-manager.c:456 | splitting always yields at least one piece |
| Strings.SplitAllTokens | dmodel/dm-database-manager.c:456 | no piece of a split holds the separator |
| Strings.JoinSplit | dmodel/dm-database-manager.c:456-470 | joining the pieces of a split with the separator gives back the string |
| Strings.JoinSplitAll | dmodel/dm-database-manager.c:456-470 | joining the pieces of a full split with the separator gives back the string |
| Strings.SplitAllJoin | dmodel/dm-database-manager.c:497-502 | splitting a join of separator-free words gives back the words |
| Strings.SplitAllNoSep | dmodel/dm-database-manager.c:456 | a string without the separator splits into itself |
| Strings.IndexOf | dmodel/dm-shard-open-zim.c:63 | the index found is the first occurrence of the character |
| Strings.SplitFirst | dmodel/dm-shard-open-zim.c:63 | a split into at most two pieces cuts at the first separator, and rejoining gives the string |
| Strings.SplitFirstAt | dmodel/dm-shard-open-zim.c:63 | the two pieces are the parts before and after the first separator |
| Strings.ChompIsPrefix | dmodel/dm-database-manager.c:290-294 | chomp removes exactly the trailing whitespace |
| Strings.ChugIsSuffix | dmodel/dm-database-manager.c:500 | chug removes exactly the leading whitespace |
| Strings.StripTrims | dmodel/dm-database-manager.c:500 | strip leaves no whitespace at either end and is idempotent |
| Strings.ChompUnchanged | dmodel/dm-database-manager.c:290-294 | chomp leaves a string without trailing whitespace unchanged |
| Strings.ChugUnchanged | dmodel/dm-database-manager.c:500 | chug leaves a string without leading whitespace unchanged |
| Strings.ChompNewline | dmodel/dm-database-manager.c:290-294 | a trailing newline does not change the chomped word |
| Strings.StripWithin | dmodel/dm-database-manager.c:500 | strip introduces no character that was not there |
| DatabaseManager.RegisterPrefixes | dmodel/dm-database-manager.c:209-243 | unreadable or unparseable metadata fails; missing metadata falls back to the standard prefixes; otherwise its prefixes are used |
| DatabaseManager.StopwordEntryNewline | dmodel/dm-database-manager.c:246-307 | a stopword is registered with one trailing newline's whitespace chomped |
| DatabaseManager.RegisterStopwords | dmodel/dm-database-manager.c:246-307 | unreadable or unparseable metadata fails; a stopword list installs a stopper holding exactly its chomped words |
| DatabaseManager.KeptMembers | dmodel/dm-database-manager.c:310-351 | exactly the shards with an index offset other than -1 are added to the database |
| DatabaseManager.KeptPrefix | dmodel/dm-database-manager.c:310-351 | each loop step adds the shard exactly when it has an index |
| DatabaseManager.CreateDatabase | dmodel/dm-database-manager.c:310-351 | the database opens exactly when every indexed shard opens, holds exactly those shards, and otherwise fails with InvalidPath |
| DatabaseManager.EntriesOf | dmodel/dm-database-manager.c:310-351 | each shard contributes its path and effective offset |
| DatabaseManager.CreateDatabaseFromShards | dmodel/dm-database-manager.c:310-351 | the loop opens the same database as the specification and leaves the shards' offsets unchanged |
| DatabaseManager.CreateDatabaseRejects | dmodel/dm-database-manager.c:310-351 | one indexed shard that does not open rejects the whole database |
| DatabaseManager.CreateDatabaseAccepts | dmodel/dm-database-manager.c:310-351 | when every kept shard opens, the database is exactly the kept shards |
| DatabaseManager.StripAll | dmodel/dm-database-manager.c:497-502 | each corrected word is stripped, in place |
| DatabaseManager.FilterMembers | dmodel/dm-database-manager.c:456-470 | a word survives the filter exactly when it was a term and is not a stop word |
| DatabaseManager.FilterKeepsAll | dmodel/dm-database-manager.c:456-470 | the filter keeps a list without stop words unchanged |
| DatabaseManager.NoStopwordsUnchanged | dmodel/dm-database-manager.c:456-470 | a query without stop words is left unchanged |
| DatabaseManager.SplitJoined | dmodel/dm-database-manager.c:456-470 | splitting the joined kept words gives back those words |
| DatabaseManager.StopFilteredIdempotent | dmodel/dm-database-manager.c:456-470 | the stop-word-free terms hold no stop word, and filtering them again changes nothing |
| DatabaseManager.CleanCorrectionTrimmed | dmodel/dm-database-manager.c:490-502 | every word of the cleaned correction is trimmed, and cleaning again changes nothing |
| DatabaseManager.StemCacheTransparent | dmodel/dm-database-manager.c:553-574 | the stemmer cache returns the stemmer the language would get uncached, and stays valid |
| DatabaseManager.RemoveStopwords | dmodel/dm-database-manager.c:454-471 | the filtering loop yields the stop-word-free terms |
| DatabaseManager.StripCorrection | dmodel/dm-database-manager.c:490-503 | the strip loop yields the cleaned correction |
| DatabaseManager.Manager.constructor | dmodel/dm-database-manager.c:200-206 | a new manager has no database, a fresh parser and only the "none" stemmer |
| DatabaseManager.Manager.EnsureDb | dmodel/dm-database-manager.c:396-405 | the database is opened once and then reused; a failed open leaves it closed; the database it yields and the parser that results do not depend on whether it was already open |
| DatabaseManager.Manager.FixQuery | dmodel/dm-database-manager.c:439-514 | the result is the fix outcome on the database the manager opens and its parser: the open failure, the parse failure, or the stop-word-free terms (when a stopper exists) and the cleaned correction; the open database and parser are left as they would be opened |
| DatabaseManager.Manager.Query | dmodel/dm-database-manager.c:535-604 | the result is the search outcome on the database the manager opens: its open failure, NotFound on an empty database, or the search with the language's cached stemmer |
| DatabaseManager.FixOutcomeClean | dmodel/dm-database-manager.c:439-514 | the fix fails exactly when the open or the parse fails; otherwise it gives stop-word-free terms exactly when there is a stopper, holding no stop word, and a correction whose words are stripped |
| Domains.FirstRecordIsFirstHit | dmodel/dm-domain.c:471-481 | the record loaded for a hash comes from the first shard that holds it |
| Domains.LoadObject | dmodel/dm-domain.c:658-700 | a failed load leaves the mock-id counter unchanged |
| Domains.LoadObjectErrors | dmodel/dm-domain.c:658-700 | an invalid id gives IdNotValid, an unknown hash gives IdNotFound, and a success comes from the first shard holding the hash |
| Domains.LoadObjectIsShardModel | dmodel/dm-domain.c:658-700 | once the hash names a record, loading an object gives the same model and counter as the eos-shard get_model on that record |
| Domains.DocumentIds | dmodel/dm-domain.c:846-918 | document ids are taken from the matches, at most one per match |
| Domains.CollectShape | dmodel/dm-domain.c:846-918 | collected models come one per valid document, in match order, until the first load error |
| Domains.LoadedFromSnoc | dmodel/dm-domain.c:846-918 | adding one loaded model keeps models and ids matched |
| Domains.CollectSkipsDocumentError | dmodel/dm-domain.c:846-918 | a match whose document cannot be read is skipped |
| Domains.CollectFailureSticks | dmodel/dm-domain.c:846-918 | after a load error, later matches change nothing |
| Domains.Reverse | dmodel/dm-domain.c:914 | the reversed list holds the same models in the opposite order |
| Domains.AsCInt | dmodel/dm-domain.c:873 | the unsigned upper bound is read as a C int that agrees modulo 2^32 |
| Domains.QueryLanguage | dmodel/dm-domain.c:846-918 | the query's language is used when given, and the language is never empty |
| Domains.FixedQuery | dmodel/dm-domain.c:809-843 | with no fixes the query is unchanged |
| Domains.FixedQueryIsCopy | dmodel/dm-domain.c:809-843 | the fixed query is the original with exactly the fixed terms replaced |
| Domains.ValidPaths | dmodel/dm-domain.c:222-316 | the shard paths are read from the manifest entries in order, up to the first bad entry |
| Domains.ShardsAt | dmodel/dm-domain.c:222-316 | each path becomes the shard file at that path inside the subscription directory |
| Domains.ProcessManifest | dmodel/dm-domain.c:222-316 | a well-formed manifest adds one shard per entry; a bad entry stops with an error |
| Domains.LinkTableOf | dmodel/dm-domain.c:203-219 | a shard without a link table is skipped; otherwise its table is loaded or the error is reported |
| Domains.LinkTablesAreShardTables | dmodel/dm-domain.c:203-219 | the domain's link tables are exactly the shards' loaded link tables |
| Domains.LinkTablesStep | dmodel/dm-domain.c:203-219 | each loop step adds the current shard's table or stops at its error |
| Domains.FirstResolutionIsFirstHit | dmodel/dm-domain.c:552-563 | a link resolves through the first link table that holds it, and fails exactly when none does |
| Domains.ReadUriResult | dmodel/dm-domain.c:990-1023 | bytes come only with a MIME type and no error; a MIME type comes exactly with bytes or with the eos-shard load error; an error leaves no bytes; anything found was searched |
| Domains.BlobRead | dmodel/dm-domain.c:1016-1022 | a found blob gives its MIME type and either its bytes or, when they do not load, the eos-shard error, never both |
| Domains.ReadUriFinds | dmodel/dm-domain.c:990-1023 | `ekn://domain/hash` reads the data blob of the first record with that hash, and `ekn://domain/hash/name` its resource `name`: MIME type and bytes, or the load error |
| Domains.ReadUriRefuses | dmodel/dm-domain.c:990-1023 | a URI without the `ekn://` scheme or a path is not searched |
| Domains.Domain.constructor | dmodel/dm-domain.c:350-462 | a new domain has no shards, link tables or subscriptions |
| Domains.Domain.ProcessSubscription | dmodel/dm-domain.c:222-316 | the manifest's shards are appended and its error reported |
| Domains.Domain.ImportSubscription | dmodel/dm-domain.c:319-347 | one subscription adds its shards and records its name when it succeeds |
| Domains.Domain.ImportSubscriptions | dmodel/dm-domain.c:319-347 | the loop imports subscriptions in order and stops at the first error |
| Domains.Domain.SetupLinkTables | dmodel/dm-domain.c:203-219 | the loop loads every shard's link table in order, stopping at the first error |
| Domains.Domain.Init | dmodel/dm-domain.c:350-462 | init fails for a missing path, for a missing app id or for a bad manifest; on success it has shards and their link tables |
| Domains.Domain.LoadRecordFromHash | dmodel/dm-domain.c:471-481 | the record comes from the first shard holding the hash |
| Domains.Domain.TestLink | dmodel/dm-domain.c:552-563 | a link resolves through the first link table that holds it |
| Domains.Domain.GetObjectSync | dmodel/dm-domain.c:658-700 | the loaded object and the counter are those of the object-loading specification |
| Domains.Domain.GetObject | dmodel/dm-domain.c:602-634 | the asynchronous load gives the same result as the synchronous one |
| Domains.Domain.GetFixedQuery | dmodel/dm-domain.c:775-843 | the fixed query is the manager's fix outcome on the query's terms: the fix's error, or the query with only the stop-word-free terms and the correction replaced; the manager's open database and parser are unchanged |
| Domains.Domain.QueryTask | dmodel/dm-domain.c:846-918 | the matches are the manager's search outcome for the query in the domain's language; a failed search fails the task; otherwise the results hold the collected models in match order and the upper bound as a C int |
| Domains.Domain.LoadModels | dmodel/dm-domain.c:846-918 | the loop loads the matches' models as the collection specification does |
| Domains.Domain.ReadUri | dmodel/dm-domain.c:990-1023 | the read returns what the URI specification returns |
| Domains.ImportedSnoc | dmodel/dm-domain.c:319-347 | importing one more successful subscription appends its shards and name |
| Domains.ImportedStops | dmodel/dm-domain.c:319-347 | a failing subscription ends the import with its error |
| Domains.ImportedFailureSticks | dmodel/dm-domain.c:319-347 | after an import error, later subscriptions change nothing |
| Engines.CachedIsStable | dmodel/dm-engine.c:472-493 | once a domain is cached for an app, later lookups return it |
| Engines.CachedKeepsEntries | dmodel/dm-engine.c:472-493 | caching a domain keeps every other app's domain |
| Engines.RunQuery | dmodel/dm-engine.c:318-409 | a query without search terms runs unchanged; otherwise the query that runs is exactly the domain's fixed query, and a failed fix fails with the fix's error; the matches are the search outcome of the query that ran, and the upper bound is theirs as a C int |
| Engines.Engine.constructor | dmodel/dm-engine.c:136-139 | a new engine caches no domains |
| Engines.Engine.GetDomainForApp | dmodel/dm-engine.c:472-493 | the cached domain is returned if there is one; otherwise the new domain is cached, or its error returned |
| Engines.Engine.AddDomainForPath | dmodel/dm-engine.c:505-523 | an app with a domain keeps it; otherwise the domain at the path is cached, or its error returned |
| Engines.Engine.GetDomain | dmodel/dm-engine.c:449-455 | the default app's domain is resolved as for any app |
| Engines.Engine.GetObjectForApp | dmodel/dm-engine.c:270-293 | the object comes from the app's domain, or the domain's error is returned |
| Engines.Engine.GetObject | dmodel/dm-engine.c:205-215 | the object comes from the default app's domain |
| Engines.Engine.TestLinkForApp | dmodel/dm-engine.c:177-191 | the link resolves through the app's domain, or the domain's error is returned |
| Engines.Engine.TestLink | dmodel/dm-engine.c:154-161 | the link resolves through the default app's domain |
| Engines.Engine.Query | dmodel/dm-engine.c:369-409 | the query is routed to its app's domain (the default when it names none); there the query that runs is the fixed query (or the query itself without search terms), and the matches are its search outcome |
| Macros.EncodeOrder | dmodel/dm-macros.h:45 | version encoding preserves order and is one to one |
| Macros.CurStableIsStable | dmodel/dm-macros.h:54-60 | the current stable version has an even minor and is never below the build version |
| Macros.PrevBeforeCur | dmodel/dm-macros.h:67-73 | the previous stable version is two minors below the current one, equal for minor 99, and below 0.0 for minor 0 |
| Macros.DefaultMaxNeverBelowMin | dmodel/dm-macros.h:117-128 | the default MAX_ALLOWED is never below MIN_REQUIRED, so that sanity check never fires |
| Macros.DefaultsAreSane | dmodel/dm-macros.h:94-131 | with no settings, MIN_REQUIRED is the current stable version and no sanity check fires |
| Macros.NegativeMinRejected | dmodel/dm-macros.h:129-131 | the second sanity check fires exactly when MIN_REQUIRED is below 0.0 |
| Macros.DefaultMaxChoice | dmodel/dm-macros.h:117-123 | the default MAX_ALLOWED is MIN_REQUIRED when that is above the previous stable version, else the current one |
| GjsOverride.ToUnderscore | overrides/DModel.js:5-7 | every dash becomes an underscore and nothing else changes |
| GjsOverride.ToUnderscoreProperties | overrides/DModel.js:5-7 | the alias has no dashes, equals the name exactly when the name has none, and is idempotent |
| GjsOverride.JsObject.constructor | overrides/DModel.js:9-12 | an object holds the given members |
| GjsOverride.DefineProperty | overrides/DModel.js:9-12 | the property is defined under its name and its underscore alias, and nothing else changes |
| GjsOverride.MarshalledEffect | overrides/DModel.js:14-22 | a truthy property is replaced by its marshalled value under its name and alias, and the other members are kept |
| GjsOverride.MarshalProperty | overrides/DModel.js:14-22 | the marshaller is applied as the specification says |
| GjsOverride.TocVariantShape | overrides/DModel.js:35-50 | the table of contents becomes an array of dictionaries with the same keys, each value wrapped as a variant |
| GjsOverride.MarshalTocItem | overrides/DModel.js:35-50 | the loop wraps each member of one item |
| GjsOverride.MarshalToc | overrides/DModel.js:35-50 | the loop wraps every item in order |
| GjsOverride.TocRoundTrip | overrides/DModel.js:35-78 | unpacking a marshalled table of contents gives back the original |
| GjsOverride.GetTableOfContents | overrides/DModel.js:66-78 | the getter unpacks the stored variant, and a missing one gives an empty list |
| GjsOverride.MergedPropsKeeps | overrides/DModel.js:89-99 | given properties win; a listed property missing under both spellings is copied from the source; nothing else is added |
| GjsOverride.NewFromObject | overrides/DModel.js:89-99 | the loop merges the listed properties as the specification says |

## Left out

- Props.Coerce: the JSON-to-GValue conversion of `dm_utils` (dm-utils.c is not part of this model). The model stands in for it as follows:
  - a string property accepts a JSON string;
  - an unsigned property accepts a non-negative integer or a decimal string;
  - a boolean property accepts a boolean;
  - a string-list property accepts an array of strings;
  - anything else drops the member.
- Content.Constructed: SHA-1 hashing of the mock-id counter is a function parameter (`digest`). Content.MockIdsDistinct and Content.SuccessiveMockIdsDistinct assume it does not collide on the counter range [0, 2^64) (Content.DigestInjective).
- Content.MockIds.Finish: the guint64 counter wraps at 2^64, as written. No other integer width is modelled except the C int of the query upper bound (Domains.AsCInt).
- Domains.LoadObject: the id-to-hash step (`ekn://` parsing and the SHA-1 of the id) is a function parameter `hashOf`.
- Threads, GTask, cancellation, GMainContext callbacks and mutexes are left out. Every asynchronous operation is modelled as its synchronous result.
- File I/O, JSON parsing, the eos-shard and libzim libraries, and Xapian's internals are left out. They appear as data values and as fields of `DatabaseManager.Env`: whether a path opens, document counts, matches and spelling corrections.
- Engines.Engine: domain creation (`dm_domain_new_for_app_id` and its initialisation) is the `created` parameter. The engine's methods cache it or return its error.
- Domains.Domain: a domain keeps its eos-shard files. Its DatabaseManager keeps its own shard list, built by the caller, so that wiring is not modelled.
- OpenZim.FindById requires a non-empty id. For an empty id the C code indexes `tokens[0][0]` of an empty split, which is undefined behaviour.
- OpenZim.GetModel is the model before the `constructed` step; Shards.GetModel applies that step, and OpenZim.ConstructingKeepsModel shows it changes nothing there.
- EosShard.Blob: whether `eos_shard_blob_load_contents` can read a blob is a field (`loads`) rather than file I/O.
- Shards.GetModel, Shards.StreamData, Shards.DataSize, Shards.TestLink and Shards.CalculateDbOffset dispatch to the backends and have no contract of their own. Their properties are stated per backend and by Shards.StreamMatchesSize and Shards.ZimModelIdRoundTrip.
- Path canonicalisation, NULL blob data and `g_file_load_contents` errors are left out. The `initError` parameter of Domains.Domain.Init stands for the initialisation errors these could cause.
- DatabaseManager.Manager.FixQuery requires search terms whenever a stopper is installed. The C code passes NULL to `g_strsplit` in that case.
- Article and DictionaryEntry have no own properties in this model, because dm-article.c and dm-dictionary-entry.c are not part of this model. They are built from the content parameters.
- The internals of DmQuery are left out: its property list, `dm_query_new_from_object`, and the Xapian query string it builds (dm-query.c is not part of this model). A query is a record of the fields the core reads.
- The following parts of the override are left out:
  - `new_from_json` and `new_from_props` for discovery-feed content;
  - the GLib.Variant type strings (a variant is modelled as a wrapped value);
  - the QueryResults `models` property defined by the override (overrides/DModel.js:102-106), which adds nothing to `get_models`;
  - `toString` (overrides/DModel.js:108).
- Version macros: minor versions are assumed to be below 255, so that the next minor version still fits the 8-bit minor field of `G_ENCODE_VERSION`.

## Findings

| source | as written | input that shows it | evidently intended | confidence | as-written member | corrected member |
|---|---|---|---|---|---|---|
| dmodel/dm-shard-eos-shard.c:154-180 | the init callback reports success from the async result alone; the shard file's own init outcome is discarded | a shard file whose init fails while the task result is valid: init reports success over an unopened file | init fails when the shard file fails to initialise | not executed | EosShard.InitAsWritten, EosShard.InitIgnoresFileFailure | EosShard.Init, EosShard.InitAgreesOnSuccess |
