/**
 * dm_model_from_json_node: checks the node, reads its "@type" and hands it
 * to the one class whose vocabulary URI matches exactly.
 */
module Base {
  import opened Wrappers
  import opened Errors
  import opened Json
  import opened Props
  import opened Objects
  import Content
  import Media
  import Image
  import Video
  import Audio
  import Sets

  /** The "@type" URI that selects each class. */
  function TypeUri(k: Kind): string {
    match k
    case ContentKind => "ekn://_vocab/ContentObject"
    case ArticleKind => "ekn://_vocab/ArticleObject"
    case DictionaryEntryKind => "ekn://_vocab/DictionaryObject"
    case SetKind => "ekn://_vocab/SetObject"
    case MediaKind => "ekn://_vocab/MediaObject"
    case ImageKind => "ekn://_vocab/ImageObject"
    case VideoKind => "ekn://_vocab/VideoObject"
    case AudioKind => "ekn://_vocab/AudioObject"
  }

  /** The chain of exact string comparisons on "@type". */
  function KindOfType(t: string): Option<Kind> {
    if t == "ekn://_vocab/ContentObject" then Some(ContentKind)
    else if t == "ekn://_vocab/ArticleObject" then Some(ArticleKind)
    else if t == "ekn://_vocab/DictionaryObject" then Some(DictionaryEntryKind)
    else if t == "ekn://_vocab/SetObject" then Some(SetKind)
    else if t == "ekn://_vocab/MediaObject" then Some(MediaKind)
    else if t == "ekn://_vocab/ImageObject" then Some(ImageKind)
    else if t == "ekn://_vocab/VideoObject" then Some(VideoKind)
    else if t == "ekn://_vocab/AudioObject" then Some(AudioKind)
    else None
  }

  /** Each "@type" URI selects exactly one class, and only those eight URIs select one. */
  lemma KindOfTypeExact(t: string, k: Kind)
    ensures KindOfType(TypeUri(k)) == Some(k)
    ensures KindOfType(t) == Some(k) <==> t == TypeUri(k)
  {
  }

  /** The parameters each class's builder appends for `node`. */
  function ParamsFor(k: Kind, node: Node): seq<Param> {
    match k
    case ContentKind | ArticleKind | DictionaryEntryKind => Content.Params(node)
    case SetKind => Sets.Params(node)
    case MediaKind | ImageKind => Media.Params(node)
    case VideoKind => Video.Params(node)
    case AudioKind => Audio.Params(node)
  }

  /** The full member table of each class: its ancestors' rows, then its own. */
  function TableFor(k: Kind): seq<Entry> {
    match k
    case ContentKind | ArticleKind | DictionaryEntryKind => Content.Table()
    case SetKind => Content.Table() + Sets.Table
    case MediaKind | ImageKind => Content.Table() + Media.Table
    case VideoKind => Content.Table() + Media.Table + Video.Table
    case AudioKind => Content.Table() + Audio.Table
  }

  lemma ParamsForTable(k: Kind, o: map<string, Node>)
    ensures ParamsFor(k, JObject(o)) == ParamsOf(o, TableFor(k))
  {
    var c := Content.Table();
    match k
    case ContentKind | ArticleKind | DictionaryEntryKind =>
    case SetKind => ParamsOfAppend(o, c, Sets.Table);
    case MediaKind | ImageKind => ParamsOfAppend(o, c, Media.Table);
    case VideoKind =>
      ParamsOfAppend(o, c, Media.Table);
      ParamsOfAppend(o, c + Media.Table, Video.Table);
    case AudioKind => ParamsOfAppend(o, c, Audio.Table);
  }

  /** Every row of a class's table names a property of that class, and none twice. */
  lemma TableForShape(k: Kind)
    ensures DistinctProps(TableFor(k))
    ensures forall e | e in TableFor(k) :: HasProp(k, e.prop)
  {
    TableForDistinct(k);
    TableForProps(k);
  }

  lemma TableForDistinct(k: Kind)
    ensures DistinctProps(TableFor(k))
  {
    match k
    case ContentKind | ArticleKind | DictionaryEntryKind => Content.TableCoversContent();
    case SetKind => SetTableDistinct();
    case MediaKind | ImageKind => MediaTableDistinct();
    case AudioKind => AudioTableDistinct();
    case VideoKind => VideoTableDistinct();
  }

  lemma SetTableDistinct()
    ensures DistinctProps(Content.Table() + Sets.Table)
  {
    ContentThen(Sets.Table);
  }

  lemma MediaTableDistinct()
    ensures DistinctProps(Content.Table() + Media.Table)
  {
    ContentThen(Media.Table);
  }

  lemma AudioTableDistinct()
    ensures DistinctProps(Content.Table() + Audio.Table)
  {
    ContentThen(Audio.Table);
  }

  lemma VideoTableDistinct()
    ensures DistinctProps(Content.Table() + Media.Table + Video.Table)
  {
    MediaTableDistinct();
    MediaRowsProps();
    VideoRowsOwn();
    AppendDistinctByClass(MediaKind, Content.Table() + Media.Table, Video.Table);
  }

  lemma MediaRowsProps()
    ensures forall e | e in Content.Table() + Media.Table :: HasProp(MediaKind, e.prop)
  {
    TableForProps(MediaKind);
  }

  /** DmVideo's own rows name distinct properties, none of them one DmMedia has. */
  lemma VideoRowsOwn()
    ensures DistinctProps(Video.Table)
    ensures forall e | e in Video.Table :: !HasProp(MediaKind, e.prop)
  {
  }

  /** Distinct rows of class `k`'s properties, then distinct rows of none of them, stay distinct. */
  lemma AppendDistinctByClass(k: Kind, a: seq<Entry>, b: seq<Entry>)
    requires DistinctProps(a) && DistinctProps(b)
    requires forall e | e in a :: HasProp(k, e.prop)
    requires forall e | e in b :: !HasProp(k, e.prop)
    ensures DistinctProps(a + b)
  {
    DisjointByClass(k, a, b);
    DistinctPropsAppend(a, b);
  }

  /** Rows naming properties of class `k` and rows naming none of its properties share no property. */
  lemma DisjointByClass(k: Kind, a: seq<Entry>, b: seq<Entry>)
    requires forall e | e in a :: HasProp(k, e.prop)
    requires forall e | e in b :: !HasProp(k, e.prop)
    ensures forall i, j | 0 <= i < |a| && 0 <= j < |b| :: a[i].prop != b[j].prop
  {
    forall i, j | 0 <= i < |a| && 0 <= j < |b|
      ensures a[i].prop != b[j].prop
    {
      assert a[i] in a;
      assert b[j] in b;
    }
  }

  /** DmContent's rows followed by rows of a subclass's own properties name no property twice. */
  lemma ContentThen(b: seq<Entry>)
    requires DistinctProps(b)
    requires forall e | e in b :: !IsContentProp(e.prop)
    ensures DistinctProps(Content.Table() + b)
  {
    var c := Content.Table();
    Content.TableCoversContent();
    forall i, j | 0 <= i < |c| && 0 <= j < |b|
      ensures c[i].prop != b[j].prop
    {
      assert c[i] in c;
      assert b[j] in b;
    }
    DistinctPropsAppend(c, b);
  }

  lemma TableForProps(k: Kind)
    ensures forall e | e in TableFor(k) :: HasProp(k, e.prop)
  {
    var c := Content.Table();
    Content.TableCoversContent();
    match k
    case ContentKind | ArticleKind | DictionaryEntryKind =>
    case SetKind => RowsHaveProps(k, c, Sets.Table);
    case MediaKind | ImageKind => RowsHaveProps(k, c, Media.Table);
    case VideoKind =>
      RowsHaveProps(k, c, Media.Table);
      RowsHaveProps(k, c + Media.Table, Video.Table);
    case AudioKind => RowsHaveProps(k, c, Audio.Table);
  }

  /** Two runs of rows naming properties of class `k` still do when joined. */
  lemma RowsHaveProps(k: Kind, a: seq<Entry>, b: seq<Entry>)
    requires forall e | e in a :: HasProp(k, e.prop)
    requires forall e | e in b :: HasProp(k, e.prop)
    ensures forall e | e in a + b :: HasProp(k, e.prop)
  {
  }

  /**
   * Building a model of class `k` from a JSON object: the property a table
   * row names holds the value of that row's JSON member when the member is
   * present and fits, and its default otherwise.
   */
  lemma BuiltProperty(k: Kind, o: map<string, Node>, i: nat)
    requires i < |TableFor(k)|
    ensures var e := TableFor(k)[i];
      GetProperty(Construct(k, ParamsFor(k, JObject(o))), e.prop)
        == if EntryValue(o, e).Some? then EntryValue(o, e) else GetProperty(Default(k), e.prop)
  {
    var t := TableFor(k);
    ParamsForTable(k, o);
    ParamsOfShape(o, t);
    TableForShape(k);
    assert t[i] in t;
    ApplyGet(Default(k), ParamsOf(o, t), t[i].prop);
    LastForTable(o, t, i);
  }

  /** The string "666" reads as the number 666. */
  lemma Decimal666()
    ensures Coerce(JString("666"), UintProp) == Some(VUint(666))
  {
    var s := "666";
    assert s[..2][..1][..0] == [];
    assert DecimalValue(s[..2][..1]) == 6;
    assert DecimalValue(s[..2]) == 66;
    assert DecimalValue(s) == 666;
  }

  /** The string "9000" reads as the number 9000. */
  lemma Decimal9000()
    ensures Coerce(JString("9000"), UintProp) == Some(VUint(9000))
  {
    var s := "9000";
    assert s[..3][..2][..1][..0] == [];
    assert DecimalValue(s[..3][..2][..1]) == 9;
    assert DecimalValue(s[..3][..2]) == 90;
    assert DecimalValue(s[..3]) == 900;
    assert DecimalValue(s) == 9000;
  }

  /** A media object built from the media test document is 666 wide and 666 high. */
  lemma MediaSizeFixture()
    ensures var o := map[
        "@id" := JString("ekn://rick/astley"),
        "title" := JString("Rick Astley: The Man, The Myth, The Legend"),
        "caption" := JString("Great musician, or greatest?"),
        "height" := JString("666"),
        "width" := JString("666"),
        "parent" := JString("ekn://paul/banks")];
      var m := Construct(MediaKind, ParamsFor(MediaKind, JObject(o)));
      GetProperty(m, Width) == Some(VUint(666)) && GetProperty(m, Height) == Some(VUint(666))
  {
    var o := map[
        "@id" := JString("ekn://rick/astley"),
        "title" := JString("Rick Astley: The Man, The Myth, The Legend"),
        "caption" := JString("Great musician, or greatest?"),
        "height" := JString("666"),
        "width" := JString("666"),
        "parent" := JString("ekn://paul/banks")];
    Decimal666();
    assert TableFor(MediaKind)[20] == Entry("width", Width);
    assert TableFor(MediaKind)[21] == Entry("height", Height);
    BuiltProperty(MediaKind, o, 20);
    BuiltProperty(MediaKind, o, 21);
  }

  /** An image object built from the image test document is 666 wide and 666 high. */
  lemma ImageSizeFixture()
    ensures var o := map[
        "@id" := JString("ekn://rick/astley"),
        "title" := JString("Rick Astley: The Man, The Myth, The Legend"),
        "caption" := JString("Great musician, or greatest?"),
        "height" := JString("666"),
        "width" := JString("666")];
      var m := Construct(ImageKind, ParamsFor(ImageKind, JObject(o)));
      GetProperty(m, Width) == Some(VUint(666)) && GetProperty(m, Height) == Some(VUint(666))
  {
    var o := map[
        "@id" := JString("ekn://rick/astley"),
        "title" := JString("Rick Astley: The Man, The Myth, The Legend"),
        "caption" := JString("Great musician, or greatest?"),
        "height" := JString("666"),
        "width" := JString("666")];
    Decimal666();
    assert TableFor(ImageKind)[20] == Entry("width", Width);
    assert TableFor(ImageKind)[21] == Entry("height", Height);
    BuiltProperty(ImageKind, o, 20);
    BuiltProperty(ImageKind, o, 21);
  }

  /** An audio object built from the audio test document lasts 9000. */
  lemma AudioDurationFixture()
    ensures var o := map[
        "@id" := JString("ekn:///df7132f8777966dd1169ee2aa0106f09b640f1aa"),
        "title" := JString("Shooting Stars"),
        "duration" := JString("9000"),
        "transcript" := JString("It's late and I'm awake...")];
      GetProperty(Construct(AudioKind, ParamsFor(AudioKind, JObject(o))), Duration) == Some(VUint(9000))
  {
    var o := map[
        "@id" := JString("ekn:///df7132f8777966dd1169ee2aa0106f09b640f1aa"),
        "title" := JString("Shooting Stars"),
        "duration" := JString("9000"),
        "transcript" := JString("It's late and I'm awake...")];
    Decimal9000();
    assert TableFor(AudioKind)[19] == Entry("duration", Duration);
    BuiltProperty(AudioKind, o, 19);
  }

  /**
   * The `constructed` hook of the object dm_model_from_json_node builds,
   * with the mock-id counter at `count`: a failure to build leaves the
   * counter alone; a built model always leaves with an id, and one that
   * already had an id is kept whole.
   */
  function Constructing(m: Result<Model, Error>, count: nat, digest: nat -> string): (r: (Result<Model, Error>, nat))
    ensures r.0.Success? <==> m.Success?
    ensures m.Failure? ==> r == (m, count)
    ensures m.Success? ==> r.0.value.Kind() == m.value.Kind() && r.0.value.content.id != ""
    ensures m.Success? && m.value.content.id != "" ==> r == (m, count)
  {
    if m.Failure? then (m, count)
    else (Success(Content.Finished(m.value, count, digest)), Content.NextCount(m.value, count))
  }

  /** dm_model_from_json_node, up to the `constructed` hook. */
  function FromJson(node: Node): (r: Result<Model, Error>)
    ensures r.Failure? ==> r.error == ContentError(BadFormat)
    ensures r.Success? <==>
      node.JObject? && "@type" in node.members && node.members["@type"].JString?
      && KindOfType(node.members["@type"].s).Some?
    ensures r.Success? ==> r.value.Kind() == KindOfType(node.members["@type"].s).value
  {
    if !node.JObject? then Failure(ContentError(BadFormat))
    else if "@type" !in node.members then Failure(ContentError(BadFormat))
    else if !HoldsString(node.members["@type"]) then Failure(ContentError(BadFormat))
    else
      match KindOfType(node.members["@type"].s)
      case None => Failure(ContentError(BadFormat))
      case Some(k) => Success(Construct(k, ParamsFor(k, node)))
  }

  /**
   * Any property of a model built by FromJson: the value of its JSON
   * member when present and fitting, else its class default.
   */
  lemma FromJsonProperty(node: Node, i: nat)
    requires FromJson(node).Success?
    requires i < |TableFor(FromJson(node).value.Kind())|
    ensures var m := FromJson(node).value;
      var e := TableFor(m.Kind())[i];
      GetProperty(m, e.prop)
        == if EntryValue(node.members, e).Some? then EntryValue(node.members, e)
           else GetProperty(Default(m.Kind()), e.prop)
  {
    var k := FromJson(node).value.Kind();
    BuiltProperty(k, node.members, i);
  }

  /**
   * The DmContent properties of any model FromJson builds: row `i` of
   * DmContent's table holds its member's value when present and fitting,
   * else its default.
   */
  lemma ContentRowProperty(node: Node, i: nat)
    requires FromJson(node).Success? && i < 19
    ensures var m := FromJson(node).value;
      var e := Content.Row(i);
      GetProperty(m, e.prop)
        == if EntryValue(node.members, e).Some? then EntryValue(node.members, e)
           else GetProperty(Default(m.Kind()), e.prop)
  {
    var k := FromJson(node).value.Kind();
    assert TableFor(k)[i] == Content.Table()[i];
    FromJsonProperty(node, i);
  }

  /** DmArticle and DmDictionaryEntry: built from DmContent's members only. */
  method ContentOnlyNewFromJsonNode(k: Kind, node: Node, ids: Content.MockIds) returns (m: Model)
    requires k == ArticleKind || k == DictionaryEntryKind
    modifies ids
    ensures m == Content.Finished(Construct(k, Content.Params(node)), old(ids.count), ids.digest)
    ensures ids.count == Content.NextCount(Construct(k, Content.Params(node)), old(ids.count))
  {
    var params := new ParamArray();
    Content.AddJsonToParams(node, params);
    assert params.items == Content.Params(node);
    m := Construct(k, params.items);
    m := ids.Finish(m);
  }

  /** dm_model_from_json_node, including the mock id of an id-less model. */
  method ModelFromJsonNode(node: Node, ids: Content.MockIds) returns (r: Result<Model, Error>)
    modifies ids
    ensures (r, ids.count) == Constructing(FromJson(node), old(ids.count), ids.digest)
    ensures FromJson(node).Failure? ==> r == FromJson(node) && ids.count == old(ids.count)
    ensures FromJson(node).Success? ==>
      r == Success(Content.Finished(FromJson(node).value, old(ids.count), ids.digest))
      && ids.count == Content.NextCount(FromJson(node).value, old(ids.count))
  {
    if !node.JObject? || "@type" !in node.members || !HoldsString(node.members["@type"]) {
      return Failure(ContentError(BadFormat));
    }
    var t := node.members["@type"].s;
    var m: Model;
    if t == "ekn://_vocab/ContentObject" {
      m := Content.NewFromJsonNode(node, ids);
    } else if t == "ekn://_vocab/ArticleObject" {
      m := ContentOnlyNewFromJsonNode(ArticleKind, node, ids);
    } else if t == "ekn://_vocab/DictionaryObject" {
      m := ContentOnlyNewFromJsonNode(DictionaryEntryKind, node, ids);
    } else if t == "ekn://_vocab/SetObject" {
      m := Sets.NewFromJsonNode(node, ids);
    } else if t == "ekn://_vocab/MediaObject" {
      m := Media.NewFromJsonNode(node, ids);
    } else if t == "ekn://_vocab/ImageObject" {
      m := Image.NewFromJsonNode(node, ids);
    } else if t == "ekn://_vocab/VideoObject" {
      m := Video.NewFromJsonNode(node, ids);
    } else if t == "ekn://_vocab/AudioObject" {
      m := Audio.NewFromJsonNode(node, ids);
    } else {
      return Failure(ContentError(BadFormat));
    }
    r := Success(m);
  }

  /** The rejections the library's tests expect: an array, an object without "@type", an unknown "@type". */
  lemma RejectsMalformed()
    ensures FromJson(JArray([JInt(1), JInt(2), JInt(3)])) == Failure(ContentError(BadFormat))
    ensures FromJson(JObject(map[])) == Failure(ContentError(BadFormat))
    ensures FromJson(JObject(map["@type" := JString("foobar")])) == Failure(ContentError(BadFormat))
    ensures FromJson(JObject(map["@type" := JNull])) == Failure(ContentError(BadFormat))
  {
  }

  /** A bare "@type" of each vocabulary URI builds a model of that class with default properties. */
  lemma BareTypeBuildsDefault(k: Kind)
    ensures FromJson(JObject(map["@type" := JString(TypeUri(k))])) == Success(Default(k))
  {
    var o := map["@type" := JString(TypeUri(k))];
    KindOfTypeExact(TypeUri(k), k);
    ParamsForTable(k, o);
    TypeKeyNotInTableFor(k);
    assert forall e | e in TableFor(k) :: e.key !in o;
    NoMembersNoParams(o, TableFor(k));
  }

  lemma TypeKeyNotInTableFor(k: Kind)
    ensures forall e | e in TableFor(k) :: e.key != "@type"
  {
    Content.TypeKeyNotInTable();
  }

  lemma {:induction false} NoMembersNoParams(o: map<string, Node>, t: seq<Entry>)
    requires forall e | e in t :: e.key !in o
    ensures ParamsOf(o, t) == []
    decreases |t|
  {
    if t != [] {
      assert forall e | e in t[..|t| - 1] :: e in t;
      NoMembersNoParams(o, t[..|t| - 1]);
      assert t[|t| - 1] in t;
    }
  }
}
