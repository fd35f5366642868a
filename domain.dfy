/**
 * DmDomain: the content of one application. It reads the manifest of each
 * subscription into a list of eos-shard files, collects their link tables,
 * loads objects by id, fixes and runs queries through its database manager
 * and reads "ekn://" URIs.
 */
module Domains {
  import opened Wrappers
  import opened Errors
  import opened Json
  import opened Objects
  import opened Strings
  import Base
  import Content
  import EosShard
  import Xapian
  import Queries
  import QueryResults
  import DatabaseManager

  /* ---------- Record lookup ---------- */

  /** The record named `hash` in the first shard that holds one. */
  function FirstRecord(files: seq<EosShard.ShardFile>, hash: string): (r: Option<EosShard.EosRecord>)
  {
    if files == [] then None
    else if hash in files[0].records then Some(files[0].records[hash])
    else FirstRecord(files[1..], hash)
  }

  /**
   * The lookup finds a record exactly when some shard holds the hash, and
   * then it is the record of the first such shard.
   */
  lemma {:induction false} FirstRecordIsFirstHit(files: seq<EosShard.ShardFile>, hash: string)
    ensures FirstRecord(files, hash).None? <==> forall i | 0 <= i < |files| :: hash !in files[i].records
    ensures FirstRecord(files, hash).Some? ==>
      exists j | 0 <= j < |files| ::
        && hash in files[j].records
        && FirstRecord(files, hash).value == files[j].records[hash]
        && forall k | 0 <= k < j :: hash !in files[k].records
    decreases |files|
  {
    if files != [] && hash !in files[0].records {
      FirstRecordIsFirstHit(files[1..], hash);
      assert forall i | 1 <= i < |files| :: files[i] == files[1..][i - 1];
      if FirstRecord(files, hash).Some? {
        var j :| 0 <= j < |files[1..]| && hash in files[1..][j].records
          && FirstRecord(files[1..], hash).value == files[1..][j].records[hash]
          && forall k | 0 <= k < j :: hash !in files[1..][k].records;
        assert forall k | 1 <= k < j + 1 :: files[k] == files[1..][k - 1];
        assert hash in files[j + 1].records;
      }
    }
  }

  /** What loading one object by id gives: the model or error, and the mock-id counter after it. */
  datatype Loaded = Loaded(result: Result<Model, Error>, count: nat)

  /**
   * dm_domain_get_object_sync: an id without a hash is not valid; a hash
   * no shard holds is not found; metadata that does not parse fails with
   * the parser's error; otherwise the model dm_model_from_json_node
   * builds from the metadata.
   */
  function LoadObject(files: seq<EosShard.ShardFile>, hashOf: string -> Option<string>, id: string,
                      count: nat, digest: nat -> string): (r: Loaded)
    ensures r.result.Failure? ==> r.count == count
  {
    match hashOf(id)
    case None => Loaded(Failure(DomainError(IdNotValid)), count)
    case Some(hash) =>
      match FirstRecord(files, hash)
      case None => Loaded(Failure(DomainError(IdNotFound)), count)
      case Some(rec) =>
        match rec.metadata
        case None => Loaded(Failure(External(JsonGlib)), count)
        case Some(node) =>
          match Base.FromJson(node)
          case Failure(e) => Loaded(Failure(e), count)
          case Success(m) => Loaded(Success(Content.Finished(m, count, digest)), Content.NextCount(m, count))
  }

  /**
   * Once the id's hash names a record, dm_domain_get_object_sync builds the
   * same model, and moves the mock-id counter the same way, as the
   * eos-shard backend's get_model on that record.
   */
  lemma LoadObjectIsShardModel(files: seq<EosShard.ShardFile>, hashOf: string -> Option<string>, id: string,
                               count: nat, digest: nat -> string)
    requires hashOf(id).Some? && FirstRecord(files, hashOf(id).value).Some?
    ensures var g := EosShard.GetModel(FirstRecord(files, hashOf(id).value).value, count, digest);
      LoadObject(files, hashOf, id, count, digest) == Loaded(g.0, g.1)
  {
  }

  /**
   * The error codes of get_object: ID_NOT_VALID when the id yields no
   * hash, ID_NOT_FOUND when no shard holds the hash; a model otherwise
   * comes from the first shard's record.
   */
  lemma LoadObjectErrors(files: seq<EosShard.ShardFile>, hashOf: string -> Option<string>, id: string,
                         count: nat, digest: nat -> string)
    ensures hashOf(id).None? ==> LoadObject(files, hashOf, id, count, digest).result == Failure(DomainError(IdNotValid))
    ensures hashOf(id).Some? && (forall i | 0 <= i < |files| :: hashOf(id).value !in files[i].records) ==>
      LoadObject(files, hashOf, id, count, digest).result == Failure(DomainError(IdNotFound))
    ensures LoadObject(files, hashOf, id, count, digest).result.Success? ==>
      exists j | 0 <= j < |files| ::
        && hashOf(id).value in files[j].records
        && files[j].records[hashOf(id).value].metadata.Some?
        && Base.FromJson(files[j].records[hashOf(id).value].metadata.value).Success?
        && LoadObject(files, hashOf, id, count, digest).result.value
           == Content.Finished(Base.FromJson(files[j].records[hashOf(id).value].metadata.value).value, count, digest)
  {
    if hashOf(id).Some? {
      FirstRecordIsFirstHit(files, hashOf(id).value);
    }
  }

  /* ---------- Query results ---------- */

  /** The models a query collects from its match set, or the first load error, and the counter after. */
  datatype Batch = Batch(models: Result<seq<Model>, Error>, count: nat)

  /**
   * query_task's loop over the match set: a document that cannot be
   * fetched is skipped, a document whose object does not load fails the
   * whole batch, and the models keep the match set's order.
   */
  function Collect(files: seq<EosShard.ShardFile>, hashOf: string -> Option<string>, digest: nat -> string,
                   items: seq<Xapian.MatchItem>, count: nat): (b: Batch)
    decreases |items|
  {
    if items == [] then Batch(Success([]), count)
    else
      var prev := Collect(files, hashOf, digest, items[..|items| - 1], count);
      var last := items[|items| - 1];
      if prev.models.Failure? || last.DocumentError? then prev
      else
        var o := LoadObject(files, hashOf, last.data, prev.count, digest);
        if o.result.Failure? then Batch(Failure(o.result.error), o.count)
        else Batch(Success(prev.models.value + [o.result.value]), o.count)
  }

  /** The object ids of the documents that could be fetched, in match-set order. */
  function DocumentIds(items: seq<Xapian.MatchItem>): (r: seq<string>)
    ensures |r| <= |items|
  {
    if items == [] then []
    else
      var last := items[|items| - 1];
      DocumentIds(items[..|items| - 1]) + (if last.Document? then [last.data] else [])
  }

  /** `m` is what loading `id` gives at some value of the counter. */
  ghost predicate LoadsTo(files: seq<EosShard.ShardFile>, hashOf: string -> Option<string>, digest: nat -> string,
                          id: string, m: Model)
  {
    exists c: nat :: LoadObject(files, hashOf, id, c, digest).result == Success(m)
  }

  /** One model per id, each loaded from that id. */
  ghost predicate LoadedFrom(files: seq<EosShard.ShardFile>, hashOf: string -> Option<string>, digest: nat -> string,
                             ids: seq<string>, models: seq<Model>)
  {
    && |models| == |ids|
    && forall k | 0 <= k < |models| :: LoadsTo(files, hashOf, digest, ids[k], models[k])
  }

  /**
   * A successful batch has one model per fetchable document, each loaded
   * from that document's id, in order; a document-fetch error adds
   * nothing, and once a load has failed, further items change nothing.
   */
  lemma {:induction false} CollectShape(files: seq<EosShard.ShardFile>, hashOf: string -> Option<string>,
                                        digest: nat -> string, items: seq<Xapian.MatchItem>, count: nat)
    ensures var b := Collect(files, hashOf, digest, items, count);
      b.models.Success? ==> LoadedFrom(files, hashOf, digest, DocumentIds(items), b.models.value)
    decreases |items|
  {
    if items != [] {
      var init := items[..|items| - 1];
      CollectShape(files, hashOf, digest, init, count);
      var b := Collect(files, hashOf, digest, items, count);
      var prev := Collect(files, hashOf, digest, init, count);
      var last := items[|items| - 1];
      if b.models.Success? && prev.models.Success? && last.Document? {
        var o := LoadObject(files, hashOf, last.data, prev.count, digest);
        assert b.models.value == prev.models.value + [o.result.value];
        assert DocumentIds(items) == DocumentIds(init) + [last.data];
        LoadedFromSnoc(files, hashOf, digest, DocumentIds(init), prev.models.value, last.data, prev.count, o.result.value);
      } else if b.models.Success? && last.DocumentError? {
        assert b == prev;
        assert DocumentIds(items) == DocumentIds(init);
      } else {
        assert prev.models.Failure? ==> b == prev;
        assert b.models.Failure?;
      }
    }
  }

  lemma LoadedFromSnoc(files: seq<EosShard.ShardFile>, hashOf: string -> Option<string>, digest: nat -> string,
                       ids: seq<string>, models: seq<Model>, id: string, c: nat, m: Model)
    requires LoadedFrom(files, hashOf, digest, ids, models)
    requires LoadObject(files, hashOf, id, c, digest).result == Success(m)
    ensures LoadedFrom(files, hashOf, digest, ids + [id], models + [m])
  {
    assert LoadsTo(files, hashOf, digest, id, m);
    forall k | 0 <= k < |models + [m]|
      ensures LoadsTo(files, hashOf, digest, (ids + [id])[k], (models + [m])[k])
    {
      if k < |models| {
        assert (ids + [id])[k] == ids[k] && (models + [m])[k] == models[k];
      } else {
        assert (ids + [id])[k] == id && (models + [m])[k] == m;
      }
    }
  }

  lemma CollectSkipsDocumentError(files: seq<EosShard.ShardFile>, hashOf: string -> Option<string>,
                                  digest: nat -> string, items: seq<Xapian.MatchItem>, count: nat)
    ensures Collect(files, hashOf, digest, items + [Xapian.DocumentError], count)
         == Collect(files, hashOf, digest, items, count)
  {
    assert (items + [Xapian.DocumentError])[..|items|] == items;
  }

  lemma {:induction false} CollectFailureSticks(files: seq<EosShard.ShardFile>, hashOf: string -> Option<string>,
                                                digest: nat -> string, items: seq<Xapian.MatchItem>,
                                                more: seq<Xapian.MatchItem>, count: nat)
    requires Collect(files, hashOf, digest, items, count).models.Failure?
    ensures Collect(files, hashOf, digest, items + more, count) == Collect(files, hashOf, digest, items, count)
    decreases |more|
  {
    if more != [] {
      var init := more[..|more| - 1];
      CollectFailureSticks(files, hashOf, digest, items, init, count);
      assert (items + more)[..|items + more| - 1] == items + init;
      assert Collect(files, hashOf, digest, items + more, count) == Collect(files, hashOf, digest, items + init, count);
    } else {
      assert items + more == items;
    }
  }

  /** `s` back to front. */
  function Reverse<T>(s: seq<T>): (r: seq<T>)
    ensures |r| == |s| && forall i | 0 <= i < |s| :: r[i] == s[|s| - 1 - i]
  {
    if s == [] then [] else Reverse(s[1..]) + [s[0]]
  }

  /** A guint stored in a C int: values past the int range wrap around. */
  function AsCInt(n: nat): (r: int)
    ensures QueryResults.MinInt <= r <= QueryResults.MaxInt
    ensures n <= QueryResults.MaxInt ==> r == n
    ensures (r - n) % 0x1_0000_0000 == 0
  {
    var w := n % 0x1_0000_0000;
    if w <= QueryResults.MaxInt then w else w - 0x1_0000_0000
  }

  /** The language query_task hands the database manager: "none" when the domain has none. */
  function QueryLanguage(language: string): (r: string)
    ensures language != "" ==> r == language
    ensures r != ""
  {
    if language == "" then "none" else language
  }

  /* ---------- Fixed queries ---------- */

  /**
   * dm_domain_get_fixed_query_finish: the query itself when neither fix
   * was produced, otherwise a copy with the fixes that were produced.
   */
  function FixedQuery(q: Queries.Query, stopFixed: Option<string>, spellFixed: Option<string>): (r: Queries.Query)
    ensures stopFixed.None? && spellFixed.None? ==> r == q
  {
    if stopFixed.None? && spellFixed.None? then q
    else Queries.WithFixes(q, stopFixed, spellFixed)
  }

  /**
   * Returning the query itself is the same as copying it with no fix, so
   * the fixed query always carries exactly the fixes produced and nothing
   * else changes.
   */
  lemma FixedQueryIsCopy(q: Queries.Query, stopFixed: Option<string>, spellFixed: Option<string>)
    ensures FixedQuery(q, stopFixed, spellFixed) == Queries.WithFixes(q, stopFixed, spellFixed)
    ensures spellFixed.Some? ==> FixedQuery(q, stopFixed, spellFixed).correctedTerms == spellFixed
  {
    if stopFixed.None? && spellFixed.None? {
      assert Queries.WithFixes(q, None, None) == q;
    }
  }

  /**
   * dm_domain_get_fixed_query_finish on the database manager's answer: its
   * error, or the query with the fixes it produced.
   */
  function FixedFrom(q: Queries.Query, fix: Result<(Option<string>, Option<string>), Error>): Result<Queries.Query, Error> {
    if fix.Failure? then Failure(fix.error) else Success(FixedQuery(q, fix.value.0, fix.value.1))
  }

  /* ---------- Manifests ---------- */

  /** A shard entry's path: the entry must be an object whose "path" member is a string. */
  function EntryPath(e: Node): Option<string> {
    if e.JObject? && "path" in e.members && e.members["path"].JString? then Some(e.members["path"].s)
    else None
  }

  /** The paths of the longest run of well-formed entries at the front of `entries`. */
  function ValidPaths(entries: seq<Node>): (r: seq<string>)
    ensures |r| <= |entries|
    ensures forall k | 0 <= k < |r| :: EntryPath(entries[k]) == Some(r[k])
    ensures |r| < |entries| ==> EntryPath(entries[|r|]).None?
  {
    if entries == [] then []
    else match EntryPath(entries[0])
      case None => []
      case Some(p) =>
        var rest := ValidPaths(entries[1..]);
        assert forall k | 1 <= k <= |rest| :: entries[k] == entries[1..][k - 1];
        [p] + rest
  }

  /** g_file_get_child followed by g_file_get_path, for a relative name. */
  function ChildPath(dir: string, name: string): string {
    dir + "/" + name
  }

  /** The shard files at the given names under `dir`. */
  function ShardsAt(files: string -> EosShard.ShardFile, dir: string, names: seq<string>): (r: seq<EosShard.ShardFile>)
    ensures |r| == |names| && forall k | 0 <= k < |names| :: r[k] == files(ChildPath(dir, names[k]))
  {
    seq(|names|, k requires 0 <= k < |names| => files(ChildPath(dir, names[k])))
  }

  /**
   * dm_domain_process_subscription on a manifest already read and parsed
   * (or the error reading it gave): the shard files it appends, and its
   * error. A manifest that is not an object, has no "shards" array or has
   * a malformed entry is BAD_MANIFEST; the entries before a malformed one
   * have been appended by then.
   */
  function Process(files: string -> EosShard.ShardFile, dir: string, manifest: Result<Node, Error>)
    : (r: (seq<EosShard.ShardFile>, Option<Error>))
  {
    if manifest.Failure? then ([], Some(manifest.error))
    else
      var node := manifest.value;
      if !node.JObject? || "shards" !in node.members || !node.members["shards"].JArray? then
        ([], Some(DomainError(BadManifest)))
      else
        var entries := node.members["shards"].elements;
        var paths := ValidPaths(entries);
        (ShardsAt(files, dir, paths), if |paths| == |entries| then None else Some(DomainError(BadManifest)))
  }

  /**
   * A manifest whose entries are all well formed adds one shard per
   * entry, in manifest order; one malformed entry makes it BAD_MANIFEST.
   */
  lemma ProcessManifest(files: string -> EosShard.ShardFile, dir: string, entries: seq<Node>, others: map<string, Node>)
    requires "shards" !in others
    ensures var r := Process(files, dir, Success(JObject(others["shards" := JArray(entries)])));
      && (r.1.None? <==> forall k | 0 <= k < |entries| :: EntryPath(entries[k]).Some?)
      && (r.1.Some? ==> r.1.value == DomainError(BadManifest))
      && (r.1.None? ==>
            && |r.0| == |entries|
            && forall k | 0 <= k < |entries| :: r.0[k] == files(ChildPath(dir, EntryPath(entries[k]).value)))
  {
  }

  /** One subscription directory found for the app id: its path, its name and its manifest. */
  datatype Subscription = Subscription(dir: string, name: string, manifest: Result<Node, Error>)

  /**
   * dm_domain_import_subscriptions over the directories found, in order:
   * the shard files appended, the subscription names (each prepended as
   * its directory is processed), and the first error, which stops it.
   */
  function Imported(files: string -> EosShard.ShardFile, subs: seq<Subscription>)
    : (r: (seq<EosShard.ShardFile>, seq<string>, Option<Error>))
    decreases |subs|
  {
    if subs == [] then ([], [], None)
    else
      var prev := Imported(files, subs[..|subs| - 1]);
      var last := subs[|subs| - 1];
      if prev.2.Some? then prev
      else
        var p := Process(files, last.dir, last.manifest);
        (prev.0 + p.0, if p.1.None? then [last.name] + prev.1 else prev.1, p.1)
  }

  /* ---------- Link tables ---------- */

  /**
   * A shard's link table as dm_domain_setup_link_tables reads it: none
   * without a link-table record; an error when its data does not load as
   * a dictionary.
   */
  function LinkTableOf(file: EosShard.ShardFile): (r: Option<Result<map<string, string>, Error>>)
    ensures r.None? <==> EosShard.LinkTableId !in file.records
    ensures r.Some? && r.value.Success? ==> EosShard.LoadLinkTable(file) == Some(r.value.value)
    ensures r.Some? && r.value.Failure? ==> EosShard.LoadLinkTable(file) == None
  {
    match EosShard.FindRecord(file, EosShard.LinkTableId)
    case None => None
    case Some(rec) =>
      if rec.data.None? || rec.data.value.dictionary.None? then Some(Failure(External(EosShardLib)))
      else Some(Success(rec.data.value.dictionary.value))
  }

  /** The link tables collected in shard order, and the error that stopped the collection. */
  function LinkTables(files: seq<EosShard.ShardFile>): (r: (seq<map<string, string>>, Option<Error>))
  {
    if files == [] then ([], None)
    else match LinkTableOf(files[0])
      case None => LinkTables(files[1..])
      case Some(Failure(e)) => ([], Some(e))
      case Some(Success(t)) => var rest := LinkTables(files[1..]); ([t] + rest.0, rest.1)
  }

  /**
   * When every link table loads, the domain holds exactly the link tables
   * the eos-shard backend loads for its shards.
   */
  lemma {:induction false} LinkTablesAreShardTables(files: seq<EosShard.ShardFile>)
    requires LinkTables(files).1.None?
    ensures forall t | t in LinkTables(files).0 :: exists f | f in files :: EosShard.LoadLinkTable(f) == Some(t)
    ensures forall f | f in files && EosShard.LoadLinkTable(f).Some? :: EosShard.LoadLinkTable(f).value in LinkTables(files).0
    decreases |files|
  {
    if files != [] {
      LinkTablesAreShardTables(files[1..]);
      assert forall f | f in files[1..] :: f in files;
      assert forall f | f in files :: f == files[0] || f in files[1..];
    }
  }

  lemma LinkTablesStep(files: seq<EosShard.ShardFile>, i: nat)
    requires i < |files|
    ensures var rest := LinkTables(files[i + 1..]);
      LinkTables(files[i..]) == match LinkTableOf(files[i])
        case None => rest
        case Some(Failure(e)) => ([], Some(e))
        case Some(Success(t)) => ([t] + rest.0, rest.1)
  {
    assert files[i..][0] == files[i] && files[i..][1..] == files[i + 1..];
  }

  /** The first link table's resolution of `link`. */
  function FirstResolution(tables: seq<map<string, string>>, link: string): (r: Option<string>)
  {
    if tables == [] then None
    else if link in tables[0] then Some(tables[0][link])
    else FirstResolution(tables[1..], link)
  }

  /**
   * test_link resolves a link exactly when some table holds it, and then
   * to the first such table's value.
   */
  lemma {:induction false} FirstResolutionIsFirstHit(tables: seq<map<string, string>>, link: string)
    ensures FirstResolution(tables, link).None? <==> forall i | 0 <= i < |tables| :: link !in tables[i]
    ensures FirstResolution(tables, link).Some? ==>
      exists j | 0 <= j < |tables| ::
        && link in tables[j] && FirstResolution(tables, link).value == tables[j][link]
        && forall k | 0 <= k < j :: link !in tables[k]
    decreases |tables|
  {
    if tables != [] && link !in tables[0] {
      FirstResolutionIsFirstHit(tables[1..], link);
      assert forall i | 1 <= i < |tables| :: tables[i] == tables[1..][i - 1];
      if FirstResolution(tables, link).Some? {
        var j :| 0 <= j < |tables[1..]| && link in tables[1..][j]
          && FirstResolution(tables[1..], link).value == tables[1..][j][link]
          && forall k | 0 <= k < j :: link !in tables[1..][k];
        assert link in tables[j + 1];
      }
    }
  }

  /* ---------- ekn URIs ---------- */

  /**
   * What dm_domain_read_uri gives: whether the URI was searched, the MIME
   * type and bytes found, and the error loading the bytes left behind.
   */
  datatype UriRead = UriRead(searched: bool, mimeType: Option<string>, bytes: Option<seq<bv8>>, error: Option<Error>)

  /**
   * What reading a found blob gives: its MIME type, and its bytes or, when
   * eos_shard_blob_load_contents fails, that failure; the read still
   * counts as searched.
   */
  function BlobRead(b: EosShard.Blob): (r: UriRead)
    ensures r.searched && r.mimeType == Some(b.contentType)
    ensures r.bytes.Some? <==> r.error.None?
    ensures b.loads ==> r.bytes == Some(b.contents)
    ensures !b.loads ==> r.error == Some(External(EosShardLib))
  {
    if b.loads then UriRead(true, Some(b.contentType), Some(b.contents), None)
    else UriRead(true, Some(b.contentType), None, Some(External(EosShardLib)))
  }

  /**
   * dm_domain_read_uri: the URI must start with "ekn://" and have a
   * second "/"-token, the record's hash; the record is the first shard's;
   * a third token names a resource of the record, otherwise the record's
   * data is read. A missing record or blob is searched but finds nothing;
   * a blob whose bytes do not load gives its MIME type and the error.
   */
  function ReadUriResult(files: seq<EosShard.ShardFile>, uri: string): (r: UriRead)
    ensures r.bytes.Some? ==> r.mimeType.Some? && r.error.None?
    ensures r.mimeType.Some? <==> r.bytes.Some? || r.error.Some?
    ensures r.error.Some? ==> r.mimeType.Some? && r.bytes.None? && r.error == Some(External(EosShardLib))
    ensures r.mimeType.Some? ==> r.searched
  {
    if !HasPrefix(uri, "ekn://") then UriRead(false, None, None, None)
    else
      var tokens := Split(uri[|"ekn://"|..], '/');
      if |tokens| < 2 then UriRead(false, None, None, None)
      else match FirstRecord(files, tokens[1])
        case None => UriRead(true, None, None, None)
        case Some(rec) =>
          var blob := if |tokens| > 2 then
              (if tokens[2] in rec.resources then Some(rec.resources[tokens[2]]) else None)
            else rec.data;
          if blob.None? then UriRead(true, None, None, None)
          else BlobRead(blob.value)
  }

  /**
   * "ekn://<domain>/<hash>" reads the data blob of the first record with
   * that hash, and "ekn://<domain>/<hash>/<name>" its resource `name`.
   */
  lemma ReadUriFinds(files: seq<EosShard.ShardFile>, dom: string, hash: string, name: string)
    requires '/' !in dom && '/' !in hash && '/' !in name
    requires FirstRecord(files, hash).Some?
    ensures var rec := FirstRecord(files, hash).value;
      ReadUriResult(files, "ekn://" + dom + "/" + hash)
        == (if rec.data.None? then UriRead(true, None, None, None) else BlobRead(rec.data.value))
    ensures var rec := FirstRecord(files, hash).value;
      ReadUriResult(files, "ekn://" + dom + "/" + hash + "/" + name)
        == (if name !in rec.resources then UriRead(true, None, None, None) else BlobRead(rec.resources[name]))
  {
    var u1 := "ekn://" + dom + "/" + hash;
    var u2 := u1 + "/" + name;
    assert HasPrefix(u1, "ekn://") && u1[|"ekn://"|..] == dom + "/" + hash;
    assert HasPrefix(u2, "ekn://") && u2[|"ekn://"|..] == dom + "/" + hash + "/" + name;
    SplitAllJoin([dom, hash], '/');
    SplitAllJoin([dom, hash, name], '/');
    assert Join("/", [dom, hash]) == dom + "/" + hash;
    assert Join("/", [hash, name]) == hash + "/" + name;
    assert [dom, hash, name][1..] == [hash, name];
    assert Join("/", [dom, hash, name]) == dom + "/" + (hash + "/" + name);
    assert dom + "/" + hash + "/" + name == dom + "/" + (hash + "/" + name);
  }

  /** A URI without the "ekn://" scheme, or without a hash token, is refused. */
  lemma ReadUriRefuses(files: seq<EosShard.ShardFile>, uri: string)
    requires !HasPrefix(uri, "ekn://") || '/' !in uri[|"ekn://"|..]
    ensures !ReadUriResult(files, uri).searched
  {
    if HasPrefix(uri, "ekn://") {
      var rest := uri[|"ekn://"|..];
      if rest != "" {
        SplitAllNoSep(rest, '/');
      }
    }
  }

  /* ---------- The domain ---------- */

  /** A DmDomain. */
  class Domain {
    const appId: string
    const path: string
    const language: string
    /** The shard file found at each path (opening and initialising it is not modelled). */
    const files: string -> EosShard.ShardFile
    /** dm_utils_id_get_hash, whose source is not part of this model. */
    const hashOf: string -> Option<string>
    /** The database manager queries go to; its shard list is its own. */
    const dbManager: DatabaseManager.Manager
    var shards: seq<EosShard.ShardFile>
    var linkTables: seq<map<string, string>>
    var subscriptions: seq<string>

    /** dm_domain_get_for_app_id's g_object_new: the properties set, no content yet. */
    constructor(appId: string, path: string, language: string, files: string -> EosShard.ShardFile,
                hashOf: string -> Option<string>, dbManager: DatabaseManager.Manager)
      ensures this.appId == appId && this.path == path && this.language == language
      ensures this.files == files && this.hashOf == hashOf && this.dbManager == dbManager
      ensures shards == [] && linkTables == [] && subscriptions == []
    {
      this.appId := appId;
      this.path := path;
      this.language := language;
      this.files := files;
      this.hashOf := hashOf;
      this.dbManager := dbManager;
      shards := [];
      linkTables := [];
      subscriptions := [];
    }

    /** dm_domain_get_subscription_id: the subscription processed last, if any. */
    function SubscriptionId(): (r: Option<string>)
      reads this
    {
      if subscriptions == [] then None else Some(subscriptions[0])
    }

    /**
     * dm_domain_process_subscription: checks the manifest and appends a
     * shard file for each entry, in order, until a malformed entry.
     */
    method ProcessSubscription(dir: string, manifest: Result<Node, Error>) returns (err: Option<Error>)
      modifies this
      ensures shards == old(shards) + Process(files, dir, manifest).0
      ensures err == Process(files, dir, manifest).1
      ensures linkTables == old(linkTables) && subscriptions == old(subscriptions)
    {
      if manifest.Failure? {
        return Some(manifest.error);
      }
      var node := manifest.value;
      if !node.JObject? || "shards" !in node.members || !node.members["shards"].JArray? {
        return Some(DomainError(BadManifest));
      }
      var entries := node.members["shards"].elements;
      ghost var paths := ValidPaths(entries);
      for i := 0 to |entries|
        invariant i <= |paths|
        invariant shards == old(shards) + ShardsAt(files, dir, paths[..i])
        invariant linkTables == old(linkTables) && subscriptions == old(subscriptions)
      {
        var p := EntryPath(entries[i]);
        if p.None? {
          assert paths[..i] == paths;
          return Some(DomainError(BadManifest));
        }
        assert ShardsAt(files, dir, paths[..i + 1]) == ShardsAt(files, dir, paths[..i]) + [files(ChildPath(dir, p.value))];
        shards := shards + [files(ChildPath(dir, p.value))];
      }
      assert paths[..|entries|] == paths;
      err := None;
    }

    /** One subscription directory: its shards appended and, when it imports, its name prepended. */
    method ImportSubscription(sub: Subscription) returns (err: Option<Error>)
      modifies this
      ensures shards == old(shards) + Process(files, sub.dir, sub.manifest).0
      ensures err == Process(files, sub.dir, sub.manifest).1
      ensures subscriptions == (if err.None? then [sub.name] else []) + old(subscriptions)
      ensures linkTables == old(linkTables)
    {
      err := ProcessSubscription(sub.dir, sub.manifest);
      if err.None? {
        subscriptions := [sub.name] + subscriptions;
      }
    }

    /**
     * dm_domain_import_subscriptions over the subscription directories
     * found: each is processed in turn and its name prepended; the first
     * error stops the import.
     */
    method ImportSubscriptions(subs: seq<Subscription>) returns (err: Option<Error>)
      modifies this
      ensures shards == old(shards) + Imported(files, subs).0
      ensures subscriptions == Imported(files, subs).1 + old(subscriptions)
      ensures err == Imported(files, subs).2
      ensures linkTables == old(linkTables)
    {
      for i := 0 to |subs|
        invariant Imported(files, subs[..i]).2.None?
        invariant shards == old(shards) + Imported(files, subs[..i]).0
        invariant subscriptions == Imported(files, subs[..i]).1 + old(subscriptions)
        invariant linkTables == old(linkTables)
      {
        ghost var prev := Imported(files, subs[..i]);
        ghost var p := Process(files, subs[i].dir, subs[i].manifest);
        var e := ImportSubscription(subs[i]);
        AppendAssoc(old(shards), prev.0, p.0);
        if e.Some? {
          ImportedStops(files, subs, i);
          return e;
        }
        ImportedSnoc(files, subs, i);
        AppendAssoc([subs[i].name], prev.1, old(subscriptions));
      }
      assert subs[..|subs|] == subs;
      err := None;
    }

    /**
     * dm_domain_setup_link_tables: walks the shards in order, skipping
     * those without a link table and stopping at one whose table does not
     * load.
     */
    method SetupLinkTables() returns (err: Option<Error>)
      modifies this
      ensures linkTables == old(linkTables) + LinkTables(shards).0
      ensures err == LinkTables(shards).1
      ensures shards == old(shards) && subscriptions == old(subscriptions)
    {
      var i := 0;
      ghost var acc: seq<map<string, string>> := [];
      assert shards[0..] == shards;
      while i < |shards|
        invariant 0 <= i <= |shards|
        invariant shards == old(shards) && subscriptions == old(subscriptions)
        invariant linkTables == old(linkTables) + acc
        invariant LinkTables(shards).0 == acc + LinkTables(shards[i..]).0
        invariant LinkTables(shards).1 == LinkTables(shards[i..]).1
      {
        LinkTablesStep(shards, i);
        var t := LinkTableOf(shards[i]);
        if t.Some? {
          if t.value.Failure? {
            return Some(t.value.error);
          }
          linkTables := linkTables + [t.value.value];
          acc := acc + [t.value.value];
        }
        i := i + 1;
      }
      err := None;
    }

    /**
     * dm_domain_initable_init: a path wins over an app id; a path that
     * does not exist is PATH_NOT_FOUND and neither is APP_ID_NOT_SET;
     * content without shards is EMPTY; then the shards are initialised
     * (`initError` is the outcome of dm_utils_parallel_init) and their link
     * tables collected.
     */
    method Init(pathExists: bool, pathManifest: Result<Node, Error>, subs: seq<Subscription>, initError: Option<Error>)
      returns (err: Option<Error>)
      requires shards == [] && linkTables == [] && subscriptions == []
      modifies this
      ensures path != "" && !pathExists ==> err == Some(DomainError(PathNotFound)) && shards == []
      ensures path == "" && appId == "" ==> err == Some(DomainError(AppIdNotSet)) && shards == []
      ensures path != "" && pathExists && Process(files, path, pathManifest).1.Some? ==>
        err == Process(files, path, pathManifest).1
      ensures path == "" && appId != "" && Imported(files, subs).2.Some? ==> err == Imported(files, subs).2
      ensures path != "" && pathExists && Process(files, path, pathManifest).1.None? ==>
        shards == Process(files, path, pathManifest).0 && subscriptions == []
      ensures path == "" && appId != "" && Imported(files, subs).2.None? ==>
        shards == Imported(files, subs).0 && subscriptions == Imported(files, subs).1
      ensures err.None? ==> shards != [] && linkTables == LinkTables(shards).0
      ensures err.None? <==>
        && (path != "" ==> pathExists && Process(files, path, pathManifest).1.None?)
        && (path == "" ==> appId != "" && Imported(files, subs).2.None?)
        && shards != [] && initError.None? && LinkTables(shards).1.None?
    {
      if path != "" {
        if !pathExists {
          return Some(DomainError(PathNotFound));
        }
        err := ProcessSubscription(path, pathManifest);
        if err.Some? {
          return;
        }
      } else if appId != "" {
        err := ImportSubscriptions(subs);
        if err.Some? {
          return;
        }
      } else {
        return Some(DomainError(AppIdNotSet));
      }
      if shards == [] {
        return Some(DomainError(Empty));
      }
      if initError.Some? {
        return initError;
      }
      err := SetupLinkTables();
    }

    /** dm_domain_load_record_from_hash_sync: the first shard's record with the hash. */
    method LoadRecordFromHash(hash: string) returns (r: Option<EosShard.EosRecord>)
      ensures r == FirstRecord(shards, hash)
    {
      var i := 0;
      while i < |shards|
        invariant 0 <= i <= |shards|
        invariant FirstRecord(shards, hash) == FirstRecord(shards[i..], hash)
      {
        assert shards[i..][0] == shards[i] && shards[i..][1..] == shards[i + 1..];
        var rec := EosShard.FindRecord(shards[i], hash);
        if rec.Some? {
          return rec;
        }
        i := i + 1;
      }
      r := None;
    }

    /** dm_domain_test_link: the first link table's resolution of the link. */
    method TestLink(link: string) returns (r: Option<string>)
      ensures r == FirstResolution(linkTables, link)
    {
      var i := 0;
      while i < |linkTables|
        invariant 0 <= i <= |linkTables|
        invariant FirstResolution(linkTables, link) == FirstResolution(linkTables[i..], link)
      {
        assert linkTables[i..][0] == linkTables[i] && linkTables[i..][1..] == linkTables[i + 1..];
        if link in linkTables[i] {
          return Some(linkTables[i][link]);
        }
        i := i + 1;
      }
      r := None;
    }

    /** dm_domain_get_object_sync, numbering mock ids with `ids`. */
    method GetObjectSync(id: string, ids: Content.MockIds) returns (r: Result<Model, Error>)
      modifies ids
      ensures Loaded(r, ids.count) == LoadObject(shards, hashOf, id, old(ids.count), ids.digest)
    {
      var hash := hashOf(id);
      if hash.None? {
        return Failure(DomainError(IdNotValid));
      }
      var rec := LoadRecordFromHash(hash.value);
      if rec.None? {
        return Failure(DomainError(IdNotFound));
      }
      if rec.value.metadata.None? {
        return Failure(External(JsonGlib));
      }
      r := Base.ModelFromJsonNode(rec.value.metadata.value, ids);
    }

    /** dm_domain_get_object: the same result, for a non-empty id, delivered asynchronously. */
    method GetObject(id: string, ids: Content.MockIds) returns (r: Result<Model, Error>)
      requires id != ""
      modifies ids
      ensures Loaded(r, ids.count) == LoadObject(shards, hashOf, id, old(ids.count), ids.digest)
    {
      r := GetObjectSync(id, ids);
    }

    /**
     * dm_domain_get_fixed_query and its finish: the database manager fixes
     * the search terms; the query comes back with the fixes it produced.
     */
    method GetFixedQuery(q: Queries.Query) returns (r: Result<Queries.Query, Error>)
      requires dbManager.Valid()
      requires q.searchTerms.Some? || !dbManager.StopperAhead()
      modifies dbManager, set s | s in dbManager.shards
      ensures dbManager.Valid()
      ensures old(dbManager.Opened()).Failure? ==> r == Failure(old(dbManager.Opened()).error)
      ensures r.Success? ==> exists stop: Option<string>, spell: string ::
        r.value == Queries.WithFixes(q, stop, Some(spell))
      ensures r == FixedFrom(q, DatabaseManager.FixOutcome(dbManager.env, old(dbManager.Opened()),
                                                          old(dbManager.ParserAfterOpen()), q.searchTerms))
      ensures dbManager.Opened() == old(dbManager.Opened())
      ensures dbManager.ParserAfterOpen() == old(dbManager.ParserAfterOpen())
    {
      var fixes := dbManager.FixQuery(q.searchTerms);
      if fixes.Failure? {
        return Failure(fixes.error);
      }
      FixedQueryIsCopy(q, fixes.value.0, fixes.value.1);
      r := Success(FixedQuery(q, fixes.value.0, fixes.value.1));
    }

    /**
     * query_task: runs the query in the domain's language ("none" when it
     * has none) and loads the object of every document in the match set.
     * `matches` is what the database manager returned.
     */
    method QueryTask(q: Queries.Query, ids: Content.MockIds) returns (r: Result<QueryResults.Results, Error>, ghost matches: Result<Xapian.MSet, Error>)
      requires dbManager.Valid()
      modifies dbManager, ids, set s | s in dbManager.shards
      ensures dbManager.Valid()
      ensures matches.Success? ==> dbManager.parser.stem == DatabaseManager.ChosenStem(dbManager.env, QueryLanguage(language))
      ensures matches == DatabaseManager.SearchOutcome(dbManager.env, old(dbManager.Opened()),
                                                       old(dbManager.ParserAfterOpen()), q, QueryLanguage(language))
      ensures matches.Failure? ==> r == Failure(matches.error)
      ensures matches.Success? ==>
        var b := Collect(shards, hashOf, ids.digest, matches.value.items, old(ids.count));
        && ids.count == b.count
        && (b.models.Failure? ==> r == Failure(b.models.error))
        && (b.models.Success? ==>
              && r.Success? && fresh(r.value)
              && r.value.models == b.models.value
              && r.value.upperBound == AsCInt(matches.value.upperBound))
    {
      var lang := QueryLanguage(language);
      var results := dbManager.Query(q, lang);
      matches := results;
      if results.Failure? {
        return Failure(results.error), matches;
      }
      var models := LoadModels(results.value.items, ids);
      if models.Failure? {
        return Failure(models.error), matches;
      }
      var res := new QueryResults.Results(models.value, Some(AsCInt(results.value.upperBound)));
      r := Success(res);
    }

    /**
     * The loop of query_task: loads the object of each fetchable document,
     * prepending the models and reversing them at the end.
     */
    method LoadModels(items: seq<Xapian.MatchItem>, ids: Content.MockIds) returns (r: Result<seq<Model>, Error>)
      modifies ids
      ensures var b := Collect(shards, hashOf, ids.digest, items, old(ids.count));
        r == b.models && ids.count == b.count
    {
      var models: seq<Model> := [];
      for i := 0 to |items|
        invariant Collect(shards, hashOf, ids.digest, items[..i], old(ids.count)).models == Success(Reverse(models))
        invariant Collect(shards, hashOf, ids.digest, items[..i], old(ids.count)).count == ids.count
      {
        assert items[..i + 1][..i] == items[..i];
        if items[i].Document? {
          var m := GetObjectSync(items[i].data, ids);
          if m.Failure? {
            CollectFailureSticks(shards, hashOf, ids.digest, items[..i + 1], items[i + 1..], old(ids.count));
            assert items[..i + 1] + items[i + 1..] == items;
            return Failure(m.error);
          }
          assert Reverse([m.value] + models) == Reverse(models) + [m.value];
          models := [m.value] + models;
        }
      }
      assert items[..|items|] == items;
      r := Success(Reverse(models));
    }

    /** dm_domain_read_uri. */
    method ReadUri(uri: string) returns (r: UriRead)
      ensures r == ReadUriResult(shards, uri)
    {
      if !HasPrefix(uri, "ekn://") {
        return UriRead(false, None, None, None);
      }
      var tokens := Split(uri[|"ekn://"|..], '/');
      if |tokens| < 2 {
        return UriRead(false, None, None, None);
      }
      var rec := LoadRecordFromHash(tokens[1]);
      if rec.None? {
        return UriRead(true, None, None, None);
      }
      var blob := rec.value.data;
      if |tokens| > 2 {
        blob := if tokens[2] in rec.value.resources then Some(rec.value.resources[tokens[2]]) else None;
      }
      if blob.None? {
        return UriRead(true, None, None, None);
      }
      var b := blob.value;
      if b.loads {
        r := UriRead(true, Some(b.contentType), Some(b.contents), None);
      } else {
        r := UriRead(true, Some(b.contentType), None, Some(External(EosShardLib)));
      }
    }
  }

  lemma AppendAssoc<T>(a: seq<T>, b: seq<T>, c: seq<T>)
    ensures a + b + c == a + (b + c)
  {
  }

  lemma ImportedSnoc(files: string -> EosShard.ShardFile, subs: seq<Subscription>, i: nat)
    requires i < |subs| && Imported(files, subs[..i]).2.None?
    requires Process(files, subs[i].dir, subs[i].manifest).1.None?
    ensures var prev := Imported(files, subs[..i]);
      Imported(files, subs[..i + 1])
        == (prev.0 + Process(files, subs[i].dir, subs[i].manifest).0, [subs[i].name] + prev.1, None)
  {
    assert subs[..i + 1][..i] == subs[..i];
  }

  /** Once a subscription fails, the import stops there with that error and what was appended. */
  lemma ImportedStops(files: string -> EosShard.ShardFile, subs: seq<Subscription>, i: nat)
    requires i < |subs| && Imported(files, subs[..i]).2.None?
    requires Process(files, subs[i].dir, subs[i].manifest).1.Some?
    ensures var prev := Imported(files, subs[..i]);
      var p := Process(files, subs[i].dir, subs[i].manifest);
      Imported(files, subs) == (prev.0 + p.0, prev.1, p.1)
  {
    assert subs[..i + 1][..i] == subs[..i];
    ImportedFailureSticks(files, subs, i + 1);
  }

  lemma {:induction false} ImportedFailureSticks(files: string -> EosShard.ShardFile, subs: seq<Subscription>, n: nat)
    requires n <= |subs| && Imported(files, subs[..n]).2.Some?
    ensures Imported(files, subs) == Imported(files, subs[..n])
    decreases |subs| - n
  {
    if n < |subs| {
      assert subs[..n + 1][..n] == subs[..n];
      ImportedFailureSticks(files, subs, n + 1);
    } else {
      assert subs[..n] == subs;
    }
  }
}
