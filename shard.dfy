/**
 * DmShard: the virtual operations every shard backend offers, the values
 * the dispatchers fall back to when a backend leaves one out, and the
 * database offset each shard keeps (an override, or a lazily calculated
 * and cached value).
 */
module Shards {
  import opened Wrappers
  import opened Errors
  import opened Objects
  import opened Props
  import opened Records
  import Base
  import EosShard
  import OpenZim

  /**
   * The backend behind a shard, after its asynchronous init. A plain
   * DmShard implements none of the virtual operations.
   */
  datatype Backend =
    | EosShardBackend(state: EosShard.EosShardState)
    | OpenZimBackend(zim: OpenZim.ZimFile)
    | NoBackend

  /** The native record a backend wraps into a DmShardRecord. */
  datatype Native =
    | EosNative(record: EosShard.EosRecord)
    | ZimNative(article: OpenZim.ZimArticle)

  /** The function that frees a native record: g_free for eos-shard, g_object_unref for libzim. */
  datatype DestroyFunc = GFree | GObjectUnref

  /** Whether a native record is of the kind `b` hands out (the backends cast it unchecked). */
  predicate Fits(b: Backend, n: Native) {
    match b
    case EosShardBackend(_) => n.EosNative?
    case OpenZimBackend(_) => n.ZimNative?
    case NoBackend => true
  }

  /**
   * dm_shard_find_by_id: the backend's record for `id`, or nothing. The
   * libzim backend reads the first token of the id, so it needs a
   * non-empty id.
   */
  function Find(b: Backend, id: string): (r: Option<Native>)
    requires b.OpenZimBackend? ==> id != ""
    ensures r.Some? ==> Fits(b, r.value)
  {
    match b
    case EosShardBackend(s) =>
      (match EosShard.FindRecord(s.file, id)
       case None => None
       case Some(rec) => Some(EosNative(rec)))
    case OpenZimBackend(zim) =>
      (match OpenZim.FindById(zim, id)
       case None => None
       case Some(a) => Some(ZimNative(a)))
    case NoBackend => None
  }

  /**
   * dm_shard_get_model, with the mock-id counter at `count`: `None` is the
   * dispatcher's NULL without an error; otherwise the backend's model,
   * after the `constructed` hook of dm_model_from_json_node, or its error,
   * and the counter after it.
   */
  function GetModel(b: Backend, n: Native, count: nat, digest: nat -> string): Option<(Result<Model, Error>, nat)>
    requires Fits(b, n)
  {
    match b
    case EosShardBackend(_) => Some(EosShard.GetModel(n.record, count, digest))
    case OpenZimBackend(_) => Some(Base.Constructing(OpenZim.GetModel(n.article), count, digest))
    case NoBackend => None
  }

  /** dm_shard_stream_data: the bytes of the record's data, or NULL. */
  function StreamData(b: Backend, n: Native): Option<seq<bv8>>
    requires Fits(b, n)
  {
    match b
    case EosShardBackend(_) => EosShard.StreamData(n.record)
    case OpenZimBackend(_) => Some(OpenZim.StreamData(n.article))
    case NoBackend => None
  }

  /** dm_shard_get_data_size: 0 when the backend does not say. */
  function DataSize(b: Backend, n: Native): nat
    requires Fits(b, n)
  {
    match b
    case EosShardBackend(_) => EosShard.DataSize(n.record)
    case OpenZimBackend(_) => OpenZim.DataSize(n.article)
    case NoBackend => 0
  }

  /** dm_shard_test_link: only the eos-shard backend resolves links. */
  function TestLink(b: Backend, link: string): Option<string>
  {
    match b
    case EosShardBackend(s) => EosShard.TestLink(s.linkTable, link)
    case _ => None
  }

  /** dm_shard_calculate_db_offset: only the libzim backend calculates one; -1 otherwise. */
  function CalculateDbOffset(b: Backend): int
  {
    match b
    case OpenZimBackend(zim) => OpenZim.CalculateDbOffset(zim)
    case _ => -1
  }

  /** Whatever a backend streams is exactly as long as the size it reports. */
  lemma StreamMatchesSize(b: Backend, n: Native)
    requires Fits(b, n)
    ensures StreamData(b, n).Some? ==> |StreamData(b, n).value| == DataSize(b, n)
  {
    match b
    case EosShardBackend(_) => EosShard.StreamMatchesSize(n.record);
    case OpenZimBackend(_) => OpenZim.StreamMatchesSize(n.article);
    case NoBackend =>
  }

  /**
   * Through the shard interface, a libzim article's model id leads back to
   * the article, and the model is built from that article.
   */
  lemma ZimModelIdRoundTrip(zim: OpenZim.ZimFile, a: OpenZim.ZimArticle, count: nat, digest: nat -> string)
    requires (a.namespace, a.url) in zim && zim[(a.namespace, a.url)] == a
    requires a.good && a.redirect.None? && a.namespace != '/'
    ensures var id := OpenZim.ZimId(a)[|"ekn+zim:///"|..];
      id != "" && Find(OpenZimBackend(zim), id) == Some(ZimNative(a))
    ensures var g := GetModel(OpenZimBackend(zim), ZimNative(a), count, digest).value;
      && g.0.Success?
      && GetProperty(g.0.value, Id) == Some(VString(OpenZim.ZimId(a)))
      && g.1 == count
  {
    var id := OpenZim.ZimId(a)[|"ekn+zim:///"|..];
    assert id == [a.namespace] + "/" + a.url;
    OpenZim.ModelIdFindsArticle(zim, a);
    OpenZim.GetModelFields(a);
    OpenZim.ConstructingKeepsModel(a, count, digest);
  }

  /** The free function each backend hands its records. */
  function DestroyFor(b: Backend): DestroyFunc {
    if b.OpenZimBackend? then GObjectUnref else GFree
  }

  /** A DmShard and its private data. */
  class Shard {
    const path: string
    const backend: Backend
    var dbOffsetOverride: int
    var calculatedDbOffset: int
    /** How many times the backend was asked to calculate the offset. */
    ghost var calculations: nat

    /** dm_shard_init: neither an override nor a calculated offset yet. */
    constructor(path: string, backend: Backend)
      ensures this.path == path && this.backend == backend
      ensures dbOffsetOverride == -1 && calculatedDbOffset == -1 && calculations == 0
    {
      this.path := path;
      this.backend := backend;
      dbOffsetOverride := -1;
      calculatedDbOffset := -1;
      calculations := 0;
    }

    /**
     * The offset GetDbOffset answers in this state: the override when it
     * is not negative, else the cached value, else a fresh calculation.
     */
    function EffectiveOffset(): int
      reads this
    {
      if dbOffsetOverride >= 0 then dbOffsetOverride
      else if calculatedDbOffset != -1 then calculatedDbOffset
      else CalculateDbOffset(backend)
    }

    /** dm_shard_override_db_offset: a negative value withdraws the override. */
    method OverrideDbOffset(offset: int)
      modifies this
      ensures dbOffsetOverride == offset
      ensures calculatedDbOffset == old(calculatedDbOffset) && calculations == old(calculations)
      ensures offset >= 0 ==> EffectiveOffset() == offset
      ensures offset < 0 ==> EffectiveOffset() == old(
        if calculatedDbOffset != -1 then calculatedDbOffset else CalculateDbOffset(backend))
    {
      dbOffsetOverride := offset;
    }

    /**
     * dm_shard_get_db_offset: the override if there is one; otherwise the
     * cached value, calculating it first when the cache holds -1.
     */
    method GetDbOffset() returns (r: int)
      modifies this
      ensures r == old(EffectiveOffset()) && EffectiveOffset() == old(EffectiveOffset())
      ensures dbOffsetOverride == old(dbOffsetOverride)
      ensures old(dbOffsetOverride) >= 0 ==>
        calculatedDbOffset == old(calculatedDbOffset) && calculations == old(calculations)
      ensures old(dbOffsetOverride) < 0 && old(calculatedDbOffset) != -1 ==>
        calculatedDbOffset == old(calculatedDbOffset) && calculations == old(calculations)
      ensures old(dbOffsetOverride) < 0 && old(calculatedDbOffset) == -1 ==>
        calculatedDbOffset == CalculateDbOffset(backend) && calculations == old(calculations) + 1
    {
      if dbOffsetOverride >= 0 {
        return dbOffsetOverride;
      }
      if calculatedDbOffset == -1 {
        calculatedDbOffset := CalculateDbOffset(backend);
        calculations := calculations + 1;
      }
      r := calculatedDbOffset;
    }

    /**
     * dm_shard_find_by_id, wrapping the backend's native record in a new
     * DmShardRecord owned by this shard.
     */
    method FindById(id: string) returns (r: ShardRecord?<Shard, Native, DestroyFunc>)
      requires backend.OpenZimBackend? ==> id != ""
      ensures Find(backend, id).None? ==> r == null
      ensures Find(backend, id).Some? ==>
        r != null && fresh(r) && r.shard == this && r.native == Find(backend, id)
        && r.destroy == DestroyFor(backend) && r.refCount == 1 && r.released == None
    {
      var n := Find(backend, id);
      if n.None? {
        return null;
      }
      r := new ShardRecord(this, n, DestroyFor(backend));
    }
  }

  /**
   * Two reads of the offset of a shard without an override calculate it
   * once, unless the calculation gave -1, which is indistinguishable from
   * "not cached" and is calculated again.
   */
  method ReadOffsetTwice(s: Shard) returns (first: int, second: int)
    requires s.dbOffsetOverride < 0 && s.calculatedDbOffset == -1
    modifies s
    ensures first == second == CalculateDbOffset(s.backend)
    ensures first != -1 ==> s.calculations == old(s.calculations) + 1
    ensures first == -1 ==> s.calculations == old(s.calculations) + 2
  {
    first := s.GetDbOffset();
    second := s.GetDbOffset();
  }
}
