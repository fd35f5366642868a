/**
 * DmShardRecord: a reference-counted box around a backend's native record,
 * the shard that owns it and the function that frees the native record.
 */
module Records {
  import opened Wrappers

  /**
   * One record. `native` becomes `None` once the last reference is dropped;
   * `released` then holds the native record that was handed to `destroy`.
   */
  class ShardRecord<S, N, D> {
    const shard: S
    const destroy: D
    var native: Option<N>
    var refCount: nat
    var released: Option<N>

    /** dm_shard_record_new */
    constructor(shard: S, native: Option<N>, destroy: D)
      ensures this.shard == shard && this.native == native && this.destroy == destroy
      ensures refCount == 1 && released == None
    {
      this.shard := shard;
      this.destroy := destroy;
      this.native := native;
      refCount := 1;
      released := None;
    }

    /** A record that has not been freed. */
    predicate Live()
      reads this
    {
      refCount > 0
    }
  }

  /** dm_shard_record_get_shard: `None` for a NULL or freed record. */
  function GetShard<S, N, D>(r: ShardRecord?<S, N, D>): (s: Option<S>)
    reads r
    ensures s.Some? <==> r != null && r.Live()
    ensures s.Some? ==> s.value == r.shard
  {
    if r == null || !r.Live() then None else Some(r.shard)
  }

  /** dm_shard_record_get_native: `None` for a NULL or freed record. */
  function GetNative<S, N, D>(r: ShardRecord?<S, N, D>): (n: Option<N>)
    reads r
    ensures r == null || !r.Live() ==> n == None
    ensures r != null && r.Live() ==> n == r.native
  {
    if r == null || !r.Live() then None else r.native
  }

  /** dm_shard_record_ref: one more reference; NULL and freed records are refused. */
  method Ref<S, N, D>(r: ShardRecord?<S, N, D>) returns (res: ShardRecord?<S, N, D>)
    modifies r
    ensures r == null || old(r.refCount) == 0 ==> res == null
    ensures r != null && old(r.refCount) == 0 ==> r.refCount == 0
    ensures r != null && old(r.refCount) > 0 ==> res == r && r.refCount == old(r.refCount) + 1
    ensures r != null ==> r.native == old(r.native) && r.released == old(r.released)
  {
    if r == null || r.refCount == 0 {
      return null;
    }
    r.refCount := r.refCount + 1;
    res := r;
  }

  /**
   * dm_shard_record_unref: one reference fewer; dropping the last one
   * frees the record, running `destroy` on the native record.
   */
  method Unref<S, N, D>(r: ShardRecord?<S, N, D>)
    modifies r
    ensures r != null && old(r.refCount) == 0 ==>
      r.refCount == 0 && r.native == old(r.native) && r.released == old(r.released)
    ensures r != null && old(r.refCount) > 1 ==>
      r.refCount == old(r.refCount) - 1 && r.native == old(r.native) && r.released == old(r.released)
    ensures r != null && old(r.refCount) == 1 ==>
      r.refCount == 0 && r.native == None && r.released == old(r.native)
  {
    if r == null || r.refCount == 0 {
      return;
    }
    r.refCount := r.refCount - 1;
    if r.refCount == 0 {
      r.released := r.native;
      r.native := None;
    }
  }

  /**
   * dm_shard_record_copy: a new record with one reference that shares the
   * shard, native record and destroy function of `r`.
   */
  method Copy<S, N, D>(r: ShardRecord?<S, N, D>) returns (c: ShardRecord?<S, N, D>)
    ensures r == null || !r.Live() ==> c == null
    ensures r != null && r.Live() ==>
      c != null && fresh(c) && c.refCount == 1 && c.released == None
      && c.shard == r.shard && c.native == r.native && c.destroy == r.destroy
  {
    if r == null || r.refCount == 0 {
      return null;
    }
    c := new ShardRecord(r.shard, r.native, r.destroy);
  }

  /**
   * Taking `n` references on a new record and dropping `n + 1` frees it,
   * handing its native record to `destroy` exactly when the count reaches zero.
   */
  method RefsThenUnrefs<S, N, D>(shard: S, native: N, destroy: D, n: nat) returns (r: ShardRecord<S, N, D>)
    ensures r.refCount == 0 && r.native == None && r.released == Some(native)
  {
    r := new ShardRecord(shard, Some(native), destroy);
    var i := 0;
    while i < n
      invariant 0 <= i <= n
      invariant r.refCount == i + 1 && r.native == Some(native) && r.released == None
    {
      var same := Ref(r);
      i := i + 1;
    }
    while i > 0
      invariant 0 <= i <= n
      invariant r.refCount == i + 1 && r.native == Some(native) && r.released == None
    {
      Unref(r);
      i := i - 1;
    }
    Unref(r);
  }
}
