/**
 * DmContent's JSON side: the table from metadata member names to
 * properties, dm_content_add_json_to_params, the `constructed` hook that
 * gives an id-less model a mock EKN id, and dm_content_new_from_json_node.
 */
module Content {
  import opened Wrappers
  import opened Json
  import opened Props
  import opened Objects

  /** MOCKED_OBJECTS is a guint64. */
  const CounterLimit: nat := 0x1_0000_0000_0000_0000

  /** JSON member name to property, in the order the members are appended. */
  function Table(): (t: seq<Entry>)
    ensures |t| == 19 && forall k | 0 <= k < 19 :: t[k] == Row(k)
  {
    seq(19, k requires 0 <= k < 19 => Row(k))
  }

  function Row(k: nat): Entry
    requires k < 19
  {
    match k
    case 0 => Entry("@id", Id)
    case 1 => Entry("contentType", ContentType)
    case 2 => Entry("title", Title)
    case 3 => Entry("originalTitle", OriginalTitle)
    case 4 => Entry("originalURI", OriginalUri)
    case 5 => Entry("language", Language)
    case 6 => Entry("copyrightHolder", CopyrightHolder)
    case 7 => Entry("sourceURI", SourceUri)
    case 8 => Entry("synopsis", Synopsis)
    case 9 => Entry("lastModifiedDate", LastModifiedDate)
    case 10 => Entry("license", License)
    case 11 => Entry("thumbnail", ThumbnailUri)
    case 12 => Entry("featured", Featured)
    case 13 => Entry("tags", Tags)
    case 14 => Entry("resources", Resources)
    case 15 => Entry("discoveryFeedContent", DiscoveryFeedContent)
    case 16 => Entry("sequenceNumber", SequenceNumber)
    case 17 => Entry("canPrint", CanPrint)
    case _ => Entry("canExport", CanExport)
  }

  /** The parameters dm_content_add_json_to_params appends; none for a non-object node. */
  function Params(node: Node): seq<Param> {
    if node.JObject? then ParamsOf(node.members, Table()) else []
  }

  /** Where the table names a DmContent property. */
  function TableIndex(q: Prop): (i: nat)
    requires IsContentProp(q)
    ensures i < |Table()| && Table()[i].prop == q
  {
    match q
    case Id => 0
    case ContentType => 1
    case Title => 2
    case OriginalTitle => 3
    case OriginalUri => 4
    case Language => 5
    case CopyrightHolder => 6
    case SourceUri => 7
    case Synopsis => 8
    case LastModifiedDate => 9
    case License => 10
    case ThumbnailUri => 11
    case Featured => 12
    case Tags => 13
    case Resources => 14
    case DiscoveryFeedContent => 15
    case SequenceNumber => 16
    case CanPrint => 17
    case CanExport => 18
  }

  /** The table names each DmContent property, and only those, once. */
  lemma TableCoversContent()
    ensures forall i, j | 0 <= i < j < |Table()| :: Table()[i].prop != Table()[j].prop
    ensures forall e | e in Table() :: IsContentProp(e.prop)
  {
    assert forall i | 0 <= i < |Table()| :: IsContentProp(Table()[i].prop) && TableIndex(Table()[i].prop) == i;
  }

  /** No JSON key appears twice in the table. */
  lemma TableKeysDistinct()
    ensures forall i, j | 0 <= i < j < |Table()| :: Table()[i].key != Table()[j].key
  {
  }

  /** "@type" selects the class; no row of the table reads it. */
  lemma TypeKeyNotInTable()
    ensures forall e | e in Table() :: e.key != "@type"
  {
    assert forall i | 0 <= i < |Table()| :: Table()[i].key != "@type";
  }

  /** dm_content_add_json_to_params */
  method AddJsonToParams(node: Node, params: ParamArray)
    modifies params
    ensures params.items == old(params.items) + Params(node)
  {
    if !node.JObject? {
      return;
    }
    var o := node.members;
    ghost var start := params.items;
    AppendStep(o, Table(), start, params.items, 0);
    params.AppendMember(o, "@id", Id);
    AppendStep(o, Table(), start, params.items, 1);
    params.AppendMember(o, "contentType", ContentType);
    AppendStep(o, Table(), start, params.items, 2);
    params.AppendMember(o, "title", Title);
    AppendStep(o, Table(), start, params.items, 3);
    params.AppendMember(o, "originalTitle", OriginalTitle);
    AppendStep(o, Table(), start, params.items, 4);
    params.AppendMember(o, "originalURI", OriginalUri);
    AppendStep(o, Table(), start, params.items, 5);
    params.AppendMember(o, "language", Language);
    AppendStep(o, Table(), start, params.items, 6);
    params.AppendMember(o, "copyrightHolder", CopyrightHolder);
    AppendStep(o, Table(), start, params.items, 7);
    params.AppendMember(o, "sourceURI", SourceUri);
    AppendStep(o, Table(), start, params.items, 8);
    params.AppendMember(o, "synopsis", Synopsis);
    AppendStep(o, Table(), start, params.items, 9);
    params.AppendMember(o, "lastModifiedDate", LastModifiedDate);
    AppendStep(o, Table(), start, params.items, 10);
    params.AppendMember(o, "license", License);
    AppendStep(o, Table(), start, params.items, 11);
    params.AppendMember(o, "thumbnail", ThumbnailUri);
    AppendStep(o, Table(), start, params.items, 12);
    params.AppendMember(o, "featured", Featured);
    AppendStep(o, Table(), start, params.items, 13);
    params.AppendMember(o, "tags", Tags);
    AppendStep(o, Table(), start, params.items, 14);
    params.AppendMember(o, "resources", Resources);
    AppendStep(o, Table(), start, params.items, 15);
    params.AppendMember(o, "discoveryFeedContent", DiscoveryFeedContent);
    AppendStep(o, Table(), start, params.items, 16);
    params.AppendMember(o, "sequenceNumber", SequenceNumber);
    AppendStep(o, Table(), start, params.items, 17);
    params.AppendMember(o, "canPrint", CanPrint);
    AppendStep(o, Table(), start, params.items, 18);
    params.AppendMember(o, "canExport", CanExport);
    ParamsUpToAll(o, Table());
  }

  /** The mock id the `constructed` hook gives when the counter reads `n`. */
  function MockId(n: nat, digest: nat -> string): string {
    "ekn:///" + digest(n)
  }

  /**
   * dm_content_constructed: an empty id is replaced by "ekn:///" followed by
   * the SHA-1 of the counter (`digest`); any other id is kept.
   */
  function Constructed(c: ContentFields, n: nat, digest: nat -> string): (r: ContentFields)
    ensures r.id != ""
    ensures c.id != "" ==> r == c
    ensures c.id == "" ==> r == c.(id := MockId(n, digest))
  {
    if c.id == "" then c.(id := MockId(n, digest)) else c
  }


  /** The model `m` after its `constructed` hook ran with the counter at `n`. */
  function Finished(m: Model, n: nat, digest: nat -> string): (r: Model)
    ensures r.Kind() == m.Kind() && r.content.id != ""
  {
    m.(content := Constructed(m.content, n, digest))
  }

  /** The counter after the `constructed` hook ran on `m`. */
  function NextCount(m: Model, n: nat): nat {
    if m.content.id == "" then (n + 1) % CounterLimit else n
  }

  /** The models the `constructed` hook yields on `ms`, constructed in order from counter `n`. */
  ghost function FinishedInOrder(ms: seq<Model>, n: nat, digest: nat -> string): (r: seq<Model>)
    ensures |r| == |ms|
    decreases |ms|
  {
    if ms == [] then [] else [Finished(ms[0], n, digest)] + FinishedInOrder(ms[1..], NextCount(ms[0], n), digest)
  }

  /** The SHA-1 digest of the eight counter bytes does not collide on the counter's range. */
  ghost predicate DigestInjective(digest: nat -> string) {
    forall a: nat, b: nat | a < b < CounterLimit :: digest(a) != digest(b)
  }

  lemma ModShift(a: nat, b: nat)
    ensures (a % CounterLimit + b) % CounterLimit == (a + b) % CounterLimit
  {
    var q := a / CounterLimit;
    assert a == q * CounterLimit + a % CounterLimit;
  }

  lemma ModApart(x: nat, d: nat)
    requires 0 < d < CounterLimit
    ensures (x + d) % CounterLimit != x % CounterLimit
  {
    var qx, qy := x / CounterLimit, (x + d) / CounterLimit;
    assert x == qx * CounterLimit + x % CounterLimit;
    assert x + d == qy * CounterLimit + (x + d) % CounterLimit;
  }

  /** The `i`-th of a run of id-less models gets the mock id of counter `n + i`, wrapped. */
  lemma {:induction false} FinishedInOrderIds(ms: seq<Model>, n: nat, digest: nat -> string)
    requires forall k | 0 <= k < |ms| :: ms[k].content.id == ""
    requires n < CounterLimit
    ensures forall i | 0 <= i < |ms| ::
      FinishedInOrder(ms, n, digest)[i].content.id == MockId((n + i) % CounterLimit, digest)
    decreases |ms|
  {
    if ms != [] {
      var n' := NextCount(ms[0], n);
      assert n' == (n + 1) % CounterLimit;
      FinishedInOrderIds(ms[1..], n', digest);
      forall i | 0 <= i < |ms|
        ensures FinishedInOrder(ms, n, digest)[i].content.id == MockId((n + i) % CounterLimit, digest)
      {
        if i == 0 {
          assert FinishedInOrder(ms, n, digest)[0] == Finished(ms[0], n, digest);
          assert Finished(ms[0], n, digest).content.id == MockId(n, digest);
          assert (n + 0) % CounterLimit == n;
        } else {
          assert FinishedInOrder(ms, n, digest)[i] == FinishedInOrder(ms[1..], n', digest)[i - 1];
          ModShift(n + 1, i - 1);
        }
      }
    }
  }

  /**
   * Up to 2^64 id-less models constructed one after another get pairwise
   * distinct mock ids, so long as the digest does not collide.
   */
  lemma MockIdsDistinct(ms: seq<Model>, n: nat, digest: nat -> string)
    requires forall k | 0 <= k < |ms| :: ms[k].content.id == ""
    requires |ms| <= CounterLimit && n < CounterLimit
    requires DigestInjective(digest)
    ensures forall i, j | 0 <= i < j < |ms| ::
      FinishedInOrder(ms, n, digest)[i].content.id != FinishedInOrder(ms, n, digest)[j].content.id
  {
    FinishedInOrderIds(ms, n, digest);
    var p := "ekn:///";
    forall i, j | 0 <= i < j < |ms|
      ensures FinishedInOrder(ms, n, digest)[i].content.id != FinishedInOrder(ms, n, digest)[j].content.id
    {
      var a, b := (n + i) % CounterLimit, (n + j) % CounterLimit;
      ModApart(n + i, j - i);
      assert MockId(a, digest)[|p|..] == digest(a);
      assert MockId(b, digest)[|p|..] == digest(b);
      if a < b {
        assert digest(a) != digest(b);
      } else {
        assert digest(b) != digest(a);
      }
    }
  }

  /** Two id-less models constructed in a row get different mock ids. */
  lemma SuccessiveMockIdsDistinct(m1: Model, m2: Model, n: nat, digest: nat -> string)
    requires m1.content.id == "" && m2.content.id == ""
    requires n < CounterLimit && DigestInjective(digest)
    ensures Finished(m1, n, digest).content.id != Finished(m2, NextCount(m1, n), digest).content.id
  {
    MockIdsDistinct([m1, m2], n, digest);
    assert [m1, m2][1..] == [m2];
    assert FinishedInOrder([m1, m2], n, digest)[0] == Finished(m1, n, digest);
    assert FinishedInOrder([m1, m2], n, digest)[1] == Finished(m2, NextCount(m1, n), digest);
  }

  /**
   * The static MOCKED_OBJECTS counter, together with the SHA-1 hex digest of
   * its eight bytes, which this model takes as given.
   */
  class MockIds {
    var count: nat
    const digest: nat -> string

    constructor (digest: nat -> string)
      ensures count == 0 && this.digest == digest
    {
      count := 0;
      this.digest := digest;
    }

    /** Runs dm_content_constructed on a freshly constructed model. */
    method Finish(m: Model) returns (r: Model)
      modifies this
      ensures r == Finished(m, old(count), digest)
      ensures count == NextCount(m, old(count))
    {
      r := m.(content := Constructed(m.content, count, digest));
      if m.content.id == "" {
        count := (count + 1) % CounterLimit;
      }
    }
  }

  /** dm_content_new_from_json_node */
  method NewFromJsonNode(node: Node, ids: MockIds) returns (m: Model)
    modifies ids
    ensures m == Finished(Construct(ContentKind, Params(node)), old(ids.count), ids.digest)
    ensures ids.count == NextCount(Construct(ContentKind, Params(node)), old(ids.count))
  {
    var params := new ParamArray();
    AddJsonToParams(node, params);
    assert params.items == Params(node);
    m := Construct(ContentKind, params.items);
    m := ids.Finish(m);
  }
}
