/**
 * Construct-time parameters. The `*_add_json_to_params` functions fill a
 * caller-owned GArray of GParameter, one entry per JSON member found,
 * and g_object_newv then hands every entry to the class's set_property.
 *
 * Converting a JSON member to a property value is done by
 * dm_utils_append_gparam_from_json_node, which is not part of this model.
 * `Coerce` stands in for it. It keeps strings, booleans, string arrays and
 * objects as they are. It reads unsigned integers from JSON integers or
 * decimal strings; the fixtures in the library's tests write width, height
 * and duration as strings such as "666". It drops a member whose JSON kind
 * does not fit the property.
 */
module Props {
  import opened Wrappers
  import opened Json

  /** G_MAXUINT */
  const MaxUint: nat := 4294967295

  /** Every construct-only property of the content class hierarchy. */
  datatype Prop =
      // DmContent
    | Id | Title | OriginalTitle | OriginalUri | ThumbnailUri | Language
    | CopyrightHolder | SourceUri | ContentType | Synopsis | LastModifiedDate
    | License | Featured | Tags | Resources | DiscoveryFeedContent
    | SequenceNumber | CanPrint | CanExport
      // DmMedia
    | Caption | Width | Height | ParentUri
      // DmVideo and DmAudio
    | Duration | Transcript
      // DmVideo
    | PosterUri
      // DmSet
    | ChildTags

  datatype PropType = StringProp | UintProp | BoolProp | StrvProp | ObjectProp

  /** The GParamSpec type of each property. */
  function TypeOf(p: Prop): PropType {
    match p
    case Featured | CanPrint | CanExport => BoolProp
    case Tags | Resources | ChildTags => StrvProp
    case DiscoveryFeedContent => ObjectProp
    case SequenceNumber | Width | Height | Duration => UintProp
    case _ => StringProp
  }

  /** A GValue. `VNull` is what a boxed or string property holds before it is set. */
  datatype Value =
    | VString(s: string)
    | VUint(n: nat)
    | VBool(b: bool)
    | VStrv(strv: seq<string>)
    | VObject(o: map<string, Node>)
    | VNull

  predicate HasType(v: Value, t: PropType) {
    match t
    case StringProp => v.VString?
    case UintProp => v.VUint? && v.n <= MaxUint
    case BoolProp => v.VBool?
    case StrvProp => v.VStrv?
    case ObjectProp => v.VObject?
  }

  /** A GParameter: a property name and the value to construct it with. */
  datatype Param = Param(prop: Prop, value: Value)

  predicate WellTyped(p: Param) {
    HasType(p.value, TypeOf(p.prop))
  }

  predicate AllWellTyped(ps: seq<Param>) {
    forall i | 0 <= i < |ps| :: WellTyped(ps[i])
  }

  predicate IsDigit(c: char) {
    '0' <= c <= '9'
  }

  /** The value of a non-empty string of decimal digits. */
  function DecimalValue(s: string): (n: nat)
    requires forall i | 0 <= i < |s| :: IsDigit(s[i])
    decreases |s|
  {
    if s == [] then 0
    else
      assert IsDigit(s[|s| - 1]);
      10 * DecimalValue(s[..|s| - 1]) + (s[|s| - 1] as int - '0' as int)
  }

  function ParseDecimal(s: string): (r: Option<nat>)
    ensures r.Some? <==> s != [] && forall i | 0 <= i < |s| :: IsDigit(s[i])
    ensures r.Some? ==> r.value == DecimalValue(s)
  {
    if s != [] && forall i | 0 <= i < |s| :: IsDigit(s[i]) then Some(DecimalValue(s)) else None
  }

  function StringsOf(nodes: seq<Node>): (r: Option<seq<string>>)
    ensures r.Some? ==> |r.value| == |nodes|
    ensures r.Some? <==> forall i | 0 <= i < |nodes| :: nodes[i].JString?
    ensures r.Some? ==> forall i | 0 <= i < |nodes| :: r.value[i] == nodes[i].s
  {
    if forall i | 0 <= i < |nodes| :: nodes[i].JString? then
      Some(seq(|nodes|, i requires 0 <= i < |nodes| => nodes[i].s))
    else None
  }

  /** The value a JSON member gives a property of type `t`, if it gives one. */
  function Coerce(n: Node, t: PropType): (r: Option<Value>)
    ensures r.Some? ==> HasType(r.value, t)
    ensures t == StringProp ==> (r.Some? <==> n.JString?)
    ensures t == StringProp && n.JString? ==> r == Some(VString(n.s))
    ensures t == UintProp ==> (r.Some? <==>
      (n.JInt? && 0 <= n.i <= MaxUint)
      || (n.JString? && ParseDecimal(n.s).Some? && ParseDecimal(n.s).value <= MaxUint))
    ensures t == UintProp && n.JInt? && r.Some? ==> r == Some(VUint(n.i))
    ensures t == UintProp && n.JString? && r.Some? ==> r == Some(VUint(ParseDecimal(n.s).value))
  {
    match t
    case StringProp => if n.JString? then Some(VString(n.s)) else None
    case BoolProp => if n.JBool? then Some(VBool(n.b)) else None
    case ObjectProp => if n.JObject? then Some(VObject(n.members)) else None
    case StrvProp =>
      if n.JArray? && StringsOf(n.elements).Some? then Some(VStrv(StringsOf(n.elements).value)) else None
    case UintProp =>
      if n.JInt? && 0 <= n.i <= MaxUint then Some(VUint(n.i))
      else if n.JString? && ParseDecimal(n.s).Some? && ParseDecimal(n.s).value <= MaxUint then
        Some(VUint(ParseDecimal(n.s).value))
      else None
  }

  /** One row of a class's table from JSON member name to property. */
  datatype Entry = Entry(key: string, prop: Prop)

  /** The value the member named by `e` gives its property, if any. */
  function EntryValue(members: map<string, Node>, e: Entry): Option<Value> {
    if e.key in members then Coerce(members[e.key], TypeOf(e.prop)) else None
  }

  /** What one dm_utils_append_gparam_from_json_node call appends. */
  function FromMember(members: map<string, Node>, e: Entry): (r: seq<Param>)
    ensures |r| <= 1
    ensures r == [] <==> EntryValue(members, e).None?
    ensures r != [] ==> r[0] == Param(e.prop, EntryValue(members, e).value) && WellTyped(r[0])
  {
    match EntryValue(members, e)
    case Some(v) => [Param(e.prop, v)]
    case None => []
  }

  /** The parameters appended for a whole table, in table order. */
  function ParamsOf(members: map<string, Node>, table: seq<Entry>): seq<Param>
    decreases |table|
  {
    if table == [] then []
    else ParamsOf(members, table[..|table| - 1]) + FromMember(members, table[|table| - 1])
  }

  /**
   * The value a parameter list gives `q`, read as a fold that lets the
   * last parameter naming `q` decide. The JSON tables never name a
   * property twice (Base.TableForDistinct), so g_object_newv, which
   * refuses a construct-only property given twice, meets only lists in
   * which the last parameter is the only one.
   */
  function LastFor(ps: seq<Param>, q: Prop): Option<Value>
    decreases |ps|
  {
    if ps == [] then None
    else if ps[|ps| - 1].prop == q then Some(ps[|ps| - 1].value)
    else LastFor(ps[..|ps| - 1], q)
  }

  /** No property is named by two rows of the table. */
  predicate DistinctProps(table: seq<Entry>) {
    forall i, j | 0 <= i < j < |table| :: table[i].prop != table[j].prop
  }

  lemma DistinctPropsAppend(a: seq<Entry>, b: seq<Entry>)
    requires DistinctProps(a) && DistinctProps(b)
    requires forall i, j | 0 <= i < |a| && 0 <= j < |b| :: a[i].prop != b[j].prop
    ensures DistinctProps(a + b)
  {
  }

  /** Every parameter a table produces is well typed and names one of the table's properties. */
  lemma {:induction false} ParamsOfShape(members: map<string, Node>, table: seq<Entry>)
    ensures AllWellTyped(ParamsOf(members, table))
    ensures |ParamsOf(members, table)| <= |table|
    ensures forall p | p in ParamsOf(members, table) :: exists e | e in table :: e.prop == p.prop
    decreases |table|
  {
    if table != [] {
      var front := table[..|table| - 1];
      ParamsOfShape(members, front);
      assert forall e | e in front :: e in table;
    }
  }

  lemma {:induction false} ParamsOfAppend(members: map<string, Node>, t1: seq<Entry>, t2: seq<Entry>)
    ensures ParamsOf(members, t1 + t2) == ParamsOf(members, t1) + ParamsOf(members, t2)
    decreases |t2|
  {
    if t2 == [] {
      assert t1 + t2 == t1;
    } else {
      var front := t2[..|t2| - 1];
      assert (t1 + t2)[..|t1 + t2| - 1] == t1 + front;
      ParamsOfAppend(members, t1, front);
    }
  }

  lemma {:induction false} LastForAppend(ps: seq<Param>, qs: seq<Param>, q: Prop)
    ensures LastFor(ps + qs, q) == if LastFor(qs, q).Some? then LastFor(qs, q) else LastFor(ps, q)
    decreases |qs|
  {
    if qs == [] {
      assert ps + qs == ps;
    } else {
      assert (ps + qs)[..|ps + qs| - 1] == ps + qs[..|qs| - 1];
      LastForAppend(ps, qs[..|qs| - 1], q);
    }
  }

  /**
   * When no property is named twice, the value left in a property is the
   * one its own JSON member gives.
   */
  lemma {:induction false} LastForTable(members: map<string, Node>, table: seq<Entry>, i: nat)
    requires DistinctProps(table) && i < |table|
    ensures LastFor(ParamsOf(members, table), table[i].prop) == EntryValue(members, table[i])
    decreases |table|
  {
    var front := table[..|table| - 1];
    var last := table[|table| - 1];
    LastForAppend(ParamsOf(members, front), FromMember(members, last), table[i].prop);
    if i < |table| - 1 {
      assert last.prop != table[i].prop;
      LastForTable(members, front, i);
    } else {
      LastForAbsent(members, front, last.prop);
    }
  }

  lemma {:induction false} LastForAbsent(members: map<string, Node>, table: seq<Entry>, q: Prop)
    requires forall e | e in table :: e.prop != q
    ensures LastFor(ParamsOf(members, table), q).None?
    decreases |table|
  {
    if table != [] {
      var front := table[..|table| - 1];
      assert forall e | e in front :: e in table;
      LastForAppend(ParamsOf(members, front), FromMember(members, table[|table| - 1]), q);
      LastForAbsent(members, front, q);
    }
  }

  /** The parameters of the first `k` rows of `table`, counted from the front. */
  function ParamsUpTo(members: map<string, Node>, table: seq<Entry>, k: nat): seq<Param>
    requires k <= |table|
  {
    if k == 0 then [] else ParamsUpTo(members, table, k - 1) + FromMember(members, table[k - 1])
  }

  lemma {:induction false} ParamsUpToPrefix(members: map<string, Node>, table: seq<Entry>, k: nat)
    requires k <= |table|
    ensures ParamsUpTo(members, table, k) == ParamsOf(members, table[..k])
  {
    if k > 0 {
      ParamsUpToPrefix(members, table, k - 1);
      assert table[..k][..k - 1] == table[..k - 1];
    }
  }

  /** Counting every row from the front gives the table's parameters. */
  lemma ParamsUpToAll(members: map<string, Node>, table: seq<Entry>)
    ensures ParamsUpTo(members, table, |table|) == ParamsOf(members, table)
  {
    ParamsUpToPrefix(members, table, |table|);
    assert table[..|table|] == table;
  }

  /**
   * One append of an add_json_to_params function: if the array holds
   * `start` and the parameters of the first `k` rows, appending row `k`
   * extends that to the first `k + 1`.
   */
  lemma AppendStep(members: map<string, Node>, table: seq<Entry>, start: seq<Param>, items: seq<Param>, k: nat)
    requires k < |table|
    requires items == start + ParamsUpTo(members, table, k)
    ensures items + FromMember(members, table[k]) == start + ParamsUpTo(members, table, k + 1)
  {
  }

  lemma Associate(a: seq<Param>, b: seq<Param>, c: seq<Param>)
    ensures (a + b) + c == a + (b + c)
  {
  }

  /** The caller-owned GArray of GParameter. */
  class ParamArray {
    var items: seq<Param>

    constructor ()
      ensures items == []
    {
      items := [];
    }

    /**
     * dm_utils_append_gparam_from_json_node (json_object_get_member (object, key),
     * g_object_class_find_property (klass, prop), params).
     */
    method AppendMember(members: map<string, Node>, key: string, prop: Prop)
      modifies this
      ensures items == old(items) + FromMember(members, Entry(key, prop))
    {
      match EntryValue(members, Entry(key, prop)) {
        case Some(v) => items := items + [Param(prop, v)];
        case None =>
      }
    }
  }
}
