/**
 * The GJS override of the library: hyphenated property names get an
 * underscored alias, the props dictionary handed to a model constructor
 * is marshalled in place, the table of contents crosses between JS arrays
 * of objects and an 'aa{sv}' GVariant, and Query.new_from_object merges a
 * source query's properties under the ones given.
 */
module GjsOverride {
  import opened Wrappers

  /**
   * A GLib.Variant built from a JS value, with its type signature. The
   * conversion GLib.Variant makes of the value is not modelled: the
   * variant keeps the value.
   */
  datatype Variant = Typed(signature: char, value: JsValue)

  /** The JS values the override handles; an 'aa{sv}' variant is a value of its own. */
  datatype JsValue =
    | Undefined
    | Null
    | Bool(b: bool)
    | Number(n: int)
    | Str(s: string)
    | Array(elements: seq<JsValue>)
    | Object(members: map<string, JsValue>)
    | DictArray(dicts: seq<map<string, Variant>>)

  /** JS truthiness: undefined, null, false, 0 and "" are falsy; objects and arrays are truthy. */
  predicate Truthy(v: JsValue) {
    match v
    case Undefined => false
    case Null => false
    case Bool(b) => b
    case Number(n) => n != 0
    case Str(s) => s != ""
    case _ => true
  }

  /** `obj[key]`: undefined for a key the object does not have. */
  function Get(m: map<string, JsValue>, key: string): JsValue {
    if key in m then m[key] else Undefined
  }

  /** toUnderscore: `string.replace(/-/g, '_')`. */
  function ToUnderscore(s: string): (r: string)
    ensures |r| == |s|
    ensures forall i | 0 <= i < |s| :: r[i] == (if s[i] == '-' then '_' else s[i])
  {
    if s == "" then "" else [if s[0] == '-' then '_' else s[0]] + ToUnderscore(s[1..])
  }

  /**
   * The underscored name has no hyphen, changes a name without one not at
   * all, and underscoring twice is underscoring once.
   */
  lemma ToUnderscoreProperties(s: string)
    ensures '-' !in ToUnderscore(s)
    ensures '-' !in s <==> ToUnderscore(s) == s
    ensures ToUnderscore(ToUnderscore(s)) == ToUnderscore(s)
  {
    var r := ToUnderscore(s);
    assert forall i | 0 <= i < |r| :: r[i] != '-';
    if '-' in s {
      var i :| 0 <= i < |s| && s[i] == '-';
      assert r[i] != s[i];
    }
  }

  /** A JS object updated in place: a props dictionary, or a class prototype. */
  class JsObject {
    var members: map<string, JsValue>

    constructor(members: map<string, JsValue>)
      ensures this.members == members
    {
      this.members := members;
    }
  }

  /**
   * define_property: the descriptor goes on the prototype under the name
   * and under its underscored alias; nothing else changes.
   */
  method DefineProperty(proto: JsObject, name: string, descriptor: JsValue)
    modifies proto
    ensures proto.members == old(proto.members)[name := descriptor][ToUnderscore(name) := descriptor]
    ensures Get(proto.members, name) == descriptor && Get(proto.members, ToUnderscore(name)) == descriptor
    ensures forall k | k != name && k != ToUnderscore(name) :: Get(proto.members, k) == Get(old(proto.members), k)
  {
    proto.members := proto.members[name := descriptor];
    proto.members := proto.members[ToUnderscore(name) := descriptor];
  }

  /**
   * marshal_property on a props dictionary: the value under `name` is
   * passed through the marshaller when it is truthy, then so is the value
   * under the underscored alias when the alias is a different key.
   */
  function Marshalled(m: map<string, JsValue>, name: string, marshaller: JsValue -> JsValue): map<string, JsValue> {
    var first := if Truthy(Get(m, name)) then m[name := marshaller(m[name])] else m;
    var alias := ToUnderscore(name);
    if alias != name && Truthy(Get(first, alias)) then first[alias := marshaller(first[alias])] else first
  }

  /**
   * marshal_property rewrites only the name and its alias, each only when
   * its value is truthy and each from its own former value; it adds and
   * removes no key.
   */
  lemma MarshalledEffect(m: map<string, JsValue>, name: string, marshaller: JsValue -> JsValue)
    ensures Marshalled(m, name, marshaller).Keys == m.Keys
    ensures Truthy(Get(m, name)) ==> Marshalled(m, name, marshaller)[name] == marshaller(m[name])
    ensures !Truthy(Get(m, name)) ==> Get(Marshalled(m, name, marshaller), name) == Get(m, name)
    ensures var alias := ToUnderscore(name);
      alias != name && Truthy(Get(m, alias)) ==> Marshalled(m, name, marshaller)[alias] == marshaller(m[alias])
    ensures var alias := ToUnderscore(name);
      alias != name && !Truthy(Get(m, alias)) ==> Get(Marshalled(m, name, marshaller), alias) == Get(m, alias)
    ensures forall k | k in m && k != name && k != ToUnderscore(name) :: Marshalled(m, name, marshaller)[k] == m[k]
  {
  }

  /** marshal_property, in place on the props object. */
  method MarshalProperty(props: JsObject, name: string, marshaller: JsValue -> JsValue)
    modifies props
    ensures props.members == Marshalled(old(props.members), name, marshaller)
  {
    if Truthy(Get(props.members, name)) {
      props.members := props.members[name := marshaller(props.members[name])];
    }
    var underscored := ToUnderscore(name);
    if name == underscored {
      return;
    }
    if Truthy(Get(props.members, underscored)) {
      props.members := props.members[underscored := marshaller(props.members[underscored])];
    }
  }

  /* ---------- Table of contents ---------- */

  /** The variant of one ToC item's property: 'i' for hasIndex, 's' for every other key. */
  function TocEntry(key: string, value: JsValue): Variant {
    Typed(if key == "hasIndex" then 'i' else 's', value)
  }

  /** One ToC item as the marshaller builds it, key by key. */
  function TocItem(item: map<string, JsValue>): map<string, Variant> {
    map k | k in item :: TocEntry(k, item[k])
  }

  /** The 'aa{sv}' contents the ToC marshaller builds from a JS array of items. */
  function TocVariant(items: seq<map<string, JsValue>>): seq<map<string, Variant>> {
    seq(|items|, i requires 0 <= i < |items| => TocItem(items[i]))
  }

  /**
   * The marshalled ToC has as many items as the array, in the same order,
   * each with the same keys; hasIndex is an 'i' variant and every other
   * key an 's' variant, each holding the item's value.
   */
  lemma TocVariantShape(items: seq<map<string, JsValue>>)
    ensures |TocVariant(items)| == |items|
    ensures forall i | 0 <= i < |items| :: TocVariant(items)[i].Keys == items[i].Keys
    ensures forall i, k | 0 <= i < |items| && k in items[i] ::
      TocVariant(items)[i][k].value == items[i][k]
      && TocVariant(items)[i][k].signature == (if k == "hasIndex" then 'i' else 's')
  {
  }

  /** The inner loop of the marshaller: a new item with each property wrapped in its variant. */
  method MarshalTocItem(item: map<string, JsValue>) returns (newItem: map<string, Variant>)
    ensures newItem == TocItem(item)
  {
    newItem := map[];
    var rest := item.Keys;
    while rest != {}
      invariant rest <= item.Keys
      invariant newItem.Keys == item.Keys - rest
      invariant forall k | k in newItem :: newItem[k] == TocEntry(k, item[k])
      decreases rest
    {
      var prop :| prop in rest;
      newItem := newItem[prop := TocEntry(prop, item[prop])];
      rest := rest - {prop};
    }
  }

  /** The ToC marshaller of new_from_props: the items, in order, wrapped into an 'aa{sv}' variant. */
  method MarshalToc(items: seq<map<string, JsValue>>) returns (r: JsValue)
    ensures r == DictArray(TocVariant(items))
  {
    var toc: seq<map<string, Variant>> := [];
    for i := 0 to |items|
      invariant toc == TocVariant(items[..i])
    {
      var newItem := MarshalTocItem(items[i]);
      assert TocVariant(items[..i + 1]) == TocVariant(items[..i]) + [TocItem(items[i])];
      toc := toc + [newItem];
    }
    assert items[..|items|] == items;
    r := DictArray(toc);
  }

  /**
   * The table-of-contents getter: [] when the article has none; otherwise
   * every item with each of its variants unpacked.
   */
  function UnpackToc(toc: Option<seq<map<string, Variant>>>): seq<map<string, JsValue>> {
    if toc.None? then []
    else seq(|toc.value|, i requires 0 <= i < |toc.value| => map k | k in toc.value[i] :: toc.value[i][k].value)
  }

  /**
   * The getter gives back exactly the array the marshaller was given. This
   * holds by construction: a variant here is its signature wrapped around
   * the value, so unpacking it returns the value unchanged.
   */
  lemma TocRoundTrip(items: seq<map<string, JsValue>>)
    ensures UnpackToc(Some(TocVariant(items))) == items
  {
    var back := UnpackToc(Some(TocVariant(items)));
    forall i | 0 <= i < |items|
      ensures back[i] == items[i]
    {
      assert back[i].Keys == items[i].Keys;
    }
  }

  /** The getter: deep_unpack of the ToC, then of every property of every item. */
  method GetTableOfContents(toc: Option<seq<map<string, Variant>>>) returns (r: seq<map<string, JsValue>>)
    ensures r == UnpackToc(toc)
    ensures toc.None? ==> r == []
  {
    if toc.None? {
      return [];
    }
    var items := toc.value;
    r := [];
    for i := 0 to |items|
      invariant |r| == i
      invariant forall j | 0 <= j < i :: r[j] == UnpackToc(toc)[j]
    {
      var item: map<string, JsValue> := map[];
      var rest := items[i].Keys;
      while rest != {}
        invariant rest <= items[i].Keys
        invariant item.Keys == items[i].Keys - rest
        invariant forall k | k in item :: item[k] == items[i][k].value
        decreases rest
      {
        var prop :| prop in rest;
        item := item[prop := items[i][prop].value];
        rest := rest - {prop};
      }
      assert item == UnpackToc(toc)[i];
      r := r + [item];
    }
  }

  /* ---------- Query.new_from_object ---------- */

  /**
   * The props Query.new_from_object builds, over the Query class's
   * property names in order: a name already in the props, as it is or
   * underscored, is skipped; any other is copied from the source.
   */
  function MergedProps(names: seq<string>, source: map<string, JsValue>, props: map<string, JsValue>): map<string, JsValue>
    decreases |names|
  {
    if names == [] then props
    else
      var name := names[0];
      var next := if name in props || ToUnderscore(name) in props then props else props[name := Get(source, name)];
      MergedProps(names[1..], source, next)
  }

  /** Property names that stay distinct once underscored, as GObject's canonical names are. */
  predicate DistinctNames(names: seq<string>) {
    forall i, j | 0 <= i < j < |names| :: ToUnderscore(names[i]) != ToUnderscore(names[j])
  }

  /**
   * A property the caller supplied keeps its value; a property of the
   * Query class supplied under neither spelling takes the source's value;
   * nothing else is added.
   */
  lemma {:induction false} MergedPropsKeeps(names: seq<string>, source: map<string, JsValue>, props: map<string, JsValue>)
    requires DistinctNames(names)
    ensures forall k | k in props :: k in MergedProps(names, source, props) && MergedProps(names, source, props)[k] == props[k]
    ensures forall n | n in names && n !in props && ToUnderscore(n) !in props ::
      n in MergedProps(names, source, props) && MergedProps(names, source, props)[n] == Get(source, n)
    ensures forall k | k in MergedProps(names, source, props) :: k in props || k in names
    decreases |names|
  {
    if names != [] {
      var name := names[0];
      var next := if name in props || ToUnderscore(name) in props then props else props[name := Get(source, name)];
      assert DistinctNames(names[1..]) by {
        forall i, j | 0 <= i < j < |names[1..]|
          ensures ToUnderscore(names[1..][i]) != ToUnderscore(names[1..][j])
        {
          assert names[1..][i] == names[i + 1] && names[1..][j] == names[j + 1];
        }
      }
      MergedPropsKeeps(names[1..], source, next);
      forall n | n in names && n !in props && ToUnderscore(n) !in props
        ensures n in MergedProps(names, source, props) && MergedProps(names, source, props)[n] == Get(source, n)
      {
        if n == name {
          assert n in next && next[n] == Get(source, n);
        } else {
          var j :| 0 <= j < |names| && names[j] == n;
          assert j != 0;
          assert names[1..][j - 1] == n;
          ToUnderscoreProperties(n);
          ToUnderscoreProperties(name);
          assert ToUnderscore(n) != ToUnderscore(name);
          assert n !in next && ToUnderscore(n) !in next;
        }
      }
    }
  }

  /**
   * Query.new_from_object's loop over the Query properties, filling in
   * the props object in place; constructing the Query from them is not
   * modelled.
   */
  method NewFromObject(names: seq<string>, source: map<string, JsValue>, props: JsObject)
    modifies props
    ensures props.members == MergedProps(names, source, old(props.members))
  {
    for i := 0 to |names|
      invariant MergedProps(names[i..], source, props.members) == MergedProps(names, source, old(props.members))
    {
      assert names[i..][0] == names[i] && names[i..][1..] == names[i + 1..];
      var name := names[i];
      if name in props.members {
        continue;
      }
      if ToUnderscore(name) in props.members {
        continue;
      }
      props.members := props.members[name := Get(source, name)];
    }
    assert names[|names|..] == [];
  }
}
