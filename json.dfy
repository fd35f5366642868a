/**
 * The json-glib node tree the library reads: object metadata, manifests and
 * the nodes handed to the `*_new_from_json_node` constructors.
 * Double-valued nodes are not modelled.
 */
module Json {
  import opened Wrappers

  datatype Node =
    | JNull
    | JBool(b: bool)
    | JInt(i: int)
    | JString(s: string)
    | JArray(elements: seq<Node>)
    | JObject(members: map<string, Node>)

  /** json_object_get_member: the member under `key`, or NULL. */
  function Member(members: map<string, Node>, key: string): (r: Option<Node>)
    ensures r.Some? <==> key in members
    ensures r.Some? ==> r.value == members[key]
  {
    if key in members then Some(members[key]) else None
  }

  /** JSON_NODE_HOLDS_VALUE (node) && json_node_get_value_type (node) == G_TYPE_STRING. */
  predicate HoldsString(n: Node) {
    n.JString?
  }
}
