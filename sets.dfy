/**
 * DmSet's JSON side: child tags after DmContent's members, and
 * dm_set_new_from_json_node.
 */
module Sets {
  import opened Json
  import opened Props
  import opened Objects
  import Content

  const Table: seq<Entry> := [Entry("childTags", ChildTags)]

  /** The parameters dm_set_add_json_to_params appends: DmContent's, then child tags. */
  function Params(node: Node): seq<Param> {
    if node.JObject? then Content.Params(node) + ParamsOf(node.members, Table) else []
  }

  /** dm_set_add_json_to_params */
  method AddJsonToParams(node: Node, params: ParamArray)
    modifies params
    ensures params.items == old(params.items) + Params(node)
  {
    if !node.JObject? {
      return;
    }
    ghost var start := params.items;
    Content.AddJsonToParams(node, params);
    var o := node.members;
    ghost var mid := params.items;
    AppendStep(o, Table, mid, params.items, 0);
    params.AppendMember(o, "childTags", ChildTags);
    ParamsUpToAll(o, Table);
    Associate(start, Content.Params(node), ParamsOf(o, Table));
  }

  /** dm_set_new_from_json_node */
  method NewFromJsonNode(node: Node, ids: Content.MockIds) returns (m: Model)
    modifies ids
    ensures m == Content.Finished(Construct(SetKind, Params(node)), old(ids.count), ids.digest)
    ensures ids.count == Content.NextCount(Construct(SetKind, Params(node)), old(ids.count))
  {
    var params := new ParamArray();
    AddJsonToParams(node, params);
    assert params.items == Params(node);
    m := Construct(SetKind, params.items);
    m := ids.Finish(m);
  }
}
