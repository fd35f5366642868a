/**
 * DmMedia's JSON side: its own members after DmContent's, and
 * dm_media_new_from_json_node.
 */
module Media {
  import opened Json
  import opened Props
  import opened Objects
  import Content

  const Table: seq<Entry> := [
    Entry("caption", Caption),
    Entry("width", Width),
    Entry("height", Height),
    Entry("parent", ParentUri)
  ]

  /** The parameters dm_media_add_json_to_params appends: DmContent's, then its own. */
  function Params(node: Node): seq<Param> {
    if node.JObject? then Content.Params(node) + ParamsOf(node.members, Table) else []
  }

  /** dm_media_add_json_to_params */
  method AddJsonToParams(node: Node, params: ParamArray)
    modifies params
    ensures params.items == old(params.items) + Params(node)
  {
    if !node.JObject? {
      return;
    }
    ghost var start := params.items;
    Content.AddJsonToParams(node, params);
    var o := node.members;
    ghost var mid := params.items;
    AppendStep(o, Table, mid, params.items, 0);
    params.AppendMember(o, "caption", Caption);
    AppendStep(o, Table, mid, params.items, 1);
    params.AppendMember(o, "width", Width);
    AppendStep(o, Table, mid, params.items, 2);
    params.AppendMember(o, "height", Height);
    AppendStep(o, Table, mid, params.items, 3);
    params.AppendMember(o, "parent", ParentUri);
    ParamsUpToAll(o, Table);
    Associate(start, Content.Params(node), ParamsOf(o, Table));
  }

  /** dm_media_new_from_json_node */
  method NewFromJsonNode(node: Node, ids: Content.MockIds) returns (m: Model)
    modifies ids
    ensures m == Content.Finished(Construct(MediaKind, Params(node)), old(ids.count), ids.digest)
    ensures ids.count == Content.NextCount(Construct(MediaKind, Params(node)), old(ids.count))
  {
    var params := new ParamArray();
    AddJsonToParams(node, params);
    assert params.items == Params(node);
    m := Construct(MediaKind, params.items);
    m := ids.Finish(m);
  }
}
