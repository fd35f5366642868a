/**
 * DmVideo's JSON side: its own members after DmMedia's, and
 * dm_video_new_from_json_node.
 */
module Video {
  import opened Json
  import opened Props
  import opened Objects
  import Content
  import Media

  const Table: seq<Entry> := [
    Entry("duration", Duration),
    Entry("transcript", Transcript),
    Entry("poster", PosterUri)
  ]

  /** The parameters dm_video_add_json_to_params appends: DmMedia's, then its own. */
  function Params(node: Node): seq<Param> {
    if node.JObject? then Media.Params(node) + ParamsOf(node.members, Table) else []
  }

  /** dm_video_add_json_to_params */
  method AddJsonToParams(node: Node, params: ParamArray)
    modifies params
    ensures params.items == old(params.items) + Params(node)
  {
    if !node.JObject? {
      return;
    }
    ghost var start := params.items;
    Media.AddJsonToParams(node, params);
    var o := node.members;
    ghost var mid := params.items;
    AppendStep(o, Table, mid, params.items, 0);
    params.AppendMember(o, "duration", Duration);
    AppendStep(o, Table, mid, params.items, 1);
    params.AppendMember(o, "transcript", Transcript);
    AppendStep(o, Table, mid, params.items, 2);
    params.AppendMember(o, "poster", PosterUri);
    ParamsUpToAll(o, Table);
    Associate(start, Media.Params(node), ParamsOf(o, Table));
  }

  /** dm_video_new_from_json_node */
  method NewFromJsonNode(node: Node, ids: Content.MockIds) returns (m: Model)
    modifies ids
    ensures m == Content.Finished(Construct(VideoKind, Params(node)), old(ids.count), ids.digest)
    ensures ids.count == Content.NextCount(Construct(VideoKind, Params(node)), old(ids.count))
  {
    var params := new ParamArray();
    AddJsonToParams(node, params);
    assert params.items == Params(node);
    m := Construct(VideoKind, params.items);
    m := ids.Finish(m);
  }
}
