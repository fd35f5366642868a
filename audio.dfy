/**
 * DmAudio's JSON side: its own members after DmContent's, and
 * dm_audio_new_from_json_node.
 */
module Audio {
  import opened Json
  import opened Props
  import opened Objects
  import Content

  const Table: seq<Entry> := [
    Entry("duration", Duration),
    Entry("transcript", Transcript)
  ]

  /** The parameters dm_audio_add_json_to_params appends: DmContent's, then its own. */
  function Params(node: Node): seq<Param> {
    if node.JObject? then Content.Params(node) + ParamsOf(node.members, Table) else []
  }

  /** dm_audio_add_json_to_params */
  method AddJsonToParams(node: Node, params: ParamArray)
    modifies params
    ensures params.items == old(params.items) + Params(node)
  {
    if !node.JObject? {
      return;
    }
    ghost var start := params.items;
    Content.AddJsonToParams(node, params);
    var o := node.members;
    ghost var mid := params.items;
    AppendStep(o, Table, mid, params.items, 0);
    params.AppendMember(o, "duration", Duration);
    AppendStep(o, Table, mid, params.items, 1);
    params.AppendMember(o, "transcript", Transcript);
    ParamsUpToAll(o, Table);
    Associate(start, Content.Params(node), ParamsOf(o, Table));
  }

  /** dm_audio_new_from_json_node */
  method NewFromJsonNode(node: Node, ids: Content.MockIds) returns (m: Model)
    modifies ids
    ensures m == Content.Finished(Construct(AudioKind, Params(node)), old(ids.count), ids.digest)
    ensures ids.count == Content.NextCount(Construct(AudioKind, Params(node)), old(ids.count))
  {
    var params := new ParamArray();
    AddJsonToParams(node, params);
    assert params.items == Params(node);
    m := Construct(AudioKind, params.items);
    m := ids.Finish(m);
  }
}
