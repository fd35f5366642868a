/**
 * DmImage adds no property of its own: it is built from exactly the
 * parameters of DmMedia (dm_image_new_from_json_node).
 */
module Image {
  import opened Json
  import opened Props
  import opened Objects
  import Content
  import Media

  /** dm_image_new_from_json_node */
  method NewFromJsonNode(node: Node, ids: Content.MockIds) returns (m: Model)
    modifies ids
    ensures m == Content.Finished(Construct(ImageKind, Media.Params(node)), old(ids.count), ids.digest)
    ensures ids.count == Content.NextCount(Construct(ImageKind, Media.Params(node)), old(ids.count))
  {
    var params := new ParamArray();
    Media.AddJsonToParams(node, params);
    assert params.items == Media.Params(node);
    m := Construct(ImageKind, params.items);
    m := ids.Finish(m);
  }
}
