/**
 * DmShardEosShard: the eos-shard backend. The shard file is an abstract
 * map from hex record names to records; blobs carry their bytes and, when
 * they hold one, a link dictionary.
 */
module EosShard {
  import opened Wrappers
  import opened Errors
  import opened Json
  import opened Objects
  import Base
  import Content

  /**
   * An eos-shard blob: its MIME type, its bytes, whether
   * eos_shard_blob_load_contents manages to read them, and its dictionary
   * reading.
   */
  datatype Blob = Blob(contentType: string, contents: seq<bv8>, loads: bool, dictionary: Option<map<string, string>>)

  /**
   * An eos-shard record: its metadata as parsed JSON (`None` when the
   * metadata stream does not parse), its data blob and its named resources.
   */
  datatype EosRecord = EosRecord(metadata: Option<Node>, data: Option<Blob>, resources: map<string, Blob>)

  /** An eos-shard shard file. */
  datatype ShardFile = ShardFile(path: string, records: map<string, EosRecord>)

  /** The hex name under which every shard keeps its link table: sha1("link-table"). */
  const LinkTableId: string := "4dba9091495e8f277893e0d400e9e092f9f6f551"

  /**
   * dm_shard_eos_shard_find_by_id, through
   * eos_shard_shard_file_find_record_by_hex_name: the record named
   * `hexName`, or nothing.
   */
  function FindRecord(file: ShardFile, hexName: string): (r: Option<EosRecord>)
    ensures r.Some? <==> hexName in file.records
    ensures r.Some? ==> r.value == file.records[hexName]
  {
    if hexName in file.records then Some(file.records[hexName]) else None
  }

  /**
   * dm_shard_eos_shard_get_model, with the mock-id counter at `count`: a
   * metadata parse failure is an error; otherwise the model
   * dm_model_from_json_node builds, after its `constructed` hook, and the
   * counter after it.
   */
  function GetModel(r: EosRecord, count: nat, digest: nat -> string): (m: (Result<Model, Error>, nat))
    ensures r.metadata.None? ==> m == (Failure(External(JsonGlib)), count)
    ensures m.0.Success? <==> r.metadata.Some? && Base.FromJson(r.metadata.value).Success?
    ensures m.0.Failure? ==> m.1 == count
    ensures r.metadata.Some? && m.0.Failure? ==> m.0 == Base.FromJson(r.metadata.value)
    ensures m.0.Success? ==>
      && m.0.value == Content.Finished(Base.FromJson(r.metadata.value).value, count, digest)
      && m.0.value.content.id != ""
      && m.1 == Content.NextCount(Base.FromJson(r.metadata.value).value, count)
  {
    match r.metadata
    case None => (Failure(External(JsonGlib)), count)
    case Some(node) => Base.Constructing(Base.FromJson(node), count, digest)
  }

  /** dm_shard_eos_shard_stream_data: the data blob's bytes, or nothing. */
  function StreamData(r: EosRecord): (s: Option<seq<bv8>>)
    ensures s.Some? <==> r.data.Some?
    ensures s.Some? ==> s.value == r.data.value.contents
  {
    if r.data.None? then None else Some(r.data.value.contents)
  }

  /** dm_shard_eos_shard_get_data_size: 0 when there is no data blob. */
  function DataSize(r: EosRecord): (n: nat)
    ensures r.data.None? ==> n == 0
    ensures r.data.Some? ==> n == |r.data.value.contents|
  {
    if r.data.None? then 0 else |r.data.value.contents|
  }

  /** The streamed bytes are exactly as many as the reported size. */
  lemma StreamMatchesSize(r: EosRecord)
    ensures StreamData(r).Some? ==> |StreamData(r).value| == DataSize(r)
    ensures StreamData(r).None? ==> DataSize(r) == 0
  {
  }

  /**
   * The link table the init callback loads: the dictionary in the data
   * blob of the record named LinkTableId, when there is one.
   */
  function LoadLinkTable(file: ShardFile): (t: Option<map<string, string>>)
    ensures LinkTableId !in file.records ==> t == None
    ensures LinkTableId in file.records && file.records[LinkTableId].data.None? ==> t == None
    ensures LinkTableId in file.records && file.records[LinkTableId].data.Some? ==>
      t == file.records[LinkTableId].data.value.dictionary
    ensures t.Some? <==>
      LinkTableId in file.records && file.records[LinkTableId].data.Some?
      && file.records[LinkTableId].data.value.dictionary.Some?
  {
    match FindRecord(file, LinkTableId)
    case None => None
    case Some(rec) => if rec.data.None? then None else rec.data.value.dictionary
  }

  /** dm_shard_eos_shard_test_link: `None` without a link table. */
  function TestLink(linkTable: Option<map<string, string>>, link: string): (r: Option<string>)
    ensures linkTable.None? ==> r == None
    ensures r.Some? <==> linkTable.Some? && link in linkTable.value
    ensures r.Some? ==> r.value == linkTable.value[link]
  {
    if linkTable.None? || link !in linkTable.value then None else Some(linkTable.value[link])
  }

  /** The backend's state after construction: the shard file, and no link table yet. */
  datatype EosShardState = EosShardState(file: ShardFile, linkTable: Option<map<string, string>>)

  /**
   * dm_shard_eos_shard_init_callback as written: only whether the shard
   * file's init result is a valid task is looked at; `fileInitOk`, the
   * outcome of that init, is never consulted.
   */
  function InitAsWritten(s: EosShardState, resultValid: bool, fileInitOk: bool): (r: Result<EosShardState, Error>)
    ensures r.Success? <==> resultValid
    ensures r.Success? ==> r.value == s.(linkTable := LoadLinkTable(s.file))
    ensures r.Failure? ==> r.error == EosShardInitFailed
  {
    if resultValid then Success(s.(linkTable := LoadLinkTable(s.file)))
    else Failure(EosShardInitFailed)
  }

  /** A shard file whose init failed still initialises the shard. */
  lemma InitIgnoresFileFailure(s: EosShardState)
    ensures InitAsWritten(s, true, false).Success?
  {
  }

  /**
   * The init callback as evidently intended: the shard file's own init
   * outcome decides, as g_async_initable_init_finish would report it.
   */
  function Init(s: EosShardState, resultValid: bool, fileInitOk: bool): (r: Result<EosShardState, Error>)
    ensures r.Success? <==> resultValid && fileInitOk
    ensures r.Success? ==> r.value.file == s.file && r.value.linkTable == LoadLinkTable(s.file)
  {
    if resultValid && fileInitOk then Success(s.(linkTable := LoadLinkTable(s.file)))
    else Failure(EosShardInitFailed)
  }

  /** The two agree whenever the shard file's init succeeded. */
  lemma InitAgreesOnSuccess(s: EosShardState, resultValid: bool)
    ensures Init(s, resultValid, true) == InitAsWritten(s, resultValid, true)
  {
  }
}
