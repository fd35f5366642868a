/**
 * DmShardOpenZim: the libzim backend. A ZIM file is an abstract map from
 * (namespace, url) to articles; an article that is a redirect carries its
 * target.
 */
module OpenZim {
  import opened Wrappers
  import opened Errors
  import opened Json
  import opened Props
  import opened Objects
  import opened Strings
  import Base
  import Content

  /** A libzim article as the backend reads it. */
  datatype ZimArticle = ZimArticle(
    good: bool,
    namespace: char,
    url: string,
    title: string,
    mimeType: string,
    data: seq<bv8>,
    offset: int,
    redirect: Option<ZimArticle>)

  /** A ZIM file: the article stored under each namespace and url. */
  type ZimFile = map<(char, string), ZimArticle>

  /** Where the full-text Xapian index of a ZIM file lives. */
  const XapianFulltextIndexUrl: string := "X/fulltext/xapian"

  /**
   * zim_file_get_article_by_namespace followed by zim_article_good: the
   * article under (ns, url) when the file holds a good one there. A missing
   * url (no "/" in the id) finds nothing.
   */
  function GoodArticle(zim: ZimFile, ns: char, url: Option<string>): (r: Option<ZimArticle>)
    ensures r.Some? <==> url.Some? && (ns, url.value) in zim && zim[(ns, url.value)].good
    ensures r.Some? ==> r.value == zim[(ns, url.value)]
  {
    if url.Some? && (ns, url.value) in zim && zim[(ns, url.value)].good then Some(zim[(ns, url.value)])
    else None
  }

  /** A good article stands for itself, or for its target when it is a redirect. */
  function Resolve(a: Option<ZimArticle>): (r: Option<ZimArticle>)
    ensures r.Some? <==> a.Some?
    ensures a.Some? && a.value.redirect.None? ==> r == a
  {
    match a
    case None => None
    case Some(art) => if art.redirect.Some? then art.redirect else a
  }

  /** The namespace an id's first token selects: its first character, NUL for an empty token. */
  function NamespaceOf(token: string): char {
    if token == "" then 0 as char else token[0]
  }

  /**
   * dm_shard_open_zim_find_by_id: splits the id once on "/", looks the
   * article up by namespace and url and resolves a redirect; the redirect
   * target is returned without being checked again. An empty id leaves no
   * token to read, so it is excluded.
   */
  function FindById(zim: ZimFile, id: string): (r: Option<ZimArticle>)
    requires id != ""
  {
    var tokens := SplitFirst(id, '/');
    var url := if |tokens| == 2 then Some(tokens[1]) else None;
    Resolve(GoodArticle(zim, NamespaceOf(tokens[0]), url))
  }

  /** An id without "/" never finds an article. */
  lemma FindWithoutSlash(zim: ZimFile, id: string)
    requires id != "" && '/' !in id
    ensures FindById(zim, id) == None
  {
  }

  /**
   * A "namespace/url" id finds what is stored under that namespace and
   * url, resolved.
   */
  lemma FindByIdRoundTrip(zim: ZimFile, ns: char, url: string)
    requires ns != '/'
    ensures FindById(zim, [ns] + "/" + url) == Resolve(GoodArticle(zim, ns, Some(url)))
  {
    var id := [ns] + "/" + url;
    SplitFirstAt(id, '/', 1);
    assert id[..1] == [ns] && id[2..] == url;
  }

  /** The class an article's namespace selects in get_model. */
  function NamespaceKind(ns: char): Kind {
    if ns == 'A' then ArticleKind
    else if ns == 'I' then ImageKind
    else ContentKind
  }

  /** The tags get_model gives an article of each namespace. */
  function NamespaceTags(ns: char): seq<string> {
    if ns == 'A' then ["EknArticleObject"]
    else if ns == 'I' then ["EknMediaObject"]
    else []
  }

  function TagNodes(tags: seq<string>): (r: seq<Node>)
    ensures |r| == |tags| && forall i | 0 <= i < |r| :: r[i] == JString(tags[i])
  {
    seq(|tags|, i requires 0 <= i < |tags| => JString(tags[i]))
  }

  /** The "@id" get_model prints: "ekn+zim:///<namespace>/<url>". */
  function ZimId(a: ZimArticle): string {
    "ekn+zim:///" + [a.namespace] + "/" + a.url
  }

  /** The JSON object get_model builds for an article. */
  function ModelJson(a: ZimArticle): Node {
    JObject(map[
      "@type" := JString(Base.TypeUri(NamespaceKind(a.namespace))),
      "@id" := JString(ZimId(a)),
      "title" := JString(a.title),
      "contentType" := JString(a.mimeType),
      "isServerTemplated" := JBool(true),
      "tags" := JArray(TagNodes(NamespaceTags(a.namespace)))])
  }

  /** dm_shard_open_zim_get_model: the model dm_model_from_json_node builds from ModelJson. */
  function GetModel(a: ZimArticle): (r: Result<Model, Error>) {
    Base.FromJson(ModelJson(a))
  }

  /**
   * Every article yields a model: of the class its namespace selects, with
   * the article's id, title and MIME type and its namespace's tags.
   */
  lemma GetModelFields(a: ZimArticle)
    ensures GetModel(a).Success?
    ensures GetModel(a).value.Kind() == NamespaceKind(a.namespace)
    ensures GetProperty(GetModel(a).value, Id) == Some(VString(ZimId(a)))
    ensures GetProperty(GetModel(a).value, Title) == Some(VString(a.title))
    ensures GetProperty(GetModel(a).value, ContentType) == Some(VString(a.mimeType))
    ensures GetProperty(GetModel(a).value, Tags) == Some(VStrv(NamespaceTags(a.namespace)))
  {
    ModelJsonMembers(a);
    GetModelKind(a);
    var node := ModelJson(a);
    ModelString(node, 0, ZimId(a));
    ModelString(node, 1, a.mimeType);
    ModelString(node, 2, a.title);
    ModelTags(node, NamespaceTags(a.namespace));
  }

  /**
   * The `constructed` hook changes nothing on a libzim model, which always
   * carries its article's id: the model is kept and the mock-id counter
   * does not move.
   */
  lemma ConstructingKeepsModel(a: ZimArticle, count: nat, digest: nat -> string)
    ensures Base.Constructing(GetModel(a), count, digest) == (GetModel(a), count)
  {
    GetModelFields(a);
    assert ZimId(a)[..|"ekn+zim:///"|] == "ekn+zim:///";
  }

  /** The members of ModelJson that the model's properties come from. */
  lemma ModelJsonMembers(a: ZimArticle)
    ensures var o := ModelJson(a).members;
      "@type" in o && o["@type"] == JString(Base.TypeUri(NamespaceKind(a.namespace)))
      && "@id" in o && o["@id"] == JString(ZimId(a))
      && "title" in o && o["title"] == JString(a.title)
      && "contentType" in o && o["contentType"] == JString(a.mimeType)
      && "tags" in o && o["tags"] == JArray(TagNodes(NamespaceTags(a.namespace)))
  {
  }

  lemma GetModelKind(a: ZimArticle)
    requires var o := ModelJson(a).members;
      "@type" in o && o["@type"] == JString(Base.TypeUri(NamespaceKind(a.namespace)))
    ensures GetModel(a).Success?
    ensures GetModel(a).value.Kind() == NamespaceKind(a.namespace)
  {
    var k := NamespaceKind(a.namespace);
    Base.KindOfTypeExact(Base.TypeUri(k), k);
  }

  lemma ModelString(node: Node, i: nat, s: string)
    requires Base.FromJson(node).Success? && i < 19
    requires Content.Row(i).key in node.members && node.members[Content.Row(i).key] == JString(s)
    requires TypeOf(Content.Row(i).prop) == StringProp
    ensures GetProperty(Base.FromJson(node).value, Content.Row(i).prop) == Some(VString(s))
  {
    Base.ContentRowProperty(node, i);
  }

  lemma ModelTags(node: Node, tags: seq<string>)
    requires Base.FromJson(node).Success?
    requires "tags" in node.members && node.members["tags"] == JArray(TagNodes(tags))
    ensures GetProperty(Base.FromJson(node).value, Tags) == Some(VStrv(tags))
  {
    TagsEntry(node.members, tags);
    RowFromMember(node, 13, VStrv(tags));
  }

  /** A content row whose JSON member is present and fits gives the model's property that value. */
  lemma RowFromMember(node: Node, i: nat, v: Value)
    requires Base.FromJson(node).Success? && i < 19
    requires EntryValue(node.members, Content.Row(i)) == Some(v)
    ensures GetProperty(Base.FromJson(node).value, Content.Row(i).prop) == Some(v)
  {
    Base.ContentRowProperty(node, i);
  }

  /** The "tags" member of an article's JSON is row 13's value. */
  lemma TagsEntry(members: map<string, Node>, tags: seq<string>)
    requires "tags" in members && members["tags"] == JArray(TagNodes(tags))
    ensures Content.Row(13).prop == Tags
    ensures EntryValue(members, Content.Row(13)) == Some(VStrv(tags))
  {
    assert Content.Row(13) == Entry("tags", Tags);
    TagsCoerce(tags);
  }

  lemma TagsCoerce(tags: seq<string>)
    ensures Coerce(JArray(TagNodes(tags)), StrvProp) == Some(VStrv(tags))
  {
    var nodes := TagNodes(tags);
    assert StringsOf(nodes).Some?;
    assert StringsOf(nodes).value == tags;
  }

  /**
   * The id of an article's model leads back to the article: past the
   * "ekn+zim:///" prefix it is the namespace/url id find_by_id resolves.
   */
  lemma ModelIdFindsArticle(zim: ZimFile, a: ZimArticle)
    requires (a.namespace, a.url) in zim && zim[(a.namespace, a.url)] == a
    requires a.good && a.redirect.None? && a.namespace != '/'
    ensures FindById(zim, ZimId(a)[|"ekn+zim:///"|..]) == Some(a)
  {
    assert ZimId(a)[|"ekn+zim:///"|..] == [a.namespace] + "/" + a.url;
    FindByIdRoundTrip(zim, a.namespace, a.url);
  }

  /** The article the library's ZIM test reads: a PDF in namespace 'A'. */
  lemma PdfArticleFixture(zim: ZimFile, a: ZimArticle)
    requires a == ZimArticle(true, 'A', "article.pdf", "Flotación sucia", "application/pdf",
                             [], 0, None)
    requires ('A', "article.pdf") in zim && zim[('A', "article.pdf")] == a
    ensures FindById(zim, "A/article.pdf") == Some(a)
    ensures GetModel(a).Success? && GetModel(a).value.Kind() == ArticleKind
    ensures GetProperty(GetModel(a).value, Title) == Some(VString("Flotación sucia"))
    ensures GetProperty(GetModel(a).value, ContentType) == Some(VString("application/pdf"))
  {
    PdfArticleFound(zim, a);
    ArticleModelFields(a);
  }

  lemma PdfArticleFound(zim: ZimFile, a: ZimArticle)
    requires ('A', "article.pdf") in zim && zim[('A', "article.pdf")] == a
    requires a.good && a.redirect.None?
    ensures FindById(zim, "A/article.pdf") == Some(a)
  {
    FindByIdRoundTrip(zim, 'A', "article.pdf");
    assert ['A'] + "/" + "article.pdf" == "A/article.pdf";
  }

  /** An article of namespace 'A' becomes an article model carrying its title and MIME type. */
  lemma ArticleModelFields(a: ZimArticle)
    requires a.namespace == 'A'
    ensures GetModel(a).Success? && GetModel(a).value.Kind() == ArticleKind
    ensures GetProperty(GetModel(a).value, Title) == Some(VString(a.title))
    ensures GetProperty(GetModel(a).value, ContentType) == Some(VString(a.mimeType))
  {
    GetModelFields(a);
  }

  /** dm_shard_open_zim_stream_data: the article's bytes. */
  function StreamData(a: ZimArticle): seq<bv8> {
    a.data
  }

  /** dm_shard_open_zim_get_data_size. */
  function DataSize(a: ZimArticle): nat {
    |a.data|
  }

  /** The streamed bytes are exactly as many as the reported size. */
  lemma StreamMatchesSize(a: ZimArticle)
    ensures |StreamData(a)| == DataSize(a)
  {
  }

  /**
   * dm_shard_open_zim_calculate_db_offset: the offset of the article the
   * full-text index id resolves to, or -1 when there is none.
   */
  function CalculateDbOffset(zim: ZimFile): (r: int)
    ensures var idx := Resolve(GoodArticle(zim, 'X', Some("fulltext/xapian")));
      r == if idx.Some? then idx.value.offset else -1
  {
    IndexUrlRoundTrip(zim);
    match FindById(zim, XapianFulltextIndexUrl)
    case None => -1
    case Some(a) => a.offset
  }

  lemma IndexUrlRoundTrip(zim: ZimFile)
    ensures FindById(zim, XapianFulltextIndexUrl) == Resolve(GoodArticle(zim, 'X', Some("fulltext/xapian")))
  {
    var id := XapianFulltextIndexUrl;
    SplitFirstAt(id, '/', 1);
    assert id[..1] == "X";
    assert id[2..] == "fulltext/xapian";
  }
}
