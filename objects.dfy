/**
 * The content class hierarchy as values: DmContent and its subclasses
 * DmArticle, DmDictionaryEntry, DmSet, DmMedia (with DmImage and DmVideo
 * below it) and DmAudio. Every property is construct-only, so a model
 * never changes after g_object_newv returns. Here a model is a value,
 * with one record of private fields per class.
 */
module Objects {
  import opened Wrappers
  import opened Json
  import opened Props

  /** DmContentPrivate. Boxed properties that were never set are NULL (`None`). */
  datatype ContentFields = ContentFields(
    id: string,
    title: string,
    originalTitle: string,
    originalUri: string,
    thumbnailUri: string,
    language: string,
    copyrightHolder: string,
    sourceUri: string,
    contentType: string,
    synopsis: string,
    lastModifiedDate: string,
    license: string,
    featured: bool,
    tags: Option<seq<string>>,
    resources: Option<seq<string>>,
    discoveryFeedContent: Option<map<string, Node>>,
    sequenceNumber: nat,
    canPrint: bool,
    canExport: bool)

  /** DmMediaPrivate: parent-uri is the one string property whose default is NULL. */
  datatype MediaFields = MediaFields(caption: string, width: nat, height: nat, parentUri: Option<string>)

  datatype VideoFields = VideoFields(duration: nat, transcript: string, posterUri: string)

  datatype AudioFields = AudioFields(duration: nat, transcript: string)

  datatype Kind =
    | ContentKind | ArticleKind | DictionaryEntryKind | SetKind
    | MediaKind | ImageKind | VideoKind | AudioKind

  /**
   * A constructed model. DmArticle and DmDictionaryEntry are modelled with
   * the DmContent fields only; their own source files are not part of this
   * model.
   */
  datatype Model =
    | ContentObject(content: ContentFields)
    | ArticleObject(content: ContentFields)
    | DictionaryObject(content: ContentFields)
    | SetObject(content: ContentFields, childTags: Option<seq<string>>)
    | MediaObject(content: ContentFields, media: MediaFields)
    | ImageObject(content: ContentFields, media: MediaFields)
    | VideoObject(content: ContentFields, media: MediaFields, video: VideoFields)
    | AudioObject(content: ContentFields, audio: AudioFields)
  {
    function Kind(): Kind {
      match this
      case ContentObject(_) => ContentKind
      case ArticleObject(_) => ArticleKind
      case DictionaryObject(_) => DictionaryEntryKind
      case SetObject(_, _) => SetKind
      case MediaObject(_, _) => MediaKind
      case ImageObject(_, _) => ImageKind
      case VideoObject(_, _, _) => VideoKind
      case AudioObject(_, _) => AudioKind
    }
  }

  /** DM_IS_MEDIA: DmImage and DmVideo derive from DmMedia. */
  predicate IsMedia(k: Kind) {
    k == MediaKind || k == ImageKind || k == VideoKind
  }

  predicate IsContentProp(q: Prop) {
    !(q.Caption? || q.Width? || q.Height? || q.ParentUri? || q.Duration?
      || q.Transcript? || q.PosterUri? || q.ChildTags?)
  }

  /** Whether the class `k` (or one of its ancestors) installs property `q`. */
  predicate HasProp(k: Kind, q: Prop) {
    if IsContentProp(q) then true
    else if q.Caption? || q.Width? || q.Height? || q.ParentUri? then IsMedia(k)
    else if q.Duration? || q.Transcript? then k == VideoKind || k == AudioKind
    else if q.PosterUri? then k == VideoKind
    else k == SetKind
  }

  /** The property defaults of dm_content_class_init. */
  const DefaultContent := ContentFields(
    "", "", "", "", "", "", "", "", "", "", "", "",
    false, None, None, None, MaxUint, true, true)

  const DefaultMedia := MediaFields("", 0, 0, None)
  const DefaultVideo := VideoFields(0, "", "")
  const DefaultAudio := AudioFields(0, "")

  /** A model of class `k` with every property at its default. */
  function Default(k: Kind): (m: Model)
    ensures m.Kind() == k && m.content == DefaultContent
  {
    match k
    case ContentKind => ContentObject(DefaultContent)
    case ArticleKind => ArticleObject(DefaultContent)
    case DictionaryEntryKind => DictionaryObject(DefaultContent)
    case SetKind => SetObject(DefaultContent, None)
    case MediaKind => MediaObject(DefaultContent, DefaultMedia)
    case ImageKind => ImageObject(DefaultContent, DefaultMedia)
    case VideoKind => VideoObject(DefaultContent, DefaultMedia, DefaultVideo)
    case AudioKind => AudioObject(DefaultContent, DefaultAudio)
  }

  /** dm_content_set_property */
  function SetContentProperty(c: ContentFields, p: Param): ContentFields
    requires IsContentProp(p.prop) && WellTyped(p)
  {
    match p.prop
    case Id => c.(id := p.value.s)
    case Title => c.(title := p.value.s)
    case OriginalTitle => c.(originalTitle := p.value.s)
    case OriginalUri => c.(originalUri := p.value.s)
    case ThumbnailUri => c.(thumbnailUri := p.value.s)
    case Language => c.(language := p.value.s)
    case CopyrightHolder => c.(copyrightHolder := p.value.s)
    case SourceUri => c.(sourceUri := p.value.s)
    case ContentType => c.(contentType := p.value.s)
    case Synopsis => c.(synopsis := p.value.s)
    case LastModifiedDate => c.(lastModifiedDate := p.value.s)
    case License => c.(license := p.value.s)
    case Featured => c.(featured := p.value.b)
    case Tags => c.(tags := Some(p.value.strv))
    case Resources => c.(resources := Some(p.value.strv))
    case DiscoveryFeedContent => c.(discoveryFeedContent := Some(p.value.o))
    case SequenceNumber => c.(sequenceNumber := p.value.n)
    case CanPrint => c.(canPrint := p.value.b)
    case CanExport => c.(canExport := p.value.b)
  }

  function StrvValue(v: Option<seq<string>>): Value {
    if v.Some? then VStrv(v.value) else VNull
  }

  /** dm_content_get_property */
  function GetContentProperty(c: ContentFields, q: Prop): Value
    requires IsContentProp(q)
  {
    match q
    case Id => VString(c.id)
    case Title => VString(c.title)
    case OriginalTitle => VString(c.originalTitle)
    case OriginalUri => VString(c.originalUri)
    case ThumbnailUri => VString(c.thumbnailUri)
    case Language => VString(c.language)
    case CopyrightHolder => VString(c.copyrightHolder)
    case SourceUri => VString(c.sourceUri)
    case ContentType => VString(c.contentType)
    case Synopsis => VString(c.synopsis)
    case LastModifiedDate => VString(c.lastModifiedDate)
    case License => VString(c.license)
    case Featured => VBool(c.featured)
    case Tags => StrvValue(c.tags)
    case Resources => StrvValue(c.resources)
    case DiscoveryFeedContent =>
      if c.discoveryFeedContent.Some? then VObject(c.discoveryFeedContent.value) else VNull
    case SequenceNumber => VUint(c.sequenceNumber)
    case CanPrint => VBool(c.canPrint)
    case CanExport => VBool(c.canExport)
  }

  /** dm_media_set_property */
  function SetMediaProperty(m: MediaFields, p: Param): MediaFields
    requires (p.prop.Caption? || p.prop.Width? || p.prop.Height? || p.prop.ParentUri?) && WellTyped(p)
  {
    match p.prop
    case Caption => m.(caption := p.value.s)
    case Width => m.(width := p.value.n)
    case Height => m.(height := p.value.n)
    case ParentUri => m.(parentUri := Some(p.value.s))
  }

  /** dm_media_get_property */
  function GetMediaProperty(m: MediaFields, q: Prop): Value
    requires q.Caption? || q.Width? || q.Height? || q.ParentUri?
  {
    match q
    case Caption => VString(m.caption)
    case Width => VUint(m.width)
    case Height => VUint(m.height)
    case ParentUri => if m.parentUri.Some? then VString(m.parentUri.value) else VNull
  }

  /** dm_video_set_property */
  function SetVideoProperty(v: VideoFields, p: Param): VideoFields
    requires (p.prop.Duration? || p.prop.Transcript? || p.prop.PosterUri?) && WellTyped(p)
  {
    match p.prop
    case Duration => v.(duration := p.value.n)
    case Transcript => v.(transcript := p.value.s)
    case PosterUri => v.(posterUri := p.value.s)
  }

  /** dm_video_get_property */
  function GetVideoProperty(v: VideoFields, q: Prop): Value
    requires q.Duration? || q.Transcript? || q.PosterUri?
  {
    match q
    case Duration => VUint(v.duration)
    case Transcript => VString(v.transcript)
    case PosterUri => VString(v.posterUri)
  }

  /** dm_audio_set_property */
  function SetAudioProperty(a: AudioFields, p: Param): AudioFields
    requires (p.prop.Duration? || p.prop.Transcript?) && WellTyped(p)
  {
    match p.prop
    case Duration => a.(duration := p.value.n)
    case Transcript => a.(transcript := p.value.s)
  }

  /** dm_audio_get_property */
  function GetAudioProperty(a: AudioFields, q: Prop): Value
    requires q.Duration? || q.Transcript?
  {
    match q
    case Duration => VUint(a.duration)
    case Transcript => VString(a.transcript)
  }

  /**
   * One construct parameter handed to the class that installs it. A
   * parameter the class does not have, or whose value has the wrong type,
   * is refused and changes nothing.
   */
  function SetProperty(m: Model, p: Param): (r: Model)
    ensures r.Kind() == m.Kind()
  {
    if !HasProp(m.Kind(), p.prop) || !WellTyped(p) then m
    else if IsContentProp(p.prop) then m.(content := SetContentProperty(m.content, p))
    else if p.prop.ChildTags? then m.(childTags := Some(p.value.strv))
    else if p.prop.PosterUri? then m.(video := SetVideoProperty(m.video, p))
    else if p.prop.Duration? || p.prop.Transcript? then
      (if m.VideoObject? then m.(video := SetVideoProperty(m.video, p))
       else m.(audio := SetAudioProperty(m.audio, p)))
    else m.(media := SetMediaProperty(m.media, p))
  }

  /** g_object_get_property: `None` when the class has no such property. */
  function GetProperty(m: Model, q: Prop): (r: Option<Value>)
    ensures r.Some? <==> HasProp(m.Kind(), q)
  {
    if !HasProp(m.Kind(), q) then None
    else if IsContentProp(q) then Some(GetContentProperty(m.content, q))
    else if q.ChildTags? then Some(StrvValue(m.childTags))
    else if q.PosterUri? then Some(GetVideoProperty(m.video, q))
    else if q.Duration? || q.Transcript? then
      (if m.VideoObject? then Some(GetVideoProperty(m.video, q)) else Some(GetAudioProperty(m.audio, q)))
    else Some(GetMediaProperty(m.media, q))
  }

  /** g_object_newv over a parameter array: every parameter, first to last. */
  function Apply(m: Model, ps: seq<Param>): (r: Model)
    ensures r.Kind() == m.Kind()
    decreases |ps|
  {
    if ps == [] then m else SetProperty(Apply(m, ps[..|ps| - 1]), ps[|ps| - 1])
  }

  /** A model of class `k` constructed from `ps`, before `constructed` runs. */
  function Construct(k: Kind, ps: seq<Param>): (m: Model)
    ensures m.Kind() == k
  {
    Apply(Default(k), ps)
  }

  /** Each getter returns exactly what its setter stored. */
  lemma SetThenGet(m: Model, p: Param)
    requires HasProp(m.Kind(), p.prop) && WellTyped(p)
    ensures GetProperty(SetProperty(m, p), p.prop) == Some(p.value)
  {
  }

  /** Setting one property leaves every other property as it was. */
  lemma SetKeepsOthers(m: Model, p: Param, q: Prop)
    requires q != p.prop
    ensures GetProperty(SetProperty(m, p), q) == GetProperty(m, q)
  {
    if HasProp(m.Kind(), p.prop) && WellTyped(p) && HasProp(m.Kind(), q) {
      if IsContentProp(p.prop) && IsContentProp(q) {
        ContentSetKeepsContent(m, p, q);
      } else if IsContentProp(p.prop) || IsContentProp(q) {
        MixedSetKeepsOthers(m, p, q);
      } else {
        OwnSetKeepsOthers(m, p, q);
      }
    }
  }

  lemma ContentSetKeepsContent(m: Model, p: Param, q: Prop)
    requires q != p.prop && WellTyped(p)
    requires IsContentProp(p.prop) && IsContentProp(q)
    ensures GetProperty(SetProperty(m, p), q) == GetProperty(m, q)
  {
    ContentSetKeepsOthers(m.content, p, q);
  }

  /** A DmContent property and a subclass's own property live in different fields. */
  lemma MixedSetKeepsOthers(m: Model, p: Param, q: Prop)
    requires q != p.prop && WellTyped(p)
    requires HasProp(m.Kind(), p.prop) && HasProp(m.Kind(), q)
    requires IsContentProp(p.prop) != IsContentProp(q)
    ensures GetProperty(SetProperty(m, p), q) == GetProperty(m, q)
  {
    if IsContentProp(p.prop) {
      var c := SetContentProperty(m.content, p);
      assert SetProperty(m, p) == m.(content := c);
      OwnGetIgnoresContent(m, c, q);
    } else {
      SameContentSameGet(SetProperty(m, p), m, q);
    }
  }

  lemma OwnGetIgnoresContent(m: Model, c: ContentFields, q: Prop)
    requires !IsContentProp(q)
    ensures GetProperty(m.(content := c), q) == GetProperty(m, q)
  {
  }

  lemma SameContentSameGet(m: Model, n: Model, q: Prop)
    requires IsContentProp(q) && m.Kind() == n.Kind() && m.content == n.content
    ensures GetProperty(m, q) == GetProperty(n, q)
  {
  }

  /** Setting one of a subclass's own properties leaves its other own properties alone. */
  lemma OwnSetKeepsOthers(m: Model, p: Param, q: Prop)
    requires q != p.prop && WellTyped(p)
    requires HasProp(m.Kind(), p.prop) && HasProp(m.Kind(), q)
    requires !IsContentProp(p.prop) && !IsContentProp(q)
    ensures GetProperty(SetProperty(m, p), q) == GetProperty(m, q)
  {
    if p.prop.ChildTags? {
    } else if p.prop.PosterUri? || p.prop.Duration? || p.prop.Transcript? {
      if m.VideoObject? {
        VideoSetKeepsOthers(m, p, q);
      } else {
        AudioSetKeepsOthers(m, p, q);
      }
    } else {
      MediaSetKeepsOthers(m, p, q);
    }
  }

  lemma VideoSetKeepsOthers(m: Model, p: Param, q: Prop)
    requires m.VideoObject? && q != p.prop && WellTyped(p)
    requires p.prop.PosterUri? || p.prop.Duration? || p.prop.Transcript?
    requires HasProp(m.Kind(), q) && !IsContentProp(q)
    ensures GetProperty(SetProperty(m, p), q) == GetProperty(m, q)
  {
  }

  lemma AudioSetKeepsOthers(m: Model, p: Param, q: Prop)
    requires m.AudioObject? && q != p.prop && WellTyped(p)
    requires p.prop.Duration? || p.prop.Transcript?
    requires HasProp(m.Kind(), q) && !IsContentProp(q)
    ensures GetProperty(SetProperty(m, p), q) == GetProperty(m, q)
  {
  }

  lemma MediaSetKeepsOthers(m: Model, p: Param, q: Prop)
    requires IsMedia(m.Kind()) && q != p.prop && WellTyped(p)
    requires p.prop.Caption? || p.prop.Width? || p.prop.Height? || p.prop.ParentUri?
    requires HasProp(m.Kind(), q) && !IsContentProp(q)
    ensures GetProperty(SetProperty(m, p), q) == GetProperty(m, q)
  {
  }

  /** Setting one of DmContent's properties leaves the other eighteen alone. */
  lemma ContentSetKeepsOthers(c: ContentFields, p: Param, q: Prop)
    requires IsContentProp(p.prop) && WellTyped(p) && IsContentProp(q) && q != p.prop
    ensures GetContentProperty(SetContentProperty(c, p), q) == GetContentProperty(c, q)
  {
    if TypeOf(p.prop) == StringProp {
      StringSetKeepsOthers(c, p, q);
    }
  }

  lemma StringSetKeepsOthers(c: ContentFields, p: Param, q: Prop)
    requires IsContentProp(p.prop) && WellTyped(p) && IsContentProp(q) && q != p.prop
    requires TypeOf(p.prop) == StringProp
    ensures GetContentProperty(SetContentProperty(c, p), q) == GetContentProperty(c, q)
  {
  }

  /**
   * After construction each property holds the last parameter naming it,
   * or the value it had before when no parameter names it.
   */
  lemma {:induction false} ApplyGet(m: Model, ps: seq<Param>, q: Prop)
    requires AllWellTyped(ps)
    ensures GetProperty(Apply(m, ps), q)
         == if HasProp(m.Kind(), q) && LastFor(ps, q).Some? then LastFor(ps, q) else GetProperty(m, q)
    decreases |ps|
  {
    if ps != [] {
      var front := ps[..|ps| - 1];
      var p := ps[|ps| - 1];
      assert WellTyped(p);
      assert Apply(m, ps) == SetProperty(Apply(m, front), p);
      assert LastFor(ps, q) == if p.prop == q then Some(p.value) else LastFor(front, q);
      ApplyGet(m, front, q);
      if p.prop == q {
        if HasProp(m.Kind(), q) {
          SetThenGet(Apply(m, front), p);
        }
      } else {
        SetKeepsOthers(Apply(m, front), p, q);
      }
    }
  }
}
