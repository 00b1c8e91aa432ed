/**
 * The output record built from the upstream metadata, and the mapping from
 * one to the other.  Every field is read with `.get(key, default)`, so a
 * missing key gives the default; a value that is present is copied as it is,
 * whatever its type.
 */
module Record {
  import opened Wrappers
  import opened Json
  import Hashtags

  /** The `author` object of the output. */
  datatype Author = Author(uniqueId: Value, nickname: Value, avatar: Value)

  /** The `video` object of the output. */
  datatype Video = Video(
    playAddr: Value, downloadAddr: Value, cover: Value, dynamicCover: Value,
    width: Value, height: Value, duration: Value)

  /** The `music` object of the output. */
  datatype Music = Music(id: Value, title: Value, author: Value, playUrl: Value)

  /** The `stats` object of the output. */
  datatype Stats = Stats(diggCount: Value, shareCount: Value, commentCount: Value, playCount: Value)

  /** The `data` object of a successful reply. */
  datatype VideoRecord = VideoRecord(
    id: Value, title: Value, desc: Value, createTime: Value,
    author: Author, video: Video, music: Music, stats: Stats,
    hashtags: string, play: Value)

  const NoText: Value := Str("")
  const Zero: Value := Int(0)

  /**
   * `extract_hashtags(desc)`: a false value (absent, `""`, `0`, ...) gives `""`,
   * a string is scanned, and any other value makes the regular expression raise.
   */
  function HashtagsOf(desc: Value): Result<string, Fault> {
    if !Truthy(desc) then Success("")
    else match desc
      case Str(s) => Success(Hashtags.ExtractHashtags(s))
      case _ => Failure(WrongType(Regex, desc))
  }

  /** Python's `a or b`: `a` when it is true, otherwise `b`. */
  function Or(a: Value, b: Value): Value {
    if Truthy(a) then a else b
  }

  /** The `author` object built from the upstream `author` fields. */
  function AuthorOf(a: map<string, Value>): Author {
    Author(
      uniqueId := Get(a, "uniqueId", NoText),
      nickname := Get(a, "nickname", NoText),
      avatar := Get(a, "avatarMedium", NoText))
  }

  /** The `video` object built from the upstream `video` fields. */
  function VideoOf(v: map<string, Value>): Video {
    Video(
      playAddr := Get(v, "playAddr", NoText),
      downloadAddr := Get(v, "downloadAddr", NoText),
      cover := Get(v, "cover", NoText),
      dynamicCover := Get(v, "dynamicCover", NoText),
      width := Get(v, "width", Zero),
      height := Get(v, "height", Zero),
      duration := Get(v, "duration", Zero))
  }

  /** The `music` object built from the upstream `music` fields. */
  function MusicOf(m: map<string, Value>): Music {
    Music(
      id := Get(m, "id", NoText),
      title := Get(m, "title", NoText),
      author := Get(m, "authorName", NoText),
      playUrl := Get(m, "playUrl", NoText))
  }

  /** The `stats` object built from the upstream `stats` fields. */
  function StatsOf(s: map<string, Value>): Stats {
    Stats(
      diggCount := Get(s, "diggCount", Zero),
      shareCount := Get(s, "shareCount", Zero),
      commentCount := Get(s, "commentCount", Zero),
      playCount := Get(s, "playCount", Zero))
  }

  /**
   * The `result["data"]` expression of `get_video_data`.  The dict literal is
   * evaluated in order, so a bad `author` is reported before a bad `video`,
   * `music` or `stats`, and those before a `desc` the hashtag scan rejects.
   */
  function Normalise(raw: map<string, Value>): Result<VideoRecord, Fault> {
    var author :- Section(raw, "author");
    var video :- Section(raw, "video");
    var music :- Section(raw, "music");
    var stats :- Section(raw, "stats");
    var hashtags :- HashtagsOf(Get(raw, "desc", NoText));
    Success(VideoRecord(
      id := Get(raw, "id", NoText),
      title := Get(raw, "desc", NoText),
      desc := Get(raw, "desc", NoText),
      createTime := Get(raw, "createTime", Zero),
      author := AuthorOf(author),
      video := VideoOf(video),
      music := MusicOf(music),
      stats := StatsOf(stats),
      hashtags := hashtags,
      play := Or(Get(video, "downloadAddr", NoText), Get(video, "playAddr", NoText))))
  }

  // ----- The output schema as a table -----

  /** The output fields copied from the upstream record. */
  datatype Field =
    | Id | Title | Desc | CreateTime
    | AuthorUniqueId | AuthorNickname | AuthorAvatar
    | PlayAddr | DownloadAddr | Cover | DynamicCover | Width | Height | Duration
    | MusicId | MusicTitle | MusicAuthor | MusicPlayUrl
    | DiggCount | ShareCount | CommentCount | PlayCount

  /** Where a field comes from: a key of the top level or of one nested object, and its default. */
  datatype Origin = Origin(section: Option<string>, key: string, default: Value)

  /** The upstream key path and default of every copied output field. */
  function OriginOf(f: Field): Origin {
    match f
    case Id => Origin(None, "id", Str(""))
    case Title => Origin(None, "desc", Str(""))
    case Desc => Origin(None, "desc", Str(""))
    case CreateTime => Origin(None, "createTime", Int(0))
    case AuthorUniqueId => Origin(Some("author"), "uniqueId", Str(""))
    case AuthorNickname => Origin(Some("author"), "nickname", Str(""))
    case AuthorAvatar => Origin(Some("author"), "avatarMedium", Str(""))
    case PlayAddr => Origin(Some("video"), "playAddr", Str(""))
    case DownloadAddr => Origin(Some("video"), "downloadAddr", Str(""))
    case Cover => Origin(Some("video"), "cover", Str(""))
    case DynamicCover => Origin(Some("video"), "dynamicCover", Str(""))
    case Width => Origin(Some("video"), "width", Int(0))
    case Height => Origin(Some("video"), "height", Int(0))
    case Duration => Origin(Some("video"), "duration", Int(0))
    case MusicId => Origin(Some("music"), "id", Str(""))
    case MusicTitle => Origin(Some("music"), "title", Str(""))
    case MusicAuthor => Origin(Some("music"), "authorName", Str(""))
    case MusicPlayUrl => Origin(Some("music"), "playUrl", Str(""))
    case DiggCount => Origin(Some("stats"), "diggCount", Int(0))
    case ShareCount => Origin(Some("stats"), "shareCount", Int(0))
    case CommentCount => Origin(Some("stats"), "commentCount", Int(0))
    case PlayCount => Origin(Some("stats"), "playCount", Int(0))
  }

  /** Whether the output field holds a string (otherwise a number) when defaulted. */
  predicate IsTextField(f: Field) {
    !(f in {CreateTime, Width, Height, Duration, DiggCount, ShareCount, CommentCount, PlayCount})
  }

  /** The value of output field `f`. */
  function Project(rec: VideoRecord, f: Field): Value {
    match f
    case Id => rec.id
    case Title => rec.title
    case Desc => rec.desc
    case CreateTime => rec.createTime
    case AuthorUniqueId => rec.author.uniqueId
    case AuthorNickname => rec.author.nickname
    case AuthorAvatar => rec.author.avatar
    case PlayAddr => rec.video.playAddr
    case DownloadAddr => rec.video.downloadAddr
    case Cover => rec.video.cover
    case DynamicCover => rec.video.dynamicCover
    case Width => rec.video.width
    case Height => rec.video.height
    case Duration => rec.video.duration
    case MusicId => rec.music.id
    case MusicTitle => rec.music.title
    case MusicAuthor => rec.music.author
    case MusicPlayUrl => rec.music.playUrl
    case DiggCount => rec.stats.diggCount
    case ShareCount => rec.stats.shareCount
    case CommentCount => rec.stats.commentCount
    case PlayCount => rec.stats.playCount
  }

  /** The value at `o`'s key path, or its default when a key on the path is absent. */
  function ValueAt(raw: map<string, Value>, o: Origin): Value {
    match o.section
    case None => if o.key in raw then raw[o.key] else o.default
    case Some(sec) =>
      if sec in raw && raw[sec].Obj? && o.key in raw[sec].fields then raw[sec].fields[o.key] else o.default
  }

  /** A nested object is usable when it is absent or an object. */
  predicate SectionOk(raw: map<string, Value>, sec: string) {
    sec !in raw || raw[sec].Obj?
  }

  /** The conditions under which the mapping raises nothing. */
  predicate MapsCleanly(raw: map<string, Value>) {
    && SectionOk(raw, "author") && SectionOk(raw, "video")
    && SectionOk(raw, "music") && SectionOk(raw, "stats")
    && var desc := Get(raw, "desc", Str(""));
       !Truthy(desc) || desc.Str?
  }

  // ----- Properties of the mapping -----

  /**
   * The mapping succeeds exactly when `author`, `video`, `music` and `stats` are
   * each absent or an object and `desc` is false or a string; otherwise it
   * reports the first offending value in evaluation order.
   */
  lemma NormaliseFails(raw: map<string, Value>)
    ensures Normalise(raw).Success? <==> MapsCleanly(raw)
    ensures !SectionOk(raw, "author") ==> Normalise(raw) == Failure(WrongType(GetKey, raw["author"]))
    ensures SectionOk(raw, "author") && !SectionOk(raw, "video") ==>
      Normalise(raw) == Failure(WrongType(GetKey, raw["video"]))
    ensures SectionOk(raw, "author") && SectionOk(raw, "video") && !SectionOk(raw, "music") ==>
      Normalise(raw) == Failure(WrongType(GetKey, raw["music"]))
    ensures (SectionOk(raw, "author") && SectionOk(raw, "video") && SectionOk(raw, "music")
      && !SectionOk(raw, "stats")) ==> Normalise(raw) == Failure(WrongType(GetKey, raw["stats"]))
  {
  }

  /**
   * On success every copied field holds the value at its key path in the
   * upstream record, or its default (`""` for text, `0` for numbers) when a
   * key on that path is absent.
   */
  lemma NormaliseFollowsSchema(raw: map<string, Value>, f: Field)
    requires Normalise(raw).Success?
    ensures Project(Normalise(raw).value, f) == ValueAt(raw, OriginOf(f))
    ensures OriginOf(f).default == (if IsTextField(f) then Str("") else Int(0))
  {
    NormaliseParts(raw);
    BuiltRecordFollowsSchema(raw, Normalise(raw).value, f);
    DefaultsByKind(f);
  }

  /** Text fields default to `""` and numeric fields to `0`. */
  lemma DefaultsByKind(f: Field)
    ensures OriginOf(f).default == (if IsTextField(f) then Str("") else Int(0))
  {
  }

  /** A record assembled from usable objects holds, in each field, the value at that field's key path. */
  lemma BuiltRecordFollowsSchema(raw: map<string, Value>, rec: VideoRecord, f: Field)
    requires BuiltFrom(raw, rec) && MapsCleanly(raw)
    ensures Project(rec, f) == ValueAt(raw, OriginOf(f))
  {
    var o := OriginOf(f);
    match o.section
    case None =>
    case Some(sec) =>
      SectionValue(raw, sec, o.key, o.default);
  }

  /** Reading a key of a usable nested object agrees with the key path. */
  lemma SectionValue(raw: map<string, Value>, sec: string, key: string, d: Value)
    requires SectionOk(raw, sec)
    ensures Get(Fields(raw, sec), key, d) == ValueAt(raw, Origin(Some(sec), key, d))
  {
  }

  /**
   * The fields `Section` reads from a nested object: its success value, and
   * no fields where `Section` raises (a case `BuiltFrom` is used only after
   * `MapsCleanly` has excluded).
   */
  function Fields(raw: map<string, Value>, sec: string): map<string, Value> {
    match Section(raw, sec)
    case Success(fields) => fields
    case Failure(_) => map[]
  }

  /** `rec` holds the copied fields of `raw`, each part read from its upstream object. */
  predicate BuiltFrom(raw: map<string, Value>, rec: VideoRecord) {
    && rec.id == Get(raw, "id", NoText)
    && rec.title == Get(raw, "desc", NoText)
    && rec.desc == Get(raw, "desc", NoText)
    && rec.createTime == Get(raw, "createTime", Zero)
    && rec.author == AuthorOf(Fields(raw, "author"))
    && rec.video == VideoOf(Fields(raw, "video"))
    && rec.music == MusicOf(Fields(raw, "music"))
    && rec.stats == StatsOf(Fields(raw, "stats"))
  }

  /** On success the record is assembled from the upstream objects, all of them usable. */
  lemma NormaliseParts(raw: map<string, Value>)
    requires Normalise(raw).Success?
    ensures BuiltFrom(raw, Normalise(raw).value)
    ensures MapsCleanly(raw)
  {
    NormaliseFails(raw);
  }

  /** `title` and `desc` both hold the upstream `desc`; `hashtags` are extracted from it. */
  lemma TitleDescHashtags(raw: map<string, Value>)
    requires Normalise(raw).Success?
    ensures Normalise(raw).value.title == Normalise(raw).value.desc == Get(raw, "desc", Str(""))
    ensures var d := Get(raw, "desc", Str(""));
      Normalise(raw).value.hashtags == (if d.Str? then Hashtags.ExtractHashtags(d.s) else "")
  {
    NormaliseFails(raw);
  }

  /** `play` is the download address when it is a true value, and the play address otherwise. */
  lemma PlayFallback(raw: map<string, Value>)
    requires Normalise(raw).Success?
    ensures var v := Normalise(raw).value.video;
      && (Truthy(v.downloadAddr) ==> Normalise(raw).value.play == v.downloadAddr)
      && (!Truthy(v.downloadAddr) ==> Normalise(raw).value.play == v.playAddr)
    ensures "video" !in raw ==> Normalise(raw).value.play == Str("")
  {
    NormaliseFails(raw);
  }

  /** The record of an empty upstream record: every text field `""`, every number `0`. */
  lemma EmptyRecordDefaults()
    ensures Normalise(map[]).Success?
    ensures forall f :: Project(Normalise(map[]).value, f) == if IsTextField(f) then Str("") else Int(0)
    ensures Normalise(map[]).value.hashtags == "" && Normalise(map[]).value.play == Str("")
  {
    NormaliseFails(map[]);
    forall f ensures Project(Normalise(map[]).value, f) == if IsTextField(f) then Str("") else Int(0) {
      NormaliseFollowsSchema(map[], f);
    }
  }
}
