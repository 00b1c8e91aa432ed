/**
 * The `POST /extract_tiktok` endpoint: validation of the request body,
 * resolution of the video ID, the upstream lookup, the mapping of the
 * metadata, and the choice of status code and JSON body.
 *
 * The upstream lookup `api.video(id=...).info()` belongs to a foreign client
 * library; it is an input here (`Fetch`): the metadata it returns for an ID,
 * or the exception it raises.
 */
module Handler {
  import opened Wrappers
  import opened Text
  import opened Json
  import VideoId
  import Record

  /** Why a request failed; each problem has its own `error` message. */
  datatype Problem =
    | UrlRequired                     // "URL is required"
    | InvalidUrl                      // "Invalid TikTok URL"
    | NotFound                        // "Video not found or private"
    | ExtractionFailed(cause: Fault)  // "Failed to extract video data: ..."
    | ServerError(cause: Fault)       // "Server error: ..."

  /** A JSON body: `{"error": message}` or `{"success": true, "data": record}`. */
  datatype Outcome =
    | Error(problem: Problem)
    | Data(record: Record.VideoRecord)

  /** An HTTP reply: a status code and a JSON body. */
  datatype Reply = Reply(status: int, body: Outcome)

  /** The upstream lookup of a video ID: the decoded metadata, or the exception raised. */
  type Fetch = string -> Result<Value, Fault>

  /** The keys of a JSON body. */
  function Keys(o: Outcome): set<string> {
    match o
    case Error(_) => {"error"}
    case Data(_) => {"success", "data"}
  }

  /**
   * The text of the `error` key.  `explain` stands for Python's `str(e)`,
   * whose wording belongs to the library or the runtime that raised.
   */
  function Message(p: Problem, explain: Fault -> string): string {
    match p
    case UrlRequired => "URL is required"
    case InvalidUrl => "Invalid TikTok URL"
    case NotFound => "Video not found or private"
    case ExtractionFailed(e) => "Failed to extract video data: " + explain(e)
    case ServerError(e) => "Server error: " + explain(e)
  }

  /**
   * `get_video_data(url)`: resolve the ID, look it up, and map the metadata.
   * Every exception raised on the way is caught and reported as an
   * extraction failure: a `url` that is not a string (the regular expression
   * raises), a lookup that raises, or a failure of `FromMetadata`.
   */
  function GetVideoData(url: Value, fetch: Fetch): Outcome {
    if !url.Str? then Error(ExtractionFailed(WrongType(Regex, url)))
    else match VideoId.Resolve(url.s)
      case None => Error(InvalidUrl)
      case Some(id) =>
        if id == "" then Error(InvalidUrl)
        else match fetch(id)
          case Failure(e) => Error(ExtractionFailed(e))
          case Success(v) => FromMetadata(v)
  }

  /**
   * What `get_video_data` makes of the metadata the lookup returned: a false
   * value is "not found"; a dict is mapped; anything else true has no `.get`
   * and raises, as does a mapping that raises.
   */
  function FromMetadata(v: Value): (o: Outcome)
    ensures o.Data? <==> v.Obj? && v.fields != map[] && Record.MapsCleanly(v.fields)
    ensures o.Data? ==> Record.Normalise(v.fields) == Success(o.record)
    ensures o == Error(NotFound) <==> !Truthy(v)
  {
    if !Truthy(v) then Error(NotFound)
    else match v
      case Obj(raw) =>
        Record.NormaliseFails(raw);
        (match Record.Normalise(raw)
         case Success(rec) => Data(rec)
         case Failure(e) => Error(ExtractionFailed(e)))
      case _ => Error(ExtractionFailed(WrongType(GetKey, v)))
  }

  /**
   * `extract_tiktok()` on the decoded request body `data`.  The checks on the
   * body run in order; one that raises (an `in` or a subscript applied to a
   * value of the wrong kind) is caught at the outer level and gives 500.
   */
  function ExtractTiktok(data: Value, fetch: Fetch): Reply {
    if !Truthy(data) then Reply(400, Error(UrlRequired))
    else match Contains(data, "url")
      case Failure(e) => Reply(500, Error(ServerError(e)))
      case Success(hasUrl) =>
        if !hasUrl then Reply(400, Error(UrlRequired))
        else match Lookup(data, "url")
          case Failure(e) => Reply(500, Error(ServerError(e)))
          case Success(url) =>
            match Contains(url, "tiktok.com")
            case Failure(e) => Reply(500, Error(ServerError(e)))
            case Success(onSite) =>
              if !onSite then Reply(400, Error(InvalidUrl))
              else
                var result := GetVideoData(url, fetch);
                if "error" in Keys(result) then Reply(400, result) else Reply(200, result)
  }

  // ----- The status code and the body -----

  /**
   * The status is 200, 400 or 500; it is 200 exactly when the body carries
   * `success` and `data` and no `error`, and 500 exactly for a server error.
   */
  lemma StatusFollowsBody(data: Value, fetch: Fetch)
    ensures var r := ExtractTiktok(data, fetch);
      && r.status in {200, 400, 500}
      && (r.status == 200 <==> r.body.Data?)
      && (r.status == 200 <==> "error" !in Keys(r.body))
      && (r.status == 200 ==> "success" in Keys(r.body) && "data" in Keys(r.body))
      && (r.status == 500 <==> r.body.Error? && r.body.problem.ServerError?)
  {
    if data.Obj? && "url" in data.fields {
      GetVideoDataProblems(data.fields["url"], fetch);
    }
  }

  /** `get_video_data` never reports a missing URL or a server error. */
  lemma GetVideoDataProblems(url: Value, fetch: Fetch)
    ensures var o := GetVideoData(url, fetch);
      o.Error? ==> !o.problem.UrlRequired? && !o.problem.ServerError?
  {
  }

  /** The five messages start with five different letters, so a client can tell the problems apart. */
  lemma MessagesTellProblemsApart(p: Problem, q: Problem, explain: Fault -> string)
    requires p.ExtractionFailed? ==> !q.ExtractionFailed?
    requires p.ServerError? ==> !q.ServerError?
    requires p != q
    ensures Message(p, explain) != Message(q, explain)
  {
    assert Message(p, explain)[0] != Message(q, explain)[0];
  }

  // ----- Validation -----

  /** 400 "URL is required" exactly when the body is false or has no `url`. */
  lemma UrlRequiredIff(data: Value, fetch: Fetch)
    ensures ExtractTiktok(data, fetch).body == Error(UrlRequired) <==>
      !Truthy(data) || Contains(data, "url") == Success(false)
    ensures ExtractTiktok(data, fetch).body == Error(UrlRequired) ==> ExtractTiktok(data, fetch).status == 400
  {
    if data.Obj? && "url" in data.fields {
      GetVideoDataProblems(data.fields["url"], fetch);
    }
  }

  /**
   * 500 exactly when a check on the body raises: `in` on a number, boolean
   * or null body; subscripting a string or list body that passed the `in`
   * test; or `in` on a `url` that is a number, boolean or null.
   */
  lemma ServerErrorIff(data: Value, fetch: Fetch)
    ensures ExtractTiktok(data, fetch).status == 500 <==>
      && Truthy(data)
      && (|| Contains(data, "url").Failure?
          || (Contains(data, "url") == Success(true) && !data.Obj?)
          || (data.Obj? && "url" in data.fields && Contains(data.fields["url"], "tiktok.com").Failure?))
  {
    if data.Obj? && "url" in data.fields {
      GetVideoDataProblems(data.fields["url"], fetch);
    }
  }

  /**
   * 400 "Invalid TikTok URL" exactly when the body is a dict whose `url`
   * lacks `tiktok.com`, or is a string naming `tiktok.com` from which no ID
   * is extracted; in both cases the reply does not depend on the lookup.
   */
  lemma InvalidUrlWithoutFetch(data: Value, fetch: Fetch, fetch': Fetch)
    ensures ExtractTiktok(data, fetch).body == Error(InvalidUrl) <==>
      && data.Obj? && "url" in data.fields
      && var url := data.fields["url"];
         || Contains(url, "tiktok.com") == Success(false)
         || (url.Str? && Occurs("tiktok.com", url.s) && VideoId.Resolve(url.s).None?)
    ensures ExtractTiktok(data, fetch).body == Error(InvalidUrl) ==>
      ExtractTiktok(data, fetch') == ExtractTiktok(data, fetch) && ExtractTiktok(data, fetch).status == 400
  {
    if data.Obj? && "url" in data.fields {
      var url := data.fields["url"];
      if url.Str? {
        match VideoId.Resolve(url.s)
        case None =>
        case Some(id) =>
          VideoId.ResolvedIdShape(url.s, id);
      }
      GetVideoDataProblems(url, fetch);
    }
  }

  /** A dict body whose `url` lacks `tiktok.com` gets 400 "Invalid TikTok URL". */
  lemma OffSiteRejected(data: Value, fetch: Fetch)
    requires data.Obj? && "url" in data.fields
    requires Contains(data.fields["url"], "tiktok.com") == Success(false)
    ensures ExtractTiktok(data, fetch) == Reply(400, Error(InvalidUrl))
  {
  }

  /** A dict body whose `url` contains `tiktok.com` gets the body `get_video_data` returns for that `url`. */
  lemma ValidUrlDelegates(data: Value, fetch: Fetch)
    requires data.Obj? && "url" in data.fields
    requires Contains(data.fields["url"], "tiktok.com") == Success(true)
    ensures ExtractTiktok(data, fetch).body == GetVideoData(data.fields["url"], fetch)
  {
  }

  // ----- The lookup and the mapping -----

  /** The only ID ever looked up is the one resolved from the URL. */
  lemma OnlyResolvedIdIsFetched(url: Value, fetch: Fetch, fetch': Fetch)
    requires url.Str? && VideoId.Resolve(url.s).Some?
    requires fetch(VideoId.Resolve(url.s).value) == fetch'(VideoId.Resolve(url.s).value)
    ensures GetVideoData(url, fetch) == GetVideoData(url, fetch')
  {
  }

  /** "Video not found or private" exactly when the lookup of the resolved ID returns a false value, `{}` included. */
  lemma NotFoundIff(url: Value, fetch: Fetch)
    ensures GetVideoData(url, fetch) == Error(NotFound) <==>
      && url.Str? && VideoId.Resolve(url.s).Some?
      && var got := fetch(VideoId.Resolve(url.s).value);
         got.Success? && !Truthy(got.value)
    ensures (url.Str? && VideoId.Resolve(url.s).Some? &&
      fetch(VideoId.Resolve(url.s).value) == Success(Obj(map[]))) ==> GetVideoData(url, fetch) == Error(NotFound)
  {
    if url.Str? && VideoId.Resolve(url.s).Some? {
      VideoId.ResolvedIdShape(url.s, VideoId.Resolve(url.s).value);
    }
  }

  /**
   * `get_video_data` succeeds exactly when the URL resolves, the lookup of
   * that ID returns a non-empty dict, and the mapping of that dict raises
   * nothing; the record is then the mapping of that dict.
   */
  lemma GetVideoDataSucceeds(url: Value, fetch: Fetch)
    ensures GetVideoData(url, fetch).Data? <==>
      && url.Str? && VideoId.Resolve(url.s).Some?
      && var got := fetch(VideoId.Resolve(url.s).value);
         got.Success? && got.value.Obj? && got.value.fields != map[] && Record.MapsCleanly(got.value.fields)
    ensures GetVideoData(url, fetch).Data? ==>
      var raw := fetch(VideoId.Resolve(url.s).value).value.fields;
      Record.Normalise(raw) == Success(GetVideoData(url, fetch).record)
  {
    if url.Str? && VideoId.Resolve(url.s).Some? {
      VideoId.ResolvedIdShape(url.s, VideoId.Resolve(url.s).value);
    }
  }

  /**
   * A reply is 200 exactly when the body is a dict whose `url` contains
   * `tiktok.com` and `get_video_data` of that `url` succeeds; its body is
   * then what `get_video_data` returned.
   */
  lemma SuccessIff(data: Value, fetch: Fetch)
    ensures ExtractTiktok(data, fetch).status == 200 <==>
      && data.Obj? && "url" in data.fields
      && Contains(data.fields["url"], "tiktok.com") == Success(true)
      && GetVideoData(data.fields["url"], fetch).Data?
    ensures ExtractTiktok(data, fetch).status == 200 ==>
      ExtractTiktok(data, fetch).body == GetVideoData(data.fields["url"], fetch)
  {
    if data.Obj? && "url" in data.fields {
      GetVideoDataProblems(data.fields["url"], fetch);
    }
  }

  // ----- Examples -----

  /** The body `{}` gets 400 "URL is required". */
  lemma EmptyBodyExample(fetch: Fetch, explain: Fault -> string)
    ensures ExtractTiktok(Obj(map[]), fetch) == Reply(400, Error(UrlRequired))
    ensures Message(ExtractTiktok(Obj(map[]), fetch).body.problem, explain) == "URL is required"
  {
  }

  const OtherSite := "https://example.com/not-tiktok"

  lemma OtherSiteLacksDomain()
    ensures Contains(Str(OtherSite), "tiktok.com") == Success(false)
  {
    assert forall k :: 0 <= k < |OtherSite| && OtherSite[k] == '.' ==> k == 15;
    forall i: nat ensures !LitAt(OtherSite, i, "tiktok.com") {
      if LitAt(OtherSite, i, "tiktok.com") {
        LitAtChar(OtherSite, i, "tiktok.com", 6);
        LitAtChar(OtherSite, i, "tiktok.com", 0);
      }
    }
  }

  /** `{"url": "https://example.com/not-tiktok"}` gets 400 "Invalid TikTok URL", whatever the lookup would give. */
  lemma OtherSiteExample(fetch: Fetch)
    ensures ExtractTiktok(Obj(map["url" := Str(OtherSite)]), fetch) == Reply(400, Error(InvalidUrl))
  {
    OtherSiteLacksDomain();
    OffSiteRejected(Obj(map["url" := Str(OtherSite)]), fetch);
  }

  /**
   * The short link `https://vt.tiktok.com/ZSDGDKF3r/` passes the domain check
   * but yields no ID, so it gets 400 "Invalid TikTok URL" without a lookup.
   */
  lemma VtShortLinkExample(fetch: Fetch)
    ensures ExtractTiktok(Obj(map["url" := Str(VideoId.VtShortUrl)]), fetch) == Reply(400, Error(InvalidUrl))
  {
    var u := VideoId.VtShortUrl;
    var data := Obj(map["url" := Str(u)]);
    assert u[11..21] == "tiktok.com";
    assert LitAt(u, 11, "tiktok.com");
    VideoId.VtShortLinkUnresolved();
    InvalidUrlWithoutFetch(data, fetch, fetch);
  }

  lemma ProfileUrlOnSite()
    ensures Occurs("tiktok.com", VideoId.ProfileUrl)
  {
    var u := VideoId.ProfileUrl;
    assert u == "https://www." + "tiktok.com" + "/@user/video/7123456";
    assert u[12..22] == "tiktok.com";
    assert LitAt(u, 12, "tiktok.com");
  }

  /**
   * A profile link whose video the lookup reports as absent (an empty dict)
   * gets 400 "Video not found or private", with no `success` key.
   */
  lemma NotFoundExample(fetch: Fetch)
    requires fetch("7123456") == Success(Obj(map[]))
    ensures var r := ExtractTiktok(Obj(map["url" := Str(VideoId.ProfileUrl)]), fetch);
      r == Reply(400, Error(NotFound)) && "success" !in Keys(r.body)
  {
    var u := VideoId.ProfileUrl;
    var data := Obj(map["url" := Str(u)]);
    ProfileUrlOnSite();
    VideoId.ProfileUrlExample();
    NotFoundIff(Str(u), fetch);
    assert GetVideoData(Str(u), fetch) == Error(NotFound);
    ValidUrlDelegates(data, fetch);
    StatusFollowsBody(data, fetch);
  }
}
