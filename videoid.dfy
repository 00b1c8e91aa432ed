/**
 * The URL resolver: five fixed patterns tried in priority order, each searched
 * for anywhere in the URL, the first capture found being the video ID.
 *
 * `MatchAt` is the hand-written matcher of one pattern at one position;
 * `Accepts` says declaratively what the pattern accepts there.  `Search` is
 * a leftmost search and `Resolve` the first-match over the rule list.
 */
module VideoId {
  import opened Wrappers
  import opened Text

  /** The five patterns, in the order they are tried. */
  datatype Rule =
    | ProfileVideo  // `/@[\w\.-]+/video/(\d+)`
    | BareVideo     // `/video/(\d+)`
    | ShortVideo    // `v/(\d+)`
    | DomainPath    // `tiktok\.com/.*?/(\d+)`
    | ShortLink     // `vm\.tiktok\.com/(\w+)`

  const Rules: seq<Rule> := [ProfileVideo, BareVideo, ShortVideo, DomainPath, ShortLink]

  /** A `/` immediately followed by a digit at position `k`: where `/(\d+)` can start. */
  predicate SlashDigitAt(s: string, k: nat) {
    k + 1 < |s| && s[k] == '/' && IsDigit(s[k + 1])
  }

  /**
   * The lazy tail `.*?/(\d+)` of the domain rule, with `.*?` starting at `j`:
   * it tries `/(\d+)` at each position in turn, and lets `.*?` swallow one more
   * character only when that character is not a newline.
   */
  function LazyPath(s: string, j: nat): Option<string>
    decreases |s| - j
  {
    if j >= |s| then None
    else if s[j] == '/' && Capture(s, j + 1, Digit).Some? then Capture(s, j + 1, Digit)
    else if s[j] == '\n' then None
    else LazyPath(s, j + 1)
  }

  /** The capture of `rule` when its match starts at position `i`, if it matches there. */
  function MatchAt(rule: Rule, s: string, i: nat): (r: Option<string>)
    ensures r.Some? ==> i < |s| && 0 < |r.value|
  {
    match rule
    case ProfileVideo =>
      if LitAt(s, i, "/@") then
        var n := Span(s, i + 2, Handle);
        if 0 < n && LitAt(s, i + 2 + n, "/video/") then Capture(s, i + 9 + n, Digit) else None
      else None
    case BareVideo =>
      if LitAt(s, i, "/video/") then Capture(s, i + 7, Digit) else None
    case ShortVideo =>
      if LitAt(s, i, "v/") then Capture(s, i + 2, Digit) else None
    case DomainPath =>
      if LitAt(s, i, "tiktok.com/") then LazyPathNonEmpty(s, i + 11); LazyPath(s, i + 11) else None
    case ShortLink =>
      if LitAt(s, i, "vm.tiktok.com/") then Capture(s, i + 14, Word) else None
  }

  lemma {:induction false} LazyPathNonEmpty(s: string, j: nat)
    ensures LazyPath(s, j).Some? ==> j < |s| && 0 < |LazyPath(s, j).value|
    decreases |s| - j
  {
    if j < |s| && !(s[j] == '/' && Capture(s, j + 1, Digit).Some?) && s[j] != '\n' {
      LazyPathNonEmpty(s, j + 1);
    }
  }

  // ----- What each pattern accepts, stated declaratively -----

  /** `/@`, a handle of `n` handle characters, `/video/`, then the digits `id`. */
  ghost predicate ProfileShape(s: string, i: nat, n: nat, id: string) {
    && LitAt(s, i, "/@")
    && 0 < n
    && LitAt(s, i + 2 + n, "/video/")
    && (forall k :: i + 2 <= k < i + 2 + n ==> InClass(s[k], Handle))
    && RunAt(s, i + 9 + n, Digit, id)
  }

  /**
   * The lazy tail starting at `p` stops at the `/` at `j`: `id` are the digits
   * after it, and no earlier position from `p` on is a newline or a `/` before a digit.
   */
  ghost predicate LazyShape(s: string, p: nat, j: nat, id: string) {
    && p <= j < |s|
    && s[j] == '/'
    && RunAt(s, j + 1, Digit, id)
    && forall k :: p <= k < j ==> s[k] != '\n' && !SlashDigitAt(s, k)
  }

  /** `tiktok.com/` at `i`, followed by the lazy tail that stops at the `/` at `j`. */
  ghost predicate DomainShape(s: string, i: nat, j: nat, id: string) {
    LitAt(s, i, "tiktok.com/") && LazyShape(s, i + 11, j, id)
  }

  /** `rule` matches at position `i` with capture `id`. */
  ghost predicate Accepts(rule: Rule, s: string, i: nat, id: string) {
    match rule
    case ProfileVideo => exists n: nat :: ProfileShape(s, i, n, id)
    case BareVideo => LitAt(s, i, "/video/") && RunAt(s, i + 7, Digit, id)
    case ShortVideo => LitAt(s, i, "v/") && RunAt(s, i + 2, Digit, id)
    case DomainPath => exists j: nat :: DomainShape(s, i, j, id)
    case ShortLink => LitAt(s, i, "vm.tiktok.com/") && RunAt(s, i + 14, Word, id)
  }

  /** No capture at all is accepted at `i`. */
  ghost predicate NoMatchAt(rule: Rule, s: string, i: nat) {
    forall id :: !Accepts(rule, s, i, id)
  }

  /** `id` is the capture of the leftmost match of `rule`, which starts at `p`. */
  ghost predicate Leftmost(rule: Rule, s: string, p: nat, id: string) {
    Accepts(rule, s, p, id) && forall k :: 0 <= k < p ==> NoMatchAt(rule, s, k)
  }

  /** `rule` matches somewhere in `s`. */
  ghost predicate RuleOccurs(rule: Rule, s: string) {
    exists p: nat, id :: Accepts(rule, s, p, id)
  }

  // ----- The matchers against their declarative meaning -----

  lemma {:induction false} LazyPathCorrect(s: string, p: nat, id: string)
    ensures LazyPath(s, p) == Some(id) <==> exists j: nat :: LazyShape(s, p, j, id)
    decreases |s| - p
  {
    if p >= |s| {
    } else if s[p] == '/' && Capture(s, p + 1, Digit).Some? {
      var w := Capture(s, p + 1, Digit).value;
      assert SlashDigitAt(s, p);
      if id == w {
        assert LazyShape(s, p, p, id);
      }
      if exists j: nat :: LazyShape(s, p, j, id) {
        var j: nat :| LazyShape(s, p, j, id);
        assert j == p;
      }
    } else if s[p] == '\n' {
      assert forall j: nat :: !LazyShape(s, p, j, id);
    } else {
      var q := p + 1;
      LazyPathCorrect(s, q, id);
      assert !SlashDigitAt(s, p);
      if exists j: nat :: LazyShape(s, q, j, id) {
        var j: nat :| LazyShape(s, q, j, id);
        assert LazyShape(s, p, j, id);
      }
      if exists j: nat :: LazyShape(s, p, j, id) {
        var j: nat :| LazyShape(s, p, j, id);
        assert j != p;
        assert LazyShape(s, q, j, id);
      }
    }
  }

  lemma ProfileCorrect(s: string, i: nat, id: string)
    ensures MatchAt(ProfileVideo, s, i) == Some(id) <==> exists n: nat :: ProfileShape(s, i, n, id)
  {
    if MatchAt(ProfileVideo, s, i) == Some(id) {
      assert ProfileShape(s, i, Span(s, i + 2, Handle), id);
    }
    if exists n: nat :: ProfileShape(s, i, n, id) {
      var n: nat :| ProfileShape(s, i, n, id);
      assert !InClass(s[i + 2 + n], Handle) by {
        assert s[i + 2 + n] == "/video/"[0];
      }
      SpanUnique(s, i + 2, Handle, n);
    }
  }

  /** The hand-written matcher of every rule accepts exactly what its pattern accepts. */
  lemma MatchAtCorrect(rule: Rule, s: string, i: nat, id: string)
    ensures MatchAt(rule, s, i) == Some(id) <==> Accepts(rule, s, i, id)
  {
    match rule
    case ProfileVideo => ProfileCorrect(s, i, id);
    case DomainPath =>
      var p := i + 11;
      LazyPathCorrect(s, p, id);
      if LitAt(s, i, "tiktok.com/") && exists j: nat :: LazyShape(s, p, j, id) {
        var j: nat :| LazyShape(s, p, j, id);
        assert DomainShape(s, i, j, id);
      }
    case _ =>
  }

  // ----- Leftmost search -----

  /** The leftmost position from `i` on where `rule` matches (`re.search` tries them in order). */
  function FindFrom(rule: Rule, s: string, i: nat): (p: Option<nat>)
    ensures p.Some? ==> i <= p.value < |s| && MatchAt(rule, s, p.value).Some?
    ensures p.Some? ==> forall k :: i <= k < p.value ==> MatchAt(rule, s, k).None?
    ensures p.None? ==> forall k :: i <= k ==> MatchAt(rule, s, k).None?
    decreases |s| - i
  {
    if i >= |s| then None
    else if MatchAt(rule, s, i).Some? then Some(i)
    else FindFrom(rule, s, i + 1)
  }

  /** `re.search(pattern, s)`, reduced to its first group. */
  function Search(rule: Rule, s: string): Option<string> {
    match FindFrom(rule, s, 0)
    case None => None
    case Some(p) => MatchAt(rule, s, p)
  }

  /** Where the matcher finds nothing, the pattern accepts nothing. */
  lemma NoMatchCorrect(rule: Rule, s: string, k: nat)
    requires MatchAt(rule, s, k).None?
    ensures NoMatchAt(rule, s, k)
  {
    forall id ensures !Accepts(rule, s, k, id) {
      MatchAtCorrect(rule, s, k, id);
    }
  }

  /** The leftmost match of a pattern is unique. */
  lemma LeftmostUnique(rule: Rule, s: string, p: nat, id: string, q: nat, id': string)
    requires Leftmost(rule, s, p, id) && Leftmost(rule, s, q, id')
    ensures p == q && id == id'
  {
    assert q < p ==> NoMatchAt(rule, s, q);
    assert p < q ==> NoMatchAt(rule, s, p);
    MatchAtCorrect(rule, s, p, id);
    MatchAtCorrect(rule, s, q, id');
  }

  /** Where `FindFrom` stops, the matcher's capture is the leftmost match. */
  lemma FindFromLeftmost(rule: Rule, s: string, p: nat)
    requires FindFrom(rule, s, 0) == Some(p)
    ensures Leftmost(rule, s, p, MatchAt(rule, s, p).value)
  {
    MatchAtCorrect(rule, s, p, MatchAt(rule, s, p).value);
    forall k | 0 <= k < p ensures NoMatchAt(rule, s, k) {
      NoMatchCorrect(rule, s, k);
    }
  }

  /** `Search` yields the capture of the leftmost match of the pattern. */
  lemma SearchFindsLeftmost(rule: Rule, s: string, id: string)
    ensures Search(rule, s) == Some(id) <==> exists p: nat :: Leftmost(rule, s, p, id)
  {
    match FindFrom(rule, s, 0)
    case None =>
      if exists p: nat :: Leftmost(rule, s, p, id) {
        var p: nat :| Leftmost(rule, s, p, id);
        MatchAtCorrect(rule, s, p, id);
      }
    case Some(p) =>
      var w := MatchAt(rule, s, p).value;
      FindFromLeftmost(rule, s, p);
      if exists q: nat :: Leftmost(rule, s, q, id) {
        var q: nat :| Leftmost(rule, s, q, id);
        LeftmostUnique(rule, s, p, w, q, id);
      }
  }

  /** `Search` yields nothing exactly when the pattern matches nowhere in `s`. */
  lemma SearchNoneIffAbsent(rule: Rule, s: string)
    ensures Search(rule, s).None? <==> !RuleOccurs(rule, s)
  {
    match FindFrom(rule, s, 0)
    case None =>
      forall p: nat, id ensures !Accepts(rule, s, p, id) {
        MatchAtCorrect(rule, s, p, id);
      }
    case Some(p) =>
      var w := MatchAt(rule, s, p).value;
      MatchAtCorrect(rule, s, p, w);
  }

  // ----- The resolver -----

  /** The first rule of `rules` whose search finds something gives the result. */
  function FirstOf(rules: seq<Rule>, s: string): (r: Option<string>)
    ensures r.None? <==> forall k :: 0 <= k < |rules| ==> Search(rules[k], s).None?
  {
    if rules == [] then None
    else
      var m := Search(rules[0], s);
      if m.Some? then m
      else
        assert forall k :: 1 <= k < |rules| ==> rules[k] == rules[1..][k - 1];
        FirstOf(rules[1..], s)
  }

  /** `extract_video_id_from_url`. */
  function Resolve(url: string): Option<string> {
    FirstOf(Rules, url)
  }

  /** `id` is found by rule `k` of `rules`, and every earlier rule found nothing. */
  ghost predicate WinsAt(rules: seq<Rule>, s: string, k: nat, id: string) {
    k < |rules| && Search(rules[k], s) == Some(id) && forall j :: 0 <= j < k ==> Search(rules[j], s).None?
  }

  lemma ShiftWin(rules: seq<Rule>, s: string, k: nat, id: string)
    requires rules != [] && Search(rules[0], s).None?
    ensures WinsAt(rules[1..], s, k, id) <==> WinsAt(rules, s, k + 1, id)
  {
    if WinsAt(rules, s, k + 1, id) {
      forall j | 0 <= j < k ensures Search(rules[1..][j], s).None? {
        assert rules[1..][j] == rules[j + 1];
      }
    }
    if WinsAt(rules[1..], s, k, id) {
      forall j | 0 <= j < k + 1 ensures Search(rules[j], s).None? {
        if j > 0 {
          assert rules[j] == rules[1..][j - 1];
        }
      }
    }
  }

  /** The first rule that finds something decides; a later rule counts only when every earlier one found nothing. */
  lemma {:induction false} FirstOfPriority(rules: seq<Rule>, s: string, id: string)
    ensures FirstOf(rules, s) == Some(id) <==> exists k: nat :: WinsAt(rules, s, k, id)
  {
    if rules == [] {
    } else if Search(rules[0], s).Some? {
      assert Search(rules[0], s) == Some(id) ==> WinsAt(rules, s, 0, id);
      if exists k: nat :: WinsAt(rules, s, k, id) {
        var k: nat :| WinsAt(rules, s, k, id);
        assert k == 0;
      }
    } else {
      FirstOfPriority(rules[1..], s, id);
      if exists k: nat :: WinsAt(rules[1..], s, k, id) {
        var k: nat :| WinsAt(rules[1..], s, k, id);
        ShiftWin(rules, s, k, id);
      }
      if exists k: nat :: WinsAt(rules, s, k, id) {
        var k: nat :| WinsAt(rules, s, k, id);
        assert k != 0;
        ShiftWin(rules, s, k - 1, id);
      }
    }
  }

  /**
   * The resolver returns `id` exactly when some rule's leftmost match captures
   * `id` and no earlier rule matches anywhere in the URL.
   */
  lemma ResolvePriority(url: string, id: string)
    ensures Resolve(url) == Some(id) <==>
      exists k :: 0 <= k < |Rules| && (exists p: nat :: Leftmost(Rules[k], url, p, id))
        && forall j :: 0 <= j < k ==> !RuleOccurs(Rules[j], url)
  {
    FirstOfPriority(Rules, url, id);
    assert forall k: nat :: WinsAt(Rules, url, k, id) <==>
      k < |Rules| && Search(Rules[k], url) == Some(id) && forall j :: 0 <= j < k ==> Search(Rules[j], url).None?;
    forall k | 0 <= k < |Rules| ensures
      && (Search(Rules[k], url) == Some(id) <==> exists p: nat :: Leftmost(Rules[k], url, p, id))
      && (Search(Rules[k], url).None? <==> !RuleOccurs(Rules[k], url))
    {
      SearchFindsLeftmost(Rules[k], url, id);
      SearchNoneIffAbsent(Rules[k], url);
    }
  }

  /** The resolver returns `None` exactly when none of the five patterns occurs anywhere in the URL. */
  lemma ResolveNoneIffNoPattern(url: string)
    ensures Resolve(url).None? <==> forall k :: 0 <= k < |Rules| ==> !RuleOccurs(Rules[k], url)
  {
    forall k | 0 <= k < |Rules| ensures Search(Rules[k], url).None? <==> !RuleOccurs(Rules[k], url) {
      SearchNoneIffAbsent(Rules[k], url);
    }
  }

  /** `id` is a non-empty run of digits right after a `/`, not followed by another digit. */
  ghost predicate DigitsAfterSlash(s: string, id: string) {
    exists p: nat :: RunAt(s, p, Digit, id) && 1 <= p && s[p - 1] == '/'
  }

  /** `id` is a non-empty run of word characters right after `vm.tiktok.com/`, not followed by another one. */
  ghost predicate ShortLinkToken(s: string, id: string) {
    exists p: nat :: 14 <= p && LitAt(s, p - 14, "vm.tiktok.com/") && RunAt(s, p, Word, id)
  }

  lemma AcceptedIdShape(rule: Rule, s: string, i: nat, id: string)
    requires Accepts(rule, s, i, id)
    ensures rule != ShortLink ==> DigitsAfterSlash(s, id)
    ensures rule == ShortLink ==> ShortLinkToken(s, id)
  {
    match rule
    case ProfileVideo =>
      var n: nat :| ProfileShape(s, i, n, id);
      assert s[i + 8 + n] == "/video/"[6];
      assert RunAt(s, i + 9 + n, Digit, id);
    case BareVideo =>
      assert s[i + 6] == "/video/"[6];
      assert RunAt(s, i + 7, Digit, id);
    case ShortVideo =>
      assert s[i + 1] == "v/"[1];
      assert RunAt(s, i + 2, Digit, id);
    case DomainPath =>
      var j: nat :| DomainShape(s, i, j, id);
      assert RunAt(s, j + 1, Digit, id);
    case ShortLink =>
      assert RunAt(s, i + 14, Word, id);
  }

  /**
   * An ID from one of the first four rules is a run of digits right after a `/`;
   * an ID from the short-link rule is a run of word characters right after `vm.tiktok.com/`.
   */
  lemma ResolvedIdShape(url: string, id: string)
    requires Resolve(url) == Some(id)
    ensures DigitsAfterSlash(url, id) || ShortLinkToken(url, id)
  {
    ResolvePriority(url, id);
    var k :| 0 <= k < |Rules| && (exists p: nat :: Leftmost(Rules[k], url, p, id));
    var p: nat :| Leftmost(Rules[k], url, p, id);
    AcceptedIdShape(Rules[k], url, p, id);
  }

  // ----- Concrete URLs -----

  lemma AbsentWithoutAt(s: string)
    requires '@' !in s
    ensures !RuleOccurs(ProfileVideo, s)
  {
    forall p: nat, id ensures !Accepts(ProfileVideo, s, p, id) {
      if n: nat :| ProfileShape(s, p, n, id) {
        LitAtChar(s, p, "/@", 1);
      }
    }
  }

  lemma AbsentWithoutD(s: string)
    requires 'd' !in s
    ensures !RuleOccurs(BareVideo, s)
  {
    forall p: nat, id ensures !Accepts(BareVideo, s, p, id) {
      if LitAt(s, p, "/video/") {
        LitAtChar(s, p, "/video/", 3);
      }
    }
  }

  /** Neither `v/` nor `vm.` occurs when the one `v` of `s`, at `v`, is followed by `next`. */
  lemma AbsentAfterOnlyV(s: string, v: nat, next: char)
    requires forall k :: 0 <= k < |s| && s[k] == 'v' ==> k == v
    requires v + 1 < |s| && s[v + 1] == next
    ensures next != '/' ==> !RuleOccurs(ShortVideo, s)
    ensures next != 'm' ==> !RuleOccurs(ShortLink, s)
  {
    forall p: nat, id ensures next != '/' ==> !Accepts(ShortVideo, s, p, id) {
      if LitAt(s, p, "v/") {
        LitAtChar(s, p, "v/", 0);
        LitAtChar(s, p, "v/", 1);
      }
    }
    forall p: nat, id ensures next != 'm' ==> !Accepts(ShortLink, s, p, id) {
      if LitAt(s, p, "vm.tiktok.com/") {
        LitAtChar(s, p, "vm.tiktok.com/", 0);
        LitAtChar(s, p, "vm.tiktok.com/", 1);
      }
    }
  }

  lemma AbsentWithoutSlashDigit(s: string)
    requires forall k: nat :: !SlashDigitAt(s, k)
    ensures !RuleOccurs(DomainPath, s)
  {
    forall p: nat, id ensures !Accepts(DomainPath, s, p, id) {
      if j: nat :| DomainShape(s, p, j, id) {
        assert id[0] == s[j + 1..j + 1 + |id|][0];
        assert SlashDigitAt(s, j);
      }
    }
  }

  const ProfileUrl := "https://www.tiktok.com/@user/video/7123456"
  const VtShortUrl := "https://vt.tiktok.com/ZSDGDKF3r/"
  const VmShortUrl := "https://vm.tiktok.com/ZMabc123/"

  lemma ProfileUrlChars()
    ensures forall k :: 0 <= k < |ProfileUrl| && ProfileUrl[k] == '@' ==> k == 23
  {
  }

  lemma ProfileUrlPieces()
    ensures |ProfileUrl| == 42
    ensures ProfileUrl[22..24] == "/@" && ProfileUrl[24..28] == "user"
    ensures ProfileUrl[28..35] == "/video/" && ProfileUrl[35..42] == "7123456"
  {
    assert ProfileUrl == "https://www.tiktok.com" + "/@" + "user" + "/video/" + "7123456";
  }

  lemma ProfileUrlShape()
    ensures ProfileShape(ProfileUrl, 22, 4, "7123456")
  {
    var u := ProfileUrl;
    ProfileUrlPieces();
    forall k | 24 <= k < 28 ensures InClass(u[k], Handle) {
      assert u[k] == u[24..28][k - 24];
    }
    assert AllIn("7123456", Digit);
  }

  /** The first pattern matches the profile URL first at its `/@`. */
  lemma ProfileUrlLeftmost()
    ensures Leftmost(ProfileVideo, ProfileUrl, 22, "7123456")
  {
    ProfileUrlChars();
    ProfileUrlShape();
    forall k: nat, w | k < 22 ensures !Accepts(ProfileVideo, ProfileUrl, k, w) {
      if n: nat :| ProfileShape(ProfileUrl, k, n, w) {
        LitAtChar(ProfileUrl, k, "/@", 1);
      }
    }
  }

  /** A profile video URL resolves to the digits after `/video/`. */
  lemma ProfileUrlExample()
    ensures Resolve(ProfileUrl) == Some("7123456")
  {
    ProfileUrlLeftmost();
    ResolvePriority(ProfileUrl, "7123456");
    assert Rules[0] == ProfileVideo;
  }

  lemma VtShortUrlLetters()
    ensures '@' !in VtShortUrl && 'd' !in VtShortUrl
  {
  }

  lemma VtShortUrlOneV()
    ensures forall k :: 0 <= k < |VtShortUrl| && VtShortUrl[k] == 'v' ==> k == 8
    ensures VtShortUrl[9] == 't'
  {
  }

  lemma VtShortUrlNoSlashDigit()
    ensures forall k: nat :: !SlashDigitAt(VtShortUrl, k)
  {
    assert forall k :: 0 <= k < |VtShortUrl| && IsDigit(VtShortUrl[k]) ==> k == 29;
  }

  /** The short link `https://vt.tiktok.com/ZSDGDKF3r/` matches none of the five rules. */
  lemma VtShortLinkUnresolved()
    ensures Resolve(VtShortUrl).None?
  {
    VtShortUrlMatchesNoRule();
    ResolveNoneIffNoPattern(VtShortUrl);
  }

  lemma VtShortUrlMatchesNoRule()
    ensures forall k :: 0 <= k < |Rules| ==> !RuleOccurs(Rules[k], VtShortUrl)
  {
    var u := VtShortUrl;
    VtShortUrlLetters();
    VtShortUrlOneV();
    VtShortUrlNoSlashDigit();
    AbsentWithoutAt(u);
    AbsentWithoutD(u);
    AbsentAfterOnlyV(u, 8, 't');
    AbsentWithoutSlashDigit(u);
  }

  lemma VmShortUrlLetters()
    ensures '@' !in VmShortUrl && 'd' !in VmShortUrl
  {
  }

  lemma VmShortUrlOneV()
    ensures forall k :: 0 <= k < |VmShortUrl| && VmShortUrl[k] == 'v' ==> k == 8
    ensures VmShortUrl[9] == 'm'
  {
  }

  lemma VmShortUrlNoSlashDigit()
    ensures forall k: nat :: !SlashDigitAt(VmShortUrl, k)
  {
    assert forall k :: 0 <= k < |VmShortUrl| && IsDigit(VmShortUrl[k]) ==> 27 <= k <= 29;
  }

  lemma VmShortUrlPieces()
    ensures VmShortUrl[8..22] == "vm.tiktok.com/" && VmShortUrl[22..30] == "ZMabc123"
    ensures VmShortUrl[30] == '/'
  {
    assert VmShortUrl == "https://" + "vm.tiktok.com/" + "ZMabc123" + "/";
  }

  /** None of the first four patterns occurs in the `vm.` short link. */
  lemma VmShortUrlSkipsDigitRules()
    ensures forall j :: 0 <= j < 4 ==> !RuleOccurs(Rules[j], VmShortUrl)
  {
    var u := VmShortUrl;
    VmShortUrlLetters();
    VmShortUrlOneV();
    VmShortUrlNoSlashDigit();
    AbsentWithoutAt(u);
    AbsentWithoutD(u);
    AbsentAfterOnlyV(u, 8, 'm');
    AbsentWithoutSlashDigit(u);
  }

  /** The fifth pattern matches the `vm.` short link first at `vm.`. */
  lemma VmShortUrlLeftmost()
    ensures Leftmost(ShortLink, VmShortUrl, 8, "ZMabc123")
  {
    var u := VmShortUrl;
    VmShortUrlOneV();
    VmShortUrlPieces();
    assert RunAt(u, 22, Word, "ZMabc123");
    forall k: nat, w | k < 8 ensures !Accepts(ShortLink, u, k, w) {
      if LitAt(u, k, "vm.tiktok.com/") {
        LitAtChar(u, k, "vm.tiktok.com/", 0);
      }
    }
  }

  /** A `vm.` short link falls through the first four rules to its token. */
  lemma VmShortLinkExample()
    ensures Resolve(VmShortUrl) == Some("ZMabc123")
  {
    VmShortUrlSkipsDigitRules();
    VmShortUrlLeftmost();
    ResolvePriority(VmShortUrl, "ZMabc123");
    assert Rules[4] == ShortLink;
  }
}
