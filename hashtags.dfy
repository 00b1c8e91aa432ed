/**
 * `extract_hashtags`: every `#` followed by one or more word or CJK
 * characters, left to right, joined by single spaces.
 */
module Hashtags {
  import opened Text

  /** A hashtag starts at `j`: a `#` followed by a tag character. */
  predicate TagStartAt(t: string, j: nat) {
    j + 1 < |t| && t[j] == '#' && InClass(t[j + 1], Tag)
  }

  /** `#` followed by one or more tag characters. */
  predicate IsHashtag(w: string) {
    2 <= |w| && w[0] == '#' && forall k :: 1 <= k < |w| ==> InClass(w[k], Tag)
  }

  /** The hashtag starting at `j`: the `#` and the longest run of tag characters after it. */
  function TagAt(t: string, j: nat): (w: string)
    requires TagStartAt(t, j)
    ensures IsHashtag(w) && LitAt(t, j, w)
    ensures j + |w| == |t| || !InClass(t[j + |w|], Tag)
  {
    var w := t[j..j + 1 + Span(t, j + 1, Tag)];
    assert forall k :: 1 <= k < |w| ==> w[k] == t[j + k];
    w
  }

  /**
   * `re.findall` from position `i`: scanning left to right, a hashtag is taken
   * where one starts and the scan resumes right after it.
   */
  function ScanFrom(t: string, i: nat): seq<string>
    decreases |t| - i
  {
    if i >= |t| then []
    else if TagStartAt(t, i) then
      var w := TagAt(t, i);
      [w] + ScanFrom(t, i + |w|)
    else ScanFrom(t, i + 1)
  }

  /** `re.findall(r'#[\w\u4e00-\u9fff]+', t)`. */
  function FindAll(t: string): seq<string> {
    ScanFrom(t, 0)
  }

  /** Python's `' '.join(words)`. */
  function Join(words: seq<string>): string
    decreases |words|
  {
    if words == [] then ""
    else if |words| == 1 then words[0]
    else words[0] + " " + Join(words[1..])
  }

  /** `extract_hashtags`: an empty text gives the empty string without scanning. */
  function ExtractHashtags(t: string): string {
    if |t| == 0 then "" else Join(FindAll(t))
  }

  // ----- Reference definition: every hashtag start, in order -----

  /** Every position from `i` on where a hashtag starts, in increasing order. */
  ghost function StartsFrom(t: string, i: nat): (ps: seq<nat>)
    ensures forall k :: 0 <= k < |ps| ==> i <= ps[k] && TagStartAt(t, ps[k])
    decreases |t| - i
  {
    if i >= |t| then [] else (if TagStartAt(t, i) then [i] else []) + StartsFrom(t, i + 1)
  }

  /** `StartsFrom` lists the hashtag starts in strictly increasing order. */
  lemma {:induction false} StartsInOrder(t: string, i: nat)
    ensures forall k, l :: 0 <= k < l < |StartsFrom(t, i)| ==> StartsFrom(t, i)[k] < StartsFrom(t, i)[l]
    decreases |t| - i
  {
    if i < |t| {
      StartsInOrder(t, i + 1);
      var ps, rest := StartsFrom(t, i), StartsFrom(t, i + 1);
      if TagStartAt(t, i) {
        assert ps == [i] + rest;
        forall k, l | 0 <= k < l < |ps| ensures ps[k] < ps[l] {
          assert ps[l] == rest[l - 1];
          if k > 0 {
            assert ps[k] == rest[k - 1];
          }
        }
      } else {
        assert ps == rest;
      }
    }
  }

  /** `StartsFrom` lists every hashtag start from `i` on. */
  lemma {:induction false} StartsComplete(t: string, i: nat)
    ensures forall j: nat :: i <= j && TagStartAt(t, j) ==> j in StartsFrom(t, i)
    decreases |t| - i
  {
    if i < |t| {
      StartsComplete(t, i + 1);
      var ps, rest := StartsFrom(t, i), StartsFrom(t, i + 1);
      assert ps == (if TagStartAt(t, i) then [i] else []) + rest;
      assert forall j :: j in rest ==> j in ps;
    }
  }

  /** The hashtag at every hashtag start from `i` on, in order. */
  ghost function TagsFrom(t: string, i: nat): seq<string>
    decreases |t| - i
  {
    if i >= |t| then []
    else (if TagStartAt(t, i) then [TagAt(t, i)] else []) + TagsFrom(t, i + 1)
  }

  /** `ws` holds, element by element, the hashtag at each position of `ps`. */
  predicate Aligned(t: string, ws: seq<string>, ps: seq<nat>) {
    && |ws| == |ps|
    && forall k :: 0 <= k < |ps| ==> TagStartAt(t, ps[k]) && ws[k] == TagAt(t, ps[k])
  }

  lemma AlignedCons(t: string, i: nat, ws: seq<string>, ps: seq<nat>)
    requires TagStartAt(t, i) && Aligned(t, ws, ps)
    ensures Aligned(t, [TagAt(t, i)] + ws, [i] + ps)
  {
    var ws', ps' := [TagAt(t, i)] + ws, [i] + ps;
    forall k | 1 <= k < |ps'| ensures TagStartAt(t, ps'[k]) && ws'[k] == TagAt(t, ps'[k]) {
      assert ws'[k] == ws[k - 1] && ps'[k] == ps[k - 1];
    }
  }

  /** `TagsFrom` holds, element by element, the hashtag at each position `StartsFrom` lists. */
  lemma {:induction false} TagsFromStarts(t: string, i: nat)
    ensures Aligned(t, TagsFrom(t, i), StartsFrom(t, i))
    decreases |t| - i
  {
    if i < |t| {
      TagsFromStarts(t, i + 1);
      if TagStartAt(t, i) {
        AlignedCons(t, i, TagsFrom(t, i + 1), StartsFrom(t, i + 1));
        assert TagsFrom(t, i) == [TagAt(t, i)] + TagsFrom(t, i + 1);
        assert StartsFrom(t, i) == [i] + StartsFrom(t, i + 1);
      } else {
        assert TagsFrom(t, i) == TagsFrom(t, i + 1);
        assert StartsFrom(t, i) == StartsFrom(t, i + 1);
      }
    }
  }

  /** No hashtag starts strictly inside another: its characters after the `#` are tag characters, never `#`. */
  lemma NoStartInside(t: string, i: nat, j: nat)
    requires TagStartAt(t, i) && i < j < i + |TagAt(t, i)|
    ensures !TagStartAt(t, j)
  {
    var w := TagAt(t, i);
    LitAtChar(t, i, w, j - i);
  }

  /** Positions where no hashtag starts add nothing to `TagsFrom`. */
  lemma {:induction false} TagsSkip(t: string, i: nat, m: nat)
    requires i <= m
    requires forall j: nat :: i <= j < m ==> !TagStartAt(t, j)
    ensures TagsFrom(t, i) == TagsFrom(t, m)
    decreases m - i
  {
    if i < m {
      TagsSkip(t, i + 1, m);
      if i < |t| {
        assert TagsFrom(t, i) == [] + TagsFrom(t, i + 1);
      }
    }
  }

  /** The scan yields exactly the hashtags at every hashtag start, in order. */
  lemma {:induction false} ScanFromIsEveryTag(t: string, i: nat)
    ensures ScanFrom(t, i) == TagsFrom(t, i)
    decreases |t| - i
  {
    if i >= |t| {
    } else if TagStartAt(t, i) {
      var w := TagAt(t, i);
      ScanFromIsEveryTag(t, i + |w|);
      forall j: nat | i + 1 <= j < i + |w| ensures !TagStartAt(t, j) {
        NoStartInside(t, i, j);
      }
      TagsSkip(t, i + 1, i + |w|);
    } else {
      ScanFromIsEveryTag(t, i + 1);
    }
  }

  /**
   * `FindAll` returns one hashtag per position where a `#` is followed by a tag
   * character, in left-to-right order, duplicates included; each one is the
   * `#` and the whole run of tag characters after it.
   */
  lemma FindAllSpec(t: string)
    ensures forall k, l :: 0 <= k < l < |StartsFrom(t, 0)| ==> StartsFrom(t, 0)[k] < StartsFrom(t, 0)[l]
    ensures forall j: nat :: TagStartAt(t, j) ==> j in StartsFrom(t, 0)
    ensures |FindAll(t)| == |StartsFrom(t, 0)|
    ensures forall k :: 0 <= k < |FindAll(t)| ==> FindAll(t)[k] == TagAt(t, StartsFrom(t, 0)[k])
    ensures forall k :: 0 <= k < |FindAll(t)| ==> IsHashtag(FindAll(t)[k])
    ensures FindAll(t) == [] <==> forall j: nat :: !TagStartAt(t, j)
  {
    ScanFromIsEveryTag(t, 0);
    TagsFromStarts(t, 0);
    StartsInOrder(t, 0);
    StartsComplete(t, 0);
    var ps := StartsFrom(t, 0);
    if ps != [] {
      assert TagStartAt(t, ps[0]);
    }
  }

  // ----- Join and its inverse -----

  /** Python's `s.split(' ')`: the pieces between single spaces (an empty string gives one empty piece). */
  function Split(s: string): (pieces: seq<string>)
    ensures |pieces| >= 1
  {
    if s == [] then [""]
    else
      var rest := Split(s[1..]);
      if s[0] == ' ' then [""] + rest else [[s[0]] + rest[0]] + rest[1..]
  }

  lemma {:induction false} SplitSpaceFree(a: string, b: string)
    requires ' ' !in a
    ensures Split(a + b) == [a + Split(b)[0]] + Split(b)[1..]
  {
    if a != [] {
      assert (a + b)[1..] == a[1..] + b;
      SplitSpaceFree(a[1..], b);
      assert [a[0]] + (a[1..] + Split(b)[0]) == a + Split(b)[0];
    } else {
      assert a + b == b;
      assert a + Split(b)[0] == Split(b)[0];
      assert [Split(b)[0]] + Split(b)[1..] == Split(b);
    }
  }

  /** Joining words that contain no space with single spaces can be undone by splitting on spaces. */
  lemma {:induction false} SplitJoin(words: seq<string>)
    requires |words| > 0
    requires forall k :: 0 <= k < |words| ==> ' ' !in words[k]
    ensures Split(Join(words)) == words
    decreases |words|
  {
    if |words| == 1 {
      SplitSpaceFree(words[0], "");
      assert words[0] + "" == words[0];
    } else {
      var b := " " + Join(words[1..]);
      SplitJoin(words[1..]);
      assert b[1..] == Join(words[1..]);
      assert Split(b) == [""] + words[1..];
      SplitSpaceFree(words[0], b);
      assert words[0] + " " + Join(words[1..]) == words[0] + b;
      assert words[0] + "" == words[0];
    }
  }

  lemma JoinEmpty(words: seq<string>)
    requires forall k :: 0 <= k < |words| ==> |words[k]| > 0
    ensures Join(words) == "" <==> words == []
  {
    if |words| > 1 {
      assert |Join(words)| >= |words[0]|;
    }
  }

  lemma HashtagSpaceFree(w: string)
    requires IsHashtag(w)
    ensures ' ' !in w
  {
    forall k | 0 <= k < |w| ensures w[k] != ' ' {
    }
  }

  /**
   * `extract_hashtags` gives `""` exactly when no `#` is followed by a tag
   * character; otherwise splitting its result on spaces gives back the
   * hashtags that `FindAll` found.
   */
  lemma ExtractHashtagsSpec(t: string)
    ensures ExtractHashtags(t) == "" <==> forall j: nat :: !TagStartAt(t, j)
    ensures FindAll(t) != [] ==> Split(ExtractHashtags(t)) == FindAll(t)
  {
    FindAllSpec(t);
    var ws := FindAll(t);
    forall k | 0 <= k < |ws| ensures ' ' !in ws[k] && |ws[k]| > 0 {
      HashtagSpaceFree(ws[k]);
    }
    JoinEmpty(ws);
    if ws != [] {
      SplitJoin(ws);
    }
  }

  // ----- A concrete description -----

  const FunDesc := "fun #cats and #dogs #cats"

  lemma {:induction false} FindSkip(t: string, i: nat, m: nat)
    requires i <= m
    requires forall j: nat :: i <= j < m ==> !TagStartAt(t, j)
    ensures ScanFrom(t, i) == ScanFrom(t, m)
    decreases m - i
  {
    if i < m {
      FindSkip(t, i + 1, m);
    }
  }

  lemma FunDescChars()
    ensures forall k :: 0 <= k < |FunDesc| && FunDesc[k] == '#' ==> k == 4 || k == 14 || k == 20
    ensures FunDesc[4..9] == "#cats" && FunDesc[14..19] == "#dogs" && FunDesc[20..25] == "#cats"
    ensures FunDesc[9] == ' ' && FunDesc[19] == ' '
  {
    assert FunDesc == "fun " + "#cats" + " and " + "#dogs" + " " + "#cats";
  }

  lemma FunDescTag(p: nat)
    requires p == 4 || p == 14 || p == 20
    ensures TagStartAt(FunDesc, p) && TagAt(FunDesc, p) == FunDesc[p..p + 5]
  {
    var t := FunDesc;
    FunDescChars();
    var w := t[p..p + 5];
    assert LitAt(t, p, w);
    assert w == "#cats" || w == "#dogs";
    forall k | p + 1 <= k < p + 5 ensures InClass(t[k], Tag) {
      LitAtChar(t, p, w, k - p);
    }
    SpanUnique(t, p + 1, Tag, 4);
  }

  lemma FunDescGaps()
    ensures ScanFrom(FunDesc, 0) == ScanFrom(FunDesc, 4)
    ensures ScanFrom(FunDesc, 9) == ScanFrom(FunDesc, 14)
    ensures ScanFrom(FunDesc, 19) == ScanFrom(FunDesc, 20)
    ensures ScanFrom(FunDesc, 25) == []
  {
    FunDescChars();
    FindSkip(FunDesc, 0, 4);
    FindSkip(FunDesc, 9, 14);
    FindSkip(FunDesc, 19, 20);
  }

  /** Order is kept and the repeated tag appears twice. */
  lemma FunDescExample()
    ensures ExtractHashtags(FunDesc) == "#cats #dogs #cats"
  {
    var t := FunDesc;
    FunDescChars();
    FunDescGaps();
    FunDescTag(4);
    FunDescTag(14);
    FunDescTag(20);
    assert ScanFrom(t, 20) == ["#cats"];
    assert ScanFrom(t, 14) == ["#dogs", "#cats"];
    assert ScanFrom(t, 4) == ["#cats", "#dogs", "#cats"];
    assert |t| != 0;
    assert FindAll(t) == ["#cats", "#dogs", "#cats"];
    FunDescJoin();
  }

  lemma FunDescJoin()
    ensures Join(["#cats", "#dogs", "#cats"]) == "#cats #dogs #cats"
  {
    var tags := ["#cats", "#dogs", "#cats"];
    assert tags[1..] == ["#dogs", "#cats"] && tags[1..][1..] == ["#cats"];
    assert Join(tags[1..][1..]) == "#cats";
    assert Join(tags[1..]) == "#dogs" + " " + "#cats";
    assert Join(tags) == "#cats" + " " + ("#dogs" + " " + "#cats");
    assert "#cats" + " " + ("#dogs" + " " + "#cats") == "#cats #dogs #cats";
  }
}
