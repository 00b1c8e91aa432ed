/**
 * Character classes and the two pattern building blocks that the resolver and
 * the hashtag scanner share: a literal at a position, and a greedy run of one
 * character class.
 */
module Text {
  import opened Wrappers

  /** The character classes the six patterns of the service use. */
  datatype CharClass =
    | Digit   // `\d`
    | Word    // `\w`
    | Handle  // `[\w\.-]`, the characters of a profile handle
    | Tag     // `[\w一-鿿]`, the characters of a hashtag

  predicate IsDigit(c: char) {
    '0' <= c <= '9'
  }

  /** Word characters: ASCII letters, digits and the underscore. */
  predicate IsWordChar(c: char) {
    IsDigit(c) || 'a' <= c <= 'z' || 'A' <= c <= 'Z' || c == '_'
  }

  /** The CJK Unified Ideographs block, U+4E00 to U+9FFF. */
  predicate IsCjk(c: char) {
    '\U{4E00}' <= c <= '\U{9FFF}'
  }

  predicate InClass(c: char, cls: CharClass) {
    match cls
    case Digit => IsDigit(c)
    case Word => IsWordChar(c)
    case Handle => IsWordChar(c) || c == '.' || c == '-'
    case Tag => IsWordChar(c) || IsCjk(c)
  }

  predicate AllIn(w: string, cls: CharClass) {
    forall k :: 0 <= k < |w| ==> InClass(w[k], cls)
  }

  /** `lit` occurs in `s` starting at position `i`. */
  predicate LitAt(s: string, i: nat, lit: string) {
    i + |lit| <= |s| && s[i..i + |lit|] == lit
  }

  lemma LitAtChar(s: string, i: nat, lit: string, k: nat)
    requires LitAt(s, i, lit) && k < |lit|
    ensures s[i + k] == lit[k]
  {
    assert s[i..i + |lit|][k] == s[i + k];
  }

  /**
   * `w` is what a greedy `cls+` captures at position `i` when nothing follows
   * it in the pattern: a non-empty run of `cls` characters that the next
   * character of `s` (if any) does not extend.
   */
  predicate RunAt(s: string, i: nat, cls: CharClass, w: string) {
    && 0 < |w|
    && LitAt(s, i, w)
    && AllIn(w, cls)
    && (i + |w| == |s| || !InClass(s[i + |w|], cls))
  }

  /** Length of the longest run of `cls` characters starting at `i`. */
  function Span(s: string, i: nat, cls: CharClass): (n: nat)
    requires i <= |s|
    ensures i + n <= |s|
    ensures forall k :: i <= k < i + n ==> InClass(s[k], cls)
    ensures i + n == |s| || !InClass(s[i + n], cls)
    decreases |s| - i
  {
    if i < |s| && InClass(s[i], cls) then 1 + Span(s, i + 1, cls) else 0
  }

  /** A run of `cls` characters that the next character does not extend is the longest one. */
  lemma SpanUnique(s: string, i: nat, cls: CharClass, n: nat)
    requires i + n <= |s|
    requires forall k :: i <= k < i + n ==> InClass(s[k], cls)
    requires i + n == |s| || !InClass(s[i + n], cls)
    ensures Span(s, i, cls) == n
  {
  }

  /** The greedy capture `(cls+)` at position `i`, or `None` when it cannot match. */
  function Capture(s: string, i: nat, cls: CharClass): (r: Option<string>)
    ensures r.Some? <==> i < |s| && InClass(s[i], cls)
    ensures forall w {:trigger RunAt(s, i, cls, w)} :: r == Some(w) <==> RunAt(s, i, cls, w)
  {
    if i < |s| && InClass(s[i], cls) then
      var n := Span(s, i, cls);
      var w := s[i..i + n];
      assert RunAt(s, i, cls, w);
      assert forall v :: RunAt(s, i, cls, v) ==> v == w by {
        forall v | RunAt(s, i, cls, v) ensures v == w {
          assert forall k :: i <= k < i + |v| ==> InClass(s[k], cls) by {
            forall k | i <= k < i + |v| ensures InClass(s[k], cls) {
              assert s[k] == v[k - i];
            }
          }
          SpanUnique(s, i, cls, |v|);
        }
      }
      Some(w)
    else
      None
  }

  /** Python's `sub in s` for strings: some position of `s` starts with `sub`. */
  function Occurs(sub: string, s: string): (r: bool)
    ensures r <==> exists i: nat :: LitAt(s, i, sub)
    decreases |s|
  {
    if LitAt(s, 0, sub) then true
    else if |s| == 0 then false
    else
      var r := Occurs(sub, s[1..]);
      assert forall i: nat :: LitAt(s[1..], i, sub) <==> LitAt(s, i + 1, sub) by {
        forall i: nat ensures LitAt(s[1..], i, sub) <==> LitAt(s, i + 1, sub) {
          if i + 1 + |sub| <= |s| {
            assert s[1..][i..i + |sub|] == s[i + 1..i + 1 + |sub|];
          }
        }
      }
      assert r ==> exists i: nat :: LitAt(s, i, sub) by {
        if r {
          var i: nat :| LitAt(s[1..], i, sub);
          assert LitAt(s, i + 1, sub);
        }
      }
      assert (exists i: nat :: LitAt(s, i, sub)) ==> r by {
        if exists i: nat :: LitAt(s, i, sub) {
          var i: nat :| LitAt(s, i, sub);
          assert i != 0;
          assert LitAt(s[1..], i - 1, sub);
        }
      }
      r
  }
}
