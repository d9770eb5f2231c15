/** The JavaScript string built-ins that the chunker and the translator rely on:
    the `\s` character class (which is also the set `String.prototype.trim`
    removes), `trim`, `substring`, `lastIndexOf`, a global match of the
    pattern `/[.!?]\s/g`, `toLowerCase` and `Array.prototype.join`. */
module JsString {

  /** The characters matched by `\s` in a JavaScript regular expression; the
      same set (WhiteSpace and LineTerminator) is what `trim` strips. */
  function IsWhitespace(c: char): (b: bool)
    ensures b ==> c != '.' && c != '!' && c != '?'
  {
    c == '\t' || c == '\n' || c == '\U{B}' || c == '\U{C}' || c == '\r' || c == ' ' ||
    c == '\U{A0}' || c == '\U{1680}' || ('\U{2000}' <= c <= '\U{200A}') ||
    c == '\U{2028}' || c == '\U{2029}' || c == '\U{202F}' || c == '\U{205F}' ||
    c == '\U{3000}' || c == '\U{FEFF}'
  }

  predicate AllWhitespace(s: string) {
    forall i :: 0 <= i < |s| ==> IsWhitespace(s[i])
  }

  /** `s.trimStart()`: the longest suffix of `s` that does not start with whitespace. */
  function TrimStart(s: string): (r: string)
    ensures |r| <= |s| && r == s[|s| - |r|..]
    ensures r == [] || !IsWhitespace(r[0])
    ensures AllWhitespace(s[..|s| - |r|])
  {
    if s != [] && IsWhitespace(s[0]) then TrimStart(s[1..]) else s
  }

  /** `s.trimEnd()`: the longest prefix of `s` that does not end with whitespace. */
  function TrimEnd(s: string): (r: string)
    ensures |r| <= |s| && r == s[..|r|]
    ensures r == [] || !IsWhitespace(r[|r| - 1])
    ensures AllWhitespace(s[|r|..])
  {
    if s != [] && IsWhitespace(s[|s| - 1]) then TrimEnd(s[..|s| - 1]) else s
  }

  /** `s.trim()`: `s` without its leading and trailing whitespace. */
  function Trim(s: string): (r: string)
    ensures |r| <= |s|
    ensures r == [] || (!IsWhitespace(r[0]) && !IsWhitespace(r[|r| - 1]))
  {
    TrimEnd(TrimStart(s))
  }

  /** `trim` removes exactly the leading and the trailing whitespace: what
      it returns is a part of `s` with only whitespace before and after it. */
  lemma TrimStripped(s: string)
    ensures exists a :: StrippedAt(s, Trim(s), a)
  {
    var t := TrimStart(s);
    var r := TrimEnd(t);
    var a := |s| - |t|;
    assert t == s[a..] && r == t[..|r|];
    assert r == s[a..a + |r|];
    assert AllWhitespace(s[..a]);
    assert s[a + |r|..] == t[|r|..];
    assert AllWhitespace(t[|r|..]);
    assert Trim(s) == r;
    assert StrippedAt(s, r, a);
  }

  /** `r` is `s[a..]` up to a suffix, and everything of `s` outside it,
      before and after, is whitespace. */
  predicate StrippedAt(s: string, r: string, a: int) {
    0 <= a && a + |r| <= |s| && r == s[a..a + |r|] && AllWhitespace(s[..a]) && AllWhitespace(s[a + |r|..])
  }

  /** `trim` yields the empty string exactly when the string is all whitespace. */
  lemma TrimEmptyIffAllWhitespace(s: string)
    ensures Trim(s) == [] <==> AllWhitespace(s)
  {
    var t := TrimStart(s);
    var a := |s| - |t|;
    assert t == s[a..];
    if Trim(s) == [] {
      assert AllWhitespace(t[0..]) && t[0..] == t;
      assert t == [];
      assert s[..a] == s;
    }
  }

  /** A piece that ends in whitespace loses at least that character to `trim`. */
  lemma TrimDropsTrailingWhitespace(s: string)
    requires s != [] && IsWhitespace(s[|s| - 1])
    ensures |Trim(s)| < |s|
  {
    var t := TrimStart(s);
    if t != [] {
      assert t[|t| - 1] == s[|s| - 1];
      assert TrimEnd(t) == TrimEnd(t[..|t| - 1]);
    }
  }

  function Clamp(x: int, lo: int, hi: int): (r: int)
    requires lo <= hi
    ensures lo <= r <= hi
  {
    if x < lo then lo else if x > hi then hi else x
  }

  /** `s.substring(start, end)`: both bounds are clamped to `[0, |s|]` and
      swapped when the start comes after the end. */
  function Substring(s: string, start: int, end: int): (r: string)
    ensures 0 <= start <= end <= |s| ==> r == s[start..end]
    ensures 0 <= start <= |s| <= end ==> r == s[start..]
  {
    var a := Clamp(start, 0, |s|);
    var b := Clamp(end, 0, |s|);
    if a <= b then s[a..b] else s[b..a]
  }

  predicate OccursAt(s: string, pat: string, k: int) {
    0 <= k && k + |pat| <= |s| && s[k..k + |pat|] == pat
  }

  /** The largest `k <= from` at which `pat` occurs in `s`, or -1. */
  function LastOccurrenceAtOrBelow(s: string, pat: string, from: int): (r: int)
    requires from + |pat| <= |s|
    ensures r == -1 || (OccursAt(s, pat, r) && r <= from)
    ensures forall k :: r < k <= from ==> !OccursAt(s, pat, k)
    decreases from + 1
  {
    if from < 0 then -1
    else if s[from..from + |pat|] == pat then from
    else LastOccurrenceAtOrBelow(s, pat, from - 1)
  }

  /** `s.lastIndexOf(pat, from)`: the last occurrence of `pat` that starts at
      an index no greater than `from` (clamped to `[0, |s|]`), or -1. */
  function LastIndexOf(s: string, pat: string, from: int): (r: int)
    ensures r == -1 || (OccursAt(s, pat, r) && r <= Clamp(from, 0, |s|))
    ensures forall k :: r < k <= Clamp(from, 0, |s|) ==> !OccursAt(s, pat, k)
  {
    var start := Clamp(from, 0, |s|);
    if |s| < |pat| then -1
    else LastOccurrenceAtOrBelow(s, pat, if start <= |s| - |pat| then start else |s| - |pat|)
  }

  /** A match of `/[.!?]\s/` starts at `i`: a sentence terminator followed by whitespace. */
  predicate IsSentenceEndAt(s: string, i: int) {
    0 <= i && i + 1 < |s| && (s[i] == '.' || s[i] == '!' || s[i] == '?') && IsWhitespace(s[i + 1])
  }

  /** The start positions of the matches a global left-to-right scan for
      `/[.!?]\s/g` finds in `s` from index `from` on. */
  function MatchPositions(s: string, from: nat): (ps: seq<nat>)
    ensures forall j :: 0 <= j < |ps| ==> from <= ps[j] && IsSentenceEndAt(s, ps[j])
    ensures forall j, l :: 0 <= j < l < |ps| ==> ps[j] < ps[l]
    decreases |s| - from
  {
    if from + 1 >= |s| then []
    else if IsSentenceEndAt(s, from) then [from] + MatchPositions(s, from + 2)
    else MatchPositions(s, from + 1)
  }

  /** Two matches never overlap, so the global scan finds every match. */
  lemma {:induction false} MatchPositionsComplete(s: string, from: nat, i: int)
    requires from <= i && IsSentenceEndAt(s, i)
    ensures i in MatchPositions(s, from)
    decreases |s| - from
  {
    if from + 1 < |s| {
      if IsSentenceEndAt(s, from) {
        if i != from {
          assert i != from + 1;
          MatchPositionsComplete(s, from + 2, i);
        }
      } else {
        MatchPositionsComplete(s, from + 1, i);
      }
    }
  }

  /** `s.match(/[.!?]\s/g)`: the matched two-character strings, in order; the
      empty sequence stands for JavaScript's `null`. */
  function SentenceMatches(s: string): (ms: seq<string>)
    ensures |ms| == |MatchPositions(s, 0)|
    ensures forall j :: 0 <= j < |ms| ==> |ms[j]| == 2 && OccursAt(s, ms[j], MatchPositions(s, 0)[j])
  {
    var ps := MatchPositions(s, 0);
    seq(|ps|, j requires 0 <= j < |ps| => s[ps[j]..ps[j] + 2])
  }

  /** The last match's text, looked up again with `lastIndexOf`, is found at
      the start of the last match: the pair of characters cannot occur later. */
  lemma LastMatchRefound(s: string)
    requires |SentenceMatches(s)| > 0
    ensures var ps := MatchPositions(s, 0);
            var ms := SentenceMatches(s);
            LastIndexOf(s, ms[|ms| - 1], |s|) == ps[|ps| - 1]
  {
    var ps := MatchPositions(s, 0);
    var ms := SentenceMatches(s);
    var p := ps[|ps| - 1];
    var m := ms[|ms| - 1];
    assert |m| == 2 && OccursAt(s, m, p);
    var r := LastIndexOf(s, m, |s|);
    assert r >= p;
    if r != p {
      SameSentenceEnd(s, p, r);
      LastMatchIsLast(s, r);
    }
  }

  /** No sentence end lies after the last match the global scan finds. */
  lemma LastMatchIsLast(s: string, i: int)
    requires |MatchPositions(s, 0)| > 0 && IsSentenceEndAt(s, i)
    ensures i <= MatchPositions(s, 0)[|MatchPositions(s, 0)| - 1]
  {
    var ps := MatchPositions(s, 0);
    MatchPositionsComplete(s, 0, i);
    var j :| 0 <= j < |ps| && ps[j] == i;
    if j < |ps| - 1 {
      assert ps[j] < ps[|ps| - 1];
    }
  }

  /** Two equal character pairs are both sentence ends or neither. */
  lemma SameSentenceEnd(s: string, p: int, r: int)
    requires IsSentenceEndAt(s, p) && 0 <= r && r + 2 <= |s| && s[r..r + 2] == s[p..p + 2]
    ensures IsSentenceEndAt(s, r)
  {
    assert s[r] == s[r..r + 2][0] && s[p] == s[p..p + 2][0];
    assert s[r + 1] == s[r..r + 2][1] && s[p + 1] == s[p..p + 2][1];
  }

  /** `c.toLowerCase()` on the ASCII range. */
  function LowerChar(c: char): (r: char)
    ensures !('A' <= r <= 'Z')
    ensures 'A' <= c <= 'Z' ==> r as int == c as int + 32
    ensures !('A' <= c <= 'Z') ==> r == c
  {
    if 'A' <= c <= 'Z' then (c as int + 32) as char else c
  }

  /** `s.toLowerCase()`, character by character. */
  function ToLower(s: string): (r: string)
    ensures |r| == |s| && forall i :: 0 <= i < |s| ==> r[i] == LowerChar(s[i])
  {
    seq(|s|, i requires 0 <= i < |s| => LowerChar(s[i]))
  }

  /** `xs.join(sep)`. */
  function Join(xs: seq<string>, sep: string): (r: string)
    ensures |xs| == 0 ==> r == []
    ensures |xs| > 0 ==> xs[0] <= r && |xs[|xs| - 1]| <= |r| && r[|r| - |xs[|xs| - 1]|..] == xs[|xs| - 1]
  {
    if |xs| == 0 then ""
    else if |xs| == 1 then xs[0]
    else
      var rest := Join(xs[1..], sep);
      var r := xs[0] + sep + rest;
      assert r[|r| - |rest|..] == rest;
      r
  }
}
