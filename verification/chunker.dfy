/** The text chunker (`chunkText`): splits a string into an ordered list of
    trimmed pieces of bounded length, preferring to cut after the last
    sentence end inside a 50-character window, then after the last space,
    and otherwise cutting hard at the size limit. */
module Chunker {
  import opened JsString

  /** How far back from the tentative end the sentence search looks. */
  const SentenceWindow := 50

  /** `Math.max(currentIndex, endIndex - 50)`. */
  function WindowStart(cur: int, end: int): (lo: int)
    ensures lo >= cur && lo >= end - SentenceWindow && (lo == cur || lo == end - SentenceWindow)
  {
    if cur > end - SentenceWindow then cur else end - SentenceWindow
  }

  /** Some sentence end (a terminator followed by whitespace) lies wholly in `[lo, hi)`. */
  ghost predicate HasSentenceEnd(text: string, lo: int, hi: int) {
    exists i :: lo <= i && i + 2 <= hi && IsSentenceEndAt(text, i)
  }

  /** No literal space at any index of `[lo, hi]`. */
  ghost predicate NoSpaceIn(text: string, lo: int, hi: int) {
    forall j :: lo <= j <= hi && 0 <= j < |text| ==> text[j] != ' '
  }

  /** Reference search: the start of the last sentence end lying wholly in
      `[lo, hi)`, or -1 when there is none. */
  function LastSentenceEnd(text: string, lo: int, hi: int): (r: int)
    requires 0 <= lo && hi <= |text|
    ensures r == -1 || (lo <= r && r + 2 <= hi && IsSentenceEndAt(text, r))
    ensures r == -1 ==> !HasSentenceEnd(text, lo, hi)
    ensures forall i :: r < i && lo <= i && i + 2 <= hi ==> !IsSentenceEndAt(text, i)
    decreases hi
  {
    if hi - 2 < lo then -1
    else if IsSentenceEndAt(text, hi - 2) then hi - 2
    else LastSentenceEnd(text, lo, hi - 1)
  }

  /** Reference definition of where the piece starting at `cur` ends (the
      value `endIndex` takes in one pass of the loop). The end may lie
      beyond the text only for the final piece. */
  function NextCut(text: string, size: int, cur: int): (e: int)
    requires 0 <= cur < |text| && size >= 0
    ensures size >= 1 ==> cur < e
    ensures e <= cur + size + 1
    ensures cur + size < |text| ==> e <= |text|
  {
    var end := cur + size;
    if end >= |text| then end
    else
      var p := LastSentenceEnd(text, WindowStart(cur, end), end);
      if p >= 0 then p + 2
      else
        var sp := LastIndexOf(text, " ", end);
        if sp > cur then sp + 1 else end
  }

  /** With a chunk size of zero the cut never moves past the cursor, so
      `chunkText` would loop forever on a non-empty text. */
  lemma NextCutStallsAtZero(text: string, cur: int)
    requires 0 <= cur < |text|
    ensures NextCut(text, 0, cur) == cur
  {
    if cur < |text| {
      assert LastSentenceEnd(text, cur, cur) == -1;
      assert LastIndexOf(text, " ", cur) <= cur;
    }
  }

  /** Once the tentative end reaches the end of the text, the whole remainder
      is the final piece. */
  lemma NextCutFinal(text: string, size: int, cur: int)
    requires 0 <= cur < |text| && size >= 0 && cur + size >= |text|
    ensures NextCut(text, size, cur) == cur + size
    ensures Substring(text, cur, NextCut(text, size, cur)) == text[cur..]
  {
  }

  /** A cut lands one past the size limit only right after a space. */
  lemma NextCutOverrun(text: string, size: int, cur: int)
    requires 0 <= cur < |text| && size >= 0
    requires NextCut(text, size, cur) == cur + size + 1
    ensures cur + size < |text| && text[cur + size] == ' '
  {
    LastSpace(text, cur + size);
  }

  /** Sentence preference: when the window holds a sentence end, the cut
      falls right after the last one. */
  lemma NextCutSentence(text: string, size: int, cur: int)
    requires 0 <= cur < |text| && size >= 0 && cur + size < |text|
    requires HasSentenceEnd(text, WindowStart(cur, cur + size), cur + size)
    ensures var e := NextCut(text, size, cur);
            WindowStart(cur, cur + size) <= e - 2 && e <= cur + size && IsSentenceEndAt(text, e - 2) &&
            forall i :: e - 2 < i && i + 2 <= cur + size ==> !IsSentenceEndAt(text, i)
  {
  }

  /** Without a sentence end in the window, the cut falls right after the
      last space past `cur` up to the tentative end, or, when there is
      none, at the tentative end itself (a hard cut). */
  lemma NextCutSpaceOrHard(text: string, size: int, cur: int)
    requires 0 <= cur < |text| && size >= 0 && cur + size < |text|
    requires !HasSentenceEnd(text, WindowStart(cur, cur + size), cur + size)
    ensures var e := NextCut(text, size, cur);
            (cur < e - 1 <= cur + size && text[e - 1] == ' ' && NoSpaceIn(text, e, cur + size)) ||
            (e == cur + size && NoSpaceIn(text, cur + 1, cur + size))
  {
    LastSpace(text, cur + size);
  }

  /** `text.lastIndexOf(' ', end)` for an `end` inside the text: the last
      space at an index no greater than `end`, or -1. */
  lemma LastSpace(text: string, end: int)
    requires 0 <= end < |text|
    ensures var sp := LastIndexOf(text, " ", end);
            (sp == -1 || (0 <= sp <= end && text[sp] == ' ')) &&
            forall k :: sp < k <= end ==> text[k] != ' '
  {
    var sp := LastIndexOf(text, " ", end);
    if sp != -1 {
      assert text[sp..sp + 1] == " ";
    }
    forall k | sp < k <= end ensures text[k] != ' ' {
      assert !OccursAt(text, " ", k);
      assert text[k..k + 1] == [text[k]];
    }
  }

  /** The untrimmed pieces `text[b_i..b_{i+1})` from `cur` on, where each cut
      `b_{i+1}` is `NextCut` of `b_i`. */
  function PiecesFrom(text: string, size: int, cur: int): (ps: seq<string>)
    requires size >= 1 && 0 <= cur
    ensures ps == [] <==> cur >= |text|
    decreases |text| - cur
  {
    if cur >= |text| then []
    else
      var e := NextCut(text, size, cur);
      [Substring(text, cur, e)] + PiecesFrom(text, size, e)
  }

  function Concat(ps: seq<string>): string {
    if ps == [] then [] else ps[0] + Concat(ps[1..])
  }

  function TrimAll(ps: seq<string>): (r: seq<string>)
    ensures |r| == |ps| && forall i :: 0 <= i < |ps| ==> r[i] == Trim(ps[i])
  {
    seq(|ps|, i requires 0 <= i < |ps| => Trim(ps[i]))
  }

  lemma TrimAllSnoc(ps: seq<string>, p: string)
    ensures TrimAll(ps + [p]) == TrimAll(ps) + [Trim(p)]
  {
  }

  /** What `chunkText(text, size)` returns: nothing for the empty text,
      the text itself when it fits, and otherwise trimmed chunks. */
  function Chunks(text: string, size: int): (cs: seq<string>)
    requires text == [] || size >= 1
    ensures cs == [] <==> text == []
    ensures 0 < |text| <= size ==> cs == [text]
    ensures |text| > size ==>
              forall i :: 0 <= i < |cs| ==> cs[i] == [] || (!IsWhitespace(cs[i][0]) && !IsWhitespace(cs[i][|cs[i]| - 1]))
  {
    if text == [] then []
    else if |text| <= size then [text]
    else TrimAll(PiecesFrom(text, size, 0))
  }

  /** Tiling: the untrimmed pieces, concatenated, give back the text from `cur` on. */
  lemma {:induction false} PiecesTile(text: string, size: int, cur: int)
    requires size >= 1 && 0 <= cur <= |text|
    ensures Concat(PiecesFrom(text, size, cur)) == text[cur..]
    decreases |text| - cur
  {
    if cur < |text| {
      var e := NextCut(text, size, cur);
      if e >= |text| {
        assert PiecesFrom(text, size, e) == [];
        assert Substring(text, cur, e) == text[cur..];
      } else {
        PiecesTile(text, size, e);
        assert Substring(text, cur, e) == text[cur..e];
        assert text[cur..] == text[cur..e] + text[e..];
      }
    }
  }

  /** Every piece is non-empty (the cuts strictly increase) and is at most
      `size` long, except a piece one longer that ends in a space. */
  lemma {:induction false} PiecesBounded(text: string, size: int, cur: int)
    requires size >= 1 && 0 <= cur
    ensures forall i :: 0 <= i < |PiecesFrom(text, size, cur)| ==>
              var p := PiecesFrom(text, size, cur)[i];
              p != [] && (|p| <= size || (|p| == size + 1 && p[size] == ' '))
    decreases |text| - cur
  {
    if cur < |text| {
      var e := NextCut(text, size, cur);
      PiecesBounded(text, size, e);
      var p := Substring(text, cur, e);
      assert cur < e <= cur + size + 1;
      if e <= |text| {
        assert p == text[cur..e];
        if |p| == size + 1 {
          NextCutOverrun(text, size, cur);
          assert p[size] == text[cur + size];
        }
      } else {
        assert p == text[cur..];
      }
      var ps := PiecesFrom(text, size, cur);
      var rest := PiecesFrom(text, size, e);
      assert ps == [p] + rest;
      assert p != [] && (|p| <= size || (|p| == size + 1 && p[size] == ' '));
      forall i | 1 <= i < |ps|
        ensures ps[i] != [] && (|ps[i]| <= size || (|ps[i]| == size + 1 && ps[i][size] == ' '))
      {
        assert ps[i] == rest[i - 1];
      }
    }
  }

  /** Every chunk is at most `size` long: a piece that overruns the limit by
      one ends in a space, which trimming removes. */
  lemma ChunksBounded(text: string, size: int)
    requires size >= 1
    ensures forall i :: 0 <= i < |Chunks(text, size)| ==> |Chunks(text, size)[i]| <= size
  {
    if |text| > size {
      var ps := PiecesFrom(text, size, 0);
      PiecesBounded(text, size, 0);
      forall i | 0 <= i < |ps| ensures |Trim(ps[i])| <= size {
        if |ps[i]| == size + 1 {
          TrimDropsTrailingWhitespace(ps[i]);
        }
      }
    }
  }

  /** A non-empty text always yields at least one chunk. */
  lemma ChunksNonEmpty(text: string, size: int)
    requires text != [] && size >= 1
    ensures |Chunks(text, size)| >= 1
  {
    if |text| > size {
      assert PiecesFrom(text, size, 0) == [Substring(text, 0, NextCut(text, size, 0))] + PiecesFrom(text, size, NextCut(text, size, 0));
    }
  }

  /** A sentence end of the window `text[lo..hi]`, in the window's own coordinates. */
  lemma WindowSentenceEnd(text: string, lo: int, hi: int, p: int)
    requires 0 <= lo <= hi <= |text|
    ensures IsSentenceEndAt(text[lo..hi], p) <==> (0 <= p && lo + p + 2 <= hi && IsSentenceEndAt(text, lo + p))
  {
    if 0 <= p && p + 1 < hi - lo {
      assert text[lo..hi][p] == text[lo + p] && text[lo..hi][p + 1] == text[lo + p + 1];
    }
  }

  /** The regular-expression search the loop performs on the window agrees
      with the reference search `LastSentenceEnd`. */
  lemma WindowSearchAgrees(text: string, lo: int, hi: int)
    requires 0 <= lo <= hi <= |text|
    ensures var ps := MatchPositions(text[lo..hi], 0);
            (|ps| > 0 <==> LastSentenceEnd(text, lo, hi) >= 0) &&
            (|ps| > 0 ==> lo + ps[|ps| - 1] == LastSentenceEnd(text, lo, hi))
  {
    var seg := text[lo..hi];
    var ps := MatchPositions(seg, 0);
    var r := LastSentenceEnd(text, lo, hi);
    if r >= 0 {
      WindowSentenceEnd(text, lo, hi, r - lo);
      MatchPositionsComplete(seg, 0, r - lo);
    }
    if |ps| > 0 {
      var p := ps[|ps| - 1];
      WindowSentenceEnd(text, lo, hi, p);
      assert forall j :: 0 <= j < |ps| ==> ps[j] <= p;
    }
  }

  /** The end the loop body computes, through the regular expression and
      `lastIndexOf` on the window `segment` starting at `searchStart`, is the
      reference `NextCut`. */
  lemma CutSearchAgrees(text: string, size: int, cur: int, searchStart: int, segment: string)
    requires size >= 1 && 0 <= cur && cur + size < |text|
    requires searchStart == if cur > cur + size - SentenceWindow then cur else cur + size - SentenceWindow
    requires segment == Substring(text, searchStart, cur + size)
    ensures var ms := SentenceMatches(segment);
            var sp := LastIndexOf(text, " ", cur + size);
            NextCut(text, size, cur) ==
              if |ms| > 0 then searchStart + LastIndexOf(segment, ms[|ms| - 1], |segment|) + 2
              else if sp > cur then sp + 1 else cur + size
  {
    var end := cur + size;
    assert searchStart == WindowStart(cur, end);
    assert segment == text[searchStart..end];
    var ms := SentenceMatches(segment);
    var p := LastSentenceEnd(text, searchStart, end);
    WindowSearchAgrees(text, searchStart, end);
    if |ms| > 0 {
      LastMatchRefound(segment);
      assert searchStart + LastIndexOf(segment, ms[|ms| - 1], |segment|) == p;
    } else {
      assert p == -1;
    }
  }

  /** The cut search of one pass of the loop: the tentative end, then the
      last sentence end in the window found with the regular expression
      and `lastIndexOf`, then the last space, then the hard cut. */
  method FindEnd(text: string, currentIndex: int, chunkSize: int) returns (endIndex: int)
    requires chunkSize >= 1 && 0 <= currentIndex < |text|
    ensures endIndex == NextCut(text, chunkSize, currentIndex)
  {
    endIndex := currentIndex + chunkSize;
    if endIndex < |text| {
      var searchStart := if currentIndex > endIndex - SentenceWindow then currentIndex else endIndex - SentenceWindow;
      var segment := Substring(text, searchStart, endIndex);
      var sentenceMatch := SentenceMatches(segment);
      CutSearchAgrees(text, chunkSize, currentIndex, searchStart, segment);
      if |sentenceMatch| > 0 {
        var lastSentenceEnd := LastIndexOf(segment, sentenceMatch[|sentenceMatch| - 1], |segment|);
        endIndex := searchStart + lastSentenceEnd + 2;
      } else {
        var lastSpace := LastIndexOf(text, " ", endIndex);
        if lastSpace > currentIndex {
          endIndex := lastSpace + 1;
        }
      }
    } else {
      NextCutFinal(text, chunkSize, currentIndex);
    }
  }

  /** The loop of `chunkText`: from the start of the text, cut at
      `FindEnd`, push the trimmed piece and go on from the cut. */
  method ChunkPieces(text: string, chunkSize: int) returns (chunks: seq<string>)
    requires chunkSize >= 1
    ensures chunks == TrimAll(PiecesFrom(text, chunkSize, 0))
  {
    chunks := [];
    ghost var pieces: seq<string> := [];
    var currentIndex := 0;
    while currentIndex < |text|
      invariant 0 <= currentIndex
      invariant pieces + PiecesFrom(text, chunkSize, currentIndex) == PiecesFrom(text, chunkSize, 0)
      invariant chunks == TrimAll(pieces)
      decreases |text| - currentIndex
    {
      var endIndex := FindEnd(text, currentIndex, chunkSize);
      var piece := Substring(text, currentIndex, endIndex);
      assert PiecesFrom(text, chunkSize, currentIndex) == [piece] + PiecesFrom(text, chunkSize, endIndex);
      assert (pieces + [piece]) + PiecesFrom(text, chunkSize, endIndex) == pieces + PiecesFrom(text, chunkSize, currentIndex);
      TrimAllSnoc(pieces, piece);
      pieces := pieces + [piece];
      chunks := chunks + [Trim(piece)];
      currentIndex := endIndex;
    }
    assert pieces == PiecesFrom(text, chunkSize, 0);
  }

  /** `chunkText`: the loop of chunker.ts, proved to return `Chunks`. */
  method ChunkText(text: string, chunkSize: int) returns (chunks: seq<string>)
    requires text == [] || chunkSize >= 1
    ensures chunks == Chunks(text, chunkSize)
    ensures text == [] ==> chunks == []
    ensures 0 < |text| <= chunkSize ==> chunks == [text]
    ensures chunkSize >= 1 && |text| > chunkSize ==>
              |chunks| == |PiecesFrom(text, chunkSize, 0)| &&
              forall i :: 0 <= i < |chunks| ==> chunks[i] == Trim(PiecesFrom(text, chunkSize, 0)[i])
    ensures forall i :: 0 <= i < |chunks| ==> |chunks[i]| <= chunkSize
  {
    if |text| == 0 {
      return [];
    }
    if |text| <= chunkSize {
      return [text];
    }
    chunks := ChunkPieces(text, chunkSize);
    ChunksBounded(text, chunkSize);
  }
}
