/** `split_text`: a message cut into bounded chunks at its last line break or space. */
module Splitting {
  import opened Text

  /** The limit every caller in the service uses. */
  const LIMIT: nat := 3500

  function Max(a: int, b: int): int { if a < b then b else a }

  function HalfWindow(limit: nat): (half: nat)
    ensures half >= 1
  {
    Max(1, limit / 2)
  }

  /** Where the loop cuts a `remaining` that is longer than `limit`. */
  function CutAt(remaining: string, limit: nat): (at: nat)
    requires limit >= 1 && |remaining| > limit && Trimmed(remaining)
    ensures HalfWindow(limit) <= at <= limit
  {
    var found := Max(RFind(remaining, '\n', limit), RFind(remaining, ' ', limit));
    if found < limit / 2 then limit else found
  }

  lemma RestTrimmed(s: string, at: nat)
    requires Trimmed(s) && 1 <= at < |s|
    ensures var rest := LStrip(s[at..]); Trimmed(rest) && 0 < |rest| < |s|
  {
    var tail := s[at..];
    assert tail[|tail| - 1] == s[|s| - 1];
    assert LStrip(tail)[|LStrip(tail)| - 1] == tail[|tail| - 1];
  }

  /** What the loop still appends once `remaining` is all that is left. */
  function ChunksOf(remaining: string, limit: nat): (chunks: seq<string>)
    requires limit >= 1 && Trimmed(remaining)
    decreases |remaining|
  {
    if |remaining| <= limit then
      if remaining == "" then [] else [remaining]
    else
      var at := CutAt(remaining, limit);
      RestTrimmed(remaining, at);
      [RStrip(remaining[..at])] + ChunksOf(LStrip(remaining[at..]), limit)
  }

  function Chunks(text: string, limit: nat): (chunks: seq<string>)
    requires limit >= 1
  {
    ChunksOf(Strip(text), limit)
  }

  lemma CutStep(remaining: string, at: nat, before: seq<string>, limit: nat)
    requires limit >= 1 && |remaining| > limit && Trimmed(remaining) && at == CutAt(remaining, limit)
    ensures var rest := LStrip(remaining[at..]);
            Trimmed(rest) && |rest| < |remaining|
            && before + ChunksOf(remaining, limit)
               == before + [RStrip(remaining[..at])] + ChunksOf(rest, limit)
  {
    RestTrimmed(remaining, at);
  }

  method SplitText(text: string, limit: nat) returns (chunks: seq<string>)
    requires limit >= 1
    ensures chunks == Chunks(text, limit)
  {
    var stripped := Strip(text);
    if stripped == "" {
      return [];
    }
    chunks := [];
    var remaining := stripped;
    while |remaining| > limit
      invariant Trimmed(remaining)
      invariant ChunksOf(stripped, limit) == chunks + ChunksOf(remaining, limit)
      decreases |remaining|
    {
      var splitAt: int := Max(RFind(remaining, '\n', limit), RFind(remaining, ' ', limit));
      if splitAt < limit / 2 {
        splitAt := limit;
      }
      CutStep(remaining, splitAt, chunks, limit);
      chunks := chunks + [RStrip(remaining[..splitAt])];
      remaining := LStrip(remaining[splitAt..]);
    }
    if remaining != "" {
      chunks := chunks + [remaining];
    }
  }

  /** The window has no space or line break in its second half. */
  predicate NoBreak(s: string, limit: nat)
    requires limit >= 1 && |s| > limit
  {
    forall j :: limit / 2 <= j < limit ==> s[j] != ' ' && s[j] != '\n'
  }

  /** And the cut at `limit` falls between two characters that are not whitespace. */
  predicate HardBreak(s: string, limit: nat)
    requires limit >= 1 && |s| > limit
  {
    NoBreak(s, limit) && !IsSpace(s[limit - 1]) && !IsSpace(s[limit])
  }

  /** `s` begins with `chunk`, then only whitespace up to `next`. The chunk with its gap uses up at least half
      a window; without a break in the second half of the window the cut is at its end; the gap is missing
      exactly at a hard break; and no later space or line break of the window was passed over. */
  predicate CutsAt(s: string, chunk: string, next: nat, limit: nat)
    requires limit >= 1
  {
    && limit < |s| && |chunk| <= next <= |s| && HalfWindow(limit) <= next
    && s[..|chunk|] == chunk
    && (forall j :: |chunk| <= j < next ==> IsSpace(s[j]))
    && (NoBreak(s, limit) ==> |chunk| <= limit <= next)
    && (|chunk| == next <==> HardBreak(s, limit))
    && (forall j :: next <= j < limit ==> s[j] != ' ' && s[j] != '\n')
  }

  /** `s` is exactly the chunks with whitespace between them, and each chunk is bounded, not empty
      and has no outer whitespace. */
  ghost predicate Covers(s: string, chunks: seq<string>, limit: nat)
    requires limit >= 1
    decreases |chunks|
  {
    if chunks == [] then s == ""
    else
      && 0 < |chunks[0]| <= limit && Trimmed(chunks[0])
      && if |chunks| == 1 then s == chunks[0]
         else exists next: nat :: CutsAt(s, chunks[0], next, limit) && Covers(s[next..], chunks[1..], limit)
  }

  lemma CutHere(s: string, limit: nat)
    requires limit >= 1 && |s| > limit && Trimmed(s)
    ensures var at := CutAt(s, limit);
            var head, rest := RStrip(s[..at]), LStrip(s[at..]);
            CutsAt(s, head, |s| - |rest|, limit) && s[|s| - |rest|..] == rest
            && 0 < |head| <= limit && Trimmed(head)
  {
    var at := CutAt(s, limit);
    var front, tail := s[..at], s[at..];
    var a, b := Trail(front, at), at + Lead(tail, 0);
    assert forall j :: a <= j < at ==> s[j] == front[j];
    assert forall j :: at <= j < b ==> s[j] == tail[j - at];
    assert front[0] == s[0] && front[at - 1] == s[at - 1] && tail[0] == s[at];
    CutEmptyIff(s, limit, a, b);
  }

  lemma CutEmptyIff(s: string, limit: nat, a: nat, b: nat)
    requires limit >= 1 && |s| > limit && Trimmed(s)
    requires var at := CutAt(s, limit);
             a <= at <= b && (a == at <==> !IsSpace(s[at - 1])) && (b == at <==> !IsSpace(s[at]))
    ensures a == b <==> HardBreak(s, limit)
    ensures NoBreak(s, limit) ==> CutAt(s, limit) == limit
    ensures forall j :: b <= j < limit ==> s[j] != ' ' && s[j] != '\n'
  {
    var newline, space := RFind(s, '\n', limit), RFind(s, ' ', limit);
    var found := Max(newline, space);
    if found >= limit / 2 {
      assert s[found] == '\n' || s[found] == ' ';
    }
  }

  lemma {:induction false} ChunksCover(s: string, limit: nat)
    requires limit >= 1 && Trimmed(s)
    ensures Covers(s, ChunksOf(s, limit), limit)
    decreases |s|
  {
    if |s| > limit {
      var at := CutAt(s, limit);
      RestTrimmed(s, at);
      CutHere(s, limit);
      var rest := LStrip(s[at..]);
      ChunksCover(rest, limit);
      assert ChunksOf(s, limit)[1..] == ChunksOf(rest, limit);
    }
  }

  /** What a reader gets. */
  function Concat(chunks: seq<string>): string {
    if chunks == [] then "" else chunks[0] + Concat(chunks[1..])
  }

  lemma {:induction false} CoversVisible(s: string, chunks: seq<string>, limit: nat)
    requires limit >= 1 && Covers(s, chunks, limit)
    ensures Visible(Concat(chunks)) == Visible(s)
    decreases |chunks|
  {
    if |chunks| == 1 {
      assert Concat(chunks[1..]) == "" && Concat(chunks) == chunks[0] + "" == s;
    } else if |chunks| > 1 {
      var next: nat :| CutsAt(s, chunks[0], next, limit) && Covers(s[next..], chunks[1..], limit);
      CoversVisible(s[next..], chunks[1..], limit);
      VisibleGap(s, |chunks[0]|, next);
      VisibleConcat(chunks[0], Concat(chunks[1..]));
    }
  }

  lemma VisibleGap(s: string, a: nat, b: nat)
    requires a <= b <= |s| && forall j :: a <= j < b ==> IsSpace(s[j])
    ensures Visible(s) == Visible(s[..a]) + Visible(s[b..])
  {
    assert s == s[..a] + s[a..];
    VisibleConcat(s[..a], s[a..]);
    VisibleSkip(s, a, b);
  }

  lemma {:induction false} VisibleSkip(s: string, a: nat, b: nat)
    requires a <= b <= |s| && forall j :: a <= j < b ==> IsSpace(s[j])
    ensures Visible(s[a..]) == Visible(s[b..])
    decreases b - a
  {
    if a < b {
      assert s[a..][1..] == s[a + 1..];
      VisibleSkip(s, a + 1, b);
    }
  }

  /** Nothing readable is lost, added or reordered, whatever the text and the limit, and only a
      blank text has no chunks. */
  lemma SplitKeepsText(text: string, limit: nat)
    requires limit >= 1
    ensures Visible(Concat(Chunks(text, limit))) == Visible(text)
    ensures Chunks(text, limit) == [] <==> Blank(text)
  {
    ChunksCover(Strip(text), limit);
    CoversVisible(Strip(text), Chunks(text, limit), limit);
    VisibleStrip(text);
    if Blank(text) {
      LeadIs(text, 0, |text|);
    } else {
      var i :| 0 <= i < |text| && !IsSpace(text[i]);
      VisibleAt(text, i);
    }
  }

  lemma {:induction false} VisibleAt(s: string, i: nat)
    requires i < |s| && !IsSpace(s[i])
    ensures Visible(s) != ""
  {
    if i > 0 {
      VisibleAt(s[1..], i - 1);
    }
  }

  /** Every chunk is non-empty, bounded and trimmed, and splitting it again gives it back. */
  lemma SplitEach(text: string, limit: nat, i: nat)
    requires limit >= 1 && i < |Chunks(text, limit)|
    ensures var c := Chunks(text, limit)[i];
            0 < |c| <= limit && Trimmed(c) && Chunks(c, limit) == [c]
  {
    ChunksCover(Strip(text), limit);
    CoversEach(Strip(text), Chunks(text, limit), limit, i);
    StripTrimmed(Chunks(text, limit)[i]);
  }

  lemma {:induction false} CoversEach(s: string, chunks: seq<string>, limit: nat, i: nat)
    requires limit >= 1 && Covers(s, chunks, limit) && i < |chunks|
    ensures 0 < |chunks[i]| <= limit && Trimmed(chunks[i])
    decreases |chunks|
  {
    if i > 0 {
      var next: nat :| CutsAt(s, chunks[0], next, limit) && Covers(s[next..], chunks[1..], limit);
      CoversEach(s[next..], chunks[1..], limit, i - 1);
    }
  }

  /** A message of at most 3500 characters, outer whitespace apart, is sent in one piece, and no longer one is. */
  lemma OnePiece(text: string)
    ensures |Chunks(text, LIMIT)| <= 1 <==> |Strip(text)| <= 3500
    ensures 0 < |Strip(text)| <= 3500 ==> Chunks(text, LIMIT) == [Strip(text)]
  {
    var s := Strip(text);
    if |s| > LIMIT {
      var at := CutAt(s, LIMIT);
      RestTrimmed(s, at);
      assert ChunksOf(LStrip(s[at..]), LIMIT) != [];
    }
  }

  /** The number of chunks is bounded by the length: half a window for each but the last. */
  lemma SplitCount(text: string, limit: nat)
    requires limit >= 1 && !Blank(text)
    ensures 0 < |Chunks(text, limit)|
    ensures (|Chunks(text, limit)| - 1) * HalfWindow(limit) < |Strip(text)|
  {
    var s, chunks := Strip(text), Chunks(text, limit);
    assert chunks != [] by { SplitKeepsText(text, limit); }
    assert Covers(s, chunks, limit) by { ChunksCover(s, limit); }
    CoversCount(s, chunks, limit, HalfWindow(limit));
  }

  lemma {:induction false} CoversCount(s: string, chunks: seq<string>, limit: nat, half: nat)
    requires limit >= 1 && Covers(s, chunks, limit) && chunks != [] && half == HalfWindow(limit)
    ensures (|chunks| - 1) * half < |s|
    decreases |chunks|
  {
    if |chunks| > 1 {
      var next: nat :| CutsAt(s, chunks[0], next, limit) && Covers(s[next..], chunks[1..], limit);
      CoversCount(s[next..], chunks[1..], limit, half);
      assert (|chunks| - 1) * half == (|chunks| - 2) * half + half;
    }
  }
}
