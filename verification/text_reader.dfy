/** The bounded text reader: a chunked scan that returns whole lines of a file within a
    line and a byte budget, whatever sizes the reads come in. */
module TextReader {
  import opened Octets
  import opened LogLines

  const READ_CHUNK: nat := 65536

  datatype ReadError = BadStartLine | BadMaxLines | BadMaxBytes

  datatype Slice = Slice(linesReturned: nat, text: Bytes, truncated: bool)

  // ------------------------------------------------------------------- positions

  /** Where line `n` of `s` starts, counting from 1; the end of `s` if it has fewer. */
  function LineStart(s: Bytes, n: nat): (p: nat)
    requires n > 0
    ensures p <= |s|
    decreases n
  {
    var e := LineEnd(s);
    if n == 1 then 0 else if e == |s| then |s| else e + 1 + LineStart(s[e + 1..], n - 1)
  }

  /** How many lines `s` has a part in. */
  function LinesTouched(s: Bytes): nat {
    |Lines(s)| + if Tail(s) == [] then 0 else 1
  }

  /** The size the `k`-th read asks for and gets, short of the end of the file. */
  function ReadSize(sizes: seq<nat>, k: nat): (n: nat)
    ensures 0 < n <= READ_CHUNK
  {
    if k < |sizes| && sizes[k] == 0 then 1
    else if k < |sizes| && sizes[k] < READ_CHUNK then sizes[k]
    else READ_CHUNK
  }

  /** The position behind the first `k` reads of a file of `size` bytes. */
  function Cut(size: nat, sizes: seq<nat>, k: nat): (p: nat)
    ensures p <= size
  {
    if k == 0 then 0 else Min(size, Cut(size, sizes, k - 1) + ReadSize(sizes, k - 1))
  }

  lemma {:induction false} CutsGrow(size: nat, sizes: seq<nat>, j: nat, k: nat)
    requires j <= k
    ensures Cut(size, sizes, j) <= Cut(size, sizes, k)
    decreases k - j
  {
    if j < k { CutsGrow(size, sizes, j, k - 1); }
  }

  lemma NextCut(size: nat, sizes: seq<nat>, k: nat)
    ensures Cut(size, sizes, k) <= Cut(size, sizes, k + 1)
    ensures Cut(size, sizes, k) == Cut(size, sizes, k + 1) ==> Cut(size, sizes, k) == size
    ensures forall j: nat :: !(Cut(size, sizes, k) < Cut(size, sizes, j) < Cut(size, sizes, k + 1))
  {
    forall j: nat ensures !(Cut(size, sizes, k) < Cut(size, sizes, j) < Cut(size, sizes, k + 1)) {
      if j <= k { CutsGrow(size, sizes, j, k); } else { CutsGrow(size, sizes, k + 1, j); }
    }
  }

  /** Reads that are not cut short come in pieces of 65536 bytes. */
  lemma {:induction false} FullReads(size: nat, k: nat)
    ensures Cut(size, [], k) == Min(size, 65536 * k)
  {
    if k > 0 { FullReads(size, k - 1); }
  }

  // ----------------------------------------------------------------- line arithmetic

  lemma LineStartStep(s: Bytes, n: nat)
    requires n > 0
    ensures var e := LineEnd(s);
            LineStart(s, n + 1) == if e == |s| then |s| else e + 1 + LineStart(s[e + 1..], n)
    ensures LineStart(s, 1) == 0
  {
  }

  lemma LineEndSkips(s: Bytes, k: nat)
    requires k <= |s| && forall i :: 0 <= i < k ==> s[i] != LF
    ensures LineEnd(s) == k + LineEnd(s[k..])
  {
    var e, rest := LineEnd(s), LineEnd(s[k..]);
    assert forall i :: k <= i < |s| ==> s[i] == s[k..][i - k];
    if e < |s| { assert s[k..][e - k] == LF; }
    if rest < |s[k..]| { assert s[k + rest] == LF; }
  }

  /** Bytes that are no line feed only move the later line starts along. */
  lemma SkipBytes(s: Bytes, k: nat, n: nat)
    requires k <= |s| && n > 0 && forall i :: 0 <= i < k ==> s[i] != LF
    ensures LineStart(s, n + 1) == k + LineStart(s[k..], n + 1)
  {
    hide LineStart, LineEnd;
    LineEndSkips(s, k);
    LineStartStep(s, n);
    LineStartStep(s[k..], n);
    var e := LineEnd(s[k..]);
    if e < |s[k..]| {
      assert s[k + e + 1..] == s[k..][e + 1..];
    }
  }

  lemma {:induction false} LineStartsGrow(s: Bytes, n: nat, m: nat)
    requires 0 < n <= m
    ensures LineStart(s, n) <= LineStart(s, m)
    decreases n
  {
    if n > 1 {
      var e := LineEnd(s);
      if e < |s| { LineStartsGrow(s[e + 1..], n - 1, m - 1); }
    }
  }

  /** Lines counted from the start of an earlier line. */
  lemma {:induction false} LineStartFrom(s: Bytes, n: nat, m: nat)
    requires n > 0 && m > 0
    ensures LineStart(s, n + m - 1) == LineStart(s, n) + LineStart(s[LineStart(s, n)..], m)
    decreases n
  {
    hide *;
    LineStartStep(s, m);
    if n == 1 {
      assert s[0..] == s;
    } else {
      var e := LineEnd(s);
      LineStartStep(s, n - 1);
      LineStartStep(s, n + m - 2);
      if e == |s| {
        assert s[|s|..] == [];
      } else {
        var rest := s[e + 1..];
        LineStartFrom(rest, n - 1, m);
        assert rest[LineStart(rest, n - 1)..] == s[e + 1 + LineStart(rest, n - 1)..];
      }
    }
  }

  lemma TouchStep(s: Bytes, d: nat)
    requires d <= |s|
    ensures var e := LineEnd(s);
            LinesTouched(s[..d]) == if e < d then 1 + LinesTouched(s[e + 1..][..d - e - 1]) else if d == 0 then 0 else 1
  {
    hide *;
    var piece, e := s[..d], LineEnd(s);
    LinesUnfold(piece);
    PieceEnd(s, d);
    TouchedIs(piece);
    if e < d {
      assert piece[e + 1..] == s[e + 1..][..d - e - 1];
      TouchedIs(piece[e + 1..]);
    }
  }

  lemma TouchedIs(s: Bytes)
    ensures LinesTouched(s) == |Lines(s)| + if Tail(s) == [] then 0 else 1
  {
  }

  /** The `r`-th line of `s` starts before `d` and the next one does not. */
  lemma {:induction false} TouchedAt(s: Bytes, d: nat, r: nat)
    requires d <= |s| && (r == 0 ==> d == 0) && (r > 0 ==> LineStart(s, r) < d <= LineStart(s, r + 1))
    ensures LinesTouched(s[..d]) == r
    decreases r
  {
    hide *;
    TouchStep(s, d);
    if r > 0 {
      var e := LineEnd(s);
      LineStartStep(s, r);
      if r > 1 { LineStartStep(s, r - 1); }
      if e < d {
        var rest := s[e + 1..];
        LineStartStep(rest, 1);
        TouchedAt(rest, d - e - 1, r - 1);
      }
    }
  }

  lemma PieceEnd(s: Bytes, d: nat)
    requires d <= |s|
    ensures LineEnd(s[..d]) == Min(LineEnd(s), d)
  {
    var e := LineEnd(s[..d]);
    assert forall i :: 0 <= i < d ==> s[..d][i] == s[i];
  }

  // ------------------------------------------------------------------ the reader

  /** Where the scan stands at `at`: `r` lines from `from` on have been begun, and the
      last of them is still open or none is. */
  predicate Scanned(content: Bytes, from: nat, at: nat, r: nat, open: bool)
    requires from <= |content|
  {
    var lines := content[from..];
    && from <= at <= |content|
    && (if r == 0 then at == from && !open else LineStart(lines, r) < at - from)
    && (if open then at - from <= LineStart(lines, r + 1) && content[at - 1] != LF
        else at - from == LineStart(lines, r + 1))
  }

  /** The piece from `at` to `next` holds no line feed, except at its end if `complete`. */
  predicate Segment(content: Bytes, at: nat, next: nat, complete: bool) {
    && at < next <= |content|
    && (forall i :: at <= i < next - 1 ==> content[i] != LF)
    && (content[next - 1] == LF <==> complete)
  }

  lemma NextLineStart(s: Bytes, n: nat)
    requires n > 0
    ensures var begin := LineStart(s, n); var e := LineEnd(s[begin..]);
            LineStart(s, n + 1) == if begin + e == |s| then |s| else begin + e + 1
  {
    hide LineEnd;
    var line := s[LineStart(s, n)..];
    LineStartFrom(s, n, 2);
    var e := LineEnd(line);
    assert LineStart(line, 2) == if e == |line| then |line| else e + 1 + LineStart(line[e + 1..], 1);
  }

  /** The part read of an open line holds no line feed. */
  lemma NoFeedInside(content: Bytes, from: nat, at: nat, r: nat)
    requires from <= |content| && Scanned(content, from, at, r, true)
    ensures forall i :: LineStart(content[from..], r) <= i < at - from ==> content[from..][i] != LF
  {
    hide LineStart, LineEnd;
    var lines := content[from..];
    var begin := LineStart(lines, r);
    NextLineStart(lines, r);
    var e := LineEnd(lines[begin..]);
    assert forall i :: begin <= i < begin + e ==> lines[i] == lines[begin..][i - begin];
    assert content[at - 1] == lines[at - from - 1];
    if begin + e < |lines| { assert lines[begin..][e] == lines[begin + e]; }
  }

  lemma TakeSegment(content: Bytes, from: nat, at: nat, r: nat, open: bool, next: nat, complete: bool)
    requires from <= |content| && Scanned(content, from, at, r, open) && Segment(content, at, next, complete)
    ensures Scanned(content, from, next, if open then r else r + 1, !complete)
  {
    hide LineStart, LineEnd;
    var r' := if open then r else r + 1;
    NextLineStart(content[from..], r');
    SegmentInLine(content, from, at, r, open, next, complete);
    assert content[next - 1] == content[from..][next - from - 1];
  }

  /** Where the line that a segment belongs to ends. */
  lemma SegmentInLine(content: Bytes, from: nat, at: nat, r: nat, open: bool, next: nat, complete: bool)
    requires from <= |content| && Scanned(content, from, at, r, open) && Segment(content, at, next, complete)
    ensures var begin := LineStart(content[from..], if open then r else r + 1);
            var e := LineEnd(content[from..][begin..]);
            && begin <= at - from
            && if complete then e == next - from - begin - 1 else e >= next - from - begin
  {
    hide LineStart, LineEnd;
    var lines := content[from..];
    var begin := LineStart(lines, if open then r else r + 1);
    if open { NoFeedInside(content, from, at, r); }
    var line, d := lines[begin..], next - from - begin;
    forall i | 0 <= i < d ensures line[i] == content[from + begin + i] { }
    forall i | 0 <= i < d - 1 ensures line[i] != LF {
      if open && i < at - from - begin { assert line[i] == lines[begin + i]; }
    }
    FeedAt(line, d, complete);
  }

  /** The first line feed of `s` is the one right before `d`, or lies behind. */
  lemma FeedAt(s: Bytes, d: nat, complete: bool)
    requires 0 < d <= |s| && forall i :: 0 <= i < d - 1 ==> s[i] != LF
    requires s[d - 1] == LF <==> complete
    ensures if complete then LineEnd(s) == d - 1 else LineEnd(s) >= d
  {
  }

  // ---------------------------------------------------------------- phases of a scan

  /** While skipping: the start line lies `ahead` line starts further on. */
  predicate Skipping(content: Bytes, from: nat, at: nat, ahead: nat) {
    at <= |content| && from == at + LineStart(content[at..], ahead + 1)
  }

  lemma SkipPiece(content: Bytes, from: nat, at: nat, next: nat, ahead: nat)
    requires Skipping(content, from, at, ahead) && ahead > 0 && at <= next <= |content|
    requires LineEnd(content[at..next]) == next - at
    ensures Skipping(content, from, next, ahead)
  {
    hide LineStart, LineEnd;
    var rest := content[at..];
    assert content[at..next] == rest[..next - at];
    forall i | 0 <= i < next - at ensures rest[i] != LF { assert rest[i] == content[at..next][i]; }
    SkipBytes(rest, next - at, ahead);
    assert rest[next - at..] == content[next..];
  }

  lemma SkipLine(content: Bytes, from: nat, at: nat, to: nat, ahead: nat)
    requires Skipping(content, from, at, ahead) && ahead > 0 && at <= to <= |content|
    requires LineEnd(content[at..to]) < to - at
    ensures Skipping(content, from, at + LineEnd(content[at..to]) + 1, ahead - 1)
  {
    hide LineStart, LineEnd;
    var rest := content[at..];
    assert content[at..to] == rest[..to - at];
    PieceEnd(rest, to - at);
    LineStartStep(rest, ahead);
    assert rest[LineEnd(rest) + 1..] == content[at + LineEnd(rest) + 1..];
  }

  lemma SkippingEnds(content: Bytes, from: nat, at: nat, ahead: nat)
    requires Skipping(content, from, at, ahead) && (ahead == 0 || at == |content|)
    ensures from == at && Scanned(content, from, at, 0, false)
  {
    LineStartStep(content[at..], 1);
  }

  lemma SegmentFound(content: Bytes, at: nat, to: nat)
    requires at < to <= |content|
    ensures var e := LineEnd(content[at..to]);
            Segment(content, at, if at + e == to then to else at + e + 1, at + e < to)
  {
    hide LineEnd;
    var e := LineEnd(content[at..to]);
    assert forall i :: at <= i < to ==> content[i] == content[at..to][i - at];
  }

  lemma ShorterSegment(content: Bytes, at: nat, next: nat, complete: bool, end: nat)
    requires Segment(content, at, next, complete) && at < end < next
    ensures Segment(content, at, end, false)
  {
  }

  // ---------------------------------------------------------------------- the result

  /** No read boundary lies inside the last permitted line before `at`. */
  ghost predicate Uncut(content: Bytes, from: nat, maxLines: nat, sizes: seq<nat>, at: nat)
    requires from <= |content| && maxLines > 0
  {
    forall k: nat :: !(from + LineStart(content[from..], maxLines) < Cut(|content|, sizes, k) < at)
  }

  lemma StillUncut(content: Bytes, from: nat, maxLines: nat, sizes: seq<nat>, at: nat, k: nat, next: nat)
    requires from <= |content| && maxLines > 0 && Uncut(content, from, maxLines, sizes, at)
    requires at <= from + LineStart(content[from..], maxLines)
    requires Cut(|content|, sizes, k) <= at <= next <= Cut(|content|, sizes, k + 1)
    ensures Uncut(content, from, maxLines, sizes, next)
  {
    NextCut(|content|, sizes, k);
  }

  lemma BeginsUncut(content: Bytes, from: nat, maxLines: nat, sizes: seq<nat>, at: nat)
    requires from <= |content| && maxLines > 0 && at <= from
    ensures Uncut(content, from, maxLines, sizes, at)
  {
  }

  /** Fewer lines begun than permitted: the scan is not in the last permitted line yet. */
  lemma BeforeLastLine(content: Bytes, from: nat, at: nat, r: nat, open: bool, maxLines: nat)
    requires from <= |content| && Scanned(content, from, at, r, open) && r < maxLines
    ensures at <= from + LineStart(content[from..], maxLines)
  {
    LineStartsGrow(content[from..], r + 1, maxLines);
  }

  /** The slice from `from` on that a reader within the two budgets may return. */
  ghost predicate Budgeted(content: Bytes, from: nat, maxLines: nat, maxBytes: nat, sizes: seq<nat>, slice: Slice)
    requires from <= |content| && maxLines > 0
  {
    var lines := content[from..];
    var end := from + |slice.text|;
    var last, ideal := from + LineStart(lines, maxLines), from + Min(maxBytes, LineStart(lines, maxLines + 1));
    // a contiguous slice within both budgets
    && end <= |content| && slice.text == content[from..end]
    && |slice.text| <= maxBytes && slice.linesReturned == LinesTouched(slice.text) <= maxLines
    // cut short only by a budget
    && (slice.truncated <==> end < |content|)
    && (slice.truncated ==> |slice.text| == maxBytes || slice.linesReturned == maxLines)
    // which ends where a budget does, or at the first read boundary inside the last permitted line
    && end <= ideal && Uncut(content, from, maxLines, sizes, end)
    && (end < ideal ==> last < end && exists k: nat :: Cut(|content|, sizes, k) == end)
  }

  lemma Concludes(content: Bytes, from: nat, maxLines: nat, maxBytes: nat, sizes: seq<nat>,
                  end: nat, r: nat, open: bool, truncated: bool)
    requires from <= |content| && 0 < maxLines && r <= maxLines && Scanned(content, from, end, r, open)
    requires end - from <= maxBytes && Uncut(content, from, maxLines, sizes, end)
    requires truncated <==> end < |content|
    requires end == |content| || end - from == maxBytes
             || (r == maxLines && (open ==> exists k: nat :: Cut(|content|, sizes, k) == end))
    ensures Budgeted(content, from, maxLines, maxBytes, sizes, Slice(r, content[from..end], truncated))
  {
    hide LineStart, LinesTouched, Cut;
    var lines := content[from..];
    assert content[from..end] == lines[..end - from];
    TouchedAt(lines, end - from, r);
    LineStartsGrow(lines, r + 1, maxLines + 1);
    if r > 0 { LineStartsGrow(lines, r, maxLines); }
  }

  // ------------------------------------------------------------------ the reader

  /** Scans one piece of the file; `more` bytes follow it or none do. */
  method ScanChunk(chunk: Bytes, ghost content: Bytes, ghost from: nat, ghost base: nat, ghost k: nat,
                   ghost sizes: seq<nat>, startLine: nat, maxLines: nat, maxBytes: nat, more: bool, text0: Bytes,
                   used0: int, returned0: int, lineNo0: int, open0: bool)
    returns (text: Bytes, used: int, returned: int, lineNo: int, inSelectedLine: bool, truncated: bool)
    requires base + |chunk| <= |content| && chunk == content[base..base + |chunk|]
    requires (more <==> base + |chunk| < |content|)
    requires base == Cut(|content|, sizes, k) && base + |chunk| == Cut(|content|, sizes, k + 1)
    requires Standing(content, from, base, startLine, lineNo0, maxLines, maxBytes, sizes, text0, used0, returned0,
                      open0)
    ensures maxLines > 0 && from <= |content| && returned >= 0
    ensures truncated ==> Budgeted(content, from, maxLines, maxBytes, sizes, Slice(returned, text, true))
    ensures !truncated ==>
              Standing(content, from, base + |chunk|, startLine, lineNo, maxLines, maxBytes, sizes, text, used,
                       returned, inSelectedLine)
  {
    hide *;
    text, used, returned, lineNo, inSelectedLine, truncated := text0, used0, returned0, lineNo0, open0, false;
    StandingParts(content, from, base, startLine, lineNo, maxLines, maxBytes, sizes, text, used, returned,
                  inSelectedLine);
    var pos, stop := 0, false;
    while pos < |chunk| && !stop
      invariant 0 <= pos <= |chunk|
      invariant maxLines > 0 && from <= |content| && returned >= 0
      invariant truncated ==> stop && Budgeted(content, from, maxLines, maxBytes, sizes, Slice(returned, text, true))
      invariant !truncated ==>
                  Standing(content, from, base + pos, startLine, lineNo, maxLines, maxBytes, sizes, text, used,
                           returned, inSelectedLine)
      invariant inSelectedLine && !truncated ==> pos == 0 || pos == |chunk|
      invariant stop && !truncated ==> pos == |chunk|
      decreases |chunk| - pos, !stop
    {
      ghost var at, to := base + pos, base + |chunk|;
      PieceFound(content, base, to, pos);
      StandingParts(content, from, at, startLine, lineNo, maxLines, maxBytes, sizes, text, used, returned,
                    inSelectedLine);
      var newline := LineEnd(chunk[pos..]);
      if lineNo < startLine {
        SkipOn(content, from, at, to, startLine, lineNo, maxLines, maxBytes, sizes, text, used, returned,
               inSelectedLine);
        if pos + newline == |chunk| {
          pos := |chunk|;
        } else {
          lineNo := lineNo + 1;
          pos := pos + newline + 1;
        }
      } else if returned >= maxLines || used >= maxBytes {
        truncated, stop := true, true;
        StopHere(content, from, at, startLine, lineNo, maxLines, maxBytes, sizes, text, used, returned, inSelectedLine,
                 k);
      } else {
        text, used, returned, lineNo, inSelectedLine, truncated, pos :=
          Take(chunk, content, from, base, k, sizes, startLine, maxLines, maxBytes, more, text, used, returned, lineNo,
               inSelectedLine,
               pos, newline);
        stop := truncated || (!inSelectedLine && returned >= maxLines);
      }
    }
  }

  /** Takes the rest of a line, or as much of it as the piece or the byte budget allows. */
  method Take(chunk: Bytes, ghost content: Bytes, ghost from: nat, ghost base: nat, ghost k: nat, ghost sizes: seq<nat>,
              startLine: nat, maxLines: nat, maxBytes: nat, more: bool, text0: Bytes, used0: int, returned0: int,
              lineNo0: int, open0: bool, pos0: nat, newline: nat)
    returns (text: Bytes, used: int, returned: int, lineNo: int, inSelectedLine: bool, truncated: bool, pos: nat)
    requires base + |chunk| <= |content| && chunk == content[base..base + |chunk|]
    requires (more <==> base + |chunk| < |content|)
    requires base == Cut(|content|, sizes, k) && base + |chunk| == Cut(|content|, sizes, k + 1)
    requires pos0 < |chunk| && newline == LineEnd(chunk[pos0..])
    requires Standing(content, from, base + pos0, startLine, lineNo0, maxLines, maxBytes, sizes, text0, used0,
                      returned0, open0)
    requires lineNo0 >= startLine && 0 <= returned0 < maxLines && used0 < maxBytes && from <= |content|
    ensures pos0 <= pos <= |chunk| && returned >= 0
    ensures truncated ==> Budgeted(content, from, maxLines, maxBytes, sizes, Slice(returned, text, true))
    ensures !truncated ==>
              && pos0 < pos && (inSelectedLine || returned >= maxLines ==> pos == |chunk|)
              && Standing(content, from, base + pos, startLine, lineNo, maxLines, maxBytes, sizes, text, used, returned,
                          inSelectedLine)
  {
    hide *;
    text, used, returned, lineNo, inSelectedLine, truncated, pos :=
      text0, used0, returned0, lineNo0, open0, false, pos0;
    ghost var at, to := base + pos0, base + |chunk|;
    StandingParts(content, from, at, startLine, lineNo, maxLines, maxBytes, sizes, text, used, returned,
                  inSelectedLine);
    PieceFound(content, base, to, pos0);
    if !inSelectedLine {
      returned, inSelectedLine := returned + 1, true;
    }
    var end := if pos0 + newline == |chunk| then |chunk| else pos0 + newline + 1;
    var segment := chunk[pos0..end];
    SubPiece(content, base, to, pos0, end);
    var remaining := maxBytes - used;
    var complete := pos0 + newline < |chunk|;
    if |segment| > remaining {
      TakePart(content, from, at, startLine, lineNo, maxLines, maxBytes, sizes, text, returned0, open0, k, base + end,
               complete);
      SubPiece(content, at, base + end, 0, remaining);
      text := text + segment[..remaining];
      used := used + remaining;
      truncated := true;
      return;
    }
    TakeWhole(content, from, at, startLine, lineNo, maxLines, maxBytes, sizes, text, returned0, open0, k, base + end,
              complete);
    text := text + segment;
    used := used + |segment|;
    pos := end;
    if complete {
      lineNo := lineNo + 1;
      inSelectedLine := false;
      if returned >= maxLines {
        truncated := pos < |chunk| || more;
      }
    }
  }

  /** How many bytes the `k`-th read returns. */
  function NextSize(size: nat, sizes: seq<nat>, k: nat): (n: nat)
    ensures Cut(size, sizes, k) + n == Cut(size, sizes, k + 1)
    ensures n == 0 <==> Cut(size, sizes, k) == size
  {
    Min(ReadSize(sizes, k), size - Cut(size, sizes, k))
  }

  /** Reads and scans piece by piece until a budget is used up or the file ends. */
  method ScanFile(content: Bytes, startLine: nat, maxLines: nat, maxBytes: nat, sizes: seq<nat>) returns (slice: Slice)
    requires startLine > 0 && maxLines > 0
    ensures Budgeted(content, LineStart(content, startLine), maxLines, maxBytes, sizes, slice)
  {
    hide *;
    ghost var from := LineStart(content, startLine);
    var text: Bytes := [];
    var used, returned, lineNo := 0, 0, 1;
    var inSelectedLine, truncated, finished := false, false, false;
    var k, base := 0, 0;
    CutStep(|content|, sizes, 0);
    StandsAtStart(content, startLine, maxLines, maxBytes, sizes);
    while !finished && !truncated
      invariant base == Cut(|content|, sizes, k) && returned >= 0 && from <= |content|
      invariant truncated ==> Budgeted(content, from, maxLines, maxBytes, sizes, Slice(returned, text, true))
      invariant !truncated ==>
                  Standing(content, from, base, startLine, lineNo, maxLines, maxBytes, sizes, text, used, returned,
                           inSelectedLine)
      invariant finished && !truncated ==> base == |content|
      decreases |content| - base, !finished, !truncated
    {
      var size := NextSize(|content|, sizes, k);
      var chunk := content[base..base + size];
      finished := chunk == [];
      text, used, returned, lineNo, inSelectedLine, truncated :=
        ScanChunk(chunk, content, from, base, k, sizes, startLine, maxLines, maxBytes, base + |chunk| < |content|,
                  text, used, returned, lineNo, inSelectedLine);
      base, k := base + |chunk|, k + 1;
    }
    if !truncated {
      WholeRead(content, from, startLine, lineNo, maxLines, maxBytes, sizes, text, used, returned, inSelectedLine);
    }
    slice := Slice(returned, text, truncated);
  }

  method ReadTextFile(content: Bytes, startLine: int, maxLines: int, maxBytes: int, sizes: seq<nat>)
    returns (r: Result<Slice, ReadError>)
    ensures r.Err? <==> startLine < 1 || !(1 <= maxLines <= 5000) || !(256 <= maxBytes <= 131072)
    ensures r.Ok? ==> Budgeted(content, LineStart(content, startLine), maxLines, maxBytes, sizes, r.value)
  {
    if startLine < 1 {
      return Err(BadStartLine);
    }
    if maxLines < 1 || maxLines > 5000 {
      return Err(BadMaxLines);
    }
    if maxBytes < 256 || maxBytes > 131072 {
      return Err(BadMaxBytes);
    }
    var slice := ScanFile(content, startLine, maxLines, maxBytes, sizes);
    return Ok(slice);
  }

  /** The reader's variables at position `at`. */
  ghost predicate Standing(content: Bytes, from: nat, at: nat, startLine: nat, lineNo: int, maxLines: nat,
                           maxBytes: nat, sizes: seq<nat>, text: Bytes, used: int, returned: int, open: bool)
  {
    && maxLines > 0 && from <= |content| && at <= |content| && lineNo >= 1 && used == |text| <= maxBytes
    && 0 <= returned <= maxLines
    && Uncut(content, from, maxLines, sizes, at)
    && (lineNo >= startLine ==> from <= at)
    && (if lineNo < startLine then
          text == [] && returned == 0 && !open && Skipping(content, from, at, startLine - lineNo)
        else
          && Scanned(content, from, at, returned, open) && text == content[from..at]
          && (returned == maxLines && !open ==> at == |content|))
  }

  lemma StandsAtStart(content: Bytes, startLine: nat, maxLines: nat, maxBytes: nat, sizes: seq<nat>)
    requires startLine > 0 && maxLines > 0
    ensures Standing(content, LineStart(content, startLine), 0, startLine, 1, maxLines, maxBytes, sizes, [], 0, 0,
                     false)
  {
    assert content[0..] == content;
    StillSkipping(content, LineStart(content, startLine), 0, startLine - 1, maxLines, sizes);
    hide LineStart, Uncut;
  }

  lemma StandingParts(content: Bytes, from: nat, at: nat, startLine: nat, lineNo: int, maxLines: nat, maxBytes: nat,
                      sizes: seq<nat>, text: Bytes, used: int, returned: int, open: bool)
    requires Standing(content, from, at, startLine, lineNo, maxLines, maxBytes, sizes, text, used, returned, open)
    ensures maxLines > 0 && from <= |content| && used == |text| <= maxBytes && 0 <= returned <= maxLines && lineNo >= 1
  {
    hide LineStart, Uncut, Scanned, Skipping;
  }

  /** One step of the search for the start line. */
  lemma SkipOn(content: Bytes, from: nat, at: nat, to: nat, startLine: nat, lineNo: int, maxLines: nat, maxBytes: nat,
               sizes: seq<nat>, text: Bytes, used: int, returned: int, open: bool)
    requires Standing(content, from, at, startLine, lineNo, maxLines, maxBytes, sizes, text, used, returned, open)
    requires lineNo < startLine && at < to <= |content|
    ensures var e := LineEnd(content[at..to]);
            if at + e == to then Standing(content, from, to, startLine, lineNo, maxLines, maxBytes, sizes, text, used,
                                          returned, open)
            else Standing(content, from, at + e + 1, startLine, lineNo + 1, maxLines, maxBytes, sizes, text, used,
                          returned, open)
    ensures !open
  {
    hide LineStart, LineEnd, Uncut, Scanned, Skipping;
    var e := LineEnd(content[at..to]);
    if at + e == to {
      SkipPiece(content, from, at, to, startLine - lineNo);
      StillSkipping(content, from, to, startLine - lineNo, maxLines, sizes);
    } else {
      SkipLine(content, from, at, to, startLine - lineNo);
      StillSkipping(content, from, at + e + 1, startLine - lineNo - 1, maxLines, sizes);
    }
  }

  /** A budget is used up at the start of a read or of a line. */
  lemma StopHere(content: Bytes, from: nat, at: nat, startLine: nat, lineNo: int, maxLines: nat, maxBytes: nat,
                 sizes: seq<nat>, text: Bytes, used: int, returned: int, open: bool, k: nat)
    requires Standing(content, from, at, startLine, lineNo, maxLines, maxBytes, sizes, text, used, returned, open)
    requires lineNo >= startLine && at < |content| && (returned >= maxLines || used >= maxBytes)
    requires open ==> Cut(|content|, sizes, k) == at
    ensures returned >= 0 && from <= |content|
    ensures Budgeted(content, from, maxLines, maxBytes, sizes, Slice(returned, text, true))
  {
    hide LineStart, LineEnd, Uncut, Scanned, Skipping, Budgeted, Cut;
    Concludes(content, from, maxLines, maxBytes, sizes, at, returned, open, true);
  }

  lemma StillSkipping(content: Bytes, from: nat, at: nat, ahead: nat, maxLines: nat, sizes: seq<nat>)
    requires from <= |content| && maxLines > 0 && Skipping(content, from, at, ahead)
    ensures Uncut(content, from, maxLines, sizes, at)
    ensures ahead == 0 ==> from == at && Scanned(content, from, at, 0, false)
  {
    if ahead == 0 { SkippingEnds(content, from, at, ahead); }
    BeginsUncut(content, from, maxLines, sizes, at);
  }

  lemma CutStep(size: nat, sizes: seq<nat>, k: nat)
    ensures Cut(size, sizes, 0) == 0
    ensures Cut(size, sizes, k + 1) == Min(size, Cut(size, sizes, k) + ReadSize(sizes, k))
  {
  }

  /** The budget ends inside the segment from `at` to `next`. */
  lemma TakePart(content: Bytes, from: nat, at: nat, startLine: nat, lineNo: int, maxLines: nat, maxBytes: nat,
                 sizes: seq<nat>, text: Bytes, returned: nat, open: bool, k: nat, next: nat, complete: bool)
    requires Standing(content, from, at, startLine, lineNo, maxLines, maxBytes, sizes, text, |text|, returned, open)
    requires lineNo >= startLine && returned < maxLines && |text| < maxBytes && Segment(content, at, next, complete)
    requires Cut(|content|, sizes, k) <= at && next <= Cut(|content|, sizes, k + 1) && next - at > maxBytes - |text|
    ensures at + maxBytes - |text| <= |content|
    ensures Budgeted(content, from, maxLines, maxBytes, sizes,
                     Slice(if open then returned else returned + 1, text + content[at..at + maxBytes - |text|], true))
  {
    hide LineStart, LineEnd, Cut, Scanned, Segment, Uncut, Budgeted;
    var end := at + maxBytes - |text|;
    InRange(content, at, next, complete);
    BeforeLastLine(content, from, at, returned, open, maxLines);
    ShorterSegment(content, at, next, complete, end);
    TakeSegment(content, from, at, returned, open, end, false);
    StillUncut(content, from, maxLines, sizes, at, k, end);
    assert text + content[at..end] == content[from..end];
    Concludes(content, from, maxLines, maxBytes, sizes, end, if open then returned else returned + 1, true, true);
  }

  /** The whole segment from `at` to `next` is taken. */
  lemma TakeWhole(content: Bytes, from: nat, at: nat, startLine: nat, lineNo: int, maxLines: nat, maxBytes: nat,
                  sizes: seq<nat>, text: Bytes, returned: nat, open: bool, k: nat, next: nat, complete: bool)
    requires Standing(content, from, at, startLine, lineNo, maxLines, maxBytes, sizes, text, |text|, returned, open)
    requires lineNo >= startLine && returned < maxLines && |text| < maxBytes && Segment(content, at, next, complete)
    requires Cut(|content|, sizes, k) <= at && next <= Cut(|content|, sizes, k + 1)
    ensures at <= next <= |content|
    ensures next - at <= maxBytes - |text| ==>
              var r := if open then returned else returned + 1;
              var more := text + content[at..next];
              if complete && r == maxLines && next < |content| then
                Budgeted(content, from, maxLines, maxBytes, sizes, Slice(r, more, true))
              else
                Standing(content, from, next, startLine, if complete then lineNo + 1 else lineNo,
                         maxLines, maxBytes, sizes, more, |more|, r, !complete)
  {
    hide LineStart, LineEnd, Cut, Scanned, Segment, Uncut, Budgeted;
    InRange(content, at, next, complete);
    if next - at <= maxBytes - |text| {
      var r := if open then returned else returned + 1;
      BeforeLastLine(content, from, at, returned, open, maxLines);
      TakeSegment(content, from, at, returned, open, next, complete);
      StillUncut(content, from, maxLines, sizes, at, k, next);
      assert text + content[at..next] == content[from..next];
      if complete && r == maxLines && next < |content| {
        Concludes(content, from, maxLines, maxBytes, sizes, next, r, false, true);
      }
    }
  }

  lemma InRange(content: Bytes, at: nat, next: nat, complete: bool)
    requires Segment(content, at, next, complete)
    ensures at < next <= |content|
  {
  }

  /** The next line feed of the piece is the next line feed of the file. */
  lemma PieceFound(content: Bytes, base: nat, to: nat, pos: nat)
    requires base + pos < to <= |content|
    ensures content[base..to][pos..] == content[base + pos..to]
    ensures var e := LineEnd(content[base + pos..to]);
            Segment(content, base + pos, if base + pos + e == to then to else base + pos + e + 1, base + pos + e < to)
  {
    SubPiece(content, base, to, pos, to - base);
    SegmentFound(content, base + pos, to);
  }

  lemma SubPiece(content: Bytes, from: nat, to: nat, i: nat, j: nat)
    requires from <= to <= |content| && i <= j <= to - from
    ensures content[from..to][i..j] == content[from + i..from + j]
    ensures i == 0 ==> content[from..to][..j] == content[from..from + j]
    ensures j == to - from ==> content[from..to][i..] == content[from + i..to]
  {
    var piece := content[from..to];
    assert forall k :: 0 <= k < |piece| ==> piece[k] == content[from + k];
    assert forall k :: 0 <= k < j - i ==> piece[i..j][k] == content[from + i..from + j][k];
  }

  /** The file was read to its end. */
  lemma WholeRead(content: Bytes, from: nat, startLine: nat, lineNo: int, maxLines: nat, maxBytes: nat, sizes: seq<nat>,
                  text: Bytes, used: int, returned: nat, open: bool)
    requires Standing(content, from, |content|, startLine, lineNo, maxLines, maxBytes, sizes, text, used, returned,
                      open)
    ensures Budgeted(content, from, maxLines, maxBytes, sizes, Slice(returned, text, false))
  {
    hide LineStart, LineEnd, Cut, Scanned, Skipping, Uncut, Budgeted;
    if lineNo < startLine {
      SkippingEnds(content, from, |content|, startLine - lineNo);
      assert content[from..|content|] == text;
    }
    Concludes(content, from, maxLines, maxBytes, sizes, |content|, returned, open, false);
  }
}
