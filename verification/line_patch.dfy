/** Line patches: a text is split into lines, edits are checked in order and spliced in
    from the last to the first, and the lines are joined again. */
module LinePatch {
  import opened Octets

  /** Edits count lines from 1. */
  datatype LineEdit = LineEdit(startLine: nat, deleteLines: nat, replacement: string)

  datatype PatchError =
    | BadDigest | BadCount | Changed
    | BeyondEnd(startLine: nat) | DeletesBeyondEnd(startLine: nat) | Overlap | ResultTooLarge

  // ------------------------------------------------------------------------- lines

  /** The characters that end a line. */
  predicate EndsLine(c: char) {
    c in {'\n', '\r', '\U{0B}', '\U{0C}', '\U{1C}', '\U{1D}', '\U{1E}', '\U{85}', '\U{2028}', '\U{2029}'}
  }

  /** The length of the first line of `s`, its line break included; CR LF is one break. */
  function FirstLine(s: string): (n: nat)
    ensures n <= |s| && (s != [] ==> n > 0)
  {
    if s == [] then 0
    else if s[0] == '\r' && |s| > 1 && s[1] == '\n' then 2
    else if EndsLine(s[0]) then 1
    else 1 + FirstLine(s[1..])
  }

  function SplitLines(s: string): seq<string>
    decreases |s|
  {
    if s == [] then [] else [s[..FirstLine(s)]] + SplitLines(s[FirstLine(s)..])
  }

  /** A line holds at most one break, at its very end. */
  predicate IsLine(s: string) {
    && s != []
    && forall i :: 0 <= i < |s| - 1 ==> (EndsLine(s[i]) ==> i == |s| - 2 && s[i] == '\r' && s[i + 1] == '\n')
  }

  predicate Terminated(s: string) {
    s != [] && EndsLine(s[|s| - 1])
  }

  lemma {:induction false} FirstLineIs(s: string)
    requires s != []
    ensures IsLine(s[..FirstLine(s)])
    ensures FirstLine(s) < |s| ==> Terminated(s[..FirstLine(s)])
    ensures FirstLine(s) < |s| && s[FirstLine(s) - 1] == '\r' ==> s[FirstLine(s)] != '\n'
  {
    if !EndsLine(s[0]) && |s| > 1 {
      FirstLineIs(s[1..]);
      var n := FirstLine(s[1..]);
      var line, rest := s[..n + 1], s[1..][..n];
      assert line == [s[0]] + rest;
      forall i | 0 <= i < |line| - 1 && EndsLine(line[i])
        ensures i == |line| - 2 && line[i] == '\r' && line[i + 1] == '\n'
      {
        assert line[i] == rest[i - 1] && line[i + 1] == rest[i];
      }
    }
  }

  /** Splitting loses nothing, and cuts behind every line break and nowhere else. */
  lemma {:induction false} SplitJoins(s: string)
    ensures Flatten(SplitLines(s)) == s
    ensures forall i :: 0 <= i < |SplitLines(s)| ==> IsLine(SplitLines(s)[i])
    ensures forall i :: 0 <= i < |SplitLines(s)| - 1 ==> Terminated(SplitLines(s)[i])
    decreases |s|
  {
    hide *;
    SplitUnfold(s);
    FlattenNil<char>();
    if s != [] {
      var n := FirstLine(s);
      var first, rest := s[..n], s[n..];
      FirstLineIs(s);
      SplitJoins(rest);
      FlattenAppend([first], SplitLines(rest));
      FlattenOne(first);
      assert s == first + rest;
      SplitUnfold(rest);
      assert n == |s| ==> rest == [];
    }
  }

  lemma SplitUnfold(s: string)
    ensures SplitLines(s) == if s == [] then [] else [s[..FirstLine(s)]] + SplitLines(s[FirstLine(s)..])
    ensures s != [] ==> SplitLines(s) != []
  {
  }

  lemma FlattenOne<T>(x: seq<T>)
    ensures Flatten([x]) == x
  {
    FlattenSnoc([], x);
    assert [] + [x] == [x] && [] + x == x;
  }

  /** A line ends between the characters in front of and behind position `p`: after LF, VT, FF,
      CR, FS, GS, RS, NEL, LS or PS, but not inside CR LF. */
  predicate BreaksAt(s: string, p: nat)
    requires 0 < p < |s|
  {
    && s[p - 1] as int in {10, 11, 12, 13, 28, 29, 30, 133, 8232, 8233}
    && !(s[p - 1] as int == 13 && s[p] as int == 10)
  }

  lemma LineBreaks(c: char)
    ensures EndsLine(c) <==> c as int in {10, 11, 12, 13, 28, 29, 30, 133, 8232, 8233}
    ensures c == '\r' <==> c as int == 13
    ensures c == '\n' <==> c as int == 10
  {
  }

  /** One of `lines` ends at character `p` and another follows. */
  ghost predicate CutAt(lines: seq<string>, p: nat) {
    exists k :: 0 < k < |lines| && |Flatten(lines[..k])| == p
  }

  lemma TextBefore(first: string, more: seq<string>, k: nat)
    requires k <= |more|
    ensures |Flatten(([first] + more)[..k + 1])| == |first| + |Flatten(more[..k])|
  {
    hide Flatten;
    assert ([first] + more)[..k + 1] == [first] + more[..k];
    FlattenAppend([first], more[..k]);
    FlattenOne(first);
  }

  lemma CutCons(first: string, more: seq<string>, p: nat)
    ensures p > |first| ==> (CutAt([first] + more, p) <==> CutAt(more, p - |first|))
    ensures p == |first| && more != [] ==> CutAt([first] + more, p)
    ensures p < |first| || more == [] ==> !CutAt([first] + more, p)
  {
    hide Flatten;
    var lines := [first] + more;
    TextBefore(first, more, 0);
    FlattenNil<char>();
    assert more[..0] == [];
    if k :| 0 < k < |lines| && |Flatten(lines[..k])| == p {
      TextBefore(first, more, k - 1);
      assert p > |first| ==> 0 < k - 1 < |more| && |Flatten(more[..k - 1])| == p - |first|;
    }
    if p > |first| && CutAt(more, p - |first|) {
      var k :| 0 < k < |more| && |Flatten(more[..k])| == p - |first|;
      TextBefore(first, more, k);
      assert |Flatten(lines[..k + 1])| == p;
    }
  }

  /** Inside a line there is no break, behind it there is. */
  lemma BreaksBehindLine(s: string, p: nat)
    requires 0 < p < |s|
    ensures p < FirstLine(s) ==> !BreaksAt(s, p)
    ensures p == FirstLine(s) ==> BreaksAt(s, p)
  {
    var line := s[..FirstLine(s)];
    FirstLineIs(s);
    LineBreaks(s[p - 1]);
    LineBreaks(s[p]);
    assert forall i :: 0 <= i < |line| ==> line[i] == s[i];
    hide EndsLine, FirstLine;
  }

  /** Splitting cuts exactly there. */
  lemma {:induction false} CutsAtBreaks(s: string, p: nat)
    requires 0 < p < |s|
    ensures BreaksAt(s, p) <==> CutAt(SplitLines(s), p)
    decreases |s|
  {
    hide SplitLines, CutAt, Flatten, EndsLine, FirstLine;
    var n := FirstLine(s);
    SplitUnfold(s);
    SplitUnfold(s[n..]);
    CutCons(s[..n], SplitLines(s[n..]), p);
    BreaksBehindLine(s, p);
    if p > n {
      CutsAtBreaks(s[n..], p - n);
      assert s[n..][p - n - 1] == s[p - 1] && s[n..][p - n] == s[p];
    }
  }

  // -------------------------------------------------------------------------- order

  /** Inserts behind every edit that starts no later. */
  function InsertEdit(e: LineEdit, sorted: seq<LineEdit>): seq<LineEdit> {
    if sorted == [] || e.startLine < sorted[0].startLine then [e] + sorted
    else [sorted[0]] + InsertEdit(e, sorted[1..])
  }

  function SortEdits(edits: seq<LineEdit>): seq<LineEdit> {
    if edits == [] then [] else InsertEdit(edits[|edits| - 1], SortEdits(edits[..|edits| - 1]))
  }

  predicate InOrder(edits: seq<LineEdit>) {
    forall i, j :: 0 <= i < j < |edits| ==> edits[i].startLine <= edits[j].startLine
  }

  /** The edits at line `n`, in the order they stand in. */
  function AtLine(edits: seq<LineEdit>, n: nat): seq<LineEdit> {
    if edits == [] then [] else (if edits[0].startLine == n then [edits[0]] else []) + AtLine(edits[1..], n)
  }

  lemma {:induction false} AtLineSnoc(edits: seq<LineEdit>, e: LineEdit, n: nat)
    ensures AtLine(edits + [e], n) == AtLine(edits, n) + if e.startLine == n then [e] else []
  {
    hide AtLine;
    NoEdits(n);
    if edits == [] {
      AtLineCons(e, [], n);
      assert [] + [e] == [e] == [e] + [];
    } else {
      var first, rest := edits[0], edits[1..];
      assert edits == [first] + rest && edits + [e] == [first] + (rest + [e]);
      AtLineSnoc(rest, e, n);
      AtLineCons(first, rest + [e], n);
      AtLineCons(first, rest, n);
    }
  }

  lemma NoEdits(n: nat)
    ensures AtLine([], n) == []
  {
  }

  lemma {:induction false} InsertPermutes(e: LineEdit, sorted: seq<LineEdit>)
    ensures multiset(InsertEdit(e, sorted)) == multiset(sorted) + multiset{e} && |InsertEdit(e, sorted)| == |sorted| + 1
    ensures forall x :: x in InsertEdit(e, sorted) ==> x == e || x in sorted
  {
    if sorted != [] && e.startLine >= sorted[0].startLine {
      InsertPermutes(e, sorted[1..]);
      assert sorted == [sorted[0]] + sorted[1..];
    }
  }

  lemma {:induction false} InsertOrders(e: LineEdit, sorted: seq<LineEdit>)
    requires InOrder(sorted)
    ensures InOrder(InsertEdit(e, sorted))
  {
    if sorted != [] && e.startLine >= sorted[0].startLine {
      var rest := sorted[1..];
      assert forall i :: 0 <= i < |rest| ==> rest[i] == sorted[i + 1];
      InsertOrders(e, rest);
      InsertPermutes(e, rest);
      var more := InsertEdit(e, rest);
      forall j | 0 <= j < |more| ensures sorted[0].startLine <= more[j].startLine { assert more[j] in more; }
    }
  }

  lemma {:induction false} InsertKeeps(e: LineEdit, sorted: seq<LineEdit>, n: nat)
    requires InOrder(sorted)
    ensures AtLine(InsertEdit(e, sorted), n) == AtLine(sorted, n) + if e.startLine == n then [e] else []
  {
    hide AtLine;
    if sorted == [] || e.startLine < sorted[0].startLine {
      AtLineCons(e, sorted, n);
      if e.startLine == n { NoneBefore(sorted, n); }
    } else {
      var rest := sorted[1..];
      assert forall i :: 0 <= i < |rest| ==> rest[i] == sorted[i + 1];
      assert sorted == [sorted[0]] + rest;
      InsertKeeps(e, rest, n);
      AtLineCons(sorted[0], rest, n);
      AtLineCons(sorted[0], InsertEdit(e, rest), n);
    }
  }

  lemma AtLineCons(e: LineEdit, rest: seq<LineEdit>, n: nat)
    ensures AtLine([e] + rest, n) == (if e.startLine == n then [e] else []) + AtLine(rest, n)
  {
    assert ([e] + rest)[1..] == rest;
  }

  lemma {:induction false} NoneBefore(edits: seq<LineEdit>, n: nat)
    requires InOrder(edits) && (edits != [] ==> n < edits[0].startLine)
    ensures AtLine(edits, n) == []
  {
    if |edits| > 1 { NoneBefore(edits[1..], n); }
  }

  /** The sort is stable: a permutation, in order, edits of one line in their given order. */
  lemma {:induction false} SortIsStable(edits: seq<LineEdit>, n: nat)
    ensures InOrder(SortEdits(edits)) && multiset(SortEdits(edits)) == multiset(edits) && |SortEdits(edits)| == |edits|
    ensures AtLine(SortEdits(edits), n) == AtLine(edits, n)
  {
    if edits != [] {
      var most, last := edits[..|edits| - 1], edits[|edits| - 1];
      assert edits == most + [last];
      SortIsStable(most, n);
      InsertPermutes(last, SortEdits(most));
      InsertOrders(last, SortEdits(most));
      InsertKeeps(last, SortEdits(most), n);
      AtLineSnoc(most, last, n);
    }
  }

  // --------------------------------------------------------------------- acceptance

  function StartOf(e: LineEdit): int {
    e.startLine - 1
  }

  function EndOf(e: LineEdit): int {
    e.startLine - 1 + e.deleteLines
  }

  /** What is wrong with the first bad edit, if any is. */
  function FirstFault(size: nat, edits: seq<LineEdit>, previousEnd: int): Option<PatchError>
    decreases |edits|
  {
    if edits == [] then None
    else if StartOf(edits[0]) > size then Some(BeyondEnd(edits[0].startLine))
    else if EndOf(edits[0]) > size then Some(DeletesBeyondEnd(edits[0].startLine))
    else if StartOf(edits[0]) < previousEnd then Some(Overlap)
    else FirstFault(size, edits[1..], EndOf(edits[0]))
  }

  /** The edits lie inside the text and apart from each other, in order. */
  predicate Apart(size: nat, edits: seq<LineEdit>, from: int) {
    && (forall i :: 0 <= i < |edits| ==> from <= StartOf(edits[i]) && EndOf(edits[i]) <= size)
    && (forall i, j :: 0 <= i < j < |edits| ==> EndOf(edits[i]) <= StartOf(edits[j]))
  }

  lemma {:induction false} FaultlessIsApart(size: nat, edits: seq<LineEdit>, from: int)
    ensures FirstFault(size, edits, from).None? <==> Apart(size, edits, from)
    decreases |edits|
  {
    if edits != [] {
      var rest := edits[1..];
      FaultlessIsApart(size, rest, EndOf(edits[0]));
      assert forall i :: 0 <= i < |rest| ==> rest[i] == edits[i + 1];
      if Apart(size, edits, from) {
        assert Apart(size, rest, EndOf(edits[0]));
      }
      if Apart(size, rest, EndOf(edits[0])) && from <= StartOf(edits[0]) && EndOf(edits[0]) <= size {
        forall i | 0 <= i < |edits| ensures from <= StartOf(edits[i]) && EndOf(edits[i]) <= size {
          assert i > 0 ==> edits[i] == rest[i - 1];
        }
        forall i, j | 0 <= i < j < |edits| ensures EndOf(edits[i]) <= StartOf(edits[j]) {
          assert edits[j] == rest[j - 1] && (i > 0 ==> edits[i] == rest[i - 1]);
        }
      }
    }
  }

  /** The fault told is that of the first edit which lies outside the text or before the end of
      its predecessor; the edits in front of it are all right. */
  lemma {:induction false} FaultIsFirst(size: nat, edits: seq<LineEdit>, from: int) returns (i: nat)
    requires FirstFault(size, edits, from).Some?
    ensures i < |edits| && Apart(size, edits[..i], from)
    ensures var start, end := edits[i].startLine - 1, edits[i].startLine - 1 + edits[i].deleteLines;
            var before := if i == 0 then from else edits[i - 1].startLine - 1 + edits[i - 1].deleteLines;
            FirstFault(size, edits, from).value ==
            if start > size then BeyondEnd(edits[i].startLine)
            else if end > size then DeletesBeyondEnd(edits[i].startLine)
            else Overlap
    ensures var start, end := edits[i].startLine - 1, edits[i].startLine - 1 + edits[i].deleteLines;
            start > size || end > size ||
            start < if i == 0 then from else edits[i - 1].startLine - 1 + edits[i - 1].deleteLines
    decreases |edits|
  {
    var rest := edits[1..];
    if StartOf(edits[0]) > size || EndOf(edits[0]) > size || StartOf(edits[0]) < from {
      i := 0;
      assert edits[..0] == [];
    } else {
      var k := FaultIsFirst(size, rest, EndOf(edits[0]));
      i := k + 1;
      FaultlessIsApart(size, rest[..k], EndOf(edits[0]));
      FaultlessIsApart(size, edits[..i], from);
      assert edits[..i][1..] == rest[..k];
    }
  }

  // -------------------------------------------------------------------- forward merge

  /** One pass from left to right: untouched runs of lines and replacements in turn. */
  function Merge(lines: seq<string>, edits: seq<LineEdit>, from: nat): seq<string>
    requires from <= |lines| && Apart(|lines|, edits, from)
    decreases |edits|
  {
    if edits == [] then lines[from..]
    else
      assert forall i :: 0 <= i < |edits[1..]| ==> edits[1..][i] == edits[i + 1];
      lines[from..StartOf(edits[0])] + SplitLines(edits[0].replacement) + Merge(lines, edits[1..], EndOf(edits[0]))
  }

  /** Lines in front of the first edit are passed through. */
  lemma MergeFrom(lines: seq<string>, edits: seq<LineEdit>, from: nat, later: nat)
    requires from <= later <= |lines| && Apart(|lines|, edits, later)
    ensures Apart(|lines|, edits, from)
    ensures Merge(lines, edits, from) == lines[from..later] + Merge(lines, edits, later)
  {
    hide *;
    ApartFrom(lines, edits, from, later);
    MergeUnfold(lines, edits, from);
    MergeUnfold(lines, edits, later);
    SlicesMeet(lines, from, later, if edits == [] then |lines| else StartOf(edits[0]));
    if edits != [] {
      Regroup(lines[from..later], lines[later..StartOf(edits[0])], SplitLines(edits[0].replacement),
              Merge(lines, edits[1..], EndOf(edits[0])));
    }
  }

  lemma ApartFrom(lines: seq<string>, edits: seq<LineEdit>, from: nat, later: nat)
    requires from <= later && Apart(|lines|, edits, later)
    ensures Apart(|lines|, edits, from)
    ensures edits != [] ==> later <= StartOf(edits[0]) <= |lines|
  {
  }

  lemma Regroup<T>(a: seq<T>, b: seq<T>, c: seq<T>, d: seq<T>)
    ensures ((a + b) + c) + d == a + ((b + c) + d)
  {
  }

  lemma SlicesMeet<T>(s: seq<T>, a: nat, b: nat, c: nat)
    requires a <= b <= c <= |s|
    ensures s[a..b] + s[b..c] == s[a..c]
    ensures c == |s| ==> s[b..c] == s[b..] && s[a..c] == s[a..]
  {
  }

  /** The text of the result: what stands in front of an edit, its replacement, and so on behind
      the lines it deletes. */
  function Woven(lines: seq<string>, edits: seq<LineEdit>, from: nat): string
    requires from <= |lines| && Apart(|lines|, edits, from)
    decreases |edits|
  {
    if edits == [] then Flatten(lines[from..])
    else
      var e := edits[0];
      assert forall i :: 0 <= i < |edits| - 1 ==> edits[1..][i] == edits[i + 1];
      Flatten(lines[from..e.startLine - 1]) + e.replacement + Woven(lines, edits[1..], e.startLine - 1 + e.deleteLines)
  }

  lemma WovenUnfold(lines: seq<string>, edits: seq<LineEdit>, from: nat)
    requires from <= |lines| && Apart(|lines|, edits, from) && edits != []
    ensures 0 <= from <= StartOf(edits[0]) <= EndOf(edits[0]) <= |lines| && Apart(|lines|, edits[1..], EndOf(edits[0]))
    ensures Woven(lines, edits, from) ==
            Flatten(lines[from..StartOf(edits[0])]) + edits[0].replacement +
              Woven(lines, edits[1..], EndOf(edits[0]))
  {
    hide Flatten;
    assert forall i :: 0 <= i < |edits| - 1 ==> edits[1..][i] == edits[i + 1];
  }

  lemma {:induction false} MergeIsWoven(lines: seq<string>, edits: seq<LineEdit>, from: nat)
    requires from <= |lines| && Apart(|lines|, edits, from)
    ensures Flatten(Merge(lines, edits, from)) == Woven(lines, edits, from)
    decreases |edits|
  {
    hide *;
    MergeUnfold(lines, edits, from);
    if edits == [] {
      NothingWoven(lines, from);
    } else {
      WovenUnfold(lines, edits, from);
      MergeIsWoven(lines, edits[1..], EndOf(edits[0]));
      InsertedFirst(lines[from..StartOf(edits[0])], edits[0].replacement, Merge(lines, edits[1..], EndOf(edits[0])));
      Reassociate(Flatten(lines[from..StartOf(edits[0])]), edits[0].replacement,
                  Woven(lines, edits[1..], EndOf(edits[0])));
    }
  }

  lemma NothingWoven(lines: seq<string>, from: nat)
    requires from <= |lines|
    ensures Apart(|lines|, [], from) && Woven(lines, [], from) == Flatten(lines[from..])
  {
    hide Flatten;
  }

  /** How far the lines behind the edits have moved. */
  function Shift(edits: seq<LineEdit>): int {
    if edits == [] then 0 else |SplitLines(edits[0].replacement)| - edits[0].deleteLines + Shift(edits[1..])
  }

  predicate Untouched(edits: seq<LineEdit>, k: int) {
    forall i :: 0 <= i < |edits| ==> k < StartOf(edits[i]) || EndOf(edits[i]) <= k
  }

  /** The edits at or before line `k`. */
  function Before(edits: seq<LineEdit>, k: int): seq<LineEdit> {
    if edits == [] || k < StartOf(edits[0]) then [] else [edits[0]] + Before(edits[1..], k)
  }

  /** Every line outside the edits is in the result, moved by what the edits before it
      added and deleted. */
  lemma {:induction false} UntouchedStays(lines: seq<string>, edits: seq<LineEdit>, from: nat, k: nat)
    requires from <= k < |lines| && Apart(|lines|, edits, from) && Untouched(edits, k)
    ensures var at := k - from + Shift(Before(edits, k));
            0 <= at < |Merge(lines, edits, from)| && Merge(lines, edits, from)[at] == lines[k]
    decreases |edits|
  {
    hide SplitLines, Merge;
    MergeUnfold(lines, edits, from);
    if edits != [] && k >= StartOf(edits[0]) {
      var first, rest, end := edits[0], edits[1..], EndOf(edits[0]);
      assert forall i :: 0 <= i < |rest| ==> rest[i] == edits[i + 1];
      UntouchedStays(lines, rest, end, k);
      ShiftCons(first, Before(rest, k));
    }
  }

  lemma ShiftCons(e: LineEdit, rest: seq<LineEdit>)
    ensures Shift([e] + rest) == |SplitLines(e.replacement)| - e.deleteLines + Shift(rest)
  {
    assert ([e] + rest)[1..] == rest;
  }

  lemma MergeUnfold(lines: seq<string>, edits: seq<LineEdit>, from: nat)
    requires from <= |lines| && Apart(|lines|, edits, from)
    ensures edits == [] ==> Merge(lines, edits, from) == lines[from..]
    ensures edits != [] ==>
              && 0 <= from <= StartOf(edits[0]) <= EndOf(edits[0]) <= |lines|
              && Apart(|lines|, edits[1..], EndOf(edits[0]))
              && Merge(lines, edits, from) ==
                 lines[from..StartOf(edits[0])] + SplitLines(edits[0].replacement) +
                   Merge(lines, edits[1..], EndOf(edits[0]))
  {
    assert forall i :: 0 <= i < |edits| - 1 ==> edits[1..][i] == edits[i + 1];
  }

  // ------------------------------------------------------------------------ the patch

  class Patcher {
    /** The text being patched, as a list of lines. */
    var newLines: seq<string>

    constructor (lines: seq<string>)
      ensures newLines == lines
    {
      newLines := lines;
    }

    /** Splices the edits in from the last to the first: the same lines as one forward pass. */
    method SpliceAll(lines: seq<string>, edits: seq<LineEdit>)
      requires newLines == lines && Apart(|lines|, edits, 0)
      modifies this
      ensures newLines == Merge(lines, edits, 0)
    {
      hide Apart, SplitLines, Merge;
      MergeNothing(lines);
      var i := |edits|;
      assert edits[i..] == [];
      while i > 0
        invariant 0 <= i <= |edits| && Apart(|lines|, edits[i..], 0)
        invariant newLines == Merge(lines, edits[i..], 0)
      {
        var edit := edits[i - 1];
        var start, end := edit.startLine - 1, edit.startLine - 1 + edit.deleteLines;
        var replacement := SplitLines(edit.replacement);
        if edit.replacement != [] && replacement == [] {
          replacement := [edit.replacement];
        }
        SpliceStep(lines, edits, i - 1);
        newLines := newLines[..start] + replacement + newLines[end..];
        i := i - 1;
      }
      assert edits[0..] == edits;
    }
  }

  lemma MergeNothing(lines: seq<string>)
    ensures Apart(|lines|, [], 0) && Merge(lines, [], 0) == lines
  {
  }

  /** Splicing one more edit in front of those done. */
  lemma SpliceStep(lines: seq<string>, edits: seq<LineEdit>, i: nat)
    requires i < |edits| && Apart(|lines|, edits, 0) && Apart(|lines|, edits[i + 1..], 0)
    ensures 0 <= StartOf(edits[i]) <= EndOf(edits[i]) <= |lines|
    ensures var done := Merge(lines, edits[i + 1..], 0);
            && EndOf(edits[i]) <= |done| && Apart(|lines|, edits[i..], 0)
            && Merge(lines, edits[i..], 0) ==
              done[..StartOf(edits[i])] + SplitLines(edits[i].replacement) + done[EndOf(edits[i])..]
    ensures SplitLines(edits[i].replacement) == [] ==> edits[i].replacement == []
  {
    hide SplitLines, Merge, Flatten;
    var rest, start, end := edits[i + 1..], StartOf(edits[i]), EndOf(edits[i]);
    SliceApart(|lines|, edits, i);
    assert edits[i..][1..] == rest && edits[i..][0] == edits[i];
    MergeFrom(lines, rest, 0, end);
    MergeUnfold(lines, edits[i..], 0);
    assert lines[0..end][..start] == lines[0..start];
    SplitUnfold(edits[i].replacement);
  }

  lemma SliceApart(size: nat, edits: seq<LineEdit>, i: nat)
    requires i < |edits| && Apart(size, edits, 0)
    ensures 0 <= StartOf(edits[i]) <= EndOf(edits[i]) <= size
    ensures Apart(size, edits[i..], 0) && Apart(size, edits[i + 1..], EndOf(edits[i]))
  {
    var rest, all := edits[i + 1..], edits[i..];
    assert forall j :: 0 <= j < |rest| ==> rest[j] == edits[i + 1 + j];
    assert forall j :: 0 <= j < |all| ==> all[j] == edits[i + j];
  }

  /** Checks the edits in order. */
  method Check(size: nat, edits: seq<LineEdit>) returns (fault: Option<PatchError>)
    ensures fault == FirstFault(size, edits, 0)
  {
    var previousEnd, i := 0, 0;
    assert edits[0..] == edits;
    while i < |edits|
      invariant 0 <= i <= |edits|
      invariant FirstFault(size, edits, 0) == FirstFault(size, edits[i..], previousEnd)
    {
      var edit := edits[i];
      assert edits[i..][0] == edit && edits[i..][1..] == edits[i + 1..];
      var start := edit.startLine - 1;
      if start > size {
        return Some(BeyondEnd(edit.startLine));
      }
      var end := start + edit.deleteLines;
      if end > size {
        return Some(DeletesBeyondEnd(edit.startLine));
      }
      if start < previousEnd {
        return Some(Overlap);
      }
      previousEnd := end;
      i := i + 1;
    }
    return None;
  }

  /** The lines of the patched text: the edits, in line order and otherwise as given,
      merged in one forward pass. */
  function Patched(current: string, edits: seq<LineEdit>): Result<seq<string>, PatchError> {
    var lines, sorted := SplitLines(current), SortEdits(edits);
    match FirstFault(|lines|, sorted, 0)
    case Some(fault) => Err(fault)
    case None => FaultlessIsApart(|lines|, sorted, 0); Ok(Merge(lines, sorted, 0))
  }

  /** The patched text, which goes on to the guarded write. */
  method ApplyLinePatch(current: string, currentDigest: string, expected: string, edits: seq<LineEdit>, maxBytes: nat,
                        encodedSize: string -> nat)
    returns (r: Result<string, PatchError>)
    ensures if !IsDigest(Lower(expected)) then r == Err(BadDigest)
            else if edits == [] || |edits| > 100 then r == Err(BadCount)
            else if Lower(currentDigest) != Lower(expected) then r == Err(Changed)
            else match Patched(current, edits)
                 case Err(fault) => r == Err(fault)
                 case Ok(lines) =>
                   r == if encodedSize(Flatten(lines)) > maxBytes then Err(ResultTooLarge) else Ok(Flatten(lines))
  {
    if !IsDigest(Lower(expected)) {
      return Err(BadDigest);
    }
    if edits == [] || |edits| > 100 {
      return Err(BadCount);
    }
    if Lower(currentDigest) != Lower(expected) {
      return Err(Changed);
    }
    var lines, sorted := SplitLines(current), SortEdits(edits);
    hide SplitLines, SortEdits, Merge, Flatten, FirstFault, Apart;
    var fault := Check(|lines|, sorted);
    if fault.Some? {
      return Err(fault.value);
    }
    FaultlessIsApart(|lines|, sorted, 0);
    var patcher := new Patcher(lines);
    patcher.SpliceAll(lines, sorted);
    var result := Flatten(patcher.newLines);
    if encodedSize(result) > maxBytes {
      return Err(ResultTooLarge);
    }
    return Ok(result);
  }

  function Replacements(edits: seq<LineEdit>): seq<string> {
    if edits == [] then [] else [edits[0].replacement] + Replacements(edits[1..])
  }

  /** Any number of insertions at one line come out whole and in the order given. */
  lemma {:induction false} InsertionsKeepOrder(lines: seq<string>, edits: seq<LineEdit>, at: nat, from: nat)
    requires from <= at <= |lines|
    requires forall i :: 0 <= i < |edits| ==> edits[i].startLine == at + 1 && edits[i].deleteLines == 0
    ensures Apart(|lines|, edits, from) && InOrder(edits)
    ensures Flatten(Merge(lines, edits, from)) ==
            Flatten(lines[from..at]) + Flatten(Replacements(edits)) + Flatten(lines[at..])
    decreases |edits|
  {
    hide SplitLines, Merge, Flatten;
    MergeUnfold(lines, edits, from);
    if edits == [] {
      assert lines[from..] == lines[from..at] + lines[at..];
      FlattenAppend(lines[from..at], lines[at..]);
      FlattenNil<char>();
      assert Flatten(lines[from..at]) + [] == Flatten(lines[from..at]);
    } else {
      InsertionsKeepOrder(lines, edits[1..], at, at);
      InsertedFirst(lines[from..at], edits[0].replacement, Merge(lines, edits[1..], at));
      ReplacementsCons(edits);
      NothingMerged(lines, at);
      var front, later, back := Flatten(lines[from..at]), Flatten(Replacements(edits[1..])), Flatten(lines[at..]);
      assert front + (edits[0].replacement + (later + back)) == front + (edits[0].replacement + later) + back;
    }
  }

  lemma InsertedFirst(before: seq<string>, replacement: string, rest: seq<string>)
    ensures Flatten(before + SplitLines(replacement) + rest) == Flatten(before) + (replacement + Flatten(rest))
  {
    hide *;
    var a := SplitLines(replacement);
    assert before + a + rest == before + (a + rest);
    FlattenAppend(before, a + rest);
    FlattenAppend(a, rest);
    SplitJoins(replacement);
  }

  lemma ReplacementsCons(edits: seq<LineEdit>)
    requires edits != []
    ensures Flatten(Replacements(edits)) == edits[0].replacement + Flatten(Replacements(edits[1..]))
  {
    var one := [edits[0].replacement];
    var none := one[1..];
    assert none == [];
    FlattenAppend(one, Replacements(edits[1..]));
    assert Flatten(one) == edits[0].replacement + Flatten(none);
  }

  lemma NothingMerged(lines: seq<string>, at: nat)
    requires at <= |lines|
    ensures Flatten(lines[at..at]) == []
  {
    var none := lines[at..at];
    assert none == [];
    FlattenNil<char>();
  }
}
