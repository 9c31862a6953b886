/** One line at the reader's position: what the next read delivers of it, told by its bytes. */
module LineReads {
  import opened Octets
  import opened LogLines
  import opened TailPlan
  import opened AuditTailing

  /** `line` stands at byte `pos`, complete with its line feed (10). */
  predicate StandsAt(content: Bytes, pos: nat, line: Bytes) {
    && pos + |line| < |content| && content[pos..pos + |line|] == line && content[pos + |line|] == 10
    && 10 !in line
  }

  /** A line that stands whole within a read is the first that the read sees. */
  lemma FirstLine(content: Bytes, pos: nat, line: Bytes, limit: nat)
    requires StandsAt(content, pos, line) && |line| < limit
    ensures var lines := Lines(Window(content, pos, limit)); lines != [] && lines[0] == line
  {
    var s := Window(content, pos, limit);
    assert s[..|line|] == line && s[|line|] == LF;
    assert s == line + [LF] + s[|line| + 1..];
    hide Lines;
    LinesOfLine(line, s[|line| + 1..]);
  }

  lemma Substance(line: Bytes)
    ensures HasContent(line) <==> exists i :: 0 <= i < |line| && line[i] !in {9, 10, 11, 12, 13, 32}
  {
    if HasContent(line) {
      var i :| 0 <= i < |line| && !(9 <= line[i] <= 13) && line[i] != 32;
      assert line[i] !in {9, 10, 11, 12, 13, 32};
    }
  }

  lemma LineTaken(parse: Parser, content: Bytes, pos: nat, line: Bytes)
    requires StandsAt(content, pos, line)
    ensures var next := pos + |line| + 1;
            && Scan(parse, content, pos) == LineYield(parse, line, next) + Scan(parse, content, next)
            && Drain(parse, content, pos) == LineYield(parse, line, 0) + Drain(parse, content, next)
  {
    hide Scan, Drain, Lines, LineYield;
    FirstLine(content, pos, line, |content|);
    assert Window(content, pos, |content|) == content[pos..|content|];
    TakeLine(parse, content, pos, |content|);
  }

  /** A complete line in the main file is an event with the offset behind it, in a rotated
      generation one with offset 0, exactly if some byte of it is not white space and the
      parser accepts it; whatever it is, reading goes on behind it. */
  lemma LineDelivers(parse: Parser, content: Bytes, pos: nat, line: Bytes)
    requires StandsAt(content, pos, line)
    ensures var next := pos + |line| + 1;
            if (exists i :: 0 <= i < |line| && line[i] !in {9, 10, 11, 12, 13, 32}) && parse(line).Some? then
              && Scan(parse, content, pos) == [Yield(next, parse(line).value, next - pos)] + Scan(parse, content, next)
              && Drain(parse, content, pos) == [Yield(0, parse(line).value, next - pos)] + Drain(parse, content, next)
            else
              && Scan(parse, content, pos) == Scan(parse, content, next)
              && Drain(parse, content, pos) == Drain(parse, content, next)
  {
    hide Scan, Drain, Decode, StandsAt, HasContent;
    LineTaken(parse, content, pos, line);
    DecodesIff(parse, line);
    Substance(line);
    var next := pos + |line| + 1;
    assert [] + Scan(parse, content, next) == Scan(parse, content, next);
    assert [] + Drain(parse, content, next) == Drain(parse, content, next);
  }

  /** Where the next read begins: in a generation of the plan that is still in its place, or
      else in the main file. */
  predicate Next(d: Disk, st: TailState, limit: nat, line: Bytes) {
    && |line| < limit
    && match FirstEntry(d, st)
       case Some(e) =>
         e.index in d.rotated && !Shifted(d, e) && StandsAt(d.rotated[e.index].content, e.start, line)
       case None =>
         && st.plan.None? && d.main.Some? && !WasRotated(d, st.readOffset, st.inode)
         && StandsAt(d.main.value.content, st.readOffset, line)
  }

  /** Everything read from byte `pos` on ends behind it. */
  lemma {:induction false} ScanEndsBehind(parse: Parser, content: Bytes, pos: nat)
    ensures forall i :: 0 <= i < |Scan(parse, content, pos)| ==> Scan(parse, content, pos)[i].offset > pos
    decreases |content| - pos
  {
    hide Scan, LineYield;
    if Scan(parse, content, pos) != [] {
      var next := ScanLine(parse, content, pos);
      LineYieldItem(parse, content[pos..next - 1], next);
      ScanEndsBehind(parse, content, next);
    }
  }

  /** A read of the main file that moved has delivered the first line. */
  lemma MovedPast(parse: Parser, content: Bytes, pos: nat, now: nat, line: Bytes, ys: seq<Yield>)
    requires StandsAt(content, pos, line) && HasContent(line) && parse(line).Some?
    requires LaterLine(content, pos, now) && now != pos
    requires Scan(parse, content, pos) == ys + Scan(parse, content, now)
    ensures ys != [] && ys[0] == Yield(pos + |line| + 1, parse(line).value, |line| + 1)
  {
    hide Scan, HasContent, Drain;
    Substance(line);
    LineDelivers(parse, content, pos, line);
    ScanEndsBehind(parse, content, now);
    assert forall i :: pos <= i < pos + |line| ==> content[i] == line[i - pos];
    var first := Yield(pos + |line| + 1, parse(line).value, |line| + 1);
    assert Scan(parse, content, pos)[0] == first;
    assert ys == [] ==> Scan(parse, content, pos) == Scan(parse, content, now);
  }

  lemma EntryDelivers(parse: Parser, d: Disk, st: TailState, limit: nat, line: Bytes)
    requires Next(d, st, limit, line) && FirstEntry(d, st).Some? && HasContent(line) && parse(line).Some?
    ensures Delivers(parse, d, limit, FirstEntry(d, st).value)
    ensures Remaining(parse, d, st) != [] && Remaining(parse, d, st)[0] == Yield(0, parse(line).value, |line| + 1)
  {
    hide Drain, Scan, StartPlan, Decode, Lines, MainYields, SettledYields, Window, StandsAt;
    var e := FirstEntry(d, st).value;
    var content := d.rotated[e.index].content;
    Substance(line);
    LineDelivers(parse, content, e.start, line);
    StandsBefore(content, e.start, line);
    FirstLine(content, e.start, line, limit);
    DecodesIff(parse, line);
    assert EntryYields(parse, d, e)[0] == Yield(0, parse(line).value, |line| + 1);
    if st.plan.None? { RebuiltIs(parse, d, st); }
    hide EntryYields;
  }

  lemma RebuiltIs(parse: Parser, d: Disk, st: TailState)
    requires st.plan.None? && d.main.Some? && WasRotated(d, st.readOffset, st.inode)
    ensures Remaining(parse, d, st) == PlanYields(parse, d, StartPlan(d, st.offset, st.inode)) + MainYields(parse, d, 0)
  {
    hide PlanYields, MainYields, StartPlan;
  }

  lemma StandsBefore(content: Bytes, pos: nat, line: Bytes)
    requires StandsAt(content, pos, line)
    ensures pos + |line| < |content|
  {
  }

  /** A read in front of a complete line that fits it, that is not white space and that the
      parser accepts, delivers that line first, whatever else the log holds. */
  method ReadLine(tail: AuditTail, accept: Event -> bool, quota: nat, line: Bytes) returns (ys: seq<Yield>)
    requires tail.Valid() && quota > 0 && Identified(tail.Disk())
    requires Next(tail.Disk(), tail.State(), tail.chunkBytes, line)
    requires HasContent(line) && tail.parse(line).Some?
    modifies tail`plan, tail`offset, tail`readOffset, tail`inode
    ensures tail.Valid() && ys != []
    ensures ys[0].event == tail.parse(line).value && ys[0].size == |line| + 1
    ensures ys[0].offset == if FirstEntry(tail.Disk(), old(tail.State())).Some? then 0
                            else old(tail.readOffset) + |line| + 1
  {
    hide Scan, Drain, Remaining, CleanState, Accepted, Lines, Window, WholeWindow, Fit, StartPlan, Delivers;
    ghost var d, st := tail.Disk(), tail.State();
    Substance(line);
    if FirstEntry(d, st).Some? {
      EntryDelivers(tail.parse, d, st, tail.chunkBytes, line);
    } else {
      FirstLine(d.main.value.content, st.readOffset, line, tail.chunkBytes);
      LineDelivers(tail.parse, d.main.value.content, st.readOffset, line);
    }
    ys := tail.ReadNew(accept, quota);
    if FirstEntry(d, st).Some? {
      assert (ys + Remaining(tail.parse, d, tail.State()))[0] == ys[0];
    } else {
      MovedPast(tail.parse, d.main.value.content, st.readOffset, tail.readOffset, line, ys);
    }
  }
}
