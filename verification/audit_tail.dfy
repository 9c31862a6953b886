/** The reporter's log reader: a byte-offset tail over the main file that, once the file
    has been rotated away, catches up over the rotated generations first. */
module AuditTailing {
  import opened Octets
  import opened LogLines
  import opened AuditLog
  import opened TailPlan

  // ------------------------------------------------------------ clean content

  /** `s` is whole lines, each decodable. */
  ghost predicate Clean(parse: Parser, s: Bytes) {
    && Tail(s) == []
    && forall i :: 0 <= i < |Lines(s)| ==> Decode(parse, Lines(s)[i]).Some?
  }

  /** Clean from byte `pos` on, or nothing there. */
  ghost predicate CleanFrom(parse: Parser, content: Bytes, pos: nat) {
    pos <= |content| ==> Clean(parse, content[pos..])
  }

  ghost predicate CleanPlan(parse: Parser, d: Disk, plan: seq<PlanEntry>) {
    forall i :: 0 <= i < |plan| ==>
      plan[i].index in d.rotated && CleanFrom(parse, d.rotated[plan[i].index].content, plan[i].start)
  }

  /** Every position the reader will read from stands at the start of a clean record,
      and a catch-up under way matches the directory. */
  ghost predicate CleanState(parse: Parser, d: Disk, st: TailState) {
    && (d.main.Some? ==> CleanFrom(parse, d.main.value.content, 0))
    && (if st.plan.Some? then CatchingUp(d, st) && CleanPlan(parse, d, st.plan.value)
        else if d.main.None? then true
        else if WasRotated(d, st.readOffset, st.inode) then CleanPlan(parse, d, StartPlan(d, st.offset, st.inode))
        else CleanFrom(parse, d.main.value.content, st.readOffset))
  }

  lemma CleanStep(parse: Parser, content: Bytes, pos: nat)
    requires pos <= |content| && Clean(parse, content[pos..]) && Lines(content[pos..]) != []
    ensures var line := Lines(content[pos..])[0]; var next := pos + |line| + 1;
            && next <= |content| && Decode(parse, line).Some?
            && Clean(parse, content[next..])
  {
    hide Lines, Tail, Decode, Scan, Drain;
    assert content[pos..|content|] == content[pos..];
    TakeLine(parse, content, pos, |content|);
    var line := Lines(content[pos..])[0];
    var next := pos + |line| + 1;
    forall i | 0 <= i < |Lines(content[next..])|
      ensures Decode(parse, Lines(content[next..])[i]).Some?
    {
      assert Lines(content[next..])[i] == Lines(content[pos..])[i + 1];
    }
  }

  /** The next line does not end within `limit` bytes of `pos`. */
  predicate Overlong(limit: nat, content: Bytes, pos: nat) {
    pos + limit <= |content| && Lines(content[pos..pos + limit]) == []
  }

  /** The reader is in front of a line that does not fit one read. */
  ghost predicate Blocked(limit: nat, d: Disk, st: TailState) {
    if st.plan.Some? then
      && st.plan.value != [] && st.plan.value[0].index in d.rotated
      && Overlong(limit, d.rotated[st.plan.value[0].index].content, st.plan.value[0].start)
    else
      && d.main.Some? && st.inode == Usable(d.main.value.identity) && st.readOffset <= |d.main.value.content|
      && Overlong(limit, d.main.value.content, st.readOffset)
  }

  /** Reading stopped at `at` because no further line ends within the window at `pos`. */
  predicate WholeWindow(content: Bytes, pos: nat, limit: nat, at: nat)
    requires pos <= at <= |content|
  {
    at <= Min(|content|, pos + limit) && Lines(content[at..Min(|content|, pos + limit)]) == []
  }

  lemma WholeWindowIs(content: Bytes, pos: nat, limit: nat, at: nat)
    requires pos <= at <= |content|
    ensures WholeWindow(content, pos, limit, at) <==>
              at <= Min(|content|, pos + limit) && Lines(content[at..Min(|content|, pos + limit)]) == []
    ensures Window(content, pos, limit) == content[pos..Min(|content|, pos + limit)]
  {
    hide Lines;
  }

  lemma EmptyWindow(content: Bytes, pos: nat, limit: nat)
    requires pos >= |content|
    ensures pos == |content| ==> Lines(Window(content, pos, limit)) == [] && WholeWindow(content, pos, limit, pos)
  {
    if pos == |content| {
      assert Window(content, pos, limit) == [];
      LinesUnfold([]);
      LineEndOfNothing();
      hide Lines;
    }
  }

  /** Every item comes from a line that fits one read. */
  predicate Fit(limit: nat, ys: seq<Yield>) {
    forall i :: 0 <= i < |ys| ==> ys[i].size <= limit
  }

  lemma FitNil(limit: nat)
    ensures Fit(limit, [])
  {
  }

  lemma FitSnoc(limit: nat, ys: seq<Yield>, y: Yield)
    requires Fit(limit, ys) && y.size <= limit
    ensures Fit(limit, ys + [y])
  {
  }

  lemma FitAppend(limit: nat, a: seq<Yield>, b: seq<Yield>)
    requires Fit(limit, a) && Fit(limit, b)
    ensures Fit(limit, a + b)
  {
  }

  /** A read of clean content holds no line only if the next line is overlong. */
  lemma CleanChunk(parse: Parser, limit: nat, content: Bytes, pos: nat, end: nat)
    requires pos < end <= |content| && Clean(parse, content[pos..])
    requires end == |content| || end - pos >= limit
    ensures Lines(content[pos..]) != []
    ensures Lines(content[pos..end]) == [] ==> end < |content| && (end == pos + limit ==> Overlong(limit, content, pos))
  {
    hide Decode, Lines, Tail;
    LinesUnfold(content[pos..]);
    if end == |content| { assert content[pos..end] == content[pos..]; }
  }

  /** In clean content an overlong line is the next to come, and longer than the limit. */
  lemma OverlongNext(parse: Parser, limit: nat, content: Bytes, pos: nat)
    requires pos <= |content| && Clean(parse, content[pos..]) && Overlong(limit, content, pos) && limit > 0
    ensures Scan(parse, content, pos) != [] && Scan(parse, content, pos)[0].size > limit
    ensures Drain(parse, content, pos) != [] && Drain(parse, content, pos)[0].size > limit
  {
    hide Decode, Lines, Tail, Scan, Drain, LineYield;
    var s, chunk := content[pos..], content[pos..pos + limit];
    LinesUnfold(s);
    LinesUnfold(chunk);
    assert content[pos..|content|] == s;
    TakeLine(parse, content, pos, |content|);
    var line := Lines(s)[0];
    var i := LineEnd(s);
    assert line == s[..i];
    assert forall j :: 0 <= j < limit ==> chunk[j] == s[j];
    LineYieldIs(parse, line, 0);
    LineYieldIs(parse, line, pos + |line| + 1);
    assert Decode(parse, Lines(s)[0]).Some?;
  }

  /** The first of `lines` is there and delivers an event. */
  predicate FirstDelivers(parse: Parser, lines: seq<Bytes>) {
    lines != [] && LineYield(parse, lines[0], 0) != []
  }

  lemma FirstDeliversIs(parse: Parser, lines: seq<Bytes>)
    ensures FirstDelivers(parse, lines) <==> lines != [] && LineYield(parse, lines[0], 0) != []
  {
    hide LineYield;
  }

  /** Within one read of the entry's position a line ends that delivers an event. */
  predicate Delivers(parse: Parser, d: Disk, limit: nat, e: PlanEntry) {
    && !Spent(d, e) && !Shifted(d, e)
    && FirstDelivers(parse, Lines(Window(d.rotated[e.index].content, e.start, limit)))
  }

  lemma DeliversHere(parse: Parser, d: Disk, limit: nat, e: PlanEntry)
    requires Delivers(parse, d, limit, e)
    ensures !Spent(d, e) && !Shifted(d, e)
  {
  }

  /** The generation a read begins in: the first of the plan, of a fresh one if the log is
      found rotated. */
  function FirstEntry(d: Disk, st: TailState): Option<PlanEntry> {
    var plan := if st.plan.Some? then st.plan.value
                else if d.main.Some? && WasRotated(d, st.readOffset, st.inode) then StartPlan(d, st.offset, st.inode)
                else [];
    if plan == [] then None else Some(plan[0])
  }

  lemma FirstOfStarted(d: Disk, st: TailState)
    requires st.plan.None? && d.main.Some? && WasRotated(d, st.readOffset, st.inode)
    ensures FirstEntry(d, st) == FirstEntry(d, Started(d, st)) && Started(d, st).plan.Some?
  {
    hide StartPlan;
  }

  // ------------------------------------------------------------------ consumer

  /** How many of `ys` the consumer keeps. */
  function Accepted(accept: Event -> bool, ys: seq<Yield>): nat {
    if ys == [] then 0 else Accepted(accept, ys[..|ys| - 1]) + (if accept(ys[|ys| - 1].event) then 1 else 0)
  }

  lemma AcceptedSnoc(accept: Event -> bool, ys: seq<Yield>, y: Yield)
    ensures Accepted(accept, ys + [y]) == Accepted(accept, ys) + (if accept(y.event) then 1 else 0)
  {
    assert (ys + [y])[..|ys|] == ys;
  }

  lemma {:induction false} AcceptedAppend(accept: Event -> bool, a: seq<Yield>, b: seq<Yield>)
    ensures Accepted(accept, a + b) == Accepted(accept, a) + Accepted(accept, b)
    decreases |b|
  {
    if b == [] {
      assert a + b == a;
    } else {
      var b', y := b[..|b| - 1], b[|b| - 1];
      AcceptedAppend(accept, a, b');
      assert a + b == (a + b') + [y];
      AcceptedSnoc(accept, a + b', y);
    }
  }

  // -------------------------------------------------------------------- reader

  class AuditTail {
    const parse: Parser
    /** The most bytes of file content one step reads. */
    const chunkBytes: nat
    const dir: LogDirectory
    /** The acknowledged checkpoint and how far this process has read. */
    var offset: nat
    var readOffset: nat
    /** The main file the checkpoint belongs to. */
    var inode: Option<int>
    /** Generations still to be drained, oldest first; `None` when not catching up. */
    var plan: Option<seq<PlanEntry>>
    /** The cursor file. */
    var cursor: StoredCursor

    function Disk(): TailPlan.Disk
      reads dir
    {
      TailPlan.Disk(dir.main, dir.rotated)
    }

    ghost function State(): TailState
      reads this
    {
      TailState(offset, readOffset, inode, plan)
    }

    ghost predicate Valid()
      reads this
    {
      chunkBytes > 0 && (plan.Some? ==> readOffset == 0)
    }

    /** A process start: the state comes from the cursor file alone. */
    constructor (parse: Parser, chunkBytes: nat, dir: LogDirectory, cursor: StoredCursor)
      requires chunkBytes > 0
      ensures Valid() && State() == Loaded(cursor) && this.cursor == cursor
      ensures this.parse == parse && this.chunkBytes == chunkBytes && this.dir == dir
    {
      this.parse := parse;
      this.chunkBytes := chunkBytes;
      this.dir := dir;
      this.cursor := cursor;
      offset, readOffset, inode, plan := 0, 0, None, None;
      if cursor.Stored? && cursor.offset.Some? && cursor.offset.value >= 0 {
        offset, readOffset := cursor.offset.value, cursor.offset.value;
        inode := if cursor.inode == Some(0) then None else cursor.inode;
      }
    }

    /** Persists the acknowledged offset. */
    method Commit(offset: nat)
      requires Valid()
      modifies this`offset, this`cursor
      ensures Valid() && this.offset == offset && cursor == Committed(State(), offset)
    {
      this.offset := offset;
      cursor := Stored(Some(offset), inode);
    }

    /** Plans the catch-up over the rotated generations, oldest first. */
    method StartDrain()
      modifies this`plan, this`offset, this`readOffset, this`inode
      ensures State() == Started(Disk(), old(State()))
    {
      var count := RotatedCount(dir.rotated);
      var checkpoint := if offset > 0 then CheckpointIndex(dir.rotated, inode) else 0;
      var entries: seq<PlanEntry> := [];
      var index := count;
      ghost var top := if checkpoint > 0 then checkpoint else count;
      ghost var first := if checkpoint > 0 then offset else 0;
      hide Entries, PlannedDownTo, LastIndex, Holding, StartPlan, CheckpointIndex;
      StartPlanIs(Disk(), offset, inode);
      PlanBegins(dir.rotated, top, first);
      while index > 0
        invariant 0 <= index <= count
        invariant offset == old(offset)
        invariant PlannedDownTo(dir.rotated, index, top, first, entries)
      {
        var identity := Usable(dir.rotated[index].identity);
        PlanStep(dir.rotated, index, top, first, entries);
        if checkpoint == 0 || index < checkpoint {
          entries := entries + [PlanEntry(index, 0, identity)];
        } else if index == checkpoint {
          entries := entries + [PlanEntry(index, offset, identity)];
        }
        index := index - 1;
      }
      PlanEnds(dir.rotated, top, first, entries);
      plan := Some(entries);
      offset := 0;
      readOffset := 0;
      inode := if dir.main.Some? then Usable(dir.main.value.identity) else None;
    }

    /** Reads one chunk of the plan's first generation. */
    method DrainGeneration(accept: Event -> bool, quota: nat, budget: nat)
      returns (ys: seq<Yield>, left: nat, spare: nat)
      requires Valid() && plan.Some? && plan.value != [] && quota > 0 && 0 < budget <= chunkBytes
      requires !Spent(Disk(), plan.value[0])
      modifies this`plan
      ensures plan.Some? && GenerationRead(parse, Disk(), old(plan.value), plan.value, ys)
      ensures left + Accepted(accept, ys) == quota && spare < budget
      ensures (left > 0 ==> plan.value == old(plan.value)[1..] || spare == 0) && |plan.value| <= |old(plan.value)|
      ensures forall i :: 0 <= i < |ys| ==> ys[i].offset == 0
      // The plan moves if and only if the read reaches a line feed or the generation's end.
      ensures var entry := old(plan.value)[0];
              var content := dir.rotated[entry.index].content;
              plan.value == old(plan.value) <==>
                entry.start + budget < |content| && Lines(Window(content, entry.start, budget)) == []
      ensures Delivers(parse, Disk(), budget, old(plan.value)[0]) ==> ys != []
      ensures CleanFrom(parse, dir.rotated[old(plan.value)[0].index].content, old(plan.value)[0].start) ==>
                && Fit(chunkBytes, ys)
                && (budget == chunkBytes && ys == [] ==>
                      && left > 0 && spare == 0 && plan == old(plan)
                      && Overlong(chunkBytes, dir.rotated[plan.value[0].index].content, plan.value[0].start))
                && (plan.value == old(plan.value)[1..]
                    || CleanFrom(parse, dir.rotated[old(plan.value)[0].index].content, plan.value[0].start))
    {
      hide Lines, Window, Decode, Drain, Accepted, Clean, Overlong, Fit, Tail, FirstDelivers;
      var entry, later := plan.value[0], plan.value[1..];
      var content, start := dir.rotated[entry.index].content, entry.start;
      var limit := Min(|content|, start + budget);
      var end := start + Min(chunkBytes, limit - start);
      spare := budget - (end - start);
      WholeWindowIs(content, start, budget, start);
      var final := end >= |content|;
      ghost var clean := CleanFrom(parse, content, start);
      ys, left, start := ReadLines(accept, quota, content, start, end, final);
      assert [entry] + later == plan.value;
      if left == 0 || !final {
        plan := Some([entry.(start := start)] + later);
      } else {
        plan := Some(later);
        SpentYieldsNothing(parse, Disk(), entry.(start := |content|));
      }
    }

    /** The line loop over one chunk of a rotated generation. */
    method ReadLines(accept: Event -> bool, quota: nat, content: Bytes, start: nat, end: nat, final: bool)
      returns (ys: seq<Yield>, left: nat, position: nat)
      requires quota > 0 && start < end <= |content| && (final <==> end == |content|)
      ensures left + Accepted(accept, ys) == quota && start <= position && (left == 0 ==> position > start)
      ensures !final ==> (position == start <==> Lines(content[start..end]) == [])
      ensures Drain(parse, content, start) == ys + Drain(parse, content, position)
      ensures left > 0 && final ==> Drain(parse, content, position) == []
      ensures forall i :: 0 <= i < |ys| ==> ys[i].offset == 0
      ensures FirstDelivers(parse, Lines(content[start..end])) ==> ys != []
      ensures Clean(parse, content[start..]) ==>
                && CleanFrom(parse, content, position) && (end - start <= chunkBytes ==> Fit(chunkBytes, ys))
                && (ys == [] ==> left > 0 && position == start)
                && (ys == [] && (final || end - start >= chunkBytes) ==>
                      !final && (end == start + chunkBytes ==> Overlong(chunkBytes, content, start)))
    {
      hide *;
      var chunk := content[start..end];
      var lines, tail := Lines(chunk), Tail(chunk);
      ghost var n := |lines|;
      ghost var clean := Clean(parse, content[start..]);
      FirstDeliversIs(parse, lines);
      if final && !IsBlank(tail) {
        lines := lines + [tail];
      }
      LinesBegin(parse, chunkBytes, content, start, end, clean);
      assert lines[..n] == Lines(chunk) && lines[0..n] == lines[..n];
      AcceptedNil(accept);
      FitNil(chunkBytes);
      ys, left, position := [], quota, start;
      var i := 0;
      while i < |lines|
        invariant 0 <= i <= |lines|
        invariant left > 0 && left + Accepted(accept, ys) == quota
        invariant start <= position
        invariant i <= n ==>
                  position <= end && Lines(content[position..end]) == lines[i..n]
                    && Tail(content[position..end]) == tail
        invariant i > n ==> position == |content| + 1 && !clean
        invariant Drain(parse, content, start) == ys + Drain(parse, content, position)
        invariant forall j :: 0 <= j < |ys| ==> ys[j].offset == 0
        invariant clean ==> position <= |content| && Clean(parse, content[position..]) && (i > 0 ==> ys != [])
        invariant (i == 0 ==> ys == [] && position == start) && (i > 0 ==> position > start)
        invariant clean && end - start <= chunkBytes ==> Fit(chunkBytes, ys)
        invariant i > 0 && LineYield(parse, lines[0], 0) != [] ==> ys != []
      {
        var line := lines[i];
        LineRead(parse, content, position, end, line, i < n, clean);
        LineYieldIs(parse, line, 0);
        ghost var before, at := ys, position;
        position := position + |line| + 1;
        assert i < n ==> lines[i..n][1..] == lines[i + 1..n];
        var decoded := Decode(parse, line);
        Reassociate(ys, LineYield(parse, line, 0), Drain(parse, content, position));
        if decoded.Some? {
          AcceptedSnoc(accept, ys, Yield(0, decoded.value, |line| + 1));
          if clean && end - start <= chunkBytes { FitSnoc(chunkBytes, ys, Yield(0, decoded.value, |line| + 1)); }
          ys := ys + [Yield(0, decoded.value, |line| + 1)];
          if accept(decoded.value) {
            left := left - 1;
            if left == 0 {
              CleanFromIs(parse, content, position);
              return;
            }
          }
        }
        assert ys == before + LineYield(parse, line, 0);
        i := i + 1;
      }
      LinesEnd(parse, content, position, end, tail, final && i <= n);
      CleanFromIs(parse, content, position);
    }

    /** Reads one chunk of the main file. */
    method ReadMain(accept: Event -> bool, quota: nat) returns (ys: seq<Yield>, left: nat)
      requires Valid() && quota > 0 && plan.None? && dir.main.Some? && readOffset < |dir.main.value.content|
      modifies this`readOffset
      ensures left + Accepted(accept, ys) == quota
      ensures LaterLine(dir.main.value.content, old(readOffset), readOffset)
      ensures Scan(parse, dir.main.value.content, old(readOffset)) ==
              ys + Scan(parse, dir.main.value.content, readOffset)
      // The position moves if and only if there is a line feed within one read of it.
      ensures readOffset == old(readOffset) <==>
                Lines(Window(dir.main.value.content, old(readOffset), chunkBytes)) == []
      ensures left > 0 ==> WholeWindow(dir.main.value.content, old(readOffset), chunkBytes, readOffset)
      ensures CleanFrom(parse, dir.main.value.content, old(readOffset)) ==>
                && CleanFrom(parse, dir.main.value.content, readOffset) && Fit(chunkBytes, ys)
                && (if ys != [] then ys[|ys| - 1].offset == readOffset
                    else
                      && left > 0 && readOffset == old(readOffset)
                      && Overlong(chunkBytes, dir.main.value.content, readOffset))
    {
      hide Decode, Lines, Tail, Scan, Drain, Clean, Accepted, LineYield, Overlong, Fit, LaterLine, WholeWindow, Window;
      FitNil(chunkBytes);
      var content, start := dir.main.value.content, readOffset;
      LaterLineIs(content, start, start);
      WholeWindowIs(content, start, chunkBytes, start);
      var end := Min(|content|, readOffset + chunkBytes);
      var lines := Lines(content[readOffset..end]);
      ghost var clean := Clean(parse, content[start..]);
      CleanFromIs(parse, content, start);
      LinesBegin(parse, chunkBytes, content, start, end, clean);
      AcceptedNil(accept);
      ys, left := [], quota;
      var i := 0;
      while i < |lines|
        invariant 0 <= i <= |lines|
        invariant left > 0 && left + Accepted(accept, ys) == quota
        invariant (i == 0 ==> ys == [] && readOffset == start) && (i > 0 ==> readOffset > start)
        invariant LaterLine(content, start, readOffset) && readOffset <= end
        invariant Lines(content[readOffset..end]) == lines[i..]
        invariant Scan(parse, content, start) == ys + Scan(parse, content, readOffset)
        invariant clean ==> Clean(parse, content[readOffset..])
        invariant clean && i > 0 ==> ys != [] && ys[|ys| - 1].offset == readOffset
        invariant clean ==> Fit(chunkBytes, ys)
      {
        var line := lines[i];
        LineRead(parse, content, readOffset, end, line, true, clean);
        ghost var before := ys;
        readOffset := readOffset + |line| + 1;
        LineYieldIs(parse, line, readOffset);
        assert lines[i..][1..] == lines[i + 1..];
        LaterLineIs(content, start, readOffset);
        Reassociate(ys, LineYield(parse, line, readOffset), Scan(parse, content, readOffset));
        var decoded := Decode(parse, line);
        if decoded.Some? {
          AcceptedSnoc(accept, ys, Yield(readOffset, decoded.value, |line| + 1));
          if clean { FitSnoc(chunkBytes, ys, Yield(readOffset, decoded.value, |line| + 1)); }
          ys := ys + [Yield(readOffset, decoded.value, |line| + 1)];
          if accept(decoded.value) {
            left := left - 1;
            if left == 0 {
              CleanFromIs(parse, content, readOffset);
              return;
            }
          }
        }
        assert ys == before + LineYield(parse, line, readOffset);
        i := i + 1;
      }
      WholeWindowIs(content, start, chunkBytes, readOffset);
      CleanFromIs(parse, content, readOffset);
    }

    /** What one read of the plan's first generation does for the catch-up. */
    method DrainEntry(accept: Event -> bool, quota: nat, budget: nat)
      returns (ys: seq<Yield>, left: nat, spare: nat)
      requires Valid() && plan.Some? && plan.value != [] && quota > 0 && 0 < budget <= chunkBytes
      requires !Spent(Disk(), plan.value[0]) && !Shifted(Disk(), plan.value[0])
      modifies this`plan
      ensures plan.Some? && |plan.value| <= |old(plan.value)|
      ensures left + Accepted(accept, ys) == quota && spare < budget
      ensures left > 0 ==> |plan.value| < |old(plan.value)| || spare == 0
      ensures Remaining(parse, Disk(), old(State())) == ys + Remaining(parse, Disk(), State())
      ensures Current(Disk(), old(plan.value)) ==> Current(Disk(), plan.value)
      ensures CleanState(parse, Disk(), old(State())) ==>
                && CleanState(parse, Disk(), State()) && Fit(chunkBytes, ys)
                && (budget == chunkBytes && ys == [] ==>
                      left > 0 && spare == 0 && Blocked(chunkBytes, Disk(), State()))
      ensures forall i :: 0 <= i < |ys| ==> ys[i].offset == 0
      ensures budget == chunkBytes && Delivers(parse, Disk(), chunkBytes, old(plan.value)[0]) ==> ys != []
    {
      hide Accepted, Remaining, CleanFrom, CleanState, GenerationRead, Current, EntryYields, Overlong, Fit, Blocked,
        Delivers, Lines, Window, Shifted;
      ghost var d, was := Disk(), State();
      ys, left, spare := DrainGeneration(accept, quota, budget);
      CatchUpRead(parse, d, was, plan.value, ys);
      if Current(d, was.plan.value) { CurrentRead(parse, d, was.plan.value, plan.value, ys); }
      CleanRead(parse, d, was, plan.value, ys);
      if CleanState(parse, d, was) && budget == chunkBytes && ys == [] { BlockedInPlan(chunkBytes, d, State()); }
    }

    /** One step of the catch-up: at most `chunkBytes` of content, oldest generation first. */
    method DrainStep(accept: Event -> bool, quota: nat) returns (ys: seq<Yield>, left: nat)
      requires Valid() && plan.Some? && quota > 0
      modifies this`plan, this`offset, this`readOffset, this`inode
      ensures Valid()
      ensures left + Accepted(accept, ys) == quota
      ensures Identified(Disk()) ==> Remaining(parse, Disk(), old(State())) == ys + Remaining(parse, Disk(), State())
      ensures CleanState(parse, Disk(), old(State())) ==>
                && CleanState(parse, Disk(), State()) && Fit(chunkBytes, ys)
                && (ys == [] ==> left == quota && (plan.None? || Blocked(chunkBytes, Disk(), State())))
      ensures offset == old(offset) || offset == 0
      ensures Current(Disk(), old(plan.value)) ==>
                offset == old(offset) && readOffset == old(readOffset) && inode == old(inode)
      ensures forall i :: 0 <= i < |ys| ==> ys[i].offset == 0
      ensures old(plan.value) != [] && Delivers(parse, Disk(), chunkBytes, old(plan.value)[0]) ==> ys != []
    {
      hide Delivers, FirstDelivers;
      hide Accepted, Remaining, CleanFrom, CleanState, GenerationRead, RebuiltYields, Started, Shifted, Current,
        Identified, EntryYields, StartPlan, Usable, Overlong, Fit, Blocked;
      ghost var d, was := Disk(), State();
      ghost var clean := CleanState(parse, d, was);
      if clean { CleanIsCurrent(parse, d, was); }
      AcceptedNil(accept);
      FitNil(chunkBytes);
      var budget := chunkBytes;
      ys, left := [], quota;
      EmptyPrefix(Remaining(parse, d, was));
      ghost var current := Current(d, plan.value);
      ghost var ready := plan.value != [] && Delivers(parse, d, chunkBytes, plan.value[0]);
      if ready { DeliversHere(parse, d, chunkBytes, plan.value[0]); }
      CurrentUnless(d, plan.value);
      while plan.value != [] && budget > 0
        invariant plan.Some? && budget <= chunkBytes && left > 0
        invariant State() == was.(plan := plan)
        invariant left + Accepted(accept, ys) == quota
        invariant Remaining(parse, d, was) == ys + Remaining(parse, d, State())
        invariant current ==> Current(d, plan.value)
        invariant clean ==> CleanState(parse, d, State()) && Fit(chunkBytes, ys)
        invariant clean && ys == [] ==> budget == chunkBytes || (budget == 0 && Blocked(chunkBytes, d, State()))
        invariant forall i :: 0 <= i < |ys| ==> ys[i].offset == 0
        invariant ready && ys == [] ==> plan == was.plan && budget == chunkBytes
        decreases |plan.value|, budget
      {
        var entry := plan.value[0];
        ghost var before := State();
        CatchUpHead(parse, d, before);
        CurrentUnless(d, plan.value);
        if clean { CleanHead(parse, d, before); }
        if entry.index !in dir.rotated || |dir.rotated[entry.index].content| <= entry.start {
          CleanRest(parse, d, before);
          plan := Some(plan.value[1..]);
        } else if Shifted(Disk(), entry) {
          if Identified(d) { StartedYields(parse, d, before); }
          StartedParts(d, before);
          StartDrain();
          return;
        } else {
          var more;
          more, left, budget := DrainEntry(accept, left, budget);
          Reassociate(ys, more, Remaining(parse, d, State()));
          AcceptedAppend(accept, ys, more);
          if clean { FitAppend(chunkBytes, ys, more); }
          ys := ys + more;
          if left == 0 {
            return;
          }
        }
      }
      CaughtUp(parse, d, State());
      if plan.value == [] {
        plan := None;
      }
    }

    /** Delivers what has not been read yet, until the consumer has taken `quota` events it
        keeps or this call has read its fill. A consumer that stops abandons the reader
        right behind the event it took last. */
    method ReadNew(accept: Event -> bool, quota: nat) returns (ys: seq<Yield>)
      requires Valid()
      modifies this`plan, this`offset, this`readOffset, this`inode
      ensures Valid() && Accepted(accept, ys) <= quota
      ensures Identified(Disk()) ==> Remaining(parse, Disk(), old(State())) == ys + Remaining(parse, Disk(), State())
      ensures Identified(Disk()) && CleanState(parse, Disk(), old(State())) ==>
                && CleanState(parse, Disk(), State()) && Fit(chunkBytes, ys)
                && (if ys != [] then ys[|ys| - 1].offset == readOffset
                    else
                      && (old(offset) == old(readOffset) ==> offset == readOffset)
                      && (OnMain(Disk(), old(State())) ==> State().(plan := None) == old(State()).(plan := None)))
                && (ys == [] && quota > 0 ==> AtEnd(Disk(), State()) || Blocked(chunkBytes, Disk(), State()))
                && (ys != [] && dir.main.Some? ==>
                      inode == Usable(dir.main.value.identity) && readOffset <= |dir.main.value.content|)
      // A call delivers something exactly when what comes next fits one read.
      ensures Identified(Disk()) && CleanState(parse, Disk(), old(State())) && quota > 0 ==>
                (ys != [] <==> NextFits(parse, chunkBytes, Disk(), old(State())))
      ensures offset == old(offset) || offset == 0
      ensures old(plan).None? && dir.main.Some? && !WasRotated(Disk(), old(readOffset), old(inode)) && quota > 0 ==>
                && plan.None? && offset == old(offset) && inode == Usable(dir.main.value.identity)
                && LaterLine(dir.main.value.content, old(readOffset), readOffset)
                && Scan(parse, dir.main.value.content, old(readOffset)) ==
                  ys + Scan(parse, dir.main.value.content, readOffset)
                && (readOffset == old(readOffset) <==>
                    Lines(Window(dir.main.value.content, old(readOffset), chunkBytes)) == [])
                && (Accepted(accept, ys) < quota ==>
                      WholeWindow(dir.main.value.content, old(readOffset), chunkBytes, readOffset))
      ensures old(plan).None? && dir.main.Some? && WasRotated(Disk(), old(readOffset), old(inode)) && quota > 0 ==>
                offset == 0
      ensures var first := FirstEntry(Disk(), old(State()));
              quota > 0 && first.Some? && Delivers(parse, Disk(), chunkBytes, first.value) ==> ys != []
      ensures quota == 0 || (old(plan).None? && dir.main.None?) ==> ys == [] && State() == old(State())
    {
      hide Delivers, StartPlan;
      hide Accepted, Remaining, CleanState, CleanFrom, Started, WasRotated, AtEnd, Current, Blocked, Identified, Fit,
        OnMain, Usable, NextFits, Lines, Scan, LaterLine, Window, WholeWindow;
      ghost var d, was := Disk(), State();
      ghost var clean := Identified(d) && CleanState(parse, d, State());
      AcceptedNil(accept);
      FitNil(chunkBytes);
      EmptyPrefix(Remaining(parse, d, State()));
      ys := [];
      if quota == 0 {
        return;
      }
      var left := quota;
      if plan.Some? {
        if clean { CleanIsCurrent(parse, d, State()); }
        ys, left := DrainStep(accept, left);
        if left == 0 || plan.Some? {
          if clean { MovedIff(parse, chunkBytes, d, was, State(), ys); }
          return;
        }
      }
      if clean { SettledStays(parse, d, was, State()); }
      ghost var from := State();
      var more := ReadSettled(accept, left);
      AcceptedAppend(accept, ys, more);
      if clean { FitAppend(chunkBytes, ys, more); }
      if dir.main.Some? { LaterLineIs(dir.main.value.content, from.readOffset, readOffset); }
      Reassociate(ys, more, Remaining(parse, d, State()));
      ys := ys + more;
      if clean { MovedIff(parse, chunkBytes, d, was, State(), ys); }
    }

    /** The part of a read behind a finished catch-up. */
    method ReadSettled(accept: Event -> bool, quota: nat) returns (ys: seq<Yield>)
      requires Valid() && plan.None? && quota > 0
      modifies this`plan, this`offset, this`readOffset, this`inode
      ensures Valid() && Accepted(accept, ys) <= quota
      ensures Identified(Disk()) ==> Remaining(parse, Disk(), old(State())) == ys + Remaining(parse, Disk(), State())
      ensures Identified(Disk()) && CleanState(parse, Disk(), old(State())) ==>
                && CleanState(parse, Disk(), State()) && Fit(chunkBytes, ys)
                && (if ys != [] then ys[|ys| - 1].offset == readOffset
                    else
                      && (old(offset) == old(readOffset) ==> offset == readOffset)
                      && (readOffset == old(readOffset) || readOffset == 0)
                      && (AtEnd(Disk(), State()) || Blocked(chunkBytes, Disk(), State())))
                && (dir.main.Some? ==>
                      inode == Usable(dir.main.value.identity) && readOffset <= |dir.main.value.content|)
      ensures offset == old(offset) || offset == 0
      ensures old(plan).None? && dir.main.Some? && !WasRotated(Disk(), old(readOffset), old(inode)) ==>
                && plan.None? && offset == old(offset) && inode == Usable(dir.main.value.identity)
                && LaterLine(dir.main.value.content, old(readOffset), readOffset)
                && Scan(parse, dir.main.value.content, old(readOffset)) ==
                  ys + Scan(parse, dir.main.value.content, readOffset)
                && (readOffset == old(readOffset) <==>
                    Lines(Window(dir.main.value.content, old(readOffset), chunkBytes)) == [])
                && (Accepted(accept, ys) < quota ==>
                      WholeWindow(dir.main.value.content, old(readOffset), chunkBytes, readOffset))
      ensures dir.main.Some? && WasRotated(Disk(), old(readOffset), old(inode)) ==> offset == 0
      ensures var first := FirstEntry(Disk(), old(State()));
              first.Some? && Delivers(parse, Disk(), chunkBytes, first.value) ==> ys != []
      ensures dir.main.None? ==> ys == [] && State() == old(State())
    {
      hide Delivers, StartPlan;
      ghost var d := Disk();
      ghost var clean := Identified(d) && CleanState(parse, d, State());
      AcceptedNil(accept);
      EmptyPrefix(Remaining(parse, d, State()));
      hide Accepted, Remaining, CleanState, CleanFrom, Started, WasRotated, AtEnd, Identified, Current, Lines, Scan,
        LaterLine, Window, WholeWindow;
      ys := [];
      var left := quota;
      if dir.main.None? {
        NoMain(d, State());
        return;
      }
      if WasRotated(Disk(), readOffset, inode) {
        RotationSeen(parse, d, State());
        FirstOfStarted(d, State());
        StartDrain();
        EmptyPrefix(Remaining(parse, d, State()));
        ys, left := DrainStep(accept, left);
        if left == 0 || plan.Some? {
          return;
        }
        if Identified(d) { NotRotatedNow(d, State()); }
      }
      ghost var drained, before := ys, State();
      NotShrunk(d, readOffset, inode);
      LaterLineIs(dir.main.value.content, readOffset, readOffset);
      inode := Usable(dir.main.value.identity);
      if Identified(d) { SameFile(parse, d, before); }
      if |dir.main.value.content| <= readOffset {
        if clean { NothingNew(parse, d, State()); }
        EmptyWindow(dir.main.value.content, readOffset, chunkBytes);
        return;
      }
      ghost var from := State();
      var more;
      more, left := ReadMain(accept, left);
      LaterLineIs(dir.main.value.content, from.readOffset, readOffset);
      if Identified(d) { MainRead(parse, d, from, readOffset, more); }
      AcceptedAppend(accept, ys, more);
      Reassociate(ys, more, Remaining(parse, d, State()));
      ys := ys + more;
    }
  }

  /** The reader stands at the end of the current main file, with no catch-up pending. */
  ghost predicate AtEnd(d: Disk, st: TailState) {
    && st.plan.None?
    && (d.main.Some? ==> st.inode == Usable(d.main.value.identity) && st.readOffset == |d.main.value.content|)
  }

  /** The reader takes the current main file for its own: a catch-up towards it is under
      way, or none is needed. */
  ghost predicate OnMain(d: Disk, st: TailState) {
    d.main.Some? && st.inode == Usable(d.main.value.identity)
      && (st.plan.Some? || !WasRotated(d, st.readOffset, st.inode))
  }

  /** The next record ahead fits one read. */
  ghost predicate NextFits(parse: Parser, limit: nat, d: Disk, st: TailState) {
    Remaining(parse, d, st) != [] && Remaining(parse, d, st)[0].size <= limit
  }

  lemma NothingLeft(parse: Parser, d: Disk, st: TailState)
    requires AtEnd(d, st) && Identified(d)
    ensures Remaining(parse, d, st) == []
  {
    if d.main.Some? {
      var content := d.main.value.content;
      var end := content[|content|..];
      assert end == [];
      LinesUnfold(end);
      NothingToScan(parse, content, |content|);
    }
  }

  lemma BlockedAhead(parse: Parser, limit: nat, d: Disk, st: TailState)
    requires limit > 0 && Identified(d) && CleanState(parse, d, st) && Blocked(limit, d, st)
    ensures Remaining(parse, d, st) != [] && Remaining(parse, d, st)[0].size > limit
  {
    hide Clean, Scan, Drain, SettledYields, StartPlan, Shifted, RebuiltYields;
    if st.plan.Some? {
      var e := st.plan.value[0];
      var content := d.rotated[e.index].content;
      OverlongNext(parse, limit, content, e.start);
      CatchUpFirst(parse, d, st, st.plan.value);
    } else {
      OverlongNext(parse, limit, d.main.value.content, st.readOffset);
      SettledMain(parse, d, st);
    }
  }

  lemma CatchUpFirst(parse: Parser, d: Disk, st: TailState, plan: seq<PlanEntry>)
    requires plan != [] && Current(d, plan) && !Spent(d, plan[0])
    ensures CatchUpYields(parse, d, st, plan) ==
            Drain(parse, d.rotated[plan[0].index].content, plan[0].start) + CatchUpYields(parse, d, st, plan[1..])
  {
    hide Drain, SettledYields, RebuiltYields;
    assert plan[0].index in d.rotated && !Shifted(d, plan[0]);
  }

  lemma SettledMain(parse: Parser, d: Disk, st: TailState)
    requires Identified(d) && d.main.Some? && st.inode == Usable(d.main.value.identity)
    requires st.readOffset <= |d.main.value.content|
    ensures !WasRotated(d, st.readOffset, st.inode)
    ensures SettledYields(parse, d, st) == Scan(parse, d.main.value.content, st.readOffset)
  {
    hide Scan, RebuiltYields;
  }

  lemma MovedIff(parse: Parser, limit: nat, d: Disk, was: TailState, now: TailState, ys: seq<Yield>)
    requires limit > 0 && Identified(d) && CleanState(parse, d, now) && Fit(limit, ys)
    requires Remaining(parse, d, was) == ys + Remaining(parse, d, now)
    requires ys == [] ==> AtEnd(d, now) || Blocked(limit, d, now)
    ensures ys != [] <==> NextFits(parse, limit, d, was)
  {
    hide CleanState, Remaining, Blocked, AtEnd, Identified;
    EmptyPrefix(Remaining(parse, d, now));
    if ys == [] {
      if Blocked(limit, d, now) { BlockedAhead(parse, limit, d, now); } else { NothingLeft(parse, d, now); }
    } else {
      assert Remaining(parse, d, was)[0] == ys[0];
    }
  }

  /** With its catch-up done, a reader that had settled on the main file reads on in it. */
  lemma SettledStays(parse: Parser, d: Disk, was: TailState, now: TailState)
    requires Identified(d) && CleanState(parse, d, was) && now.plan.None?
    requires was.plan.None? ==> now == was
    requires was.plan.Some? ==> now == was.(plan := None)
    ensures OnMain(d, was) ==>
              d.main.Some? && !WasRotated(d, now.readOffset, now.inode)
                && now.inode == was.inode == Usable(d.main.value.identity)
    ensures d.main.Some? && !WasRotated(d, now.readOffset, now.inode) ==> now.readOffset <= |d.main.value.content|
  {
  }

  lemma EmptyPrefix(ys: seq<Yield>)
    ensures [] + ys == ys
  {
  }

  lemma BlockedInPlan(limit: nat, d: Disk, st: TailState)
    requires st.plan.Some? && st.plan.value != [] && st.plan.value[0].index in d.rotated
    requires Overlong(limit, d.rotated[st.plan.value[0].index].content, st.plan.value[0].start)
    ensures Blocked(limit, d, st)
  {
  }

  lemma StartedParts(d: Disk, st: TailState)
    ensures var now := Started(d, st); now.plan.Some? && now.offset == 0 && now.readOffset == 0
  {
  }

  lemma NoMain(d: Disk, st: TailState)
    requires d.main.None? && st.plan.None?
    ensures AtEnd(d, st)
  {
  }

  lemma RotationSeen(parse: Parser, d: Disk, st: TailState)
    requires d.main.Some? && st.plan.None? && WasRotated(d, st.readOffset, st.inode)
    ensures var now := Started(d, st);
            && now.plan.Some? && Current(d, now.plan.value)
            && now.offset == 0 && now.readOffset == 0 && now.inode == Usable(d.main.value.identity)
            && (Identified(d) ==> Remaining(parse, d, now) == Remaining(parse, d, st))
            && (Identified(d) && CleanState(parse, d, st) ==> CleanState(parse, d, now))
  {
    if Identified(d) { StartedYields(parse, d, st); }
    StartPlanIsCurrent(d, st.offset, st.inode);
    hide StartPlan, Current, CleanFrom, RebuiltYields;
  }

  /** Once caught up, the new main file is the reader's own. */
  lemma NotRotatedNow(d: Disk, st: TailState)
    requires d.main.Some? && Identified(d)
    requires st.plan.None? && st.readOffset == 0 && st.inode == Usable(d.main.value.identity)
    ensures !WasRotated(d, st.readOffset, st.inode)
  {
  }

  lemma NotShrunk(d: Disk, readOffset: nat, inode: Option<int>)
    requires d.main.Some?
    ensures !WasRotated(d, readOffset, inode) ==> readOffset <= |d.main.value.content|
  {
  }

  lemma SameFile(parse: Parser, d: Disk, st: TailState)
    requires Identified(d) && d.main.Some? && st.plan.None? && !WasRotated(d, st.readOffset, st.inode)
    ensures var now := st.(inode := Usable(d.main.value.identity));
            && !WasRotated(d, now.readOffset, now.inode)
            && Remaining(parse, d, now) == Remaining(parse, d, st)
            && (CleanState(parse, d, st) ==> CleanState(parse, d, now))
  {
    hide CleanFrom, MainYields;
  }

  lemma NothingNew(parse: Parser, d: Disk, st: TailState)
    requires d.main.Some? && st.plan.None? && !WasRotated(d, st.readOffset, st.inode)
    requires st.inode == Usable(d.main.value.identity) && |d.main.value.content| <= st.readOffset
    ensures AtEnd(d, st)
  {
  }

  lemma MainRead(parse: Parser, d: Disk, st: TailState, readOffset: nat, ys: seq<Yield>)
    requires Identified(d) && d.main.Some? && st.plan.None? && !WasRotated(d, st.readOffset, st.inode)
    requires st.inode == Usable(d.main.value.identity) && readOffset <= |d.main.value.content|
    requires Scan(parse, d.main.value.content, st.readOffset) == ys + Scan(parse, d.main.value.content, readOffset)
    ensures var now := st.(readOffset := readOffset);
            && Remaining(parse, d, st) == ys + Remaining(parse, d, now)
            && (CleanState(parse, d, st) ==> CleanFrom(parse, d.main.value.content, st.readOffset))
            && (CleanState(parse, d, st) && CleanFrom(parse, d.main.value.content, readOffset) ==>
                  CleanState(parse, d, now))
  {
    hide CleanFrom, Scan;
  }

  lemma CatchUpHead(parse: Parser, d: Disk, st: TailState)
    requires st.plan.Some? && st.plan.value != []
    ensures Spent(d, st.plan.value[0]) ==>
              Remaining(parse, d, st) == Remaining(parse, d, st.(plan := Some(st.plan.value[1..])))
    ensures !Spent(d, st.plan.value[0]) && Shifted(d, st.plan.value[0]) ==>
              Remaining(parse, d, st) == RebuiltYields(parse, d, st.offset, st.inode)
  {
    hide EntryYields, SettledYields, RebuiltYields, Shifted;
    CatchUpIgnoresPlan(parse, d, st, st.plan.value[1..], Some(st.plan.value[1..]));
  }

  lemma CurrentUnless(d: Disk, plan: seq<PlanEntry>)
    ensures Current(d, plan) && plan != [] ==>
              plan[0].index in d.rotated && !Shifted(d, plan[0]) && Current(d, plan[1..])
  {
    hide Shifted;
    assert forall i :: 0 <= i < |plan| - 1 ==> plan[1..][i] == plan[i + 1];
  }

  lemma CurrentRead(parse: Parser, d: Disk, was: seq<PlanEntry>, now: seq<PlanEntry>, ys: seq<Yield>)
    requires was != [] && GenerationRead(parse, d, was, now, ys) && Current(d, was)
    ensures Current(d, now)
  {
    hide EntryYields;
    CurrentUnless(d, was);
    if now != was[1..] {
      assert forall i :: 1 <= i < |now| ==> now[i] == was[i];
    }
  }

  lemma CleanHead(parse: Parser, d: Disk, st: TailState)
    requires CleanState(parse, d, st) && st.plan.Some? && st.plan.value != []
    ensures st.plan.value[0].index in d.rotated && !Shifted(d, st.plan.value[0])
    ensures CleanFrom(parse, d.rotated[st.plan.value[0].index].content, st.plan.value[0].start)
  {
    hide CleanFrom;
  }

  /** What is still to come after a step through the plan's first generation. */
  lemma CatchUpRead(parse: Parser, d: Disk, st: TailState, now: seq<PlanEntry>, ys: seq<Yield>)
    requires st.plan.Some? && st.plan.value != [] && GenerationRead(parse, d, st.plan.value, now, ys)
    requires !Spent(d, st.plan.value[0]) && !Shifted(d, st.plan.value[0])
    ensures Remaining(parse, d, st) == ys + Remaining(parse, d, st.(plan := Some(now)))
  {
    hide EntryYields, SettledYields, RebuiltYields;
    var was := st.plan.value;
    CatchUpIgnoresPlan(parse, d, st, now, Some(now));
    if !(now == was[1..] && EntryYields(parse, d, was[0]) == ys) {
      assert now[1..] == was[1..];
      if Spent(d, now[0]) {
        SpentYieldsNothing(parse, d, now[0]);
      }
      Reassociate(ys, EntryYields(parse, d, now[0]), CatchUpYields(parse, d, st, now[1..]));
      Reassociate(EntryYields(parse, d, now[0]), CatchUpYields(parse, d, st, now[1..]), []);
    }
  }

  lemma CleanIsCurrent(parse: Parser, d: Disk, st: TailState)
    requires CleanState(parse, d, st) && st.plan.Some?
    ensures d.main.Some? && Identified(d) && st.readOffset == 0 && st.inode == Usable(d.main.value.identity)
    ensures Current(d, st.plan.value)
    ensures forall i :: 0 <= i < |st.plan.value| ==> !Spent(d, st.plan.value[i]) ==> !Shifted(d, st.plan.value[i])
  {
  }

  lemma CleanRest(parse: Parser, d: Disk, st: TailState)
    requires st.plan.Some? && st.plan.value != []
    ensures CleanState(parse, d, st) ==> CleanState(parse, d, st.(plan := Some(st.plan.value[1..])))
  {
    var rest := st.plan.value[1..];
    assert forall i :: 0 <= i < |rest| ==> rest[i] == st.plan.value[i + 1];
    hide CleanFrom;
  }

  lemma CleanRead(parse: Parser, d: Disk, st: TailState, now: seq<PlanEntry>, ys: seq<Yield>)
    requires st.plan.Some? && st.plan.value != [] && GenerationRead(parse, d, st.plan.value, now, ys)
    requires st.plan.value[0].index in d.rotated
    requires CleanFrom(parse, d.rotated[st.plan.value[0].index].content, st.plan.value[0].start) ==>
               now == st.plan.value[1..] || CleanFrom(parse, d.rotated[st.plan.value[0].index].content, now[0].start)
    ensures CleanState(parse, d, st) ==> CleanState(parse, d, st.(plan := Some(now)))
    ensures CleanState(parse, d, st) ==>
              CleanFrom(parse, d.rotated[st.plan.value[0].index].content, st.plan.value[0].start)
  {
    hide CleanFrom, EntryYields, StartPlan, WasRotated;
    var was := st.plan.value;
    CleanRest(parse, d, st);
    if now != was[1..] {
      assert forall i :: 1 <= i < |now| ==> now[i] == was[i];
    }
  }

  /** With the plan used up, the reader is where a settled reader is. */
  lemma CaughtUp(parse: Parser, d: Disk, st: TailState)
    ensures st.plan == Some([]) ==> Remaining(parse, d, st) == Remaining(parse, d, st.(plan := None))
    ensures st.plan == Some([]) && CleanState(parse, d, st) ==> CleanState(parse, d, st.(plan := None))
  {
    SettledIgnoresPlan(parse, d, st, None);
  }

  lemma SettledIgnoresPlan(parse: Parser, d: Disk, st: TailState, plan: Option<seq<PlanEntry>>)
    ensures SettledYields(parse, d, st.(plan := plan)) == SettledYields(parse, d, st)
  {
    hide RebuiltYields, MainYields;
  }

  lemma {:induction false} CatchUpIgnoresPlan(parse: Parser, d: Disk, st: TailState, entries: seq<PlanEntry>,
                                              plan: Option<seq<PlanEntry>>)
    ensures CatchUpYields(parse, d, st.(plan := plan), entries) == CatchUpYields(parse, d, st, entries)
  {
    hide RebuiltYields, EntryYields;
    if entries == [] {
      SettledIgnoresPlan(parse, d, st, plan);
    } else {
      CatchUpIgnoresPlan(parse, d, st, entries[1..], plan);
    }
  }

  lemma AcceptedNil(accept: Event -> bool)
    ensures Accepted(accept, []) == 0
  {
  }

  lemma LineYieldIs(parse: Parser, line: Bytes, offset: nat)
    ensures LineYield(parse, line, offset) ==
            if Decode(parse, line).Some? then [Yield(offset, Decode(parse, line).value, |line| + 1)] else []
  {
    hide Decode;
  }

  lemma CleanFromIs(parse: Parser, content: Bytes, pos: nat)
    ensures CleanFrom(parse, content, pos) == (pos <= |content| ==> Clean(parse, content[pos..]))
  {
    hide Clean;
  }

  /** A clean chunk starts with a whole record that fits and, at the end of the file, has no tail. */
  lemma LinesBegin(parse: Parser, limit: nat, content: Bytes, start: nat, end: nat, clean: bool)
    requires start < end <= |content|
    requires clean ==> Clean(parse, content[start..])
    ensures clean && (end == |content| || end - start >= limit) && Lines(content[start..end]) == [] ==>
              end < |content| && (end == start + limit ==> Overlong(limit, content, start))
    ensures clean && end == |content| ==> Tail(content[start..end]) == [] && IsBlank(Tail(content[start..end]))
    ensures [] + Drain(parse, content, start) == Drain(parse, content, start)
  {
    if clean {
      hide Lines, Drain;
      if end == |content| || end - start >= limit {
        CleanChunk(parse, limit, content, start, end);
      }
      if end == |content| {
        assert content[start..end] == content[start..];
      }
    }
  }

  /** Reading the next line of a chunk, or its unterminated tail. */
  lemma LineRead(parse: Parser, content: Bytes, pos: nat, end: nat, line: Bytes, complete: bool, clean: bool)
    requires pos <= end <= |content|
    requires complete ==> Lines(content[pos..end]) != [] && Lines(content[pos..end])[0] == line
    requires !complete ==>
              end == |content| && Lines(content[pos..end]) == [] && Tail(content[pos..end]) == line && !IsBlank(line)
    requires clean ==> Clean(parse, content[pos..])
    ensures var next := pos + |line| + 1;
            && Drain(parse, content, pos) == LineYield(parse, line, 0) + Drain(parse, content, next)
            && (complete ==> Scan(parse, content, pos) == LineYield(parse, line, next) + Scan(parse, content, next))
            && (complete ==>
                  && next <= end && content[next - 1] == LF
                  && Lines(content[next..end]) == Lines(content[pos..end])[1..]
                  && Tail(content[next..end]) == Tail(content[pos..end]))
            && (!complete ==> next == |content| + 1 && !clean)
            && (clean ==> next <= |content| && Clean(parse, content[next..]) && Decode(parse, line).Some?)
  {
    hide *;
    var next := pos + |line| + 1;
    if complete {
      TakeLine(parse, content, pos, end);
      if clean { CleanStep(parse, content, pos); }
    } else {
      assert content[pos..end] == content[pos..];
      NoLine(content[pos..]);
      NothingToScan(parse, content, pos);
      PastTheEnd(parse, content, next);
      assert LineYield(parse, line, 0) + [] == LineYield(parse, line, 0);
      if clean { CleanTail(parse, content[pos..]); }
    }
  }

  lemma PastTheEnd(parse: Parser, content: Bytes, pos: nat)
    requires pos > |content|
    ensures Drain(parse, content, pos) == [] && Scan(parse, content, pos) == []
  {
  }

  lemma CleanTail(parse: Parser, s: Bytes)
    requires Clean(parse, s)
    ensures IsBlank(Tail(s))
  {
    hide Lines, Tail, Decode;
  }

  /** Once every line is read, nothing of a finished generation is left. */
  lemma LinesEnd(parse: Parser, content: Bytes, pos: nat, end: nat, tail: Bytes, applies: bool)
    requires end <= |content|
    requires applies ==>
               && pos <= end == |content| && Lines(content[pos..end]) == []
               && Tail(content[pos..end]) == tail && IsBlank(tail)
    ensures applies ==> Drain(parse, content, pos) == []
    ensures pos > |content| ==> Drain(parse, content, pos) == []
  {
    if applies {
      assert content[pos..end] == content[pos..];
      NoLine(content[pos..]);
      NothingToScan(parse, content, pos);
    }
  }

  /** A step through the plan's first generation: it is finished and dropped, or its
      position moves on; either way nothing is lost or repeated. */
  ghost predicate GenerationRead(parse: Parser, d: Disk, was: seq<PlanEntry>, now: seq<PlanEntry>, ys: seq<Yield>)
    requires was != []
  {
    || (now == was[1..] && EntryYields(parse, d, was[0]) == ys)
    || (now != [] && now == [was[0].(start := now[0].start)] + was[1..] && was[0].start <= now[0].start
        && EntryYields(parse, d, was[0]) == ys + EntryYields(parse, d, now[0]))
  }

  /** The plan for generations `top..1` has been built down to generation `index + 1`. */
  ghost predicate PlannedDownTo(rotated: map<nat, LogFile>, index: nat, top: nat, first: nat, entries: seq<PlanEntry>)
    requires forall i: nat :: 1 <= i <= top ==> i in rotated
  {
    if index >= top then entries == [] else entries + Entries(rotated, index, 0) == Entries(rotated, top, first)
  }

  lemma PlanBegins(rotated: map<nat, LogFile>, top: nat, first: nat)
    requires forall i: nat :: 1 <= i <= top ==> i in rotated
    ensures forall index: nat :: index >= top ==> PlannedDownTo(rotated, index, top, first, [])
  {
  }

  function NextEntry(rotated: map<nat, LogFile>, index: nat, top: nat, first: nat): PlanEntry
    requires index in rotated
  {
    PlanEntry(index, if index == top then first else 0, Usable(rotated[index].identity))
  }

  lemma PlanStep(rotated: map<nat, LogFile>, index: nat, top: nat, first: nat, entries: seq<PlanEntry>)
    requires forall i: nat :: 1 <= i <= top ==> i in rotated
    requires index > 0 && PlannedDownTo(rotated, index, top, first, entries)
    ensures index > top ==> PlannedDownTo(rotated, index - 1, top, first, entries)
    ensures index <= top ==>
              PlannedDownTo(rotated, index - 1, top, first,
                            entries + [NextEntry(rotated, index, top, first)])
  {
    if index <= top {
      var e := NextEntry(rotated, index, top, first);
      Reassociate(entries, [e], Entries(rotated, index - 1, 0));
    }
  }

  lemma StartPlanIs(d: Disk, offset: nat, inode: Option<int>)
    ensures var checkpoint := if offset > 0 then CheckpointIndex(d.rotated, inode) else 0;
            StartPlan(d, offset, inode) ==
            Entries(d.rotated, if checkpoint > 0 then checkpoint else RotatedCount(d.rotated),
                    if checkpoint > 0 then offset else 0)
  {
    hide Entries, LastIndex, Holding;
  }

  lemma PlanEnds(rotated: map<nat, LogFile>, top: nat, first: nat, entries: seq<PlanEntry>)
    requires forall i: nat :: 1 <= i <= top ==> i in rotated
    requires PlannedDownTo(rotated, 0, top, first, entries)
    ensures entries == Entries(rotated, top, first)
  {
    assert entries + [] == entries;
  }
}
