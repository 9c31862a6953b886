/** How the log reader reaches the states in which a restart loses records. */
module TailLosses {
  import opened Octets
  import opened LogLines
  import opened AuditLog
  import opened TailPlan
  import opened AuditTailing
  import opened LogDelivery

  /** A reader that acknowledged nothing and finds the file it read rotated away has
      everything retained in front of it. */
  lemma EverythingAhead(parse: Parser, d: Disk, gens: seq<Generation>, st: TailState)
    requires Holds(d, gens) && Legible(parse, gens) && 1 < |gens| <= MAX_ROTATED + 1
    requires st.plan.None? && st.offset == 0 && (st.inode.Some? ==> st.inode != Some(gens[0].identity))
    ensures Sees(parse, d, st, InOrder(gens))
  {
    hide RecordItems, Items, AreRecords, Flatten, Scan, CleanFrom, CleanPlan, Entries, PlanYields, Legible, LastIndex,
      InOrder;
    LegibleIs(parse, gens, 0);
    MainFrom(parse, gens[0].records);
    LastIndexOf(d.rotated, gens, 1);
    hide Stores;
    AllGenerations(parse, d, gens);
  }

  /** One read that stops behind the first event. */
  method ReadOne(tail: AuditTail, ghost rs: seq<Bytes>) returns (y: Yield)
    requires tail.Valid() && Sees(tail.parse, tail.Disk(), tail.State(), rs)
    requires rs != [] && |rs[0]| <= tail.chunkBytes && tail.dir.main.Some?
    modifies tail`plan, tail`offset, tail`readOffset, tail`inode
    ensures tail.Valid() && Sees(tail.parse, tail.Disk(), tail.State(), rs[1..])
    ensures AreRecords(tail.parse, [rs[0]]) && [Item(y.event, y.size)] == RecordItems(tail.parse, [rs[0]])
    ensures y.offset == tail.readOffset && OnMain(tail.Disk(), tail.State())
    ensures tail.offset == old(tail.offset) || tail.offset == 0
    ensures old(tail.plan).None? && !WasRotated(tail.Disk(), old(tail.readOffset), old(tail.inode)) ==> tail.plan.None?
  {
    hide Remaining, CleanState, Identified, RecordItems, AreRecords, Items, OnMain, NextFits, WasRotated, LaterLine,
      Scan;
    ghost var parse, d, st := tail.parse, tail.Disk(), tail.State();
    FirstRecord(parse, rs);
    FirstFits(parse, tail.chunkBytes, d, st, rs);
    var accept := (e: Event) => true;
    var ys := tail.ReadNew(accept, 1);
    AllAccepted(accept, ys);
    SettledAfter(parse, d, st, tail.State());
    ItemsAppend(ys, Remaining(parse, d, tail.State()));
    y := ys[0];
    FirstTaken(parse, rs, ys, Items(Remaining(parse, d, tail.State())));
  }

  lemma FirstRecord(parse: Parser, rs: seq<Bytes>)
    requires AreRecords(parse, rs) && rs != []
    ensures AreRecords(parse, [rs[0]]) && AreRecords(parse, rs[1..])
    ensures RecordItems(parse, rs) == RecordItems(parse, [rs[0]]) + RecordItems(parse, rs[1..])
    ensures |RecordItems(parse, [rs[0]])| == 1 && RecordItems(parse, [rs[0]])[0].size == |rs[0]|
  {
    hide Decode, IsRecord;
    assert rs[0] in rs;
    assert forall i :: 0 <= i < |rs| - 1 ==> rs[1..][i] in rs;
  }

  lemma FirstFits(parse: Parser, limit: nat, d: Disk, st: TailState, rs: seq<Bytes>)
    requires Sees(parse, d, st, rs) && rs != [] && |rs[0]| <= limit
    ensures NextFits(parse, limit, d, st)
  {
    hide Remaining, CleanState, Identified;
    FirstRecord(parse, rs);
    hide RecordItems, AreRecords;
    assert Items(Remaining(parse, d, st))[0].size == |rs[0]|;
  }

  lemma {:induction false} AllAccepted(accept: Event -> bool, ys: seq<Yield>)
    requires forall e :: accept(e)
    ensures Accepted(accept, ys) == |ys|
  {
    if ys != [] { AllAccepted(accept, ys[..|ys| - 1]); }
  }

  lemma FirstTaken(parse: Parser, rs: seq<Bytes>, ys: seq<Yield>, left: seq<Item>)
    requires AreRecords(parse, rs) && rs != [] && |ys| == 1
    requires RecordItems(parse, rs) == Items(ys) + left
    ensures AreRecords(parse, [rs[0]]) && AreRecords(parse, rs[1..])
    ensures [Item(ys[0].event, ys[0].size)] == RecordItems(parse, [rs[0]]) && left == RecordItems(parse, rs[1..])
  {
    FirstRecord(parse, rs);
    hide RecordItems, AreRecords;
    assert Items(ys) == [Item(ys[0].event, ys[0].size)];
    var all := Items(ys) + left;
    assert all[0] == Items(ys)[0] && all[1..] == left;
    assert (RecordItems(parse, [rs[0]]) + RecordItems(parse, rs[1..]))[1..] == RecordItems(parse, rs[1..]);
  }

  /** The writer's first record. */
  lemma FirstWritten(parse: Parser, writer: AuditWriter, d: Disk, st: TailState, r: Bytes)
    requires writer.Valid() && d == TailPlan.Disk(writer.dir.main, writer.dir.rotated) && IsRecord(parse, r)
    requires writer.gens == [Generation(1, [r])] && st == TailState(0, 0, None, None)
    ensures Sees(parse, d, st, [r]) && d.main == Some(LogFile(1, r)) && !WasRotated(d, 0, None)
  {
    FlattenOne(r);
    OneGeneration(writer.gens);
    WriterHolds(writer, d);
    SettledRemaining(parse, d, writer.gens, st, Unstarted);
    LastIndexOf(d.rotated, writer.gens, 1);
    hide Sees, Stores, LastIndex;
  }

  /** A record that does not fit behind those of the main file gets a file of its own. */
  lemma RecordedApart(gens: seq<Generation>, budget: nat, keep: nat, identity: nat, r: Bytes)
    requires |gens| == 1 && gens[0].records != [] && 0 < SizeOf(gens) <= budget < SizeOf(gens) + |r| && keep >= 1
    ensures Recorded(gens, Some(budget), keep, identity, r) == [Generation(identity, [r]), gens[0]]
    ensures Pruned(gens, Some(budget), keep, r) == []
  {
    assert gens[..1] == gens;
    NothingInOrder();
  }

  lemma NewIdentity(writer: AuditWriter)
    requires writer.Valid()
    ensures forall i :: 0 <= i < |writer.gens| ==> writer.gens[i].identity < writer.dir.nextIdentity
  {
  }

  lemma TwoRecords(parse: Parser, r1: Bytes, r2: Bytes)
    requires IsRecord(parse, r1) && IsRecord(parse, r2)
    ensures AreRecords(parse, [r1, r1]) && AreRecords(parse, [r1, r2])
    ensures RecordItems(parse, [r1, r1]) == RecordItems(parse, [r1]) + RecordItems(parse, [r1])
  {
    hide Decode;
  }

  lemma RotatedAhead(parse: Parser, writer: AuditWriter, d: Disk, st: TailState, gens: seq<Generation>, rs: seq<Bytes>)
    requires writer.Valid() && d == TailPlan.Disk(writer.dir.main, writer.dir.rotated) && writer.gens == gens
    requires |gens| == 2
    requires AreRecords(parse, rs) && gens[1].records + gens[0].records == rs
    requires st.plan.None? && st.offset == 0 && (st.inode.Some? ==> st.inode != Some(gens[0].identity))
    ensures Sees(parse, d, st, rs) && d.main.Some? && d.main.value.content == Flatten(gens[0].records)
  {
    hide IsRecord, Flatten;
    WriterHolds(writer, d);
    assert forall r :: r in gens[0].records || r in gens[1].records ==> r in rs;
    assert Legible(parse, gens);
    InOrderCons(gens[0], [gens[1]]);
    assert gens == [gens[0]] + [gens[1]];
    OneGeneration([gens[1]]);
    EverythingAhead(parse, d, gens, st);
    hide Sees, Stores;
  }

  /** A reader that has everything of a clean main file behind it. */
  lemma AllBehind(parse: Parser, d: Disk, st: TailState)
    requires Sees(parse, d, st, []) && st.plan.None? && OnMain(d, st)
    ensures st.readOffset == |d.main.value.content|
  {
    hide CleanFrom, Scan, StartPlan, RebuiltYields;
    TotalNil();
    CleanTotal(parse, d.main.value.content, st.readOffset);
    hide Items;
  }

  /** One record is written and read, but not acknowledged. */
  method WriteAndRead(parse: Parser, chunkBytes: nat, line: Bytes)
    returns (writer: AuditWriter, reader: AuditTail, y: Yield)
    requires IsRecord(parse, line + [LF]) && |line| < chunkBytes
    ensures fresh(writer) && fresh(writer.dir) && fresh(reader) && writer.Valid() && writer.enabled
    ensures writer.dropped == []
    ensures writer.gens == [Generation(1, [line + [LF]])] && writer.budget == Some(|line| + 1) && writer.keepFiles == 1
    ensures reader.Valid() && reader.parse == parse && reader.chunkBytes == chunkBytes && reader.dir == writer.dir
    ensures reader.State() == TailState(0, |line| + 1, Some(1), None) && y.offset == |line| + 1
    ensures AreRecords(parse, [line + [LF]]) && [Item(y.event, y.size)] == RecordItems(parse, [line + [LF]])
  {
    hide Sees, IsRecord, RecordItems, AreRecords, Remaining, WasRotated, OnMain, Flatten;
    ghost var r := line + [LF];
    writer := new AuditWriter(true, Some(|line| + 1), 1);
    reader := new AuditTail(parse, chunkBytes, writer.dir, Unreadable);
    var ok := writer.Record(line);
    NothingInOrder();
    FirstWritten(parse, writer, reader.Disk(), reader.State(), r);
    y := ReadOne(reader, [r]);
    assert [r][1..] == [];
    AllBehind(parse, reader.Disk(), reader.State());
    SettledParts(reader.Disk(), reader.State());
  }

  /** The next record rotates the log. */
  method WriteNext(parse: Parser, writer: AuditWriter, line1: Bytes, line2: Bytes, ghost d: Disk, ghost st: TailState)
    returns (ghost now: Disk)
    requires writer.Valid() && writer.enabled && writer.gens == [Generation(1, [line1 + [LF]])]
    requires writer.budget == Some(|line1| + 1) && writer.keepFiles == 1
    requires IsRecord(parse, line1 + [LF]) && IsRecord(parse, line2 + [LF])
    requires st == TailState(0, |line1| + 1, Some(1), None)
    modifies writer, writer.dir
    ensures writer.Valid() && writer.History() == old(writer.History()) + [line2 + [LF]]
    ensures writer.dropped == old(writer.dropped)
    ensures now == TailPlan.Disk(writer.dir.main, writer.dir.rotated)
    ensures now.main.Some? && now.main.value.content == line2 + [LF]
    ensures Sees(parse, now, st, [line1 + [LF], line2 + [LF]])
  {
    hide Sees, IsRecord, RecordItems, AreRecords, Flatten, InOrder;
    ghost var r1, r2, gens, identity := line1 + [LF], line2 + [LF], writer.gens, writer.dir.nextIdentity;
    FlattenOne(r1);
    FlattenOne(r2);
    RecordedApart(gens, |line1| + 1, 1, identity, r2);
    TwoRecords(parse, r1, r2);
    NewIdentity(writer);
    var ok := writer.Record(line2);
    now := TailPlan.Disk(writer.dir.main, writer.dir.rotated);
    RotatedAhead(parse, writer, now, st, [Generation(identity, [r2]), Generation(1, [r1])], [r1, r2]);
  }

  /** Two records of one length, the second of which rotates the log: the reporter holds the
      first one unacknowledged when it notices, its checkpoint is stored only then, and the
      restarted reporter takes the second one for acknowledged. It was never delivered. */
  method StaleCommitLosesRecord(parse: Parser, chunkBytes: nat, line1: Bytes, line2: Bytes)
    returns (writer: AuditWriter, tail: AuditTail, delivered: seq<Item>)
    requires IsRecord(parse, line1 + [LF]) && IsRecord(parse, line2 + [LF])
    requires |line1| == |line2| < chunkBytes
    ensures writer.Valid() && writer.History() == [line1 + [LF], line2 + [LF]] && writer.dropped == []
    ensures tail.Valid() && tail.parse == parse && tail.dir == writer.dir && tail.State() == Loaded(tail.cursor)
    ensures AreRecords(parse, [line1 + [LF], line1 + [LF]])
    ensures delivered == RecordItems(parse, [line1 + [LF], line1 + [LF]])
    ensures Remaining(parse, tail.Disk(), tail.State()) == []
  {
    hide Sees, IsRecord, RecordItems, AreRecords, Items, Remaining, WasRotated, OnMain, Flatten, InOrder, Loaded;
    ghost var r1, r2 := line1 + [LF], line2 + [LF];
    var reader, first;
    writer, reader, first := WriteAndRead(parse, chunkBytes, line1);
    OneGeneration(writer.gens);
    ghost var now := WriteNext(parse, writer, line1, line2, reader.Disk(), reader.State());
    var second := ReadOne(reader, [r1, r2]);
    OnMainParts(parse, reader.Disk(), reader.State(), [r1, r2][1..]);
    reader.Commit(first.offset);
    StaleCommit(parse, reader.Disk(), reader.State(), first.offset);
    NothingScanned(parse, r2);
    tail := new AuditTail(parse, chunkBytes, writer.dir, reader.cursor);
    delivered := [Item(first.event, first.size), Item(second.event, second.size)];
    TwoRecords(parse, r1, r2);
  }

  lemma OnMainParts(parse: Parser, d: Disk, st: TailState, rs: seq<Bytes>)
    requires OnMain(d, st) && Sees(parse, d, st, rs)
    ensures d.main.Some? && Identified(d) && st.inode == Usable(d.main.value.identity)
  {
    hide CleanState, Remaining;
  }

  lemma NothingScanned(parse: Parser, content: Bytes)
    ensures Scan(parse, content, |content|) == []
  {
    NothingBehind(parse, content, |content|);
    assert content[..|content|] == content;
  }

  /** Three records in a file of their own each. */
  method WriteThree(parse: Parser, line1: Bytes, line2: Bytes, line3: Bytes) returns (writer: AuditWriter)
    requires IsRecord(parse, line1 + [LF]) && IsRecord(parse, line2 + [LF]) && IsRecord(parse, line3 + [LF])
    ensures fresh(writer) && fresh(writer.dir) && writer.Valid() && writer.dropped == []
    ensures |writer.gens| == 3 && writer.gens[0].records == [line3 + [LF]]
    ensures AreRecords(parse, [line1 + [LF], line2 + [LF], line3 + [LF]]) && Legible(parse, writer.gens)
    ensures InOrder(writer.gens) == [line1 + [LF], line2 + [LF], line3 + [LF]]
  {
    hide IsRecord, Flatten, InOrder, Stores;
    writer := new AuditWriter(true, Some(1), 2);
    var ok := writer.Record(line1);
    NothingInOrder();
    EachApart(writer.gens, writer.dir.nextIdentity, line2 + [LF]);
    ok := writer.Record(line2);
    EachApart(writer.gens, writer.dir.nextIdentity, line3 + [LF]);
    ok := writer.Record(line3);
    InThree(parse, writer.gens, line1 + [LF], line2 + [LF], line3 + [LF]);
  }

  lemma EachApart(gens: seq<Generation>, identity: nat, r: Bytes)
    requires 1 <= |gens| <= 2 && gens[0].records != [] && gens[0].records[0] != [] && r != []
    ensures Recorded(gens, Some(1), 2, identity, r) == [Generation(identity, [r])] + gens
    ensures Pruned(gens, Some(1), 2, r) == []
  {
    hide InOrder;
    NothingInOrder();
    assert SizeOf(gens) >= |gens[0].records[0]|;
    assert gens[..|gens|] == gens && gens[|gens|..] == [];
  }

  lemma InThree(parse: Parser, gens: seq<Generation>, r1: Bytes, r2: Bytes, r3: Bytes)
    requires IsRecord(parse, r1) && IsRecord(parse, r2) && IsRecord(parse, r3)
    requires |gens| == 3 && gens[0].records == [r3] && gens[1].records == [r2] && gens[2].records == [r1]
    ensures AreRecords(parse, [r1, r2, r3]) && Legible(parse, gens) && InOrder(gens) == [r1, r2, r3]
  {
    hide Decode, IsRecord, InOrder;
    assert gens == [gens[0]] + ([gens[1]] + [gens[2]]);
    InOrderCons(gens[0], [gens[1]] + [gens[2]]);
    InOrderCons(gens[1], [gens[2]]);
    OneGeneration([gens[2]]);
  }

  /** With more than the main file can hold still ahead, the catch-up is under way. */
  lemma StillCatchingUp(parse: Parser, d: Disk, st: TailState, r: Bytes, last: Bytes)
    requires Sees(parse, d, st, [r, last]) && OnMain(d, st) && d.main.value.content == last && r != []
    ensures st.plan.Some? && CatchingUp(d, st)
  {
    hide CleanFrom, Scan, StartPlan, RebuiltYields, Items, Current, CleanPlan, RecordItems, AreRecords;
    if st.plan.None? {
      CleanTotal(parse, last, st.readOffset);
      TotalOfTwo(parse, r, last);
    }
  }

  lemma TotalOfTwo(parse: Parser, a: Bytes, b: Bytes)
    requires AreRecords(parse, [a, b])
    ensures Total(RecordItems(parse, [a, b])) == |a| + |b|
  {
    var items := RecordItems(parse, [a, b]);
    hide Decode;
    assert items == [items[0]] + [items[1]] && [items[1]] + [] == [items[1]];
    TotalNil();
    TotalCons(items[1], []);
    TotalCons(items[0], [items[1]]);
  }

  /** Three records in three files: the reporter delivers and acknowledges the first, and is
      restarted while it catches up. The second record is never delivered. */
  method RestartLosesRecord(parse: Parser, chunkBytes: nat, line1: Bytes, line2: Bytes, line3: Bytes)
    returns (writer: AuditWriter, tail: AuditTail, delivered: seq<Item>)
    requires IsRecord(parse, line1 + [LF]) && IsRecord(parse, line2 + [LF]) && IsRecord(parse, line3 + [LF])
    requires |line1| < chunkBytes
    ensures writer.Valid() && writer.History() == [line1 + [LF], line2 + [LF], line3 + [LF]] && writer.dropped == []
    ensures tail.Valid() && tail.parse == parse && tail.dir == writer.dir && tail.State() == Loaded(tail.cursor)
    ensures AreRecords(parse, [line1 + [LF]]) && delivered == RecordItems(parse, [line1 + [LF]])
    ensures AreRecords(parse, [line3 + [LF]])
    ensures Items(Remaining(parse, tail.Disk(), tail.State())) == RecordItems(parse, [line3 + [LF]])
  {
    hide Sees, IsRecord, RecordItems, AreRecords, Items, Remaining, WasRotated, OnMain, Flatten, InOrder, CatchingUp,
      Legible;
    ghost var r1, r2, r3 := line1 + [LF], line2 + [LF], line3 + [LF];
    writer := WriteThree(parse, line1, line2, line3);
    var reader := new AuditTail(parse, chunkBytes, writer.dir, Unreadable);
    StartsAhead(parse, writer, reader.Disk(), reader.State());
    var y := ReadOne(reader, [r1, r2, r3]);
    assert [r1, r2, r3][1..] == [r2, r3];
    FlattenOne(r3);
    OnMainParts(parse, reader.Disk(), reader.State(), [r2, r3]);
    StillCatchingUp(parse, reader.Disk(), reader.State(), r2, r3);
    reader.Commit(y.offset);
    AfterRestart(parse, reader.Disk(), reader.State(), r3);
    tail := new AuditTail(parse, chunkBytes, writer.dir, reader.cursor);
    delivered := [Item(y.event, y.size)];
  }

  lemma StartsAhead(parse: Parser, writer: AuditWriter, d: Disk, st: TailState)
    requires writer.Valid() && d == TailPlan.Disk(writer.dir.main, writer.dir.rotated) && Legible(parse, writer.gens)
    requires 0 < |writer.gens| <= MAX_ROTATED + 1 && st == Loaded(Unreadable)
    ensures Sees(parse, d, st, InOrder(writer.gens)) && d.main == Some(FileOf(writer.gens[0]))
  {
    WriterHolds(writer, d);
    SettledRemaining(parse, d, writer.gens, st, Unstarted);
    hide Sees, Stores, Legible;
  }

  /** The restarted reader has only the main file in front of it. */
  lemma AfterRestart(parse: Parser, d: Disk, st: TailState, last: Bytes)
    requires CatchingUp(d, st) && d.main.value.content == last && IsRecord(parse, last)
    ensures AreRecords(parse, [last])
    ensures Items(Remaining(parse, d, Loaded(Committed(st, 0)))) == RecordItems(parse, [last])
  {
    RestartInCatchUp(parse, d, st);
    StaleCommit(parse, d, st, 0);
    OneRecord(parse, last);
    FlattenOne(last);
    MainFrom(parse, [last]);
    hide IsRecord, RecordItems, Items, Scan;
  }
}
