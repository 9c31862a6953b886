/** End to end: every record the writer appends reaches the reader's consumer exactly
    once and in order, across rotations, bounded reads, abandoned reads and restarts. */
module LogDelivery {
  import opened Octets
  import opened LogLines
  import opened AuditLog
  import opened TailPlan
  import opened AuditTailing

  // ------------------------------------------------ where a settled reader stands

  /** Between polls: nothing read yet, or `j` records of generation `k` acknowledged. */
  datatype Place = Unstarted | At(k: nat, j: nat)

  ghost predicate Stands(gens: seq<Generation>, st: TailState, place: Place) {
    && st.plan.None? && st.readOffset == st.offset
    && match place
       case Unstarted => st.offset == 0 && st.inode.None? && |gens| <= MAX_ROTATED + 1
       case At(k, j) =>
         && k < |gens| && k <= MAX_ROTATED && 0 < j <= |gens[k].records|
         && st.inode == Some(gens[k].identity)
         && st.offset == |Flatten(gens[k].records[..j])|
  }

  /** The records not delivered yet, oldest first. */
  function Unread(gens: seq<Generation>, place: Place): seq<Bytes>
    requires place.At? ==> place.k < |gens| && place.j <= |gens[place.k].records|
  {
    match place
    case Unstarted => InOrder(gens)
    case At(k, j) => gens[k].records[j..] + InOrder(gens[..k])
  }

  ghost predicate Legible(parse: Parser, gens: seq<Generation>) {
    forall i :: 0 <= i < |gens| ==> AreRecords(parse, gens[i].records)
  }

  /** The disk holds exactly the generations `gens`. */
  ghost predicate Holds(d: Disk, gens: seq<Generation>) {
    && d.main == MainOf(gens) && Stores(d.rotated, gens)
    && (forall i :: 0 <= i < |gens| ==> gens[i].identity > 0 && gens[i].records != [])
    && (forall i, j :: 0 <= i < j < |gens| ==> gens[i].identity != gens[j].identity)
  }

  // --------------------------------------------------------- reading generations

  lemma {:induction false} FlattenSplit(records: seq<Bytes>, j: nat)
    requires j <= |records|
    ensures |Flatten(records[..j])| <= |Flatten(records)|
    ensures Flatten(records)[|Flatten(records[..j])|..] == Flatten(records[j..])
  {
    hide *;
    FlattenAppend(records[..j], records[j..]);
    assert records == records[..j] + records[j..];
  }

  lemma BlankTail(parse: Parser, bodies: seq<Bytes>)
    ensures ItemsOf(parse, bodies + [[]]) == ItemsOf(parse, bodies)
  {
    hide *;
    ItemsOfAppend(parse, bodies, [[]]);
    EmitNil(parse, 0);
    EmitCons(parse, [], [], 0);
    var blank: seq<Bytes> := [[]];
    assert blank + [] == blank;
    BlankItem(parse);
    assert ItemsOf(parse, bodies) + ([] + []) == ItemsOf(parse, bodies);
  }

  lemma BlankItem(parse: Parser)
    ensures LineItem(parse, []) == []
  {
  }

  /** What is read from record `j` of a generation's file, rotated or not. */
  lemma GenerationItems(parse: Parser, records: seq<Bytes>, j: nat)
    requires AreRecords(parse, records) && j <= |records|
    ensures AreRecords(parse, records[j..])
    ensures var pos := |Flatten(records[..j])|;
            && pos <= |Flatten(records)|
            && Items(Drain(parse, Flatten(records), pos)) == RecordItems(parse, records[j..])
            && Items(Scan(parse, Flatten(records), pos)) == RecordItems(parse, records[j..])
            && CleanFrom(parse, Flatten(records), pos)
  {
    var rest := records[j..];
    assert AreRecords(parse, rest);
    hide *;
    var pos := |Flatten(records[..j])|;
    FlattenSplit(records, j);
    ScanIs(parse, Flatten(records), pos);
    LinesOfRecords(parse, rest);
    ItemsOfRecords(parse, rest);
    NonEmptyRecords(parse, rest);
    SplitIs(Flatten(rest));
    BlankTail(parse, Bodies(rest));
    ItemsOfEmit(parse, Bodies(rest), pos);
    ItemsOfEmit(parse, Bodies(rest) + [[]], pos);
    CleanRecords(parse, rest);
    CleanFromIs(parse, Flatten(records), pos);
  }

  lemma NonEmptyRecords(parse: Parser, records: seq<Bytes>)
    requires AreRecords(parse, records)
    ensures forall r :: r in records ==> r != []
  {
  }

  lemma CleanRecords(parse: Parser, records: seq<Bytes>)
    requires AreRecords(parse, records)
    ensures Clean(parse, Flatten(records))
  {
    LinesOfRecords(parse, records);
    hide Lines, Tail, Flatten, Decode;
    forall i | 0 <= i < |Lines(Flatten(records))|
      ensures Decode(parse, Lines(Flatten(records))[i]).Some?
    {
      assert records[i] in records;
      RecordDecodes(parse, records[i]);
    }
  }

  lemma RecordItemsAppend(parse: Parser, a: seq<Bytes>, b: seq<Bytes>)
    requires AreRecords(parse, a) && AreRecords(parse, b)
    ensures AreRecords(parse, a + b)
    ensures RecordItems(parse, a + b) == RecordItems(parse, a) + RecordItems(parse, b)
  {
    hide Decode, IsRecord;
    forall r | r in a + b ensures IsRecord(parse, r) { assert r in a || r in b; }
    assert AreRecords(parse, a + b);
    hide RecordItem, AreRecords;
  }

  lemma {:induction false} LegibleInOrder(parse: Parser, gens: seq<Generation>)
    requires Legible(parse, gens)
    ensures AreRecords(parse, InOrder(gens))
  {
    hide AreRecords;
    if gens == [] {
      NoRecords(parse);
    } else {
      assert forall i :: 0 <= i < |gens| - 1 ==> gens[1..][i] == gens[i + 1];
      LegibleInOrder(parse, gens[1..]);
      RecordItemsAppend(parse, InOrder(gens[1..]), gens[0].records);
    }
  }

  lemma NoRecords(parse: Parser)
    ensures AreRecords(parse, []) && RecordItems(parse, []) == []
  {
  }

  lemma LegibleSlice(parse: Parser, gens: seq<Generation>, from: nat, to: nat)
    requires Legible(parse, gens) && from <= to <= |gens|
    ensures Legible(parse, gens[from..to])
  {
    hide AreRecords;
    assert forall i :: 0 <= i < to - from ==> gens[from..to][i] == gens[from + i];
  }

  /** The entries for generations `top..1` deliver exactly their records, oldest first. */
  lemma {:induction false} EntriesItems(parse: Parser, d: Disk, gens: seq<Generation>, top: nat, j: nat)
    requires Holds(d, gens) && Legible(parse, gens) && 1 <= top < |gens| && j <= |gens[top].records|
    ensures forall i: nat :: 1 <= i <= top ==> i in d.rotated
    ensures AreRecords(parse, gens[top].records[j..] + InOrder(gens[1..top]))
    ensures var plan := Entries(d.rotated, top, |Flatten(gens[top].records[..j])|);
            && Items(PlanYields(parse, d, plan)) == RecordItems(parse, gens[top].records[j..] + InOrder(gens[1..top]))
            && CleanPlan(parse, d, plan)
  {
    hide *;
    HoldsAll(d, gens);
    var records, older := gens[top].records, InOrder(gens[1..top]);
    var start := |Flatten(records[..j])|;
    LegibleIs(parse, gens, top);
    GenerationItems(parse, records, j);
    LegibleSlice(parse, gens, 1, top);
    LegibleInOrder(parse, gens[1..top]);
    RecordItemsAppend(parse, records[j..], older);
    var rest := Entries(d.rotated, top - 1, 0);
    EntriesUnfold(d.rotated, top, start);
    PlanCons(parse, d, PlanEntry(top, start, Usable(d.rotated[top].identity)), rest);
    if top == 1 {
      assert gens[1..1] == [];
      NothingInOrder();
      NoRecords(parse);
      EntriesUnfold(d.rotated, 0, 0);
    } else {
      FromTheStart(gens[top - 1]);
      EntriesItems(parse, d, gens, top - 1, 0);
      assert gens[1..top] == gens[1..top - 1] + [gens[top - 1]];
      InOrderSnoc(gens[1..top - 1], gens[top - 1]);
    }
  }

  lemma FromTheStart(g: Generation)
    ensures g.records[0..] == g.records && |Flatten(g.records[..0])| == 0
  {
  }

  lemma HoldsAll(d: Disk, gens: seq<Generation>)
    requires Holds(d, gens)
    ensures forall i: nat :: 1 <= i < |gens| ==> i in d.rotated && d.rotated[i].content == Flatten(gens[i].records)
  {
    forall i: nat | 1 <= i < |gens| ensures i in d.rotated && d.rotated[i] == FileOf(gens[i]) {
      assert Lookup(d.rotated, i) == Some(FileOf(gens[i]));
    }
  }

  lemma EntriesUnfold(rotated: map<nat, LogFile>, top: nat, start: nat)
    requires forall i: nat :: 1 <= i <= top ==> i in rotated
    ensures Entries(rotated, top, start) ==
            if top == 0 then []
            else [PlanEntry(top, start, Usable(rotated[top].identity))] + Entries(rotated, top - 1, 0)
  {
  }

  lemma InOrderSnoc(gens: seq<Generation>, g: Generation)
    ensures InOrder(gens + [g]) == g.records + InOrder(gens)
  {
    hide InOrder;
    InOrderAppend(gens, [g]);
    InOrderCons(g, []);
    NothingInOrder();
    assert [g] + [] == [g];
    assert [] + g.records == g.records;
  }

  lemma PlanCons(parse: Parser, d: Disk, e: PlanEntry, rest: seq<PlanEntry>)
    requires e.index in d.rotated
    ensures Items(PlanYields(parse, d, [e] + rest)) ==
            Items(Drain(parse, d.rotated[e.index].content, e.start)) + Items(PlanYields(parse, d, rest))
    ensures rest == [] ==> Items(PlanYields(parse, d, rest)) == []
    ensures CleanPlan(parse, d, rest) && CleanFrom(parse, d.rotated[e.index].content, e.start) ==>
              CleanPlan(parse, d, [e] + rest)
    ensures CleanPlan(parse, d, [])
  {
    hide Drain, CleanFrom;
    assert ([e] + rest)[1..] == rest;
    ItemsAppend(EntryYields(parse, d, e), PlanYields(parse, d, rest));
  }

  // -------------------------------------------------- what a settled reader sees

  lemma {:induction false} LastIndexOf(rotated: map<nat, LogFile>, gens: seq<Generation>, k: nat)
    requires Stores(rotated, gens) && 1 <= k <= MAX_ROTATED + 1 && k <= Max(1, |gens|)
    ensures LastIndex(rotated, k) == Min(Max(1, |gens|) - 1, MAX_ROTATED)
    decreases MAX_ROTATED + 1 - k
  {
    if k <= MAX_ROTATED {
      assert Lookup(rotated, k) == if 1 <= k < |gens| then Some(FileOf(gens[k])) else None;
      hide Flatten;
      if k in rotated {
        LastIndexOf(rotated, gens, k + 1);
      }
    }
  }

  lemma CheckpointAt(d: Disk, gens: seq<Generation>, k: nat)
    requires Holds(d, gens) && 1 <= k < |gens| && k <= MAX_ROTATED
    ensures CheckpointIndex(d.rotated, Some(gens[k].identity)) == k
  {
    hide Flatten, LastIndex, Holding;
    LastIndexOf(d.rotated, gens, 1);
    var inode := Some(gens[k].identity);
    var i := Holding(d.rotated, inode, 1, RotatedCount(d.rotated));
    assert Lookup(d.rotated, k) == Some(FileOf(gens[k]));
    assert i > 0;
    assert Lookup(d.rotated, i) == Some(FileOf(gens[i]));
  }

  /** What a settled reader has in front of it is exactly the unread records. */
  lemma SettledRemaining(parse: Parser, d: Disk, gens: seq<Generation>, st: TailState, place: Place)
    requires Holds(d, gens) && Legible(parse, gens) && Stands(gens, st, place)
    ensures Sees(parse, d, st, Unread(gens, place))
  {
    hide Holds, Legible, Sees, InOrder;
    if gens == [] {
      NothingYet(parse, d, st);
      NothingInOrder();
    } else if place.Unstarted? {
      UnstartedSees(parse, d, gens, st);
    } else if place.k == 0 {
      MainSees(parse, d, gens, st, place.j);
    } else {
      RotatedSees(parse, d, gens, st, place.k, place.j);
    }
  }

  /** From state `st` the reader delivers exactly the records `rs`, and can. */
  ghost predicate Sees(parse: Parser, d: Disk, st: TailState, rs: seq<Bytes>) {
    && AreRecords(parse, rs) && Identified(d) && CleanState(parse, d, st)
    && Items(Remaining(parse, d, st)) == RecordItems(parse, rs)
  }

  lemma NothingYet(parse: Parser, d: Disk, st: TailState)
    requires Holds(d, []) && st.plan.None?
    ensures Sees(parse, d, st, [])
  {
    NoRecords(parse);
    NoItems();
    hide RecordItems, Items, AreRecords, Stores;
  }

  lemma UnstartedSees(parse: Parser, d: Disk, gens: seq<Generation>, st: TailState)
    requires Holds(d, gens) && Legible(parse, gens) && gens != [] && Stands(gens, st, Unstarted)
    ensures Sees(parse, d, st, InOrder(gens))
  {
    hide RecordItems, Items, AreRecords, Flatten, Scan, CleanFrom, CleanPlan, Entries, PlanYields, Legible, LastIndex,
      InOrder;
    LegibleIs(parse, gens, 0);
    MainFrom(parse, gens[0].records);
    LastIndexOf(d.rotated, gens, 1);
    hide Stores;
    if |gens| == 1 {
      OneGeneration(gens);
    } else {
      AllGenerations(parse, d, gens);
    }
  }

  lemma MainSees(parse: Parser, d: Disk, gens: seq<Generation>, st: TailState, j: nat)
    requires Holds(d, gens) && Legible(parse, gens) && gens != [] && Stands(gens, st, At(0, j))
    ensures Sees(parse, d, st, Unread(gens, At(0, j)))
  {
    hide RecordItems, Items, AreRecords, Flatten, Scan, CleanFrom, CleanPlan, Entries, PlanYields, Legible, LastIndex,
      InOrder, Stores;
    LegibleIs(parse, gens, 0);
    MainFrom(parse, gens[0].records);
    GenerationItems(parse, gens[0].records, j);
    assert gens[..0] == [];
    NothingInOrder();
    assert gens[0].records[j..] + [] == gens[0].records[j..];
  }

  lemma PositiveOffset(parse: Parser, records: seq<Bytes>, j: nat)
    requires AreRecords(parse, records) && 0 < j <= |records|
    ensures |Flatten(records[..j])| > 0
  {
    hide Decode;
    assert records[0] in records;
    assert records[..j][0] == records[0];
    assert |Flatten(records[..j])| == |records[..j][0]| + |Flatten(records[..j][1..])|;
  }

  lemma RotatedSees(parse: Parser, d: Disk, gens: seq<Generation>, st: TailState, k: nat, j: nat)
    requires Holds(d, gens) && Legible(parse, gens) && 0 < k < |gens| && Stands(gens, st, At(k, j))
    ensures Sees(parse, d, st, Unread(gens, At(k, j)))
  {
    hide RecordItems, Items, AreRecords, Flatten, Scan, CleanFrom, CleanPlan, Entries, PlanYields, Legible, LastIndex,
      InOrder, Holding, Stores;
    LegibleIs(parse, gens, 0);
    MainFrom(parse, gens[0].records);
    LegibleIs(parse, gens, k);
    PositiveOffset(parse, gens[k].records, j);
    CheckpointAt(d, gens, k);
    FirstGenerations(parse, d, gens, k, j);
    assert gens[0].identity != gens[k].identity;
  }

  lemma NoItems()
    ensures Items([]) == []
  {
  }

  lemma LegibleIs(parse: Parser, gens: seq<Generation>, i: nat)
    requires Legible(parse, gens) && i < |gens|
    ensures AreRecords(parse, gens[i].records)
  {
    hide AreRecords;
  }

  lemma MainFrom(parse: Parser, records: seq<Bytes>)
    requires AreRecords(parse, records)
    ensures Items(Scan(parse, Flatten(records), 0)) == RecordItems(parse, records)
    ensures CleanFrom(parse, Flatten(records), 0)
  {
    assert records[..0] == [] && records[0..] == records;
    hide *;
    FlattenNil<Octet>();
    GenerationItems(parse, records, 0);
  }

  lemma OneGeneration(gens: seq<Generation>)
    requires |gens| == 1
    ensures InOrder(gens) == gens[0].records
  {
    assert gens == [gens[0]] + [];
    InOrderCons(gens[0], []);
    NothingInOrder();
  }

  /** Generations `k..1` from record `j` of generation `k` on, then the main file. */
  lemma FirstGenerations(parse: Parser, d: Disk, gens: seq<Generation>, k: nat, j: nat)
    requires Holds(d, gens) && Legible(parse, gens) && 1 <= k < |gens| && j <= |gens[k].records|
    ensures forall i: nat :: 1 <= i <= k ==> i in d.rotated
    ensures AreRecords(parse, gens[k].records[j..] + InOrder(gens[..k]))
    ensures var plan := Entries(d.rotated, k, |Flatten(gens[k].records[..j])|);
            && CleanPlan(parse, d, plan)
            && Items(PlanYields(parse, d, plan) + MainYields(parse, d, 0)) ==
               RecordItems(parse, gens[k].records[j..] + InOrder(gens[..k]))
  {
    hide *;
    EntriesItems(parse, d, gens, k, j);
    LegibleIs(parse, gens, 0);
    MainFrom(parse, gens[0].records);
    MainIs(parse, d, gens);
    var tail, older := gens[k].records[j..], InOrder(gens[1..k]);
    assert gens[..k] == [gens[0]] + gens[1..k];
    InOrderCons(gens[0], gens[1..k]);
    assert tail + InOrder(gens[..k]) == (tail + older) + gens[0].records;
    RecordItemsAppend(parse, tail + older, gens[0].records);
    var plan := Entries(d.rotated, k, |Flatten(gens[k].records[..j])|);
    ItemsAppend(PlanYields(parse, d, plan), MainYields(parse, d, 0));
  }

  lemma MainIs(parse: Parser, d: Disk, gens: seq<Generation>)
    requires Holds(d, gens) && gens != []
    ensures MainYields(parse, d, 0) == Scan(parse, Flatten(gens[0].records), 0)
  {
    hide Scan, Flatten, Stores;
  }

  lemma AllGenerations(parse: Parser, d: Disk, gens: seq<Generation>)
    requires Holds(d, gens) && Legible(parse, gens) && |gens| > 1
    ensures forall i: nat :: 1 <= i < |gens| ==> i in d.rotated
    ensures AreRecords(parse, InOrder(gens))
    ensures var plan := Entries(d.rotated, |gens| - 1, 0);
            && CleanPlan(parse, d, plan)
            && Items(PlanYields(parse, d, plan) + MainYields(parse, d, 0)) == RecordItems(parse, InOrder(gens))
  {
    hide *;
    var k := |gens| - 1;
    FromTheStart(gens[k]);
    assert gens == gens[..k] + [gens[k]];
    FirstGenerations(parse, d, gens, k, 0);
    InOrderSnoc(gens[..k], gens[k]);
  }

  // --------------------------------------------------------------- one more record

  /** How far a place can lie back after `count` rotations since the last poll. */
  ghost predicate Within(gens: seq<Generation>, place: Place, count: nat) {
    match place
    case Unstarted => |gens| <= count + 1
    case At(k, _) => k <= count
  }

  function Moved(place: Place, rotates: bool): Place {
    if rotates && place.At? then At(place.k + 1, place.j) else place
  }

  predicate Rotates(gens: seq<Generation>, budget: Option<nat>, payload: Bytes) {
    gens != [] && MustRotate(budget, SizeOf(gens), |payload|)
  }

  /** One more record is one more unread record; nothing unread is pruned as long as
      the rotations since the last poll stay within what is kept and scanned. */
  lemma WriteStep(gens: seq<Generation>, budget: Option<nat>, keep: nat, identity: nat, payload: Bytes,
                  st: TailState, place: Place, count: nat)
    requires Stands(gens, st, place) && Within(gens, place, count)
    requires Rotates(gens, budget, payload) ==> count + 1 <= Min(keep, MAX_ROTATED)
    ensures var now := Recorded(gens, budget, keep, identity, payload);
            var place' := Moved(place, Rotates(gens, budget, payload));
            && Stands(now, st, place')
            && Within(now, place', if Rotates(gens, budget, payload) then count + 1 else count)
            && Unread(now, place') == Unread(gens, place) + [payload]
  {
    hide InOrder, Flatten, MustRotate, SizeOf;
    var g := Generation(identity, [payload]);
    if gens == [] {
      InOrderCons(g, []);
      NothingInOrder();
      assert [g] + [] == [g] && [] + [payload] == [payload];
    } else if Rotates(gens, budget, payload) {
      RotatedStep(gens, keep, g, st, place, count);
    } else {
      GrownStep(gens, payload, st, place);
    }
  }

  lemma RotatedStep(gens: seq<Generation>, keep: nat, g: Generation, st: TailState, place: Place, count: nat)
    requires gens != [] && Stands(gens, st, place) && Within(gens, place, count) && count + 1 <= Min(keep, MAX_ROTATED)
    ensures var now := [g] + gens[..Min(|gens|, keep)];
            && Stands(now, st, Moved(place, true)) && Within(now, Moved(place, true), count + 1)
            && Unread(now, Moved(place, true)) == Unread(gens, place) + g.records
  {
    hide InOrder, Flatten;
    var now := [g] + gens[..Min(|gens|, keep)];
    match place {
      case Unstarted =>
        assert gens[..Min(|gens|, keep)] == gens;
        InOrderCons(g, gens);
      case At(k, j) =>
        assert now[k + 1] == gens[k];
        assert now[..k + 1] == [g] + gens[..k];
        InOrderCons(g, gens[..k]);
        Reassociate(gens[k].records[j..], InOrder(gens[..k]), g.records);
    }
  }

  lemma GrownStep(gens: seq<Generation>, payload: Bytes, st: TailState, place: Place)
    requires gens != [] && Stands(gens, st, place)
    ensures var now := [gens[0].(records := gens[0].records + [payload])] + gens[1..];
            && Stands(now, st, place) && |now| == |gens| && Unread(now, place) == Unread(gens, place) + [payload]
  {
    hide InOrder, Flatten;
    var g := gens[0].(records := gens[0].records + [payload]);
    var now := [g] + gens[1..];
    match place {
      case Unstarted =>
        GrownHistory(gens, payload);
      case At(k, j) =>
        if k == 0 {
          assert now[..0] == [] == gens[..0];
          NothingInOrder();
          assert g.records[..j] == gens[0].records[..j];
          assert g.records[j..] == gens[0].records[j..] + [payload];
        } else {
          assert now[k] == gens[k];
          assert now[..k] == [g] + gens[..k][1..];
          GrownHistory(gens[..k], payload);
          Reassociate(gens[k].records[j..], InOrder(gens[..k]), [payload]);
        }
    }
  }

  lemma LegibleStep(parse: Parser, gens: seq<Generation>, budget: Option<nat>, keep: nat, identity: nat, payload: Bytes)
    requires Legible(parse, gens) && IsRecord(parse, payload)
    ensures Legible(parse, Recorded(gens, budget, keep, identity, payload))
  {
    hide IsRecord, Flatten, MustRotate, SizeOf;
    var now := Recorded(gens, budget, keep, identity, payload);
    forall i | 0 <= i < |now| ensures AreRecords(parse, now[i].records) {
      if i > 0 {
        assert now[i] == gens[i - 1] || (i < |gens| && now[i] == gens[i]);
      }
    }
  }

  /** The writer's invariant puts exactly its generations on disk. */
  lemma WriterHolds(writer: AuditWriter, d: Disk)
    requires writer.Valid() && d == TailPlan.Disk(writer.dir.main, writer.dir.rotated)
    ensures Holds(d, writer.gens)
    ensures writer.gens != [] ==> d.main.Some? && |d.main.value.content| == SizeOf(writer.gens) > 0
    ensures d.main.Some? <==> writer.gens != []
  {
    if writer.gens != [] {
      var records := writer.gens[0].records;
      assert WithinBudget(writer.budget, writer.gens[0]);
      assert |Flatten(records)| == |records[0]| + |Flatten(records[1..])|;
    }
    hide Flatten, Lookup;
    assert forall i :: 0 <= i < |writer.gens| ==> WithinBudget(writer.budget, writer.gens[i]) ==>
        writer.gens[i].records != [];
  }

  // --------------------------------------------------------------------- polls

  /** How one read of a poll ends: behind the `quota`-th event the consumer keeps. */
  datatype Stop = Stop(accept: Event -> bool, quota: nat)

  /** What the consumer does within a poll: read on, or acknowledge up to the `n`-th of the
      events it has not acknowledged yet. */
  datatype PollStep = Read(stop: Stop) | Ack(n: nat)

  /** Within a poll an acknowledgement, of whatever position, changes nothing about what is
      to come. */
  lemma CommitKeeps(parse: Parser, d: Disk, st: TailState, offset: nat)
    requires CleanState(parse, d, st) && Identified(d)
    requires d.main.Some? ==> st.inode == Usable(d.main.value.identity) && st.readOffset <= |d.main.value.content|
    ensures CleanState(parse, d, st.(offset := offset))
    ensures Remaining(parse, d, st.(offset := offset)) == Remaining(parse, d, st)
  {
    hide CleanFrom, Scan, StartPlan, PlanYields, EntryYields;
    if st.plan.Some? {
      CatchUpIgnoresOffset(parse, d, st, st.plan.value, offset);
    }
  }

  lemma {:induction false} CatchUpIgnoresOffset(parse: Parser, d: Disk, st: TailState, plan: seq<PlanEntry>,
                                                offset: nat)
    requires Current(d, plan) && d.main.Some? && Identified(d) && st.readOffset == 0
    requires st.inode == Usable(d.main.value.identity)
    ensures CatchUpYields(parse, d, st.(offset := offset), plan) == CatchUpYields(parse, d, st, plan)
  {
    hide StartPlan, EntryYields, MainYields, PlanYields;
    if plan != [] {
      CurrentUnless(d, plan);
      CatchUpIgnoresOffset(parse, d, st, plan[1..], offset);
    }
  }

  /** A poll under way: `items` were delivered, those of `pending` are not acknowledged. */
  ghost predicate Polling(parse: Parser, limit: nat, d: Disk, was: TailState, now: TailState, before: StoredCursor,
                          cursor: StoredCursor, items: seq<Item>, pending: seq<Yield>)
  {
    && Identified(d) && CleanState(parse, d, now)
    && Items(Remaining(parse, d, was)) == items + Items(Remaining(parse, d, now))
    && (forall i :: 0 <= i < |items| ==> items[i].size <= limit)
    && |pending| <= |items|
    && (d.main.None? ==> items == [] && now == was && was.plan.None?)
    && (if pending != [] then pending[|pending| - 1].offset == now.readOffset else now.offset == now.readOffset)
    && (items != [] ==> d.main.Some? && OnMain(d, now) && now.readOffset <= |d.main.value.content|)
    && (items == [] ==> cursor == before)
    && (items != [] && pending == [] ==> cursor == Stored(Some(now.offset), now.inode))
  }

  /** One read of a poll. */
  method PollRead(tail: AuditTail, stop: Stop, items: seq<Item>, pending: seq<Yield>, ghost was: TailState,
                  ghost before: StoredCursor)
    returns (moreItems: seq<Item>, morePending: seq<Yield>)
    requires tail.Valid()
    requires Polling(tail.parse, tail.chunkBytes, tail.Disk(), was, tail.State(), before, tail.cursor, items, pending)
    modifies tail`plan, tail`offset, tail`readOffset, tail`inode
    ensures tail.Valid()
    ensures Polling(tail.parse, tail.chunkBytes, tail.Disk(), was, tail.State(), before, tail.cursor, moreItems,
                    morePending)
    ensures items <= moreItems
    ensures stop.quota > 0 && moreItems == items ==>
              AtEnd(tail.Disk(), tail.State()) || Blocked(tail.chunkBytes, tail.Disk(), tail.State())
  {
    hide Remaining, CleanState, Identified, OnMain, Fit, Items, Accepted, Blocked, AtEnd, NextFits, LaterLine, Scan,
      Polling, WasRotated, Current;
    ghost var st := tail.State();
    PollingIs(tail.parse, tail.chunkBytes, tail.Disk(), was, st, before, tail.cursor, items, pending);
    var ys := tail.ReadNew(stop.accept, stop.quota);
    SettledAfter(tail.parse, tail.Disk(), st, tail.State());
    moreItems, morePending := items + Items(ys), pending + ys;
    PollingReads(tail.parse, tail.chunkBytes, tail.Disk(), was, st, tail.State(), before, tail.cursor, items, pending,
                 ys);
  }

  lemma PollingIs(parse: Parser, limit: nat, d: Disk, was: TailState, now: TailState, before: StoredCursor,
                  cursor: StoredCursor, items: seq<Item>, pending: seq<Yield>)
    requires Polling(parse, limit, d, was, now, before, cursor, items, pending)
    ensures Identified(d) && CleanState(parse, d, now) && |pending| <= |items|
    ensures d.main.None? ==> now == was && was.plan.None? && items == []
    ensures items != [] ==> d.main.Some? && OnMain(d, now)
    ensures Items(Remaining(parse, d, was)) == items + Items(Remaining(parse, d, now))
    ensures forall i :: 0 <= i < |items| ==> items[i].size <= limit
    ensures pending == [] ==> now.offset == now.readOffset && (items == [] ==> cursor == before)
    ensures pending == [] && items != [] ==> cursor == Stored(Some(now.offset), now.inode)
  {
    hide Remaining, CleanState, Identified, OnMain, Items;
  }

  lemma PollingReads(parse: Parser, limit: nat, d: Disk, was: TailState, st: TailState, now: TailState,
                     before: StoredCursor, cursor: StoredCursor, items: seq<Item>, pending: seq<Yield>, ys: seq<Yield>)
    requires Polling(parse, limit, d, was, st, before, cursor, items, pending)
    requires CleanState(parse, d, now) && Fit(limit, ys) && Remaining(parse, d, st) == ys + Remaining(parse, d, now)
    requires d.main.None? ==> ys == [] && now == st
    requires if ys != [] then ys[|ys| - 1].offset == now.readOffset
             else
               && (st.offset == st.readOffset ==> now.offset == now.readOffset)
               && (OnMain(d, st) ==> now.(plan := None) == st.(plan := None))
    requires ys != [] && d.main.Some? ==> OnMain(d, now) && now.readOffset <= |d.main.value.content|
    requires ys == [] && OnMain(d, st) ==> OnMain(d, now)
    ensures Polling(parse, limit, d, was, now, before, cursor, items + Items(ys), pending + ys)
    ensures items <= items + Items(ys) && (items + Items(ys) == items ==> ys == [])
  {
    hide Remaining, CleanState, Identified, OnMain, Items, Fit;
    ItemsAppend(ys, Remaining(parse, d, now));
    Reassociate(items, Items(ys), Items(Remaining(parse, d, now)));
    MoreItems(limit, items, ys);
    if ys == [] { Reassociate(pending, ys, ys); }
  }

  lemma MoreItems(limit: nat, items: seq<Item>, ys: seq<Yield>)
    requires Fit(limit, ys) && forall i :: 0 <= i < |items| ==> items[i].size <= limit
    ensures var all := items + Items(ys);
            && |all| == |items| + |ys| && items <= all && (ys == [] ==> all == items)
            && forall i :: 0 <= i < |all| ==> all[i].size <= limit
  {
  }

  /** Where a read leaves the reader's idea of the main file. */
  lemma SettledAfter(parse: Parser, d: Disk, st: TailState, now: TailState)
    requires Identified(d) && CleanState(parse, d, st)
    ensures d.main.Some? && now.inode == Usable(d.main.value.identity) && now.readOffset <= |d.main.value.content| ==>
              OnMain(d, now)
    ensures OnMain(d, st) && now.(plan := None) == st.(plan := None) ==> OnMain(d, now)
  {
    hide CleanFrom, CleanPlan;
  }

  /** An acknowledgement within a poll. */
  method PollAck(tail: AuditTail, n: nat, items: seq<Item>, pending: seq<Yield>, ghost was: TailState,
                 ghost before: StoredCursor)
    returns (left: seq<Yield>)
    requires tail.Valid()
    requires Polling(tail.parse, tail.chunkBytes, tail.Disk(), was, tail.State(), before, tail.cursor, items, pending)
    modifies tail`offset, tail`cursor
    ensures tail.Valid() && left == pending[Min(n, |pending|)..]
    ensures tail.State() == old(tail.State()).(offset := tail.offset)
    ensures Polling(tail.parse, tail.chunkBytes, tail.Disk(), was, tail.State(), before, tail.cursor, items, left)
  {
    hide Remaining, CleanState, Identified, OnMain, Items;
    var k := Min(n, |pending|);
    left := pending[k..];
    if k > 0 {
      ghost var st := tail.State();
      SettledParts(tail.Disk(), st);
      tail.Commit(pending[k - 1].offset);
      CommitKeeps(tail.parse, tail.Disk(), st, tail.offset);
      SettledOffset(tail.Disk(), st, tail.offset);
    }
  }

  lemma SettledParts(d: Disk, st: TailState)
    requires OnMain(d, st)
    ensures d.main.Some? && st.inode == Usable(d.main.value.identity)
  {
  }

  lemma SettledOffset(d: Disk, st: TailState, offset: nat)
    ensures OnMain(d, st.(offset := offset)) == OnMain(d, st)
  {
  }

  /** A poll: reads, abandoned wherever their stops say, and acknowledgements in any order,
      then reads until nothing more comes, then whatever is left to acknowledge. */
  method Poll(tail: AuditTail, script: seq<PollStep>) returns (items: seq<Item>)
    requires tail.Valid() && Identified(tail.Disk()) && CleanState(tail.parse, tail.Disk(), tail.State())
    requires tail.offset == tail.readOffset && (tail.dir.main.None? ==> tail.plan.None?)
    modifies tail
    ensures tail.Valid()
    ensures Polling(tail.parse, tail.chunkBytes, tail.Disk(), old(tail.State()), tail.State(), old(tail.cursor),
                    tail.cursor, items, [])
    ensures AtEnd(tail.Disk(), tail.State()) || Blocked(tail.chunkBytes, tail.Disk(), tail.State())
  {
    hide Remaining, CleanState, Identified, Polling, AtEnd, Blocked, Items;
    ghost var was, before := tail.State(), tail.cursor;
    var pending: seq<Yield> := [];
    items := [];
    PollBegins(tail.parse, tail.chunkBytes, tail.Disk(), was, before);
    var i := 0;
    while i < |script|
      invariant 0 <= i <= |script| && tail.Valid()
      invariant Polling(tail.parse, tail.chunkBytes, tail.Disk(), was, tail.State(), before, tail.cursor, items,
                        pending)
    {
      match script[i] {
        case Read(stop) => items, pending := PollRead(tail, stop, items, pending, was, before);
        case Ack(n) => pending := PollAck(tail, n, items, pending, was, before);
      }
      i := i + 1;
    }
    var dry := false;
    while !dry
      invariant tail.Valid()
      invariant Polling(tail.parse, tail.chunkBytes, tail.Disk(), was, tail.State(), before, tail.cursor, items,
                        pending)
      invariant dry ==> AtEnd(tail.Disk(), tail.State()) || Blocked(tail.chunkBytes, tail.Disk(), tail.State())
      decreases |Items(Remaining(tail.parse, tail.Disk(), was))| - |items|, !dry
    {
      var quota: nat :| quota > 0;
      var more;
      more, pending := PollRead(tail, Stop(_ => true, quota), items, pending, was, before);
      PollingIs(tail.parse, tail.chunkBytes, tail.Disk(), was, tail.State(), before, tail.cursor, more, pending);
      dry := more == items;
      items := more;
    }
    ghost var st := tail.State();
    pending := PollAck(tail, |pending|, items, pending, was, before);
    WhereIgnoresOffset(tail.chunkBytes, tail.Disk(), st, tail.offset);
  }

  lemma PollBegins(parse: Parser, limit: nat, d: Disk, st: TailState, cursor: StoredCursor)
    requires Identified(d) && CleanState(parse, d, st) && st.offset == st.readOffset && (d.main.None? ==> st.plan.None?)
    ensures Polling(parse, limit, d, st, st, cursor, cursor, [], [])
  {
    hide Remaining, CleanState, Identified, Items;
    assert [] + Items(Remaining(parse, d, st)) == Items(Remaining(parse, d, st));
  }

  lemma WhereIgnoresOffset(limit: nat, d: Disk, st: TailState, offset: nat)
    ensures AtEnd(d, st.(offset := offset)) == AtEnd(d, st)
    ensures Blocked(limit, d, st.(offset := offset)) == Blocked(limit, d, st)
  {
    hide Overlong;
  }

  // ------------------------------------------------------------- what fits one read

  predicate AllFit(limit: nat, rs: seq<Bytes>) {
    forall i :: 0 <= i < |rs| ==> |rs[i]| <= limit
  }

  /** The records in front of the first one that does not fit one read. */
  function Fitting(limit: nat, rs: seq<Bytes>): seq<Bytes> {
    if rs == [] || |rs[0]| > limit then [] else [rs[0]] + Fitting(limit, rs[1..])
  }

  lemma {:induction false} FittingSplit(limit: nat, a: seq<Bytes>, b: seq<Bytes>)
    requires AllFit(limit, a)
    ensures Fitting(limit, a + b) == a + Fitting(limit, b)
    decreases |a|
  {
    if a == [] {
      assert a + b == b;
    } else {
      assert (a + b)[1..] == a[1..] + b;
      FittingSplit(limit, a[1..], b);
    }
  }

  /** All that fits, and then the end or a record that does not. */
  lemma FittingIs(limit: nat, a: seq<Bytes>, b: seq<Bytes>)
    requires AllFit(limit, a) && (b == [] || |b[0]| > limit)
    ensures Fitting(limit, a + b) == a
    ensures AllFit(limit, a + b) <==> b == []
  {
    FittingSplit(limit, a, b);
    assert a + [] == a;
    if b != [] { assert (a + b)[|a|] == b[0]; }
  }

  /** Delivered items, each from a record that fits, in front of undelivered ones of which
      the first does not, if there is one. */
  lemma DeliveredFits(parse: Parser, limit: nat, rs: seq<Bytes>, items: seq<Item>, left: seq<Item>) returns (n: nat)
    requires AreRecords(parse, rs) && RecordItems(parse, rs) == items + left
    requires forall i :: 0 <= i < |items| ==> items[i].size <= limit
    requires left == [] || left[0].size > limit
    ensures n <= |rs| && AreRecords(parse, rs[..n]) && AreRecords(parse, rs[n..])
    ensures Fitting(limit, rs) == rs[..n] && AllFit(limit, rs[..n]) && (rs[n..] == [] || |rs[n..][0]| > limit)
    ensures items == RecordItems(parse, rs[..n]) && left == RecordItems(parse, rs[n..])
    ensures |items| == n && (left == [] <==> rs[n..] == [])
  {
    hide Decode, IsRecord;
    n := |items|;
    var all := RecordItems(parse, rs);
    assert |all| == |rs| && forall i :: 0 <= i < |rs| ==> all[i].size == |rs[i]| by {
      forall i | 0 <= i < |rs| ensures all[i].size == |rs[i]| { assert rs[i] in rs; }
    }
    assert rs == rs[..n] + rs[n..];
    assert forall i :: 0 <= i < n ==> all[i] == items[i];
    if n < |rs| { assert all[n] == left[0]; }
    FittingIs(limit, rs[..n], rs[n..]);
    assert all[..n] == items && all[n..] == left;
    assert AreRecords(parse, rs[..n]) && AreRecords(parse, rs[n..]);
    assert RecordItems(parse, rs[..n]) == all[..n] && RecordItems(parse, rs[n..]) == all[n..];
  }

  // ---------------------------------------------------------------------- runs

  /** The writer appends a line, the reporter polls, or the reporter restarts. */
  datatype Op = Write(line: Bytes) | Polls(script: seq<PollStep>) | Restart

  /** Between two polls at most `bound` of the writes rotate the log. And once a poll has been
      held up (`met`) by a record that does not fit one read and does not stand behind another
      record in the main file, the log is not rotated and the reporter not restarted any more.
      `over`: a record that does not fit was written; `deep`: the first one of them is the
      first of its file, or its file has been rotated away. */
  ghost predicate Admissible(ops: seq<Op>, budget: Option<nat>, bound: nat, limit: nat, size: nat, count: nat,
                             over: bool, deep: bool, met: bool)
    decreases |ops|
  {
    ops == [] ||
    match ops[0]
    case Write(line) =>
      var n := |line| + 1;
      var rotates := MustRotate(budget, size, n);
      && (rotates ==> count + 1 <= bound && !met)
      && Admissible(ops[1..], budget, bound, limit,
                    if rotates then n else size + n, if rotates then count + 1 else count,
                    over || n > limit, DeepAfter(limit, size, n, rotates, over, deep), met)
    case Polls(_) => Admissible(ops[1..], budget, bound, limit, size, 0, over, deep, met || (over && deep))
    case Restart => !met && Admissible(ops[1..], budget, bound, limit, size, count, over, deep, met)
  }

  predicate DeepAfter(limit: nat, size: nat, incoming: nat, rotates: bool, over: bool, deep: bool) {
    if over then deep || rotates else incoming > limit && (rotates || size == 0)
  }

  /** Everything written by `ops`. */
  function Written(ops: seq<Op>): seq<Bytes> {
    if ops == [] then []
    else Written(ops[..|ops| - 1]) + (if ops[|ops| - 1].Write? then [ops[|ops| - 1].line + [LF]] else [])
  }

  /** Everything written before the last poll of `ops`. */
  function BeforeLastPoll(ops: seq<Op>): seq<Bytes> {
    if ops == [] then []
    else if ops[|ops| - 1].Polls? then Written(ops)
    else BeforeLastPoll(ops[..|ops| - 1])
  }

  lemma OpsSnoc(ops: seq<Op>, op: Op)
    ensures Written(ops + [op]) == Written(ops) + (if op.Write? then [op.line + [LF]] else [])
    ensures BeforeLastPoll(ops + [op]) == if op.Polls? then Written(ops) else BeforeLastPoll(ops)
  {
    assert (ops + [op])[..|ops|] == ops;
  }

  /** Between two operations: what was delivered and what is unread make up what was written. */
  ghost predicate Running(writer: AuditWriter, tail: AuditTail, place: Place, count: nat, delivered: seq<Bytes>,
                          written: seq<Bytes>)
    reads writer, writer.dir, tail
  {
    && writer.Valid() && writer.enabled && tail.dir == writer.dir
    && RunningOver(writer.gens, tail, place, count, delivered, written)
  }

  ghost predicate RunningOver(gens: seq<Generation>, tail: AuditTail, place: Place, count: nat, delivered: seq<Bytes>,
                              written: seq<Bytes>)
    reads tail
  {
    && tail.Valid() && Legible(tail.parse, gens)
    && Stands(gens, tail.State(), place) && Within(gens, place, count)
    && Loaded(tail.cursor) == tail.State()
    && AllFit(tail.chunkBytes, delivered)
    && written == delivered + Unread(gens, place)
  }

  /** The reader is held up by the first of the records `rest`, which does not fit one read. */
  ghost predicate Stuck(writer: AuditWriter, tail: AuditTail, delivered: seq<Bytes>, rest: seq<Bytes>,
                        written: seq<Bytes>)
    reads writer, writer.dir, tail, tail.dir
  {
    && writer.Valid() && writer.enabled && tail.dir == writer.dir
    && StuckOver(tail.Disk(), tail, delivered, rest, written)
  }

  ghost predicate StuckOver(d: Disk, tail: AuditTail, delivered: seq<Bytes>, rest: seq<Bytes>, written: seq<Bytes>)
    reads tail
  {
    && tail.Valid() && Ahead(tail.parse, tail.chunkBytes, d, tail.State(), rest)
    && AllFit(tail.chunkBytes, delivered)
    && written == delivered + rest
  }

  ghost predicate Underway(writer: AuditWriter, tail: AuditTail, place: Place, count: nat, delivered: seq<Bytes>,
                           rest: seq<Bytes>, written: seq<Bytes>, met: bool)
    reads writer, writer.dir, tail, tail.dir
  {
    if met then Stuck(writer, tail, delivered, rest, written)
    else Running(writer, tail, place, count, delivered, written)
  }

  ghost predicate Ahead(parse: Parser, limit: nat, d: Disk, st: TailState, rest: seq<Bytes>) {
    && Sees(parse, d, st, rest) && rest != [] && |rest[0]| > limit
    && st.offset == st.readOffset && OnMain(d, st)
  }

  /** One more record is one more undelivered record, held up or not. */
  method WriteOp(writer: AuditWriter, tail: AuditTail, line: Bytes, ghost place: Place, ghost count: nat,
                 ghost delivered: seq<Bytes>, ghost rest: seq<Bytes>, ghost written: seq<Bytes>, ghost met: bool)
    returns (ghost place': Place, ghost count': nat, ghost rest': seq<Bytes>)
    requires Underway(writer, tail, place, count, delivered, rest, written, met)
    requires IsRecord(tail.parse, line + [LF])
    requires Rotates(writer.gens, writer.budget, line + [LF]) ==>
              !met && count + 1 <= Min(writer.keepFiles, MAX_ROTATED)
    modifies writer, writer.dir
    ensures Underway(writer, tail, place', count', delivered, rest', written + [line + [LF]], met)
    ensures count' == if old(Rotates(writer.gens, writer.budget, line + [LF])) then count + 1 else count
    ensures writer.gens ==
            Recorded(old(writer.gens), writer.budget, writer.keepFiles, old(writer.dir.nextIdentity), line + [LF])
    ensures SizeOf(writer.gens) ==
            if old(Rotates(writer.gens, writer.budget, line + [LF])) then |line| + 1
            else old(SizeOf(writer.gens)) + |line| + 1
  {
    hide Running, Stuck, IsRecord, Recorded, MustRotate, SizeOf, Flatten, Rotates;
    ghost var payload, gens, identity, d := line + [LF], writer.gens, writer.dir.nextIdentity, tail.Disk();
    RecordedSize(gens, writer.budget, writer.keepFiles, identity, payload);
    UnderwayParts(writer, tail, place, count, delivered, rest, written, met);
    rest' := rest + [payload];
    place' := Moved(place, Rotates(gens, writer.budget, payload));
    count' := if Rotates(gens, writer.budget, payload) then count + 1 else count;
    ghost var before := tail.cursor;
    var ok := writer.Record(line);
    if met {
      StuckWrite(writer, tail, gens, identity, d, payload, delivered, rest, written);
    } else {
      RunningWrite(writer, tail, gens, identity, payload, place, count, delivered, written);
    }
  }

  lemma RunningWrite(writer: AuditWriter, tail: AuditTail, gens: seq<Generation>, identity: nat, payload: Bytes,
                     place: Place, count: nat, delivered: seq<Bytes>, written: seq<Bytes>)
    requires RunningOver(gens, tail, place, count, delivered, written) && IsRecord(tail.parse, payload)
    requires Rotates(gens, writer.budget, payload) ==> count + 1 <= Min(writer.keepFiles, MAX_ROTATED)
    requires writer.Valid() && writer.enabled && tail.dir == writer.dir
    requires writer.gens == Recorded(gens, writer.budget, writer.keepFiles, identity, payload)
    ensures var rotates := Rotates(gens, writer.budget, payload);
            Running(writer, tail, Moved(place, rotates),
                    if rotates then count + 1 else count, delivered, written + [payload])
  {
    hide Legible, Within, Unread, IsRecord, Recorded, MustRotate, SizeOf, Flatten, AllFit;
    WriteStep(gens, writer.budget, writer.keepFiles, identity, payload, tail.State(), place, count);
    LegibleStep(tail.parse, gens, writer.budget, writer.keepFiles, identity, payload);
    Reassociate(delivered, Unread(gens, place), [payload]);
  }

  /** Without a rotation a held-up reader stays where it is. */
  lemma StuckWrite(writer: AuditWriter, tail: AuditTail, gens: seq<Generation>, identity: nat, d: Disk, payload: Bytes,
                   delivered: seq<Bytes>, rest: seq<Bytes>, written: seq<Bytes>)
    requires StuckOver(d, tail, delivered, rest, written) && Holds(d, gens) && gens != []
    requires IsRecord(tail.parse, payload)
    requires writer.Valid() && writer.enabled && tail.dir == writer.dir && !Rotates(gens, writer.budget, payload)
    requires writer.gens == Recorded(gens, writer.budget, writer.keepFiles, identity, payload)
    ensures Stuck(writer, tail, delivered, rest + [payload], written + [payload])
  {
    hide AreRecords, AllFit, OnMain, IsRecord, Recorded, Flatten, Ahead, Sees, Holds, Rotates;
    NotRotated(gens, writer.budget, writer.keepFiles, identity, payload);
    Reassociate(delivered, rest, [payload]);
    WriterHolds(writer, tail.Disk());
    MainGrows(gens, d, tail.Disk(), payload);
    AheadParts(tail.parse, tail.chunkBytes, d, tail.State(), rest);
    AheadGrows(tail.parse, tail.chunkBytes, d, tail.State(), rest, payload);
  }

  lemma RecordedSize(gens: seq<Generation>, budget: Option<nat>, keep: nat, identity: nat, payload: Bytes)
    ensures SizeOf(Recorded(gens, budget, keep, identity, payload)) ==
            if Rotates(gens, budget, payload) then |payload| else SizeOf(gens) + |payload|
  {
    FlattenSnoc([], payload);
    assert [] + [payload] == [payload];
    if gens != [] { FlattenSnoc(gens[0].records, payload); }
    hide Flatten, MustRotate;
  }

  /** Record `m` of the main file is the first of all that does not fit one read. */
  ghost predicate HeldInMain(limit: nat, gens: seq<Generation>, written: seq<Bytes>, m: nat) {
    && gens != [] && 0 < m < |gens[0].records| && |gens[0].records[m]| > limit
    && exists fit :: AllFit(limit, fit) && written == fit + gens[0].records[m..]
  }

  /** A poll delivers everything up to the first record that does not fit. If there is one the
      reader is now held up there, or rests in front of it when it stands behind another
      record in the main file. */
  method PollOp(writer: AuditWriter, tail: AuditTail, script: seq<PollStep>, ghost place: Place, ghost count: nat,
                ghost delivered: seq<Bytes>, ghost ahead: seq<Bytes>, ghost written: seq<Bytes>,
                ghost m: nat, ghost deep: bool, ghost met: bool)
    returns (items: seq<Item>, ghost place': Place, ghost now: seq<Bytes>, ghost rest: seq<Bytes>)
    requires Underway(writer, tail, place, count, delivered, ahead, written, met)
    requires !AllFit(tail.chunkBytes, written) && !deep ==> HeldInMain(tail.chunkBytes, writer.gens, written, m)
    requires met ==> deep && !AllFit(tail.chunkBytes, written)
    modifies tail
    ensures now == Fitting(tail.chunkBytes, written) && delivered <= now
    ensures AreRecords(tail.parse, now[|delivered|..]) && items == RecordItems(tail.parse, now[|delivered|..])
    ensures Underway(writer, tail, place', 0, now, rest, written, !AllFit(tail.chunkBytes, written) && deep)
  {
    hide Legible, CleanState, Remaining, Identified, RecordItems, AreRecords, Polling, AtEnd, Blocked, AllFit,
      Fitting, Items, Unread, Stands, Within, Stuck, Running, HeldInMain;
    ghost var rs := UnderwayAhead(writer, tail, place, count, delivered, ahead, written, met);
    ghost var st, d, before := tail.State(), tail.Disk(), tail.cursor;
    items := Poll(tail, script);
    PollingIs(tail.parse, tail.chunkBytes, d, st, tail.State(), before, tail.cursor, items, []);
    Conserved(tail.parse, tail.chunkBytes, d, tail.State());
    ghost var n := DeliveredFits(tail.parse, tail.chunkBytes, rs, items, Items(Remaining(tail.parse, d, tail.State())));
    rest, now := rs[n..], delivered + rs[..n];
    Regrouped(tail.chunkBytes, delivered, rs, n);
    place' := place;
    if rest == [] {
      place' := PollEnds(writer, tail, place, st, before, items, written);
    } else if deep {
      PollHeld(writer, tail, now, rest, written);
    } else {
      place' := At(0, m);
      PollRests(writer, tail, place, st, before, items, now, rest, written, m);
    }
  }

  /** What is ahead of the reader when a poll begins. */
  lemma UnderwayAhead(writer: AuditWriter, tail: AuditTail, place: Place, count: nat, delivered: seq<Bytes>,
                      ahead: seq<Bytes>, written: seq<Bytes>, met: bool)
    returns (rs: seq<Bytes>)
    requires Underway(writer, tail, place, count, delivered, ahead, written, met)
    ensures var d := tail.Disk();
            && Identified(d) && CleanState(tail.parse, d, tail.State()) && AreRecords(tail.parse, rs)
            && Items(Remaining(tail.parse, d, tail.State())) == RecordItems(tail.parse, rs)
            && written == delivered + rs && AllFit(tail.chunkBytes, delivered)
    ensures writer.Valid() && writer.enabled && tail.dir == writer.dir && tail.Valid() && tail.chunkBytes > 0
    ensures tail.offset == tail.readOffset && (tail.dir.main.None? ==> tail.plan.None?)
    ensures met ==> tail.dir.main.Some?
    ensures !met ==>
              && Legible(tail.parse, writer.gens) && Stands(writer.gens, tail.State(), place)
              && Loaded(tail.cursor) == tail.State()
              && (place.At? ==> place.k < |writer.gens| && place.j <= |writer.gens[place.k].records|)
              && rs == Unread(writer.gens, place)
  {
    if met {
      rs := ahead;
      hide Legible, CleanState, Remaining, Identified, RecordItems, AreRecords, Flatten, AllFit, Items, Unread,
        Within, Loaded;
    } else {
      RunningParts(writer, tail, place, count, delivered, written);
      rs := Unread(writer.gens, place);
    }
  }

  /** A reader that met an overlong record behind another one in the main file stands in
      front of it, as settled as one that has read everything. */
  lemma PollRests(writer: AuditWriter, tail: AuditTail, place: Place, was: TailState, before: StoredCursor,
                  items: seq<Item>, now: seq<Bytes>, rest: seq<Bytes>, written: seq<Bytes>, m: nat)
    requires writer.Valid() && writer.enabled && tail.Valid() && tail.dir == writer.dir
    requires Legible(tail.parse, writer.gens)
    requires Stands(writer.gens, was, place) && Loaded(before) == was
    requires AllFit(tail.chunkBytes, now) && written == now + rest && rest != [] && |rest[0]| > tail.chunkBytes
    requires HeldInMain(tail.chunkBytes, writer.gens, written, m)
    requires items == [] ==> rest == Unread(writer.gens, place)
    requires AreRecords(tail.parse, rest) && Identified(tail.Disk())
    requires CleanState(tail.parse, tail.Disk(), tail.State())
    requires Items(Remaining(tail.parse, tail.Disk(), tail.State())) == RecordItems(tail.parse, rest)
    requires tail.offset == tail.readOffset && Blocked(tail.chunkBytes, tail.Disk(), tail.State())
    requires if items == [] then tail.cursor == before else tail.cursor == Stored(Some(tail.offset), tail.inode)
    ensures Running(writer, tail, At(0, m), 0, now, written)
  {
    hide Legible, AllFit, AreRecords, RecordItems, CleanState, Items, Remaining, Blocked, Identified, Flatten,
      InOrder, Holds;
    var gens, d := writer.gens, tail.Disk();
    WriterHolds(writer, d);
    HeldParts(tail.chunkBytes, gens, written, now, rest, m);
    RestsInMain(tail.parse, tail.chunkBytes, d, gens, tail.State(), m);
    if items == [] { UnreadAt(gens, place, m); }
    assert gens[..0] == [];
    NothingInOrder();
    assert rest + [] == rest;
  }

  lemma HeldParts(limit: nat, gens: seq<Generation>, written: seq<Bytes>, now: seq<Bytes>, rest: seq<Bytes>, m: nat)
    requires HeldInMain(limit, gens, written, m)
    requires AllFit(limit, now) && written == now + rest && rest != [] && |rest[0]| > limit
    ensures gens != [] && 0 < m < |gens[0].records| && rest == gens[0].records[m..]
  {
    hide AllFit;
    var fit :| AllFit(limit, fit) && written == fit + gens[0].records[m..];
    FittingIs(limit, fit, gens[0].records[m..]);
    FittingIs(limit, now, rest);
    CancelLeft(now, rest, gens[0].records[m..]);
  }

  lemma RestsInMain(parse: Parser, limit: nat, d: Disk, gens: seq<Generation>, st: TailState, m: nat)
    requires gens != [] && Holds(d, gens) && Legible(parse, gens) && 0 < m < |gens[0].records|
    requires Identified(d) && CleanState(parse, d, st) && Blocked(limit, d, st)
    requires AreRecords(parse, gens[0].records[m..])
    requires Items(Remaining(parse, d, st)) == RecordItems(parse, gens[0].records[m..])
    ensures st.plan.None? && st.readOffset == |Flatten(gens[0].records[..m])| && st.inode == Some(gens[0].identity)
  {
    hide AreRecords, RecordItems, Items, CleanFrom, Scan, Flatten, PlanYields, Overlong, CleanPlan, Stores, Current,
      Legible;
    var records := gens[0].records;
    LegibleIs(parse, gens, 0);
    MainFrom(parse, records);
    ItemCount(parse, records);
    ItemCount(parse, records[m..]);
    if st.plan.Some? {
      CurrentPlanYields(parse, d, st, st.plan.value);
      ItemsAppend(PlanYields(parse, d, st.plan.value), Scan(parse, Flatten(records), 0));
      assert false;
    }
    SettledMain(parse, d, st);
    GenerationItems(parse, records, m);
    CleanTotal(parse, Flatten(records), st.readOffset);
    CleanTotal(parse, Flatten(records), |Flatten(records[..m])|);
  }

  /** How many bytes the lines of `items` take. */
  function Total(items: seq<Item>): nat {
    if items == [] then 0 else items[0].size + Total(items[1..])
  }

  lemma {:induction false} CleanTotal(parse: Parser, content: Bytes, pos: nat)
    requires pos <= |content| && CleanFrom(parse, content, pos)
    ensures Total(Items(Scan(parse, content, pos))) == |content| - pos
    decreases |content| - pos
  {
    hide *;
    CleanFromIs(parse, content, pos);
    var s := content[pos..];
    assert content[pos..|content|] == s;
    if Lines(s) == [] {
      NoLine(s);
      CleanEnds(parse, s);
      NothingToScan(parse, content, pos);
      NoItems();
      TotalNil();
    } else {
      var line := Lines(s)[0];
      var next := pos + |line| + 1;
      CleanStep(parse, content, pos);
      TakeLine(parse, content, pos, |content|);
      CleanFromIs(parse, content, next);
      CleanTotal(parse, content, next);
      LineYieldItem(parse, line, next);
      OneItem(parse, line);
      ItemsAppend(LineYield(parse, line, next), Scan(parse, content, next));
      TotalCons(LineItem(parse, line)[0], Items(Scan(parse, content, next)));
    }
  }

  lemma CleanEnds(parse: Parser, s: Bytes)
    requires Clean(parse, s) && Tail(s) == s
    ensures s == []
  {
  }

  lemma OneItem(parse: Parser, line: Bytes)
    requires Decode(parse, line).Some?
    ensures LineItem(parse, line) == [Item(Decode(parse, line).value, |line| + 1)]
  {
  }

  lemma TotalNil()
    ensures Total([]) == 0
  {
  }

  lemma TotalCons(item: Item, items: seq<Item>)
    ensures Total([item] + items) == item.size + Total(items)
  {
    assert ([item] + items)[1..] == items;
  }

  lemma UnreadAt(gens: seq<Generation>, place: Place, m: nat)
    requires gens != [] && 0 < m < |gens[0].records|
    requires place.At? ==> place.k < |gens| && 0 < place.j <= |gens[place.k].records|
    requires gens[0].records[m..] == Unread(gens, place)
    ensures place == At(0, m)
  {
    MainUnread(gens, place);
  }

  /** Nothing of the main file is read before everything older is. */
  lemma MainUnread(gens: seq<Generation>, place: Place)
    requires gens != []
    requires place.At? ==> place.k < |gens| && 0 < place.j <= |gens[place.k].records|
    ensures place.At? && place.k == 0 ==> |Unread(gens, place)| == |gens[0].records| - place.j
    ensures place.Unstarted? || place.k > 0 ==> |Unread(gens, place)| >= |gens[0].records|
  {
    hide InOrder;
    assert gens[..0] == [];
    NothingInOrder();
    match place {
      case Unstarted =>
        InOrderCons(gens[0], gens[1..]);
        assert gens == [gens[0]] + gens[1..];
      case At(k, j) =>
        if k > 0 {
          InOrderCons(gens[0], gens[..k][1..]);
          assert gens[..k] == [gens[0]] + gens[..k][1..];
        }
    }
  }

  lemma ItemCount(parse: Parser, rs: seq<Bytes>)
    requires AreRecords(parse, rs)
    ensures |RecordItems(parse, rs)| == |rs|
  {
  }

  /** Behind the last record of the main file nothing is unread, and only there. */
  lemma AllRead(gens: seq<Generation>, place: Place)
    requires gens != [] && forall i :: 0 <= i < |gens| ==> gens[i].records != []
    requires place.At? ==> place.k < |gens| && 0 < place.j <= |gens[place.k].records|
    ensures Unread(gens, At(0, |gens[0].records|)) == []
    ensures gens[0].records[..|gens[0].records|] == gens[0].records
    ensures Unread(gens, place) == [] ==> place == At(0, |gens[0].records|)
  {
    assert gens[..0] == [];
    NothingInOrder();
    match place {
      case Unstarted =>
        InOrderCons(gens[0], gens[1..]);
        assert gens == [gens[0]] + gens[1..];
      case At(k, j) =>
        if k > 0 {
          InOrderCons(gens[0], gens[..k][1..]);
          assert gens[..k] == [gens[0]] + gens[..k][1..];
        }
    }
  }

  lemma RunningParts(writer: AuditWriter, tail: AuditTail, place: Place, count: nat, delivered: seq<Bytes>,
                     written: seq<Bytes>)
    requires Running(writer, tail, place, count, delivered, written)
    ensures place.At? ==> place.k < |writer.gens| && place.j <= |writer.gens[place.k].records|
    ensures var d, rs := tail.Disk(), Unread(writer.gens, place);
            && Identified(d) && CleanState(tail.parse, d, tail.State()) && AreRecords(tail.parse, rs)
            && Items(Remaining(tail.parse, d, tail.State())) == RecordItems(tail.parse, rs)
            && written == delivered + rs && AllFit(tail.chunkBytes, delivered)
    ensures writer.Valid() && writer.enabled && tail.dir == writer.dir && Legible(tail.parse, writer.gens)
    ensures Stands(writer.gens, tail.State(), place) && Loaded(tail.cursor) == tail.State()
    ensures tail.plan.None? && tail.offset == tail.readOffset && tail.Valid() && tail.chunkBytes > 0
  {
    hide Legible, CleanState, Remaining, Identified, RecordItems, AreRecords, Flatten, AllFit, Items, Unread, Within,
      Loaded;
    WriterHolds(writer, tail.Disk());
    SettledRemaining(tail.parse, tail.Disk(), writer.gens, tail.State(), place);
  }

  lemma Conserved(parse: Parser, limit: nat, d: Disk, st: TailState)
    requires Identified(d) && CleanState(parse, d, st) && limit > 0 && (AtEnd(d, st) || Blocked(limit, d, st))
    ensures var left := Items(Remaining(parse, d, st));
            && (left == [] || left[0].size > limit) && (if left == [] then AtEnd(d, st) else Blocked(limit, d, st))
  {
    hide CleanState, Remaining, Identified, Blocked, AtEnd;
    if Blocked(limit, d, st) { BlockedAhead(parse, limit, d, st); } else { NothingLeft(parse, d, st); }
  }

  lemma Regrouped(limit: nat, delivered: seq<Bytes>, rs: seq<Bytes>, n: nat)
    requires AllFit(limit, delivered) && n <= |rs| && AllFit(limit, rs[..n]) && (rs[n..] == [] || |rs[n..][0]| > limit)
    ensures delivered + rs == (delivered + rs[..n]) + rs[n..] && AllFit(limit, delivered + rs[..n])
    ensures Fitting(limit, delivered + rs) == delivered + rs[..n]
    ensures AllFit(limit, delivered + rs) <==> rs[n..] == []
    ensures rs[n..] == [] ==> (delivered + rs[..n]) + rs[n..] == delivered + rs[..n]
  {
    assert rs == rs[..n] + rs[n..];
    FittingIs(limit, delivered + rs[..n], rs[n..]);
  }

  /** A reader that reached the end of the main file stands behind its last record. */
  lemma PollEnds(writer: AuditWriter, tail: AuditTail, place: Place, was: TailState, before: StoredCursor,
                 items: seq<Item>, written: seq<Bytes>)
    returns (place': Place)
    requires writer.Valid() && writer.enabled && tail.Valid() && tail.dir == writer.dir
    requires Legible(tail.parse, writer.gens)
    requires Stands(writer.gens, was, place) && Loaded(before) == was
    requires AllFit(tail.chunkBytes, written) && |items| == |Unread(writer.gens, place)|
    requires AtEnd(tail.Disk(), tail.State()) && Identified(tail.Disk()) && tail.offset == tail.readOffset
    requires if items == [] then tail.cursor == before else tail.cursor == Stored(Some(tail.offset), tail.inode)
    requires tail.dir.main.None? ==> tail.State() == was
    ensures Running(writer, tail, place', 0, written, written)
  {
    hide Legible, AllFit, Flatten, Stores, InOrder;
    var gens := writer.gens;
    WriterHolds(writer, tail.Disk());
    assert written + [] == written;
    if gens == [] {
      place' := Unstarted;
      NothingInOrder();
    } else {
      place' := At(0, |gens[0].records|);
      AllRead(gens, place);
    }
  }

  /** A reader that met a record that does not fit one read is held up there. */
  lemma PollHeld(writer: AuditWriter, tail: AuditTail, now: seq<Bytes>, rest: seq<Bytes>, written: seq<Bytes>)
    requires writer.Valid() && writer.enabled && tail.Valid() && tail.dir == writer.dir
    requires AllFit(tail.chunkBytes, now) && written == now + rest && rest != [] && |rest[0]| > tail.chunkBytes
    requires AreRecords(tail.parse, rest) && Identified(tail.Disk())
    requires CleanState(tail.parse, tail.Disk(), tail.State())
    requires Items(Remaining(tail.parse, tail.Disk(), tail.State())) == RecordItems(tail.parse, rest)
    requires tail.offset == tail.readOffset && Blocked(tail.chunkBytes, tail.Disk(), tail.State())
    ensures Stuck(writer, tail, now, rest, written)
  {
    BlockedSettled(tail.parse, tail.chunkBytes, tail.Disk(), tail.State());
    hide AreRecords, Identified, CleanState, Items, Remaining, RecordItems, Blocked, OnMain, AllFit;
  }

  lemma BlockedSettled(parse: Parser, limit: nat, d: Disk, st: TailState)
    requires Identified(d) && CleanState(parse, d, st) && Blocked(limit, d, st)
    ensures OnMain(d, st)
  {
    hide Overlong, CleanFrom, CleanPlan;
  }

  lemma NotRotated(gens: seq<Generation>, budget: Option<nat>, keep: nat, identity: nat, payload: Bytes)
    requires gens != [] && !Rotates(gens, budget, payload)
    ensures Recorded(gens, budget, keep, identity, payload) == Grown(gens, payload)
  {
  }

  /** The newest generation holds one more record. */
  function Grown(gens: seq<Generation>, payload: Bytes): seq<Generation>
    requires gens != []
  {
    [gens[0].(records := gens[0].records + [payload])] + gens[1..]
  }

  lemma MainGrows(gens: seq<Generation>, d: Disk, now: Disk, payload: Bytes)
    requires gens != [] && Holds(d, gens) && Holds(now, Grown(gens, payload))
    ensures d.main.Some? && now == GrownDisk(d, payload)
  {
    FlattenSnoc(gens[0].records, payload);
    hide Flatten;
    forall i: nat ensures Lookup(now.rotated, i) == Lookup(d.rotated, i) {
      assert Lookup(now.rotated, i) == if 1 <= i < |gens| then Some(FileOf(Grown(gens, payload)[i])) else None;
      assert Lookup(d.rotated, i) == if 1 <= i < |gens| then Some(FileOf(gens[i])) else None;
    }
    assert now.rotated == d.rotated by { SameEntries(d.rotated, now.rotated); }
  }

  lemma SameEntries(a: map<nat, LogFile>, b: map<nat, LogFile>)
    requires forall i: nat :: Lookup(a, i) == Lookup(b, i)
    ensures a == b
  {
    assert forall i: nat :: (i in a <==> Lookup(a, i).Some?) && (i in b <==> Lookup(b, i).Some?);
    assert forall i: nat | i in a :: Lookup(a, i).value == a[i] && Lookup(b, i).value == b[i];
  }

  function GrownDisk(d: Disk, payload: Bytes): Disk
    requires d.main.Some?
  {
    d.(main := Some(d.main.value.(content := d.main.value.content + payload)))
  }

  lemma AheadParts(parse: Parser, limit: nat, d: Disk, st: TailState, rest: seq<Bytes>)
    requires Ahead(parse, limit, d, st, rest)
    ensures d.main.Some?
  {
    hide Sees;
  }

  /** One more record in the main file is one more undelivered record. */
  lemma AheadGrows(parse: Parser, limit: nat, d: Disk, st: TailState, rest: seq<Bytes>, payload: Bytes)
    requires Ahead(parse, limit, d, st, rest) && IsRecord(parse, payload) && d.main.Some?
    ensures Ahead(parse, limit, GrownDisk(d, payload), st, rest + [payload])
  {
    hide Sees, OnMain;
    SeesGrows(parse, d, st, rest, payload);
  }

  lemma SeesGrows(parse: Parser, d: Disk, st: TailState, rest: seq<Bytes>, payload: Bytes)
    requires Sees(parse, d, st, rest) && OnMain(d, st) && IsRecord(parse, payload)
    ensures Sees(parse, GrownDisk(d, payload), st, rest + [payload]) && OnMain(GrownDisk(d, payload), st)
  {
    hide RecordItems, Items, AreRecords, Scan, CleanFrom, PlanYields, IsRecord, StartPlan, RebuiltYields, CleanPlan,
      Current, CatchUpYields;
    var now, content := GrownDisk(d, payload), d.main.value.content;
    GrownFrom(parse, content, 0, payload);
    OneRecord(parse, payload);
    RecordItemsAppend(parse, rest, [payload]);
    assert now.main.value.content == content + payload;
    if st.plan.Some? {
      var plan := st.plan.value;
      PlanIgnoresMain(parse, d, now, plan);
      CurrentPlanYields(parse, d, st, plan);
      CurrentPlanYields(parse, now, st, plan);
      var catchUp, main := PlanYields(parse, d, plan), Scan(parse, content, 0);
      ItemsAppend(catchUp, main);
      ItemsAppend(catchUp, Scan(parse, content + payload, 0));
      Reassociate(Items(catchUp), Items(main), RecordItems(parse, [payload]));
    } else {
      GrownFrom(parse, content, st.readOffset, payload);
    }
  }

  lemma OneRecord(parse: Parser, payload: Bytes)
    requires IsRecord(parse, payload)
    ensures AreRecords(parse, [payload]) && RecordItems(parse, [payload]) == [RecordItem(parse, payload)]
  {
  }

  lemma {:induction false} PlanIgnoresMain(parse: Parser, d: Disk, now: Disk, plan: seq<PlanEntry>)
    requires d.rotated == now.rotated
    ensures PlanYields(parse, d, plan) == PlanYields(parse, now, plan)
    ensures Current(d, plan) == Current(now, plan) && CleanPlan(parse, d, plan) == CleanPlan(parse, now, plan)
  {
    hide Drain, CleanFrom;
    if plan != [] { PlanIgnoresMain(parse, d, now, plan[1..]); }
  }

  lemma GrownFrom(parse: Parser, content: Bytes, pos: nat, payload: Bytes)
    requires pos <= |content| && CleanFrom(parse, content, pos) && IsRecord(parse, payload)
    ensures CleanFrom(parse, content + payload, pos)
    ensures AreRecords(parse, [payload])
    ensures Items(Scan(parse, content + payload, pos)) ==
            Items(Scan(parse, content, pos)) + RecordItems(parse, [payload])
  {
    OneRecord(parse, payload);
    hide *;
    var s := content[pos..];
    assert (content + payload)[pos..] == s + payload;
    CleanFromIs(parse, content, pos);
    CleanFromIs(parse, content + payload, pos);
    CleanGrows(parse, s, payload);
    ScanIs(parse, content, pos);
    ScanIs(parse, content + payload, pos);
    ItemsOfEmit(parse, Lines(s), pos);
    ItemsOfEmit(parse, Lines(s + payload), pos);
  }

  lemma CleanGrows(parse: Parser, s: Bytes, payload: Bytes)
    requires Clean(parse, s) && IsRecord(parse, payload)
    ensures Clean(parse, s + payload)
    ensures AreRecords(parse, [payload])
    ensures ItemsOf(parse, Lines(s + payload)) == ItemsOf(parse, Lines(s)) + RecordItems(parse, [payload])
  {
    OneRecord(parse, payload);
    hide Lines, Tail, Decode, ItemsOf, RecordItems, Flatten, AreRecords;
    LinesAppend(s, payload);
    LinesOfRecords(parse, [payload]);
    ItemsOfRecords(parse, [payload]);
    FlattenOne(payload);
    var body := payload[..|payload| - 1];
    assert Bodies([payload]) == [body];
    ItemsOfAppend(parse, Lines(s), [body]);
  }

  lemma FlattenOne(payload: Bytes)
    ensures Flatten([payload]) == payload
  {
    FlattenSnoc([], payload);
    assert [] + [payload] == [payload];
  }

  // -------------------------------------------------------------------- the run

  /** Which record of the main file is the first that does not fit, after one more record. */
  lemma HeldStep(limit: nat, gens: seq<Generation>, budget: Option<nat>, keep: nat, identity: nat, payload: Bytes,
                 written: seq<Bytes>, m: nat, deep: bool)
    returns (m': nat)
    requires !AllFit(limit, written) && !deep ==> HeldInMain(limit, gens, written, m)
    requires SizeOf(gens) > 0 <==> gens != []
    ensures var over, rotates := !AllFit(limit, written), Rotates(gens, budget, payload);
            var deep' := DeepAfter(limit, SizeOf(gens), |payload|, rotates, over, deep);
            && (!AllFit(limit, written + [payload]) <==> over || |payload| > limit)
            && (over && deep ==> deep')
            && (!AllFit(limit, written + [payload]) && !deep' ==>
                  HeldInMain(limit, Recorded(gens, budget, keep, identity, payload), written + [payload], m'))
  {
    hide MustRotate, SizeOf, AllFit, Fitting;
    FitSnocIff(limit, written, payload);
    m' := m;
    if gens != [] && !Rotates(gens, budget, payload) {
      NotRotated(gens, budget, keep, identity, payload);
      var records := gens[0].records;
      if AllFit(limit, written) {
        m' := |records|;
        SomeRecord(gens);
        assert (records + [payload])[m'..] == [payload];
      } else if !deep {
        var fit :| AllFit(limit, fit) && written == fit + records[m..];
        assert (records + [payload])[m..] == records[m..] + [payload];
        Reassociate(fit, records[m..], [payload]);
      }
    }
  }

  lemma SomeRecord(gens: seq<Generation>)
    requires SizeOf(gens) > 0
    ensures gens != [] && gens[0].records != []
  {
  }

  lemma FitSnocIff(limit: nat, rs: seq<Bytes>, r: Bytes)
    ensures AllFit(limit, rs + [r]) <==> AllFit(limit, rs) && |r| <= limit
  {
    var all := rs + [r];
    assert all[|rs|] == r;
    assert forall i :: 0 <= i < |rs| ==> all[i] == rs[i];
  }

  /** What admissibility says about the next operation. */
  lemma AdmissibleStep(ops: seq<Op>, writer: AuditWriter, bound: nat, limit: nat, count: nat, over: bool, deep: bool,
                       met: bool)
    requires ops != [] && Admissible(ops, writer.budget, bound, limit, SizeOf(writer.gens), count, over, deep, met)
    requires SizeOf(writer.gens) > 0 <==> writer.gens != []
    ensures match ops[0]
            case Write(line) =>
              var payload, size := line + [LF], SizeOf(writer.gens);
              var rotates := Rotates(writer.gens, writer.budget, payload);
              && (rotates ==> count + 1 <= bound && !met)
              && Admissible(ops[1..], writer.budget, bound, limit, if rotates then |line| + 1 else size + |line| + 1,
                            if rotates then count + 1 else count, over || |payload| > limit,
                            DeepAfter(limit, size, |payload|, rotates, over, deep), met)
            case Polls(_) =>
              Admissible(ops[1..], writer.budget, bound, limit, SizeOf(writer.gens), 0, over, deep,
                         met || (over && deep))
            case Restart =>
              !met && Admissible(ops[1..], writer.budget, bound, limit, SizeOf(writer.gens), count, over, deep, met)
  {
    hide SizeOf;
  }

  lemma NoOps(limit: nat)
    ensures Written([]) == [] && BeforeLastPoll([]) == [] && Fitting(limit, []) == [] && AllFit(limit, [])
  {
  }

  lemma MinIsNat(a: nat, b: nat)
    ensures Min(a, b) >= 0
  {
  }

  lemma SizeIs(writer: AuditWriter)
    requires writer.Valid()
    ensures SizeOf(writer.gens) > 0 <==> writer.gens != []
  {
    WriterHolds(writer, TailPlan.Disk(writer.dir.main, writer.dir.rotated));
    hide Flatten, Holds;
  }

  lemma UnderwayParts(writer: AuditWriter, tail: AuditTail, place: Place, count: nat, delivered: seq<Bytes>,
                      rest: seq<Bytes>, written: seq<Bytes>, met: bool)
    requires Underway(writer, tail, place, count, delivered, rest, written, met)
    ensures writer.Valid() && writer.enabled && tail.Valid() && tail.chunkBytes > 0 && tail.dir == writer.dir
    ensures if met then
              && StuckOver(tail.Disk(), tail, delivered, rest, written)
              && writer.gens != [] && Holds(tail.Disk(), writer.gens)
            else RunningOver(writer.gens, tail, place, count, delivered, written)
  {
    hide Unread, Legible, Loaded, Flatten, Within, AllFit, Sees, Stores;
    WriterHolds(writer, tail.Disk());
  }

  /** A restarted reader stands where the last commit left the old one. */
  lemma RunningAgain(writer: AuditWriter, was: AuditTail, tail: AuditTail, place: Place, count: nat,
                     delivered: seq<Bytes>, rest: seq<Bytes>, written: seq<Bytes>)
    requires Underway(writer, was, place, count, delivered, rest, written, false)
    requires tail.Valid() && tail.State() == Loaded(was.cursor) && tail.cursor == was.cursor
    requires tail.parse == was.parse && tail.chunkBytes == was.chunkBytes && tail.dir == writer.dir
    ensures Underway(writer, tail, place, count, delivered, rest, written, false)
  {
    hide Unread, Legible, Loaded, Flatten, Within, AllFit;
  }

  lemma StartsRunning(writer: AuditWriter, tail: AuditTail)
    requires writer.Valid() && writer.enabled && writer.gens == [] && tail.Valid() && tail.dir == writer.dir
    requires tail.State() == Loaded(Unreadable) && tail.cursor == Unreadable
    ensures Underway(writer, tail, Unstarted, 0, [], [], [], false) && SizeOf(writer.gens) == 0
  {
  }

  lemma CutAt(s: seq<Op>, i: nat)
    requires i < |s|
    ensures s[..i + 1] == s[..i] + [s[i]] && s[i..] != [] && s[i..][0] == s[i] && s[i..][1..] == s[i + 1..]
  {
  }

  /** Any run of writes, polls and restarts in which the rotations between polls stay within
      what is kept and scanned: the events delivered are exactly the records written before
      the last poll up to the first one that does not fit one read, each once, in the order
      they were written. */
  method Run(parse: Parser, chunkBytes: nat, maxBytes: Option<int>, keepFiles: int, ops: seq<Op>)
    returns (delivered: seq<Item>)
    requires chunkBytes > 0
    requires forall i :: 0 <= i < |ops| && ops[i].Write? ==> IsRecord(parse, ops[i].line + [LF])
    requires Admissible(ops, if maxBytes.Some? && maxBytes.value > 0 then Some(maxBytes.value) else None,
                        Min(Max(0, keepFiles), MAX_ROTATED), chunkBytes, 0, 0, false, false, false)
    ensures AreRecords(parse, Fitting(chunkBytes, BeforeLastPoll(ops)))
    ensures delivered == RecordItems(parse, Fitting(chunkBytes, BeforeLastPoll(ops)))
  {
    hide *;
    var writer := new AuditWriter(true, maxBytes, keepFiles);
    var tail := new AuditTail(parse, chunkBytes, writer.dir, Unreadable);
    MinIsNat(writer.keepFiles, MAX_ROTATED);
    ghost var place, count := Unstarted, 0;
    ghost var m: nat := 0;
    ghost var bound: nat := Min(writer.keepFiles, MAX_ROTATED);
    ghost var over, deep, met := false, false, false;
    ghost var rest: seq<Bytes> := [];
    StartsRunning(writer, tail);
    NoRecords(parse);
    NoOps(chunkBytes);
    delivered := [];
    assert ops[..0] == [] && ops[0..] == ops;
    var i := 0;
    while i < |ops|
      invariant 0 <= i <= |ops| && fresh(writer) && fresh(writer.dir) && fresh(tail)
      invariant tail.parse == parse && tail.chunkBytes == chunkBytes && bound == Min(writer.keepFiles, MAX_ROTATED)
      invariant Underway(writer, tail, place, count, Fitting(chunkBytes, BeforeLastPoll(ops[..i])), rest,
                         Written(ops[..i]), met)
      invariant Admissible(ops[i..], writer.budget, bound, chunkBytes, SizeOf(writer.gens), count, over, deep, met)
      invariant over == !AllFit(chunkBytes, Written(ops[..i])) && (met ==> over && deep)
      invariant over && !deep ==> HeldInMain(chunkBytes, writer.gens, Written(ops[..i]), m)
      invariant AreRecords(parse, Fitting(chunkBytes, BeforeLastPoll(ops[..i])))
      invariant delivered == RecordItems(parse, Fitting(chunkBytes, BeforeLastPoll(ops[..i])))
    {
      ghost var done := ops[..i];
      ghost var known, written := Fitting(chunkBytes, BeforeLastPoll(done)), Written(done);
      CutAt(ops, i);
      OpsSnoc(done, ops[i]);
      UnderwayParts(writer, tail, place, count, known, rest, written, met);
      SizeIs(writer);
      AdmissibleStep(ops[i..], writer, bound, chunkBytes, count, over, deep, met);
      match ops[i] {
        case Write(line) =>
          ghost var payload, size := line + [LF], SizeOf(writer.gens);
          ghost var rotates := Rotates(writer.gens, writer.budget, payload);
          m := HeldStep(chunkBytes, writer.gens, writer.budget, writer.keepFiles, writer.dir.nextIdentity, payload,
                        written, m, deep);
          place, count, rest := WriteOp(writer, tail, line, place, count, known, rest, written, met);
          deep := DeepAfter(chunkBytes, size, |payload|, rotates, over, deep);
          over := over || |payload| > chunkBytes;
        case Polls(script) =>
          Reassociate(written, [], []);
          var more;
          ghost var now;
          more, place, now, rest := PollOp(writer, tail, script, place, count, known, rest, written, m, deep, met);
          assert now == known + now[|known|..];
          RecordItemsAppend(parse, known, now[|known|..]);
          delivered := delivered + more;
          count := 0;
          met := met || (over && deep);
        case Restart =>
          Reassociate(written, [], []);
          ghost var was := tail;
          tail := new AuditTail(parse, chunkBytes, writer.dir, tail.cursor);
          RunningAgain(writer, was, tail, place, count, known, rest, written);
      }
      i := i + 1;
    }
    assert ops[..i] == ops;
  }
}
