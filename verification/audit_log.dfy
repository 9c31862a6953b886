/** The audit log's directory and its writer: an append-only file that is renamed
    away, generation by generation, once the next record would exceed the size budget. */
module AuditLog {
  import opened Octets

  /** A file's identity (inode number; 0 where the file system has none) and bytes. */
  datatype LogFile = LogFile(identity: nat, content: Bytes)

  function Lookup(files: map<nat, LogFile>, i: nat): Option<LogFile> {
    if i in files then Some(files[i]) else None
  }

  lemma LookupWithout(files: map<nat, LogFile>, k: nat)
    ensures forall i: nat :: Lookup(files - {k}, i) == if i == k then None else Lookup(files, i)
  {
  }

  lemma LookupWith(files: map<nat, LogFile>, k: nat, f: LogFile)
    ensures forall i: nat :: Lookup(files[k := f], i) == if i == k then Some(f) else Lookup(files, i)
  {
    forall i: nat ensures Lookup(files[k := f], i) == if i == k then Some(f) else Lookup(files, i) {
      assert i in files[k := f] <==> i == k || i in files;
    }
  }

  /** The log's directory entries: the main file and its numbered siblings. */
  class LogDirectory {
    var main: Option<LogFile>
    var rotated: map<nat, LogFile>
    /** The identity the next created file gets. */
    var nextIdentity: nat

    constructor ()
      ensures main == None && rotated == map[] && nextIdentity == 1
    {
      main, rotated, nextIdentity := None, map[], 1;
    }
  }

  /** Renaming every generation one up, dropping the one numbered `keep`. */
  ghost predicate ShiftedInto(was: map<nat, LogFile>, main: Option<LogFile>, keep: nat, now: map<nat, LogFile>) {
    forall i: nat :: Lookup(now, i) == ShiftedEntry(was, main, keep, i)
  }

  function ShiftedEntry(was: map<nat, LogFile>, main: Option<LogFile>, keep: nat, i: nat): Option<LogFile> {
    if i == 0 || i > keep then Lookup(was, i) else if i == 1 then main else Lookup(was, i - 1)
  }

  /** The entries once generations `keep - 1` down to `index + 1` have been renamed. */
  function PartlyShifted(was: map<nat, LogFile>, index: nat, keep: nat, i: nat): Option<LogFile> {
    if index + 1 < i <= keep then Lookup(was, i - 1)
    else if i == index + 1 then None
    else Lookup(was, i)
  }

  /** What a generation holds, record by record. */
  datatype Generation = Generation(identity: nat, records: seq<Bytes>)

  function FileOf(g: Generation): LogFile {
    LogFile(g.identity, Flatten(g.records))
  }

  /** The records of newest-first generations, in the order they were written. */
  function InOrder(gens: seq<Generation>): seq<Bytes> {
    if gens == [] then [] else InOrder(gens[1..]) + gens[0].records
  }

  lemma {:induction false} InOrderAppend(a: seq<Generation>, b: seq<Generation>)
    ensures InOrder(a + b) == InOrder(b) + InOrder(a)
  {
    if a == [] {
      assert a + b == b;
    } else {
      assert (a + b)[1..] == a[1..] + b;
      InOrderAppend(a[1..], b);
    }
  }

  /** The size rule: never rotate an empty file, nor when the record still fits. */
  predicate MustRotate(budget: Option<nat>, size: nat, incoming: nat) {
    budget.Some? && size > 0 && size + incoming > budget.value
  }

  /** A generation is within the budget or holds a single oversized record. */
  predicate WithinBudget(budget: Option<nat>, g: Generation) {
    && g.records != []
    && (forall i :: 0 <= i < |g.records| ==> g.records[i] != [])
    && (budget.None? || |Flatten(g.records)| <= budget.value || |g.records| == 1)
  }

  function SizeOf(gens: seq<Generation>): nat {
    if gens == [] then 0 else |Flatten(gens[0].records)|
  }

  /** The generations after one more record. */
  function Recorded(gens: seq<Generation>, budget: Option<nat>, keep: nat, identity: nat,
                    payload: Bytes): seq<Generation> {
    if gens == [] then [Generation(identity, [payload])]
    else if MustRotate(budget, SizeOf(gens), |payload|)
      then [Generation(identity, [payload])] + gens[..Min(|gens|, keep)]
    else [gens[0].(records := gens[0].records + [payload])] + gens[1..]
  }

  function MainOf(gens: seq<Generation>): Option<LogFile> {
    if gens == [] then None else Some(FileOf(gens[0]))
  }

  /** The rotated files are exactly generations 1, 2, ... without a gap. */
  ghost predicate Stores(rotated: map<nat, LogFile>, gens: seq<Generation>) {
    forall i: nat :: Lookup(rotated, i) == if 1 <= i < |gens| then Some(FileOf(gens[i])) else None
  }

  ghost predicate WellFormed(gens: seq<Generation>, budget: Option<nat>, keep: nat, nextIdentity: nat) {
    && |gens| <= keep + 1
    && nextIdentity > 0
    && (forall i :: 0 <= i < |gens| ==> WithinBudget(budget, gens[i]))
    && (forall i :: 0 <= i < |gens| ==> 0 < gens[i].identity < nextIdentity)
    && (forall i, j :: 0 <= i < j < |gens| ==> gens[i].identity != gens[j].identity)
  }

  class AuditWriter {
    const dir: LogDirectory
    const enabled: bool
    const budget: Option<nat>
    const keepFiles: nat
    /** Whether the main file is held open. */
    var isOpen: bool
    /** The generations on disk, newest first. */
    ghost var gens: seq<Generation>
    /** The records of pruned generations. */
    ghost var dropped: seq<Bytes>

    ghost predicate Valid()
      reads this, dir
    {
      && (isOpen ==> dir.main.Some?)
      && dir.main == MainOf(gens)
      && Stores(dir.rotated, gens)
      && WellFormed(gens, budget, keepFiles, dir.nextIdentity)
    }

    /** Everything ever recorded. */
    ghost function History(): seq<Bytes>
      reads this
    {
      dropped + InOrder(gens)
    }

    /** A non-positive budget disables rotation, a negative keep count means none. */
    constructor (enabled: bool, maxBytes: Option<int>, keepFiles: int)
      ensures Valid() && fresh(dir) && gens == [] && History() == []
      ensures this.enabled == enabled && this.keepFiles == Max(0, keepFiles)
      ensures budget == if maxBytes.Some? && maxBytes.value > 0 then Some(maxBytes.value) else None
      ensures dir.nextIdentity == 1
    {
      this.enabled := enabled;
      this.budget := if maxBytes.Some? && maxBytes.value > 0 then Some(maxBytes.value) else None;
      this.keepFiles := Max(0, keepFiles);
      isOpen := false;
      gens, dropped := [], [];
      dir := new LogDirectory();
    }

    /** Opens the main file, creating it when it does not exist. */
    method OpenMain()
      modifies this`isOpen, dir`main, dir`nextIdentity
      requires isOpen ==> dir.main.Some?
      ensures isOpen
      ensures if old(dir.main).Some? then dir.main == old(dir.main) && dir.nextIdentity == old(dir.nextIdentity)
              else dir.main == Some(LogFile(old(dir.nextIdentity), [])) && dir.nextIdentity == old(dir.nextIdentity) + 1
    {
      if isOpen {
        return;
      }
      if dir.main.None? {
        dir.main := Some(LogFile(dir.nextIdentity, []));
        dir.nextIdentity := dir.nextIdentity + 1;
      }
      isOpen := true;
    }

    /** The renaming loop, oldest generation first. */
    method RotateFiles()
      modifies dir`main, dir`rotated
      ensures dir.main == None
      ensures if keepFiles == 0 then dir.rotated == old(dir.rotated)
              else ShiftedInto(old(dir.rotated), old(dir.main), keepFiles, dir.rotated)
    {
      if keepFiles == 0 {
        dir.main := None;
        return;
      }
      ghost var was := dir.rotated;
      LookupWithout(dir.rotated, keepFiles);
      dir.rotated := dir.rotated - {keepFiles};
      var index := keepFiles - 1;
      while index > 0
        invariant 0 <= index < keepFiles
        invariant dir.main == old(dir.main)
        invariant forall i: nat :: Lookup(dir.rotated, i) == PartlyShifted(was, index, keepFiles, i)
      {
        ghost var before := dir.rotated;
        if index in dir.rotated {
          var file := dir.rotated[index];
          LookupWith(dir.rotated, index + 1, file);
          LookupWithout(dir.rotated[index + 1 := file], index);
          dir.rotated := dir.rotated[index + 1 := file] - {index};
        }
        forall i: nat ensures Lookup(dir.rotated, i) == PartlyShifted(was, index - 1, keepFiles, i) {
          assert Lookup(before, i) == PartlyShifted(was, index, keepFiles, i);
          assert Lookup(before, index) == PartlyShifted(was, index, keepFiles, index);
        }
        index := index - 1;
      }
      ghost var shifted := dir.rotated;
      if dir.main.Some? {
        LookupWith(dir.rotated, 1, dir.main.value);
        dir.rotated := dir.rotated[1 := dir.main.value];
        dir.main := None;
      }
      forall i: nat ensures Lookup(dir.rotated, i) == ShiftedEntry(was, old(dir.main), keepFiles, i) {
        assert Lookup(shifted, i) == PartlyShifted(was, 0, keepFiles, i);
      }
    }

    /** Rolls the log out of the way and opens a new, empty main file. */
    method Rotate(ghost g: Generation)
      requires Valid() && gens != []
      modifies this`isOpen, dir
      ensures isOpen && dir.nextIdentity == old(dir.nextIdentity) + 1
      ensures dir.main == Some(LogFile(old(dir.nextIdentity), []))
      ensures Stores(dir.rotated, [g] + gens[..Min(|gens|, keepFiles)])
    {
      isOpen := false;
      ghost var was := dir.rotated;
      RotateFiles();
      forall i: nat ensures Lookup(dir.rotated, i) ==
                              if 1 <= i <= Min(|gens|, keepFiles) then Some(FileOf(gens[i - 1])) else None
      {
        assert Lookup(was, i) == if 1 <= i < |gens| then Some(FileOf(gens[i])) else None;
        if i > 0 {
          assert Lookup(was, i - 1) == if 1 <= i - 1 < |gens| then Some(FileOf(gens[i - 1])) else None;
        }
        if keepFiles > 0 {
          assert Lookup(dir.rotated, i) == ShiftedEntry(was, Some(FileOf(gens[0])), keepFiles, i);
        }
      }
      assert Stores(dir.rotated, [g] + gens[..Min(|gens|, keepFiles)]);
      OpenMain();
    }

    /** Appends one line as a record, rotating first when it would not fit. */
    method Record(line: Bytes) returns (ok: bool)
      requires Valid()
      modifies this, dir
      ensures Valid() && ok == enabled
      ensures !enabled ==>
                gens == old(gens) && dropped == old(dropped) && dir.main == old(dir.main)
                  && dir.rotated == old(dir.rotated)
      ensures enabled ==> History() == old(History()) + [line + [LF]]
      ensures enabled ==> gens == Recorded(old(gens), budget, keepFiles, old(dir.nextIdentity), line + [LF])
      ensures enabled ==> dropped == old(dropped) + Pruned(old(gens), budget, keepFiles, line + [LF])
    {
      if !enabled {
        return false;
      }
      hide MainOf, Stores, WellFormed, InOrder, Flatten, Pruned, Recorded;
      Append(line + [LF]);
      return true;
    }

    method Append(payload: Bytes)
      requires Valid() && payload != []
      modifies this, dir
      ensures Valid()
      ensures History() == old(History()) + [payload]
      ensures gens == Recorded(old(gens), budget, keepFiles, old(dir.nextIdentity), payload)
      ensures dropped == old(dropped) + Pruned(old(gens), budget, keepFiles, payload)
    {
      hide MainOf, Stores, WellFormed, InOrder, Flatten, Pruned, Recorded, WithinBudget, Lookup, SizeOf;
      ghost var was, identity := gens, dir.nextIdentity;
      ghost var next := Recorded(gens, budget, keepFiles, identity, payload);
      RecordedWellFormed(gens, budget, keepFiles, identity, payload);
      RecordedMain(gens, budget, keepFiles, identity, payload);
      RecordedStores(gens, budget, keepFiles, identity, payload);
      EmptyConcat(payload);
      OpenMain();
      if MustRotate(budget, |dir.main.value.content|, |payload|) {
        Rotate(Generation(identity, [payload]));
      }
      dir.main := Some(dir.main.value.(content := dir.main.value.content + payload));
      gens := next;
      dropped := dropped + Pruned(was, budget, keepFiles, payload);
      RecordedHistory(was, budget, keepFiles, identity, payload);
      HistoryStep(old(dropped), Pruned(was, budget, keepFiles, payload), InOrder(next), InOrder(was), payload);
    }
  }

  /** The records pruned by one more record. */
  function Pruned(gens: seq<Generation>, budget: Option<nat>, keep: nat, payload: Bytes): seq<Bytes> {
    if gens != [] && MustRotate(budget, SizeOf(gens), |payload|) then InOrder(gens[Min(|gens|, keep)..]) else []
  }

  lemma RecordedHistory(gens: seq<Generation>, budget: Option<nat>, keep: nat, identity: nat, payload: Bytes)
    ensures Pruned(gens, budget, keep, payload) + InOrder(Recorded(gens, budget, keep, identity, payload))
         == InOrder(gens) + [payload]
  {
    hide InOrder, Flatten, MustRotate;
    if gens == [] {
      InOrderCons(Generation(identity, [payload]), []);
      NothingInOrder();
      assert [Generation(identity, [payload])] + [] == [Generation(identity, [payload])];
    } else if MustRotate(budget, SizeOf(gens), |payload|) {
      RotatedHistory(gens, Min(|gens|, keep), Generation(identity, [payload]));
    } else {
      GrownHistory(gens, payload);
    }
  }

  lemma HistoryStep(dropped: seq<Bytes>, pruned: seq<Bytes>, now: seq<Bytes>, was: seq<Bytes>, payload: Bytes)
    requires pruned + now == was + [payload]
    ensures (dropped + pruned) + now == (dropped + was) + [payload]
  {
    assert (dropped + pruned) + now == dropped + (pruned + now);
    assert (dropped + was) + [payload] == dropped + (was + [payload]);
  }

  lemma EmptyConcat(s: Bytes)
    ensures [] + s == s
  {
  }

  lemma RotatedHistory(gens: seq<Generation>, k: nat, g: Generation)
    requires k <= |gens|
    ensures InOrder(gens[k..]) + InOrder([g] + gens[..k]) == InOrder(gens) + g.records
  {
    hide InOrder;
    InOrderAppend(gens[..k], gens[k..]);
    InOrderCons(g, gens[..k]);
    assert gens == gens[..k] + gens[k..];
  }

  lemma GrownHistory(gens: seq<Generation>, payload: Bytes)
    requires gens != []
    ensures InOrder([gens[0].(records := gens[0].records + [payload])] + gens[1..]) == InOrder(gens) + [payload]
  {
    hide InOrder;
    InOrderCons(gens[0].(records := gens[0].records + [payload]), gens[1..]);
    InOrderCons(gens[0], gens[1..]);
    assert gens == [gens[0]] + gens[1..];
  }

  lemma NothingInOrder()
    ensures InOrder([]) == []
  {
  }

  lemma InOrderCons(g: Generation, gens: seq<Generation>)
    ensures InOrder([g] + gens) == InOrder(gens) + g.records
  {
    assert ([g] + gens)[1..] == gens;
  }

  lemma RecordedWellFormed(gens: seq<Generation>, budget: Option<nat>, keep: nat, identity: nat, payload: Bytes)
    requires payload != [] && WellFormed(gens, budget, keep, identity)
    ensures WellFormed(Recorded(gens, budget, keep, identity, payload), budget, keep, identity + 1)
    ensures gens != [] && !MustRotate(budget, SizeOf(gens), |payload|) ==>
              WellFormed(Recorded(gens, budget, keep, identity, payload), budget, keep, identity)
  {
    hide WithinBudget, Flatten, SizeOf, MustRotate;
    var next := Recorded(gens, budget, keep, identity, payload);
    assert forall i :: 1 <= i < |next| ==>
             next[i] == if MustRotate(budget, SizeOf(gens), |payload|) then gens[i - 1] else gens[i];
    SingleWithinBudget(budget, identity, payload);
    if gens != [] && !MustRotate(budget, SizeOf(gens), |payload|) {
      GrownWithinBudget(gens, budget, payload);
    }
  }

  lemma SingleWithinBudget(budget: Option<nat>, identity: nat, payload: Bytes)
    requires payload != []
    ensures WithinBudget(budget, Generation(identity, [payload]))
  {
  }

  lemma GrownWithinBudget(gens: seq<Generation>, budget: Option<nat>, payload: Bytes)
    requires gens != [] && payload != [] && WithinBudget(budget, gens[0])
    requires !MustRotate(budget, SizeOf(gens), |payload|)
    ensures WithinBudget(budget, gens[0].(records := gens[0].records + [payload]))
  {
    FlattenSnoc(gens[0].records, payload);
    assert |Flatten(gens[0].records)| == |gens[0].records[0]| + |Flatten(gens[0].records[1..])|;
    hide Flatten;
  }

  lemma RecordedStores(gens: seq<Generation>, budget: Option<nat>, keep: nat, identity: nat, payload: Bytes)
    ensures var next := Recorded(gens, budget, keep, identity, payload);
            if gens != [] && MustRotate(budget, SizeOf(gens), |payload|) then
              next == [Generation(identity, [payload])] + gens[..Min(|gens|, keep)]
            else
              forall r :: Stores(r, gens) ==> Stores(r, next)
  {
    hide Flatten, MustRotate;
  }

  lemma RecordedMain(gens: seq<Generation>, budget: Option<nat>, keep: nat, identity: nat, payload: Bytes)
    ensures MainOf(Recorded(gens, budget, keep, identity, payload)) == Some(
              if gens == [] || MustRotate(budget, SizeOf(gens), |payload|) then LogFile(identity, payload)
              else LogFile(gens[0].identity, Flatten(gens[0].records) + payload))
    ensures MainOf(gens) == if gens == [] then None else Some(LogFile(gens[0].identity, Flatten(gens[0].records)))
    ensures gens != [] ==> SizeOf(gens) == |Flatten(gens[0].records)|
    ensures MustRotate(budget, 0, |payload|) == false
  {
    FlattenSnoc([], payload);
    assert [] + [payload] == [payload] && [] + payload == payload;
    if gens != [] {
      FlattenSnoc(gens[0].records, payload);
    }
    hide Flatten;
  }

  function Payloads(lines: seq<Bytes>): seq<Bytes> {
    seq(|lines|, i requires 0 <= i < |lines| => lines[i] + [LF])
  }

  /** The records of the generations, oldest first. */
  function OldestFirst(gens: seq<Generation>): seq<seq<Bytes>> {
    seq(|gens|, j requires 0 <= j < |gens| => gens[|gens| - 1 - j].records)
  }

  /** Each file holds the records of its part. */
  predicate FilesHold(contents: seq<Bytes>, parts: seq<seq<Bytes>>) {
    |contents| == |parts| && forall j :: 0 <= j < |parts| ==> contents[j] == Flatten(parts[j])
  }

  /** Reads the files back, oldest generation first, then the main file. */
  method ReadBack(writer: AuditWriter) returns (contents: seq<Bytes>)
    requires writer.Valid()
    ensures FilesHold(contents, OldestFirst(writer.gens))
  {
    hide WellFormed, Flatten;
    contents := [];
    if writer.dir.main.None? {
      return;
    }
    ghost var parts := OldestFirst(writer.gens);
    var i := 0;
    while i + 1 in writer.dir.rotated
      invariant 0 <= i < |writer.gens|
      decreases |writer.gens| - i
    {
      assert Lookup(writer.dir.rotated, i + 1).Some?;
      i := i + 1;
    }
    assert Lookup(writer.dir.rotated, i + 1).None?;
    while i > 0
      invariant 0 <= i < |writer.gens| && |contents| == |writer.gens| - 1 - i
      invariant forall j :: 0 <= j < |contents| ==> contents[j] == Flatten(parts[j])
    {
      assert Lookup(writer.dir.rotated, i) == Some(FileOf(writer.gens[i]));
      contents := contents + [writer.dir.rotated[i].content];
      i := i - 1;
    }
    contents := contents + [writer.dir.main.value.content];
  }

  lemma {:induction false} OldestFirstFlattens(gens: seq<Generation>)
    ensures Flatten(OldestFirst(gens)) == InOrder(gens)
  {
    hide Flatten, InOrder;
    if gens == [] {
      NothingInOrder();
      FlattenNil<Bytes>();
      assert OldestFirst(gens) == [];
    } else {
      OldestFirstFlattens(gens[1..]);
      assert OldestFirst(gens) == OldestFirst(gens[1..]) + [gens[0].records];
      FlattenSnoc(OldestFirst(gens[1..]), gens[0].records);
      assert gens == [gens[0]] + gens[1..];
      InOrderCons(gens[0], gens[1..]);
    }
  }

  /** The records as the size rule cuts them into files, oldest first. */
  function Cut(budget: Option<nat>, records: seq<Bytes>): seq<seq<Bytes>> {
    if records == [] then []
    else
      var r := records[|records| - 1];
      CutNext(budget, Cut(budget, records[..|records| - 1]), r)
  }

  function CutNext(budget: Option<nat>, parts: seq<seq<Bytes>>, r: Bytes): seq<seq<Bytes>> {
    if parts == [] then [[r]]
    else
      var last := parts[|parts| - 1];
      if MustRotate(budget, |Flatten(last)|, |r|) then parts + [[r]] else parts[..|parts| - 1] + [last + [r]]
  }

  function Newest<T>(parts: seq<T>, n: nat): seq<T> {
    parts[Max(0, |parts| - n)..]
  }

  /** What a run of records leaves on disk: the newest `keepFiles + 1` of the files into which
      the size rule cuts the records, and nothing else. */
  method RecordAll(maxBytes: Option<int>, keepFiles: int, lines: seq<Bytes>) returns (contents: seq<Bytes>)
    ensures var budget := if maxBytes.Some? && maxBytes.value > 0 then Some(maxBytes.value) else None;
            FilesHold(contents, Newest(Cut(budget, Payloads(lines)), Max(0, keepFiles) + 1))
  {
    hide InOrder, Flatten, WellFormed, Stores, Pruned, MainOf, Recorded, Cut, CutNext, Newest, OldestFirst;
    var writer := new AuditWriter(true, maxBytes, keepFiles);
    var n := 0;
    NothingCut(writer.budget, writer.keepFiles);
    while n < |lines|
      invariant 0 <= n <= |lines| && writer.Valid() && fresh(writer) && fresh(writer.dir)
      invariant OldestFirst(writer.gens) == Newest(Cut(writer.budget, Payloads(lines[..n])), writer.keepFiles + 1)
    {
      assert Payloads(lines[..n + 1]) == Payloads(lines[..n]) + [lines[n] + [LF]];
      CutSnoc(writer.budget, Payloads(lines[..n]), lines[n] + [LF]);
      RecordedCut(writer.gens, writer.budget, writer.keepFiles, writer.dir.nextIdentity, lines[n] + [LF],
                  Cut(writer.budget, Payloads(lines[..n])));
      var _ := writer.Record(lines[n]);
      n := n + 1;
    }
    assert lines[..n] == lines;
    contents := ReadBack(writer);
  }

  lemma NothingCut(budget: Option<nat>, keep: nat)
    ensures OldestFirst([]) == Newest(Cut(budget, Payloads([])), keep + 1)
  {
  }

  lemma CutSnoc(budget: Option<nat>, records: seq<Bytes>, r: Bytes)
    ensures Cut(budget, records + [r]) == CutNext(budget, Cut(budget, records), r)
  {
    hide CutNext;
    assert (records + [r])[..|records|] == records;
  }

  /** One more record on disk is one more record cut. */
  lemma RecordedCut(gens: seq<Generation>, budget: Option<nat>, keep: nat, identity: nat, r: Bytes,
                    parts: seq<seq<Bytes>>)
    requires OldestFirst(gens) == Newest(parts, keep + 1)
    ensures OldestFirst(Recorded(gens, budget, keep, identity, r)) == Newest(CutNext(budget, parts, r), keep + 1)
  {
    hide Flatten, MustRotate, OldestFirst, Newest;
    var g := Generation(identity, [r]);
    SameNewest(gens, parts, keep);
    NewestSnoc(parts, [r], keep);
    if gens == [] {
      OldestFirstCons(g, []);
      assert [g] + [] == [g] && parts + [[r]] == [[r]];
      NewestNil<seq<Bytes>>(keep);
    } else {
      var last := parts[|parts| - 1];
      OldestFirstCons(g, gens[..Min(|gens|, keep)]);
      OldestFirstTake(gens, Min(|gens|, keep));
      NewestDrop(parts, keep);
      OldestFirstCons(gens[0].(records := last + [r]), gens[1..]);
      OldestFirstCons(gens[0], gens[1..]);
      assert gens == [gens[0]] + gens[1..];
      NewestSnoc(parts[..|parts| - 1], last + [r], keep);
      NewestSnoc(parts[..|parts| - 1], last, keep);
      assert parts == parts[..|parts| - 1] + [last];
      CancelRight(OldestFirst(gens[1..]), Newest(parts[..|parts| - 1], keep), [last]);
    }
  }

  lemma SameNewest(gens: seq<Generation>, parts: seq<seq<Bytes>>, keep: nat)
    requires OldestFirst(gens) == Newest(parts, keep + 1)
    ensures gens == [] <==> parts == []
    ensures |gens| == Min(|parts|, keep + 1) == |Newest(parts, keep + 1)|
    ensures gens != [] ==> gens[0].records == parts[|parts| - 1]
  {
    assert |gens| == |OldestFirst(gens)|;
    if gens != [] { assert OldestFirst(gens)[|gens| - 1] == gens[0].records; }
  }

  lemma OldestFirstCons(g: Generation, gens: seq<Generation>)
    ensures OldestFirst([g] + gens) == OldestFirst(gens) + [g.records] && OldestFirst([]) == []
  {
  }

  lemma OldestFirstTake(gens: seq<Generation>, n: nat)
    requires n <= |gens|
    ensures OldestFirst(gens[..n]) == OldestFirst(gens)[|gens| - n..]
  {
  }

  lemma NewestNil<T>(n: nat)
    ensures Newest<T>([], n) == []
  {
  }

  lemma NewestSnoc<T>(parts: seq<T>, part: T, n: nat)
    ensures Newest(parts + [part], n + 1) == Newest(parts, n) + [part]
  {
  }

  lemma NewestDrop<T>(parts: seq<T>, n: nat)
    ensures var more := Newest(parts, n + 1);
            |more| >= Min(|more|, n) && Newest(parts, n) == more[|more| - Min(|more|, n)..]
  {
  }

  /** Every file holds a record; each is within the budget unless it is a single record; and
      a file is closed only when the next record would exceed the budget. */
  ghost predicate SoundParts(budget: Option<nat>, parts: seq<seq<Bytes>>) {
    && (forall i :: 0 <= i < |parts| ==> parts[i] != [] && parts[i][0] != [])
    && (budget.Some? ==>
          && (forall i :: 0 <= i < |parts| ==> |Flatten(parts[i])| <= budget.value || |parts[i]| == 1)
          && (forall i :: 0 < i < |parts| ==> |Flatten(parts[i - 1])| + |parts[i][0]| > budget.value))
    && (budget.None? ==> |parts| <= 1)
  }

  /** The size rule cuts the records into whole files in order. */
  lemma {:induction false} CutIsSound(budget: Option<nat>, records: seq<Bytes>)
    requires forall i :: 0 <= i < |records| ==> records[i] != []
    ensures SoundParts(budget, Cut(budget, records)) && Flatten(Cut(budget, records)) == records
    decreases |records|
  {
    hide Flatten, SoundParts;
    if records == [] {
      FlattenNil<Bytes>();
      NoParts(budget);
    } else {
      var most, r := records[..|records| - 1], records[|records| - 1];
      CutIsSound(budget, most);
      assert records == most + [r];
      CutNextIsSound(budget, Cut(budget, most), r);
      CutNextFlattens(budget, Cut(budget, most), r);
    }
  }

  lemma NoParts(budget: Option<nat>)
    ensures SoundParts(budget, [])
  {
  }

  lemma CutNextIsSound(budget: Option<nat>, parts: seq<seq<Bytes>>, r: Bytes)
    requires SoundParts(budget, parts) && r != []
    ensures SoundParts(budget, CutNext(budget, parts, r))
  {
    FlattenNil<Octet>();
    FlattenSnoc([], r);
    if parts != [] {
      FlattenSnoc(parts[|parts| - 1], r);
      SomeBytes(parts[|parts| - 1]);
    }
    hide Flatten;
    var next := CutNext(budget, parts, r);
    assert forall i :: 0 <= i < |parts| - 1 ==> next[i] == parts[i];
  }

  lemma SomeBytes(part: seq<Bytes>)
    requires part != [] && part[0] != []
    ensures |Flatten(part)| > 0
  {
  }

  lemma CutNextFlattens(budget: Option<nat>, parts: seq<seq<Bytes>>, r: Bytes)
    ensures Flatten(CutNext(budget, parts, r)) == Flatten(parts) + [r]
  {
    hide Flatten, MustRotate;
    FlattenSnoc(parts, [r]);
    if parts == [] {
      FlattenNil<Bytes>();
      assert parts + [[r]] == [[r]];
    } else {
      var front, last := parts[..|parts| - 1], parts[|parts| - 1];
      assert parts == front + [last];
      FlattenSnoc(front, last);
      FlattenSnoc(front, last + [r]);
      Reassociate(Flatten(front), last, [r]);
    }
  }

  /** Whatever is pruned, the newest record is on disk: it is the last of the newest file; and
      what is pruned are the oldest files, whole. */
  lemma NewestIsKept(budget: Option<nat>, records: seq<Bytes>, keep: nat)
    requires records != [] && forall i :: 0 <= i < |records| ==> records[i] != []
    ensures var parts := Cut(budget, records);
            var kept := Newest(parts, keep + 1);
            && 0 < |kept| <= keep + 1 && kept[|kept| - 1] != []
            && kept[|kept| - 1][|kept[|kept| - 1]| - 1] == records[|records| - 1]
            && Flatten(parts[..|parts| - |kept|]) + Flatten(kept) == records
  {
    hide Flatten, MustRotate, SoundParts;
    CutIsSound(budget, records);
    var parts := Cut(budget, records);
    var kept := Newest(parts, keep + 1);
    LastCut(budget, Cut(budget, records[..|records| - 1]), records[|records| - 1]);
    assert kept[|kept| - 1] == parts[|parts| - 1];
    FlattenAppend(parts[..|parts| - |kept|], kept);
    assert parts == parts[..|parts| - |kept|] + kept;
  }

  lemma LastCut(budget: Option<nat>, parts: seq<seq<Bytes>>, r: Bytes)
    ensures var next := CutNext(budget, parts, r);
            next != [] && next[|next| - 1] != [] && next[|next| - 1][|next[|next| - 1]| - 1] == r
  {
  }
}
