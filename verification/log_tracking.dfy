/** Exactly once, step by step: writes, single reads, acknowledgements and restarts in any
    order, with the conditions under which each of them keeps what was promised. */
module LogTracking {
  import opened Octets
  import opened LogLines
  import opened AuditLog
  import opened TailPlan
  import opened AuditTailing
  import opened LogDelivery

  // ------------------------------------------------------------------- the state

  datatype Setup = Setup(parse: Parser, chunkBytes: nat, budget: Option<nat>, keep: nat)

  /** Writer and reader between two steps: the generations on disk and the records of pruned
      ones, the reader with its cursor file, what it delivered and was not acknowledged yet,
      and everything that was acknowledged. */
  datatype LogState = LogState(disk: Disk, gens: seq<Generation>, dropped: seq<Bytes>,
                               tail: TailState, cursor: StoredCursor, pending: seq<Yield>, acked: seq<Item>)

  function Written(s: LogState): seq<Bytes> {
    s.dropped + InOrder(s.gens)
  }

  function MainRecords(s: LogState): seq<Bytes> {
    if s.gens == [] then [] else s.gens[0].records
  }

  /** Where, among everything written, the main file's records begin. */
  function MainStart(s: LogState): int {
    |Written(s)| - |MainRecords(s)|
  }

  /** The position in the main file behind the `t`-th record written; 0, if it is older. */
  function Position(s: LogState, t: int): nat {
    if MainStart(s) < t <= |Written(s)| then EndOf(MainRecords(s), t - MainStart(s)) else 0
  }

  /** A catch-up was acknowledged, but nothing of the new main file. */
  predicate Sentinel(cursor: StoredCursor) {
    cursor.Stored? && cursor.offset == Some(0)
  }

  /** The records written from the `t`-th on. */
  function From(s: LogState, t: nat): seq<Bytes>
    requires t <= |Written(s)|
  {
    Written(s)[t..]
  }

  /** What was acknowledged, what is queued and what is still to come are the records written,
      each once and in order; queued and stored checkpoints stand behind the records they
      acknowledge; and unless the sentinel is stored, a restart would find what was not
      acknowledged. */
  ghost predicate TracksAt(c: Setup, s: LogState, place: Place) {
    var a, b := |s.acked|, |s.acked| + |s.pending|;
    && Holds(s.disk, s.gens) && Legible(c.parse, s.gens) && AreRecords(c.parse, Written(s))
    && b <= |Written(s)|
    && s.acked + Items(s.pending) == RecordItems(c.parse, Written(s))[..b]
    && (forall i :: 0 <= i < |s.pending| ==> s.pending[i].offset == Position(s, a + i + 1))
    && (if OnMain(s.disk, s.tail) then Reading(c, s, a, b)
        else s.pending == [] && Loaded(s.cursor) == s.tail && !Sentinel(s.cursor))
    && (if Sentinel(s.cursor) then Loaded(s.cursor) == TailState(0, 0, s.tail.inode, None)
        else Stands(s.gens, Loaded(s.cursor), place) && Unread(s.gens, place) == From(s, a))
  }

  /** The reader is catching up with the current main file or reading it. */
  ghost predicate Reading(c: Setup, s: LogState, a: nat, b: nat)
    requires a <= b <= |Written(s)|
  {
    && Sees(c.parse, s.disk, s.tail, From(s, b))
    && s.tail.offset == Position(s, a) && s.tail.readOffset == Position(s, b)
    && (s.tail.plan.Some? ==> b <= MainStart(s))
    && (s.tail.offset > 0 ==> Loaded(s.cursor) == TailState(s.tail.offset, s.tail.offset, s.tail.inode, None))
  }

  ghost predicate Tracks(c: Setup, s: LogState) {
    exists place :: TracksAt(c, s, place)
  }

  // ----------------------------------------------------------------- the offsets

  /** The offset behind the first `n` of `records`. */
  function EndOf(records: seq<Bytes>, n: nat): nat
    requires n <= |records|
  {
    |Flatten(records[..n])|
  }

  lemma EndCons(r: Bytes, rest: seq<Bytes>, n: nat)
    requires n <= |rest|
    ensures EndOf([r] + rest, n + 1) == |r| + EndOf(rest, n) && EndOf(rest, 0) == 0
  {
    assert ([r] + rest)[..n + 1] == [r] + rest[..n] && ([r] + rest[..n])[1..] == rest[..n];
  }

  lemma EndSplit(records: seq<Bytes>, j: nat, n: nat)
    requires j + n <= |records|
    ensures EndOf(records, j + n) == EndOf(records, j) + EndOf(records[j..], n)
  {
    hide Flatten;
    assert records[..j + n] == records[..j] + records[j..][..n];
    FlattenAppend(records[..j], records[j..][..n]);
  }

  /** The `i`-th event of a file of records carries the offset behind its record. */
  lemma {:induction false} EmitOffsets(parse: Parser, rs: seq<Bytes>, pos: nat)
    requires AreRecords(parse, rs)
    ensures forall r :: r in rs ==> r != []
    ensures var ys := Emit(parse, Bodies(rs), pos);
            |ys| == |rs| && forall i :: 0 <= i < |ys| ==> ys[i].offset == pos + EndOf(rs, i + 1)
  {
    NonEmptyRecords(parse, rs);
    if rs != [] {
      var r, rest := rs[0], rs[1..];
      assert r in rs && rs == [r] + rest;
      EmitOffsets(parse, rest, pos + |r|);
      assert Bodies(rs) == [r[..|r| - 1]] + Bodies(rest);
      hide Decode, Emit, EndOf;
      EmitCons(parse, r[..|r| - 1], Bodies(rest), pos);
      RecordYield(parse, r, pos);
      var ys := Emit(parse, Bodies(rs), pos);
      forall i | 0 <= i < |ys| ensures ys[i].offset == pos + EndOf(rs, i + 1) {
        EndCons(r, rest, i);
      }
    }
  }

  lemma RecordYield(parse: Parser, r: Bytes, pos: nat)
    requires IsRecord(parse, r)
    ensures var ys := LineYield(parse, r[..|r| - 1], pos + |r|); |ys| == 1 && ys[0].offset == pos + |r|
  {
    RecordDecodes(parse, r);
    hide Decode;
  }

  /** Reading a file from behind its `j`-th record on. */
  lemma RecordOffsets(parse: Parser, records: seq<Bytes>, j: nat)
    requires AreRecords(parse, records) && j <= |records|
    ensures var ys := Scan(parse, Flatten(records), EndOf(records, j));
            |ys| == |records| - j && forall i :: 0 <= i < |ys| ==> ys[i].offset == EndOf(records, j + i + 1)
  {
    hide *;
    var rest, pos := records[j..], EndOf(records, j);
    SomeRecords(parse, records, j);
    EndIs(records, j);
    EmitOffsets(parse, rest, pos);
    FlattenSplit(records, j);
    ScanIs(parse, Flatten(records), pos);
    LinesOfRecords(parse, rest);
    var ys := Scan(parse, Flatten(records), pos);
    forall i | 0 <= i < |ys| ensures ys[i].offset == EndOf(records, j + i + 1) {
      EndSplit(records, j, i + 1);
    }
  }

  lemma EndIs(records: seq<Bytes>, n: nat)
    requires n <= |records|
    ensures EndOf(records, n) == |Flatten(records[..n])|
  {
  }

  lemma SomeRecords(parse: Parser, records: seq<Bytes>, j: nat)
    requires AreRecords(parse, records) && j <= |records|
    ensures AreRecords(parse, records[j..])
  {
  }

  /** Everything a catch-up delivers carries the sentinel offset. */
  lemma {:induction false} PlanOffsets(parse: Parser, d: Disk, plan: seq<PlanEntry>)
    ensures forall i :: 0 <= i < |PlanYields(parse, d, plan)| ==> PlanYields(parse, d, plan)[i].offset == 0
  {
    if plan != [] {
      PlanOffsets(parse, d, plan[1..]);
      if plan[0].index in d.rotated { DrainOffsets(parse, d.rotated[plan[0].index].content, plan[0].start); }
      hide Drain;
    }
  }

  lemma DrainOffsets(parse: Parser, content: Bytes, pos: nat)
    ensures forall i :: 0 <= i < |Drain(parse, content, pos)| ==> Drain(parse, content, pos)[i].offset == 0
  {
    if pos <= |content| { SentinelOffsets(parse, Split(content[pos..])); }
  }

  lemma {:induction false} SentinelOffsets(parse: Parser, lines: seq<Bytes>)
    ensures forall i :: 0 <= i < |Sentinels(parse, lines)| ==> Sentinels(parse, lines)[i].offset == 0
  {
    if lines != [] {
      SentinelOffsets(parse, lines[1..]);
      hide Decode;
    }
  }

  /** What is ahead of the reader are the records not delivered yet. */
  lemma AheadIs(c: Setup, s: LogState, place: Place)
    requires TracksAt(c, s, place)
    ensures Sees(c.parse, s.disk, s.tail, From(s, |s.acked| + |s.pending|))
  {
    hide Holds, Legible, AreRecords, Sees, Stands, Unread, OnMain, Loaded, Position;
    if !OnMain(s.disk, s.tail) {
      SettledRemaining(c.parse, s.disk, s.gens, s.tail, place);
    }
  }

  /** Older records with the sentinel, then the main file from its beginning. */
  lemma ZerosThenMain(c: Setup, s: LogState, zeros: seq<Yield>, all: seq<Yield>, b: nat)
    requires s.gens != [] && AreRecords(c.parse, MainRecords(s)) && |MainRecords(s)| <= |Written(s)|
    requires all == zeros + Scan(c.parse, Flatten(MainRecords(s)), 0) && b + |all| == |Written(s)|
    requires forall i :: 0 <= i < |zeros| ==> zeros[i].offset == 0
    ensures forall i :: 0 <= i < |all| ==> all[i].offset == Position(s, b + i + 1)
    ensures |zeros| == MainStart(s) - b
  {
    hide AreRecords, Scan, Flatten, Written, MainRecords;
    var records := MainRecords(s);
    RecordOffsets(c.parse, records, 0);
    NoEnd(records);
    hide EndOf;
    var main := Scan(c.parse, Flatten(records), 0);
    forall i | 0 <= i < |all| ensures all[i].offset == Position(s, b + i + 1) {
      if i >= |zeros| { assert main[i - |zeros|].offset == EndOf(records, i - |zeros| + 1); }
    }
  }

  lemma NoEnd(records: seq<Bytes>)
    ensures EndOf(records, 0) == 0
  {
  }

  /** The main file from behind a record of it. */
  lemma RestOfMain(c: Setup, s: LogState, all: seq<Yield>, b: nat)
    requires s.gens != [] && AreRecords(c.parse, MainRecords(s)) && |MainRecords(s)| <= |Written(s)|
    requires all == Scan(c.parse, Flatten(MainRecords(s)), Position(s, b)) && b + |all| == |Written(s)|
    ensures forall i :: 0 <= i < |all| ==> all[i].offset == Position(s, b + i + 1)
  {
    hide AreRecords, Scan, Flatten, Written, MainRecords;
    if b <= MainStart(s) {
      EmptyZeros(all);
      ZerosThenMain(c, s, [], all, b);
    } else {
      var records, j := MainRecords(s), b - MainStart(s);
      RecordOffsets(c.parse, records, j);
      hide EndOf;
      forall i | 0 <= i < |all| ensures all[i].offset == Position(s, b + i + 1) {
        assert all[i].offset == EndOf(records, j + i + 1);
      }
    }
  }

  lemma EmptyZeros(all: seq<Yield>)
    ensures all == [] + all
  {
  }

  lemma MainParts(c: Setup, s: LogState)
    requires Holds(s.disk, s.gens) && Legible(c.parse, s.gens)
    ensures |MainRecords(s)| <= |Written(s)| && AreRecords(c.parse, MainRecords(s))
    ensures s.disk.main.Some? <==> s.gens != []
    ensures s.gens != [] ==>
              && s.disk.main.value == FileOf(s.gens[0]) && s.disk.main.value.content == Flatten(MainRecords(s))
              && s.gens[0].identity > 0 && MainRecords(s) != []
    ensures Identified(s.disk)
  {
    hide AreRecords, Stores, Flatten, InOrder;
    if s.gens != [] {
      assert s.gens == [s.gens[0]] + s.gens[1..];
      InOrderCons(s.gens[0], s.gens[1..]);
    } else {
      NoRecords(c.parse);
    }
  }

  /** The offsets of what is ahead are the positions behind its records. */
  lemma AheadOffsets(c: Setup, s: LogState, place: Place)
    requires TracksAt(c, s, place)
    ensures var b, ahead := |s.acked| + |s.pending|, Remaining(c.parse, s.disk, s.tail);
            && b + |ahead| == |Written(s)|
            && forall i :: 0 <= i < |ahead| ==> ahead[i].offset == Position(s, b + i + 1)
  {
    hide Holds, Legible, AreRecords, Sees, Stands, Unread, OnMain, Loaded, Position, Written, Remaining;
    var b, ahead := |s.acked| + |s.pending|, Remaining(c.parse, s.disk, s.tail);
    AheadIs(c, s, place);
    MainParts(c, s);
    SeenCount(c.parse, s.disk, s.tail, From(s, b));
    if OnMain(s.disk, s.tail) {
      SettledParts(s.disk, s.tail);
      MainShape(c, s, b);
    } else {
      PlaceShape(c, s, place, b);
    }
  }

  lemma SeenCount(parse: Parser, d: Disk, st: TailState, rs: seq<Bytes>)
    requires Sees(parse, d, st, rs)
    ensures |Remaining(parse, d, st)| == |rs|
  {
    hide Remaining, CleanState;
    ItemCount(parse, rs);
  }

  lemma MainShape(c: Setup, s: LogState, b: nat)
    requires s.gens != [] && AreRecords(c.parse, MainRecords(s)) && |MainRecords(s)| <= |Written(s)|
    requires s.disk.main.Some? && s.disk.main.value.content == Flatten(MainRecords(s)) && Identified(s.disk)
    requires OnMain(s.disk, s.tail) && b + |Remaining(c.parse, s.disk, s.tail)| == |Written(s)|
    requires Sees(c.parse, s.disk, s.tail, From(s, b)) && s.tail.readOffset == Position(s, b)
    ensures var ahead := Remaining(c.parse, s.disk, s.tail);
            forall i :: 0 <= i < |ahead| ==> ahead[i].offset == Position(s, b + i + 1)
    ensures s.tail.plan.Some? ==> b <= MainStart(s)
  {
    hide AreRecords, Scan, Flatten, Written, MainRecords, Position, Current, CleanPlan, CleanFrom, Items, RecordItems,
      PlanYields, RebuiltYields;
    if s.tail.plan.Some? {
      var plan := s.tail.plan.value;
      CurrentPlanYields(c.parse, s.disk, s.tail, plan);
      PlanOffsets(c.parse, s.disk, plan);
      ZerosThenMain(c, s, PlanYields(c.parse, s.disk, plan), Remaining(c.parse, s.disk, s.tail), b);
    } else {
      RestOfMain(c, s, Remaining(c.parse, s.disk, s.tail), b);
    }
  }

  /** A reader that stands in an older generation or nowhere yet. */
  lemma PlaceShape(c: Setup, s: LogState, place: Place, b: nat)
    requires AreRecords(c.parse, MainRecords(s)) && |MainRecords(s)| <= |Written(s)|
    requires s.disk.main.Some? <==> s.gens != []
    requires s.gens != [] ==> s.disk.main.value.content == Flatten(MainRecords(s))
    requires Stands(s.gens, s.tail, place) && b + |Remaining(c.parse, s.disk, s.tail)| == |Written(s)|
    requires Holds(s.disk, s.gens) && !OnMain(s.disk, s.tail)
    ensures var ahead := Remaining(c.parse, s.disk, s.tail);
            forall i :: 0 <= i < |ahead| ==> ahead[i].offset == Position(s, b + i + 1)
  {
    hide AreRecords, Scan, Flatten, Written, Position, PlanYields, Stores, StartPlan, LastIndex;
    if s.gens != [] {
      var ahead := Remaining(c.parse, s.disk, s.tail);
      if WasRotated(s.disk, s.tail.readOffset, s.tail.inode) {
        var plan := StartPlan(s.disk, s.tail.offset, s.tail.inode);
        PlanOffsets(c.parse, s.disk, plan);
        ZerosThenMain(c, s, PlanYields(c.parse, s.disk, plan), ahead, b);
      } else {
        EmptyZeros(ahead);
        ZerosThenMain(c, s, [], ahead, b);
      }
    }
  }

  // -------------------------------------------------------------------- the steps

  /** The writer appends a line, the reader reads once, the consumer acknowledges up to the
      `n`-th event it has not acknowledged yet, or the reader restarts. */
  datatype Op = Write(line: Bytes) | Read(stop: Stop) | Ack(n: nat) | Restart

  ghost predicate Writes(c: Setup, s: LogState, line: Bytes, identity: nat, t: LogState) {
    && t == s.(disk := t.disk, gens := t.gens, dropped := t.dropped) && Holds(t.disk, t.gens)
    && t.gens == Recorded(s.gens, c.budget, c.keep, identity, line + [LF])
    && t.dropped == s.dropped + Pruned(s.gens, c.budget, c.keep, line + [LF])
  }

  /** One read by the contract of the reader. */
  ghost predicate Reads(c: Setup, d: Disk, st: TailState, stop: Stop, ys: seq<Yield>, now: TailState) {
    var active := stop.quota > 0 && d.main.Some?;
    && CleanState(c.parse, d, now) && Remaining(c.parse, d, st) == ys + Remaining(c.parse, d, now)
    && (stop.quota == 0 || (d.main.None? && st.plan.None?) ==> ys == [] && now == st)
    && (ys != [] ==> d.main.Some? && OnMain(d, now) && ys[|ys| - 1].offset == now.readOffset)
    && (ys == [] && OnMain(d, st) ==> now.(plan := None) == st.(plan := None))
    && (ys == [] && st.offset == st.readOffset ==> now.offset == now.readOffset)
    && (ys == [] && active ==> OnMain(d, now))
    && (now.offset == st.offset || now.offset == 0)
    && (stop.quota > 0 ==> (ys != [] <==> NextFits(c.parse, c.chunkBytes, d, st)))
    && (active && st.plan.None? ==>
          now.offset == if WasRotated(d, st.readOffset, st.inode) then 0 else st.offset)
  }

  function Acknowledged(s: LogState, n: nat): LogState {
    var k := Min(n, |s.pending|);
    if k <= 0 then s
    else
      var offset := s.pending[k - 1].offset;
      s.(tail := s.tail.(offset := offset), cursor := Committed(s.tail, offset), pending := s.pending[k..],
         acked := s.acked + Items(s.pending[..k]))
  }

  function Restarted(s: LogState): LogState {
    s.(tail := Loaded(s.cursor), pending := [])
  }

  ghost predicate Step(c: Setup, s: LogState, op: Op, t: LogState) {
    match op
    case Write(line) => exists identity :: Writes(c, s, line, identity, t)
    case Read(stop) =>
      exists ys ::
        Reads(c, s.disk, s.tail, stop, ys, t.tail) && t == s.(tail := t.tail, pending := s.pending + ys)
    case Ack(n) => t == Acknowledged(s, n)
    case Restart => t == Restarted(s)
  }

  /** The generation the checkpoint was taken in survives one more rotation; if nothing was
      acknowledged, all of them do. */
  predicate Survives(c: Setup, s: LogState) {
    var bound := Min(c.keep, 64);
    && (s.tail.inode.None? ==> |s.gens| <= bound)
    && forall k :: 0 <= k < |s.gens| && Some(s.gens[k].identity) == s.tail.inode ==> k + 1 <= bound
  }

  /** When a step keeps everything: the log is rotated only while nothing is queued, no
      catch-up is under way, something of the file was acknowledged if the reader has seen it,
      and the checkpoint's generation survives; and while the sentinel is stored, a restart
      comes only once all older records are acknowledged.
      Reads, acknowledgements and other writes are unrestricted. */
  ghost predicate Allowed(c: Setup, s: LogState, op: Op) {
    match op
    case Write(line) =>
      && IsRecord(c.parse, line + [LF])
      && (Rotates(s.gens, c.budget, line + [LF]) ==>
            && s.pending == [] && s.tail.plan.None? && (OnMain(s.disk, s.tail) ==> s.tail.offset > 0)
            && Survives(c, s))
    case Read(_) => true
    case Ack(_) => true
    case Restart => Sentinel(s.cursor) ==> MainStart(s) <= |s.acked|
  }

  lemma PlaceOnMain(d: Disk, gens: seq<Generation>, st: TailState, place: Place)
    requires Holds(d, gens) && Stands(gens, st, place)
    ensures OnMain(d, st) <==> place.At? && place.k == 0
  {
    hide Stores, LastIndex;
    if place.At? && place.k == 0 {
      var records := gens[0].records;
      assert records == records[..place.j] + records[place.j..];
      FlattenAppend(records[..place.j], records[place.j..]);
    }
    hide Flatten;
  }

  // --------------------------------------------------------------------- writing

  lemma OneMoreWritten(c: Setup, s: LogState, line: Bytes, identity: nat, t: LogState)
    requires Writes(c, s, line, identity, t)
    ensures Written(t) == Written(s) + [line + [LF]]
  {
    hide InOrder, Recorded, Pruned, Holds;
    RecordedHistory(s.gens, c.budget, c.keep, identity, line + [LF]);
    HistoryStep(s.dropped, Pruned(s.gens, c.budget, c.keep, line + [LF]), InOrder(t.gens), InOrder(s.gens),
                line + [LF]);
  }

  /** What was told of the first records is told of them with one more behind. */
  lemma MoreRecords(parse: Parser, w: seq<Bytes>, r: Bytes, b: nat)
    requires AreRecords(parse, w) && IsRecord(parse, r) && b <= |w|
    ensures AreRecords(parse, w + [r]) && |RecordItems(parse, w)| == |w|
    ensures RecordItems(parse, w + [r])[..b] == RecordItems(parse, w)[..b]
    ensures (w + [r])[b..] == w[b..] + [r]
  {
    OneRecord(parse, r);
    RecordItemsAppend(parse, w, [r]);
    ItemCount(parse, w);
    hide RecordItems, AreRecords;
    var items, more := RecordItems(parse, w), RecordItems(parse, [r]);
    assert (items + more)[..b] == items[..b];
  }

  /** How many rotations ago a place was settled. */
  function Back(gens: seq<Generation>, place: Place): nat {
    match place
    case Unstarted => if gens == [] then 0 else |gens| - 1
    case At(k, _) => k
  }

  /** The stored checkpoint stands where it stood, with one more record unread. */
  lemma CheckpointStays(c: Setup, s: LogState, line: Bytes, identity: nat, t: LogState, place: Place)
    requires Writes(c, s, line, identity, t) && Stands(s.gens, Loaded(s.cursor), place)
    requires Rotates(s.gens, c.budget, line + [LF]) ==> Back(s.gens, place) + 1 <= Min(c.keep, MAX_ROTATED)
    ensures var place' := Moved(place, Rotates(s.gens, c.budget, line + [LF]));
            && Stands(t.gens, Loaded(s.cursor), place')
            && Unread(t.gens, place') == Unread(s.gens, place) + [line + [LF]]
  {
    hide Holds, Recorded, Rotates, Unread, Loaded, Pruned, Flatten;
    WriteStep(s.gens, c.budget, c.keep, identity, line + [LF], Loaded(s.cursor), place, Back(s.gens, place));
  }

  lemma WriteKeeps(c: Setup, s: LogState, line: Bytes, identity: nat, t: LogState, place: Place) returns (place': Place)
    requires TracksAt(c, s, place) && Writes(c, s, line, identity, t) && Allowed(c, s, Op.Write(line))
    ensures TracksAt(c, t, place')
  {
    var payload, a, b := line + [LF], |s.acked|, |s.acked| + |s.pending|;
    place' := Moved(place, Rotates(s.gens, c.budget, payload));
    hide Holds, Legible, AreRecords, IsRecord, Sees, Stands, Unread, OnMain, Loaded, Recorded, Rotates, RecordItems,
      Written, Position, Pruned, Items, Survives;
    OneMoreWritten(c, s, line, identity, t);
    MoreRecords(c.parse, Written(s), payload, a);
    MoreRecords(c.parse, Written(s), payload, b);
    LegibleStep(c.parse, s.gens, c.budget, c.keep, identity, payload);
    if Rotates(s.gens, c.budget, payload) {
      RotationKeeps(c, s, line, identity, t, place);
    } else {
      if !Sentinel(s.cursor) { CheckpointStays(c, s, line, identity, t, place); }
      GrowthKeeps(c, s, line, identity, t, place);
    }
  }

  lemma SurvivesBack(c: Setup, s: LogState, place: Place, payload: Bytes)
    requires Survives(c, s) && Stands(s.gens, s.tail, place) && Rotates(s.gens, c.budget, payload)
    ensures Back(s.gens, place) + 1 <= Min(c.keep, MAX_ROTATED)
  {
    hide Flatten, MustRotate;
  }

  /** Rotated away, the file acknowledged last is an older generation. */
  lemma RotationKeeps(c: Setup, s: LogState, line: Bytes, identity: nat, t: LogState, place: Place)
    requires TracksAt(c, s, place) && Writes(c, s, line, identity, t) && Allowed(c, s, Op.Write(line))
    requires Rotates(s.gens, c.budget, line + [LF])
    ensures !OnMain(t.disk, t.tail) && t.pending == [] && Loaded(t.cursor) == t.tail && !Sentinel(t.cursor)
    ensures Stands(t.gens, Loaded(t.cursor), Moved(place, true))
    ensures Unread(t.gens, Moved(place, true)) == Unread(s.gens, place) + [line + [LF]]
  {
    hide Holds, Legible, AreRecords, IsRecord, Sees, Unread, OnMain, Recorded, Rotates, RecordItems, Written, Pruned,
      Items, Flatten;
    SettledCursor(c, s, place);
    SurvivesBack(c, s, place, line + [LF]);
    CheckpointStays(c, s, line, identity, t, place);
    PlaceOnMain(t.disk, t.gens, Loaded(t.cursor), Moved(place, true));
  }

  /** With nothing queued and no catch-up under way, the cursor file says where the reader is. */
  lemma SettledCursor(c: Setup, s: LogState, place: Place)
    requires TracksAt(c, s, place) && s.pending == [] && s.tail.plan.None?
    requires OnMain(s.disk, s.tail) ==> s.tail.offset > 0
    ensures Loaded(s.cursor) == s.tail && !Sentinel(s.cursor)
  {
    hide Holds, Legible, AreRecords, Sees, Stands, Unread, OnMain, RecordItems, Written, Position, Items;
  }

  lemma GrowthKeeps(c: Setup, s: LogState, line: Bytes, identity: nat, t: LogState, place: Place)
    requires TracksAt(c, s, place) && Writes(c, s, line, identity, t) && IsRecord(c.parse, line + [LF])
    requires !Rotates(s.gens, c.budget, line + [LF]) && Written(t) == Written(s) + [line + [LF]]
    requires !Sentinel(s.cursor) ==> Stands(t.gens, Loaded(s.cursor), place)
    ensures forall x :: 0 <= x <= |Written(s)| ==> Position(t, x) == Position(s, x)
    ensures OnMain(t.disk, t.tail) <==> OnMain(s.disk, s.tail)
    ensures OnMain(s.disk, s.tail) ==> Reading(c, t, |s.acked|, |s.acked| + |s.pending|)
  {
    hide Legible, AreRecords, IsRecord, Sees, Unread, Recorded, Rotates, RecordItems, Written, Pruned, Items, Flatten,
      OnMain, Holds, Stands, EndOf;
    var payload, b := line + [LF], |s.acked| + |s.pending|;
    MainParts(c, s);
    SameStart(c, s, line, identity, t);
    if OnMain(s.disk, s.tail) {
      SettledParts(s.disk, s.tail);
      NotRotated(s.gens, c.budget, c.keep, identity, payload);
      MainGrows(s.gens, s.disk, t.disk, payload);
      SeesGrows(c.parse, s.disk, s.tail, From(s, b), payload);
      assert From(t, b) == From(s, b) + [payload];
    } else {
      PlaceOnMain(s.disk, s.gens, s.tail, place);
      PlaceOnMain(t.disk, t.gens, t.tail, place);
    }
  }

  lemma SameStart(c: Setup, s: LogState, line: Bytes, identity: nat, t: LogState)
    requires Writes(c, s, line, identity, t) && !Rotates(s.gens, c.budget, line + [LF])
    requires Written(t) == Written(s) + [line + [LF]] && |MainRecords(s)| <= |Written(s)|
    ensures MainStart(t) == MainStart(s)
    ensures forall x :: 0 <= x <= |Written(s)| ==> Position(t, x) == Position(s, x)
  {
    hide Holds, Written, Pruned, Flatten;
    if s.gens != [] { NotRotated(s.gens, c.budget, c.keep, identity, line + [LF]); }
    assert MainRecords(t) == MainRecords(s) + [line + [LF]];
    forall x | MainStart(s) < x <= |Written(s)| ensures Position(t, x) == Position(s, x) {
      assert MainRecords(t)[..x - MainStart(s)] == MainRecords(s)[..x - MainStart(s)];
    }
  }

  // --------------------------------------------------------------------- reading

  lemma ReadKeeps(c: Setup, s: LogState, stop: Stop, ys: seq<Yield>, t: LogState, place: Place)
    requires TracksAt(c, s, place)
    requires Reads(c, s.disk, s.tail, stop, ys, t.tail) && t == s.(tail := t.tail, pending := s.pending + ys)
    ensures TracksAt(c, t, place)
  {
    hide Holds, Legible, AreRecords, Sees, Stands, Unread, OnMain, Loaded, RecordItems, Written, Position, Items,
      Remaining, CleanState, WasRotated;
    var a, b := |s.acked|, |s.acked| + |s.pending|;
    AheadIs(c, s, place);
    AheadOffsets(c, s, place);
    TakenFrom(c, s, ys, t.tail, b);
    SamePositions(s, t);
    forall i | 0 <= i < |ys| ensures ys[i].offset == Position(s, b + i + 1) {
      assert Remaining(c.parse, s.disk, s.tail)[i] == ys[i];
    }
    forall i | 0 <= i < |t.pending| ensures t.pending[i].offset == Position(t, a + i + 1) {
      if i >= |s.pending| { assert t.pending[i] == ys[i - |s.pending|]; }
    }
    if OnMain(s.disk, s.tail) { SettledParts(s.disk, s.tail); } else { LoadedIsSettled(s.cursor); }
    if OnMain(t.disk, t.tail) {
      OnMainParts(t.disk, t.tail);
      if OnMain(s.disk, s.tail) { OnMainParts(s.disk, s.tail); }
      ReadingAfter(c, s, stop, ys, t, place);
    } else {
      NotReading(c, s, stop, ys, t);
    }
  }

  lemma LoadedIsSettled(cursor: StoredCursor)
    ensures Loaded(cursor).plan.None? && Loaded(cursor).offset == Loaded(cursor).readOffset
  {
  }

  lemma SamePositions(s: LogState, t: LogState)
    requires s.gens == t.gens && s.dropped == t.dropped
    ensures Written(t) == Written(s) && MainStart(t) == MainStart(s)
    ensures forall x :: Position(t, x) == Position(s, x)
  {
    hide InOrder, EndOf;
  }

  /** What a read delivers are the next records. */
  lemma TakenFrom(c: Setup, s: LogState, ys: seq<Yield>, now: TailState, b: nat)
    requires AreRecords(c.parse, Written(s)) && b <= |Written(s)| && b == |s.acked| + |s.pending|
    requires Sees(c.parse, s.disk, s.tail, From(s, b))
    requires Remaining(c.parse, s.disk, s.tail) == ys + Remaining(c.parse, s.disk, now)
    requires CleanState(c.parse, s.disk, now)
    requires s.acked + Items(s.pending) == RecordItems(c.parse, Written(s))[..b]
    ensures b + |ys| <= |Written(s)| && Sees(c.parse, s.disk, now, From(s, b + |ys|))
    ensures s.acked + Items(s.pending + ys) == RecordItems(c.parse, Written(s))[..b + |ys|]
  {
    hide AreRecords, RecordItems, Written, Items, Remaining, CleanState, Identified;
    var w, left := Written(s), Remaining(c.parse, s.disk, now);
    SplitRecords(c.parse, w, b);
    ItemsAppend(ys, left);
    ItemsAppend(s.pending, ys);
    CountItems(ys);
    CountItems(left);
    var items := RecordItems(c.parse, w);
    assert items[b..] == Items(ys) + Items(left);
    SplitRecords(c.parse, w, b + |ys|);
    assert items[b + |ys|..] == Items(left);
    assert items[..b + |ys|] == items[..b] + Items(ys);
    Reassociate(s.acked, Items(s.pending), Items(ys));
  }

  lemma CountItems(ys: seq<Yield>)
    ensures |Items(ys)| == |ys|
  {
  }

  lemma SplitRecords(parse: Parser, w: seq<Bytes>, b: nat)
    requires AreRecords(parse, w)
    ensures |RecordItems(parse, w)| == |w|
    ensures b <= |w| ==> AreRecords(parse, w[b..]) && RecordItems(parse, w[b..]) == RecordItems(parse, w)[b..]
  {
    hide Decode, IsRecord;
  }

  lemma NotReading(c: Setup, s: LogState, stop: Stop, ys: seq<Yield>, t: LogState)
    requires Reads(c, s.disk, s.tail, stop, ys, t.tail) && t == s.(tail := t.tail, pending := s.pending + ys)
    requires !OnMain(t.disk, t.tail) && (s.tail.plan.Some? ==> s.disk.main.Some?)
    ensures t == s
  {
    hide CleanState, Remaining, WasRotated, OnMain;
    Reassociate(s.pending, ys, []);
  }

  lemma ReadingAfter(c: Setup, s: LogState, stop: Stop, ys: seq<Yield>, t: LogState, place: Place)
    requires TracksAt(c, s, place) && OnMain(t.disk, t.tail)
    requires Reads(c, s.disk, s.tail, stop, ys, t.tail) && t == s.(tail := t.tail, pending := s.pending + ys)
    requires var b := |s.acked| + |s.pending|;
             && b + |ys| <= |Written(s)| && Sees(c.parse, t.disk, t.tail, From(s, b + |ys|))
             && forall i :: 0 <= i < |ys| ==> ys[i].offset == Position(s, b + i + 1)
    ensures Reading(c, t, |t.acked|, |t.acked| + |t.pending|)
  {
    hide Holds, Legible, AreRecords, Sees, Stands, Unread, OnMain, Loaded, RecordItems, Written, Position, Items,
      Remaining, CleanState, WasRotated;
    SamePositions(s, t);
    MainParts(c, s);
    SettledParts(t.disk, t.tail);
    PlanBehind(c, t, |t.acked| + |t.pending|);
    if OnMain(s.disk, s.tail) {
      ReadOn(c, s, stop, ys, t);
    } else {
      FirstRead(c, s, stop, ys, t, place);
    }
  }

  /** While a catch-up is under way the whole main file is still to come. */
  lemma PlanBehind(c: Setup, s: LogState, b: nat)
    requires s.gens != [] && AreRecords(c.parse, MainRecords(s)) && |MainRecords(s)| <= |Written(s)|
    requires b <= |Written(s)|
    requires s.disk.main.Some? && s.disk.main.value.content == Flatten(MainRecords(s))
    requires Sees(c.parse, s.disk, s.tail, From(s, b))
    ensures s.tail.plan.Some? ==> b <= MainStart(s) && s.tail.readOffset == 0
  {
    hide AreRecords, Scan, Flatten, Written, MainRecords, Current, CleanPlan, CleanFrom, Items, RecordItems,
      PlanYields, RebuiltYields, EndOf;
    SeenCount(c.parse, s.disk, s.tail, From(s, b));
    if s.tail.plan.Some? {
      CurrentPlanYields(c.parse, s.disk, s.tail, s.tail.plan.value);
      RecordOffsets(c.parse, MainRecords(s), 0);
      NoEnd(MainRecords(s));
    }
  }

  /** Reading on in the main file, or catching up with it. */
  lemma ReadOn(c: Setup, s: LogState, stop: Stop, ys: seq<Yield>, t: LogState)
    requires Reads(c, s.disk, s.tail, stop, ys, t.tail) && t == s.(tail := t.tail, pending := s.pending + ys)
    requires OnMain(s.disk, s.tail) && OnMain(t.disk, t.tail)
    requires |s.acked| + |s.pending| <= |Written(s)| && Reading(c, s, |s.acked|, |s.acked| + |s.pending|)
    requires forall i :: 0 <= i < |ys| ==> ys[i].offset == Position(s, |s.acked| + |s.pending| + i + 1)
    ensures t.tail.offset == Position(s, |s.acked|)
    ensures t.tail.readOffset == Position(s, |s.acked| + |s.pending| + |ys|)
    ensures t.tail.offset > 0 ==> Loaded(t.cursor) == TailState(t.tail.offset, t.tail.offset, t.tail.inode, None)
  {
    hide Sees, Loaded, Written, Remaining, CleanState, EndOf, MainRecords;
    if s.tail.plan.None? { OnMainParts(s.disk, s.tail); }
    OnMainParts(s.disk, t.tail);
    hide WasRotated;
  }

  lemma OnMainParts(d: Disk, st: TailState)
    requires OnMain(d, st)
    ensures d.main.Some? && st.inode == Usable(d.main.value.identity)
    ensures st.plan.None? ==> !WasRotated(d, st.readOffset, st.inode)
  {
  }

  /** The read that first turns to the current main file. */
  lemma FirstRead(c: Setup, s: LogState, stop: Stop, ys: seq<Yield>, t: LogState, place: Place)
    requires TracksAt(c, s, place) && !OnMain(s.disk, s.tail) && OnMain(t.disk, t.tail)
    requires Reads(c, s.disk, s.tail, stop, ys, t.tail) && t == s.(tail := t.tail, pending := s.pending + ys)
    requires forall i :: 0 <= i < |ys| ==> ys[i].offset == Position(s, |s.acked| + i + 1)
    ensures t.tail.offset == 0 == Position(s, |s.acked|)
    ensures t.tail.readOffset == Position(s, |s.acked| + |ys|)
  {
    hide Legible, AreRecords, Sees, OnMain, Loaded, RecordItems, Items, Remaining, CleanState, WasRotated, EndOf,
      MainRecords, Stores, Flatten;
    SettledParts(t.disk, t.tail);
    PlaceOnMain(s.disk, s.gens, s.tail, place);
    MainUnread(s.gens, place);
    MainIs(c.parse, s.disk, s.gens);
    PlaceRotated(s.disk, s.gens, s.tail, place);
    RecordsOfMain(s);
  }

  lemma RecordsOfMain(s: LogState)
    ensures s.gens != [] ==> MainRecords(s) == s.gens[0].records
  {
  }

  /** An older generation's checkpoint shows that the log was rotated. */
  lemma PlaceRotated(d: Disk, gens: seq<Generation>, st: TailState, place: Place)
    requires Holds(d, gens) && Stands(gens, st, place) && gens != []
    ensures place.At? && place.k > 0 ==> WasRotated(d, st.readOffset, st.inode)
  {
    hide Stores, LastIndex, Flatten;
  }

  // --------------------------------------------------- acknowledging and restarting

  /** The main file's records are the last ones written. */
  lemma MainIsLast(s: LogState, j: nat)
    requires s.gens != [] && j <= |MainRecords(s)|
    ensures MainStart(s) >= 0 && From(s, MainStart(s) + j) == MainRecords(s)[j..]
  {
    hide InOrder;
    assert s.gens == [s.gens[0]] + s.gens[1..];
    InOrderCons(s.gens[0], s.gens[1..]);
    Reassociate(s.dropped, InOrder(s.gens[1..]), MainRecords(s));
  }

  lemma AckKeeps(c: Setup, s: LogState, n: nat, place: Place) returns (place': Place)
    requires TracksAt(c, s, place)
    ensures TracksAt(c, Acknowledged(s, n), place')
  {
    hide Holds, Legible, AreRecords, Sees, Stands, Unread, OnMain, Loaded, RecordItems, Written, Position, Items,
      Reading;
    var t, k := Acknowledged(s, n), Min(n, |s.pending|);
    place' := place;
    if k > 0 {
      var a := |s.acked|;
      SamePositions(s, t);
      AckedItems(s, k);
      MainParts(c, s);
      forall i | 0 <= i < |t.pending| ensures t.pending[i].offset == Position(t, |t.acked| + i + 1) {
        assert t.pending[i] == s.pending[i + k];
      }
      assert s.pending[k - 1].offset == Position(s, a + k);
      SettledParts(s.disk, s.tail);
      OffsetStored(c, s, k);
      if Sentinel(t.cursor) {
        SentinelStored(s.disk, s.tail, s.pending[k - 1].offset);
      } else {
        place' := CheckpointPlace(c, s, k);
      }
    }
  }

  lemma AckedItems(s: LogState, k: nat)
    requires k <= |s.pending|
    ensures |Items(s.pending[..k])| == k && |Items(s.pending)| == |s.pending|
    ensures (s.acked + Items(s.pending[..k])) + Items(s.pending[k..]) == s.acked + Items(s.pending)
  {
    assert s.pending == s.pending[..k] + s.pending[k..];
    ItemsAppend(s.pending[..k], s.pending[k..]);
    CountItems(s.pending[..k]);
    CountItems(s.pending);
    hide Items;
    Reassociate(s.acked, Items(s.pending[..k]), Items(s.pending[k..]));
  }

  /** The reader goes on as before from an acknowledged position. */
  lemma OffsetStored(c: Setup, s: LogState, k: nat)
    requires OnMain(s.disk, s.tail) && 0 < k <= |s.pending| && |s.acked| + |s.pending| <= |Written(s)|
    requires Reading(c, s, |s.acked|, |s.acked| + |s.pending|)
    requires s.pending[k - 1].offset == Position(s, |s.acked| + k) && Identified(s.disk)
    ensures var t := Acknowledged(s, k);
            OnMain(t.disk, t.tail) && Reading(c, t, |s.acked| + k, |s.acked| + |s.pending|)
  {
    hide Written, MainRecords, EndOf, Remaining, CleanState, Items;
    var offset := s.pending[k - 1].offset;
    SamePositions(s, Acknowledged(s, k));
    SettledParts(s.disk, s.tail);
    SettledOffset(s.disk, s.tail, offset);
    WithinMain(c.parse, s.disk, s.tail);
    CommitKeeps(c.parse, s.disk, s.tail, offset);
    hide OnMain;
  }

  lemma SentinelStored(d: Disk, st: TailState, offset: nat)
    requires OnMain(d, st) && Identified(d) && Sentinel(Committed(st, offset))
    ensures Loaded(Committed(st, offset)) == TailState(0, 0, st.inode, None)
  {
  }

  lemma WithinMain(parse: Parser, d: Disk, st: TailState)
    requires OnMain(d, st) && CleanState(parse, d, st)
    ensures d.main.Some? && st.readOffset <= |d.main.value.content|
  {
  }

  /** A checkpoint of the main file stands behind one of its records. */
  lemma CheckpointPlace(c: Setup, s: LogState, k: nat) returns (place: Place)
    requires OnMain(s.disk, s.tail) && 0 < k <= |s.pending| && |s.acked| + |s.pending| <= |Written(s)|
    requires s.pending[k - 1].offset == Position(s, |s.acked| + k) && s.gens != [] && s.gens[0].identity > 0
    requires s.disk.main.Some? && s.disk.main.value == FileOf(s.gens[0])
    requires !Sentinel(Committed(s.tail, s.pending[k - 1].offset))
    ensures Stands(s.gens, Loaded(Committed(s.tail, s.pending[k - 1].offset)), place)
    ensures Unread(s.gens, place) == From(s, |s.acked| + k)
  {
    hide Written;
    SettledParts(s.disk, s.tail);
    var j := |s.acked| + k - MainStart(s);
    place := At(0, j);
    MainIsLast(s, j);
    hide Flatten, InOrder;
    assert s.gens[..0] == [];
    NothingInOrder();
    assert MainRecords(s)[j..] + [] == MainRecords(s)[j..];
  }

  /** Behind a sentinel stands the whole current main file, and nothing else. */
  lemma SentinelSees(c: Setup, s: LogState, place: Place)
    requires TracksAt(c, s, place) && Sentinel(s.cursor)
    ensures OnMain(s.disk, Loaded(s.cursor)) && s.gens != []
    ensures Sees(c.parse, s.disk, Loaded(s.cursor), MainRecords(s)) && |s.acked| <= MainStart(s)
  {
    hide Holds, Legible, AreRecords, Stands, Unread, Loaded, RecordItems, Written, MainRecords, Position, Items,
      CleanFrom, CleanPlan, PlanYields, Scan, Flatten, RebuiltYields, Reading;
    MainParts(c, s);
    MainFrom(c.parse, MainRecords(s));
    NothingAcknowledged(c, s);
  }

  lemma NothingAcknowledged(c: Setup, s: LogState)
    requires AreRecords(c.parse, MainRecords(s)) && |MainRecords(s)| <= |Written(s)|
    requires |s.acked| + |s.pending| <= |Written(s)| && Reading(c, s, |s.acked|, |s.acked| + |s.pending|)
    requires Sentinel(s.cursor)
    ensures |s.acked| <= MainStart(s)
  {
    hide Sees, Written, MainRecords, EndOf, IsRecord;
    if |s.acked| > MainStart(s) { EndIsPositive(c.parse, MainRecords(s), |s.acked| - MainStart(s)); }
  }

  lemma EndIsPositive(parse: Parser, records: seq<Bytes>, n: nat)
    requires AreRecords(parse, records) && 0 < n <= |records|
    ensures EndOf(records, n) > 0
  {
    hide AreRecords;
    NonEmptyRecords(parse, records);
    assert records[0] in records && records == [records[0]] + records[1..];
    EndCons(records[0], records[1..], n - 1);
  }

  /** A restart loses and repeats nothing but what was not acknowledged, if and only if no
      sentinel is stored or everything older than the main file was acknowledged. */
  lemma RestartIff(c: Setup, s: LogState)
    requires Tracks(c, s)
    ensures |s.acked| <= |Written(s)| && AreRecords(c.parse, From(s, |s.acked|))
    ensures Items(Remaining(c.parse, s.disk, Restarted(s).tail)) == RecordItems(c.parse, From(s, |s.acked|)) <==>
              Allowed(c, s, Op.Restart)
    ensures Sentinel(s.cursor) ==>
              && AreRecords(c.parse, MainRecords(s))
              && Items(Remaining(c.parse, s.disk, Restarted(s).tail)) == RecordItems(c.parse, MainRecords(s))
  {
    hide Holds, Legible, AreRecords, Stands, Unread, OnMain, Loaded, RecordItems, Written, MainRecords, Position,
      Items, Remaining, CleanState, Reading;
    var place :| TracksAt(c, s, place);
    var a := |s.acked|;
    SplitRecords(c.parse, Written(s), a);
    ItemCount(c.parse, From(s, a));
    if Sentinel(s.cursor) {
      SentinelSees(c, s, place);
      ItemCount(c.parse, MainRecords(s));
      if a == MainStart(s) { MainIsLast(s, 0); }
    } else {
      SettledRemaining(c.parse, s.disk, s.gens, Loaded(s.cursor), place);
    }
  }

  lemma RestartKeeps(c: Setup, s: LogState, place: Place)
    requires TracksAt(c, s, place) && Allowed(c, s, Op.Restart)
    ensures TracksAt(c, Restarted(s), place)
  {
    hide Holds, Legible, AreRecords, Sees, Stands, Unread, OnMain, Loaded, RecordItems, Written, MainRecords, Position,
      Items;
    var t, a := Restarted(s), |s.acked|;
    SamePositions(s, t);
    NoItems();
    SplitRecords(c.parse, Written(s), a);
    assert RecordItems(c.parse, Written(s))[..a] == s.acked by {
      assert (s.acked + Items(s.pending))[..a] == s.acked;
    }
    Reassociate(s.acked, [], []);
    if Sentinel(s.cursor) {
      SentinelReads(c, s, place);
    } else if OnMain(t.disk, t.tail) {
      RestartReads(c, s, place);
    }
  }

  lemma SentinelReads(c: Setup, s: LogState, place: Place)
    requires TracksAt(c, s, place) && Sentinel(s.cursor) && MainStart(s) <= |s.acked|
    ensures OnMain(s.disk, Loaded(s.cursor)) && Reading(c, Restarted(s), |s.acked|, |s.acked|)
  {
    hide Holds, Legible, AreRecords, Sees, Stands, Unread, OnMain, Loaded, RecordItems, Written, MainRecords, Items,
      EndOf;
    SentinelSees(c, s, place);
    SamePositions(s, Restarted(s));
    MainIsLast(s, 0);
    LoadedIsSettled(s.cursor);
  }

  lemma RestartReads(c: Setup, s: LogState, place: Place)
    requires TracksAt(c, s, place) && !Sentinel(s.cursor) && OnMain(s.disk, Loaded(s.cursor))
    ensures Reading(c, Restarted(s), |s.acked|, |s.acked|)
  {
    hide Legible, AreRecords, Sees, OnMain, RecordItems, Items, Stores, InOrder, Flatten, Loaded;
    var t := Restarted(s);
    SamePositions(s, t);
    LoadedIsSettled(s.cursor);
    PlaceOnMain(s.disk, s.gens, t.tail, place);
    SettledRemaining(c.parse, s.disk, s.gens, t.tail, place);
    MainUnread(s.gens, place);
    RecordsOfMain(s);
  }

  /** Every allowed step keeps everything. */
  lemma StepKeeps(c: Setup, s: LogState, op: Op, t: LogState)
    requires Tracks(c, s) && Allowed(c, s, op) && Step(c, s, op, t)
    ensures Tracks(c, t)
  {
    hide TracksAt, Allowed, Writes, Reads, Acknowledged, Restarted;
    var place :| TracksAt(c, s, place);
    match op {
      case Write(line) =>
        var identity :| Writes(c, s, line, identity, t);
        var place' := WriteKeeps(c, s, line, identity, t, place);
      case Read(stop) =>
        var ys :| Reads(c, s.disk, s.tail, stop, ys, t.tail) && t == s.(tail := t.tail, pending := s.pending + ys);
        ReadKeeps(c, s, stop, ys, t, place);
      case Ack(n) =>
        var place' := AckKeeps(c, s, n, place);
      case Restart =>
        RestartKeeps(c, s, place);
    }
  }

  /** What was acknowledged, what is queued and what the reader is going to deliver, in this
      order, are the events of the records written, each once. */
  lemma ExactlyOnce(c: Setup, s: LogState)
    requires Tracks(c, s)
    ensures AreRecords(c.parse, Written(s))
    ensures s.acked + Items(s.pending) + Items(Remaining(c.parse, s.disk, s.tail)) == RecordItems(c.parse, Written(s))
  {
    hide Holds, Legible, AreRecords, Stands, Unread, OnMain, Loaded, RecordItems, Written, Position, Items, Remaining,
      CleanState, Reading;
    var place :| TracksAt(c, s, place);
    AheadIs(c, s, place);
    var items, b := RecordItems(c.parse, Written(s)), |s.acked| + |s.pending|;
    SplitRecords(c.parse, Written(s), b);
    assert items == items[..b] + items[b..];
  }

  // ------------------------------------------------------------------------ runs

  ghost function StateOf(writer: AuditWriter, tail: AuditTail, pending: seq<Yield>, acked: seq<Item>): LogState
    reads writer, tail, tail.dir
  {
    LogState(tail.Disk(), writer.gens, writer.dropped, tail.State(), tail.cursor, pending, acked)
  }

  /** The records that `ops` write. */
  function WrittenBy(ops: seq<Op>): seq<Bytes> {
    if ops == [] then []
    else
      var last := ops[|ops| - 1];
      WrittenBy(ops[..|ops| - 1]) + (if last.Write? then [last.line + [LF]] else [])
  }

  lemma WrittenBySnoc(ops: seq<Op>, op: Op)
    ensures WrittenBy(ops + [op]) == WrittenBy(ops) + (if op.Write? then [op.line + [LF]] else [])
  {
    assert (ops + [op])[..|ops|] == ops;
  }

  /** Each of the first `n` operations was allowed when its turn came. */
  ghost predicate AllowedUpTo(c: Setup, ops: seq<Op>, states: seq<LogState>, n: nat)
    requires n <= |ops| && n <= |states|
  {
    forall i :: 0 <= i < n ==> Allowed(c, states[i], ops[i])
  }

  /** An empty log, a reader without a cursor file. */
  ghost predicate Begins(s: LogState) {
    && s.gens == [] && s.dropped == [] && Holds(s.disk, [])
    && s.cursor == Unreadable && s.tail == Loaded(Unreadable) && s.pending == [] && s.acked == []
  }

  /** The states that `ops` run through, as far as each operation was allowed. */
  ghost predicate Trace(c: Setup, ops: seq<Op>, states: seq<LogState>) {
    && |states| == |ops| + 1 && Begins(states[0])
    && forall i :: 0 <= i < |ops| && AllowedUpTo(c, ops, states, i + 1) ==> Step(c, states[i], ops[i], states[i + 1])
  }

  lemma BeginsTracks(c: Setup, s: LogState)
    requires Begins(s)
    ensures Tracks(c, s) && Written(s) == []
  {
    NoRecords(c.parse);
    NoItems();
    hide RecordItems, AreRecords, Items, Stores;
    assert TracksAt(c, s, Unstarted);
  }

  lemma StepWrites(c: Setup, s: LogState, op: Op, t: LogState)
    requires Step(c, s, op, t)
    ensures Written(t) == Written(s) + (if op.Write? then [op.line + [LF]] else [])
  {
    hide Writes, Reads, Items;
    if op.Write? {
      var identity :| Writes(c, s, op.line, identity, t);
      OneMoreWritten(c, s, op.line, identity, t);
    } else {
      assert Written(s) + [] == Written(s);
    }
  }

  /** After every allowed beginning of a run everything is tracked. */
  lemma {:induction false} TraceTracks(c: Setup, ops: seq<Op>, states: seq<LogState>, n: nat)
    requires Trace(c, ops, states) && n <= |ops| && AllowedUpTo(c, ops, states, n)
    ensures Tracks(c, states[n]) && Written(states[n]) == WrittenBy(ops[..n])
  {
    hide Allowed, Step, Tracks, Begins, Written, WrittenBy;
    if n == 0 {
      BeginsTracks(c, states[0]);
      assert ops[..0] == [];
      NothingWritten();
    } else {
      TraceTracks(c, ops, states, n - 1);
      assert AllowedUpTo(c, ops, states, n - 1 + 1) && ops[n - 1] == ops[n - 1];
      StepKeeps(c, states[n - 1], ops[n - 1], states[n]);
      StepWrites(c, states[n - 1], ops[n - 1], states[n]);
      WrittenBySnoc(ops[..n - 1], ops[n - 1]);
      assert ops[..n - 1] + [ops[n - 1]] == ops[..n];
    }
  }

  lemma NothingWritten()
    ensures WrittenBy([]) == []
  {
  }

  /** Exactly once over whole runs: at every point of an allowed run, what was acknowledged,
      what is queued and what the reader is going to deliver are, in this order, the events of
      all records written so far, each once. */
  lemma RunDeliversOnce(c: Setup, ops: seq<Op>, states: seq<LogState>, n: nat)
    requires Trace(c, ops, states) && n <= |ops| && AllowedUpTo(c, ops, states, n)
    ensures var s := states[n];
            && AreRecords(c.parse, WrittenBy(ops[..n]))
            && s.acked + Items(s.pending) + Items(Remaining(c.parse, s.disk, s.tail)) ==
               RecordItems(c.parse, WrittenBy(ops[..n]))
  {
    hide *;
    TraceTracks(c, ops, states, n);
    TraceLength(c, ops, states);
    ExactlyOnce(c, states[n]);
  }

  lemma TraceLength(c: Setup, ops: seq<Op>, states: seq<LogState>)
    requires Trace(c, ops, states)
    ensures |states| == |ops| + 1
  {
  }

  /** A read delivers something if and only if a record is left and the next one fits one read. */
  lemma ReadMoves(c: Setup, s: LogState, stop: Stop, ys: seq<Yield>, now: TailState)
    requires Tracks(c, s) && Reads(c, s.disk, s.tail, stop, ys, now) && stop.quota > 0
    ensures |s.acked| + |s.pending| <= |Written(s)|
    ensures ys != [] <==>
              |s.acked| + |s.pending| < |Written(s)| && |Written(s)[|s.acked| + |s.pending|]| <= c.chunkBytes
    // So once a read comes back empty, all is delivered that does not wait behind an overlong record.
    ensures AreRecords(c.parse, Written(s))
    ensures ys == [] && (forall r :: r in Written(s) ==> |r| <= c.chunkBytes) ==>
              s.acked + Items(s.pending) == RecordItems(c.parse, Written(s))
  {
    hide Holds, Legible, Stands, Unread, OnMain, Loaded, Written, Position, Remaining, CleanState, Reading, WasRotated;
    var place :| TracksAt(c, s, place);
    AheadIs(c, s, place);
    var rs := From(s, |s.acked| + |s.pending|);
    SeenCount(c.parse, s.disk, s.tail, rs);
    if rs != [] {
      assert Items(Remaining(c.parse, s.disk, s.tail))[0] == RecordItems(c.parse, rs)[0];
    }
  }

  method WriteOne(writer: AuditWriter, tail: AuditTail, line: Bytes, ghost pending: seq<Yield>, ghost acked: seq<Item>)
    requires writer.Valid() && writer.enabled && tail.Valid() && tail.dir == writer.dir
    modifies writer, writer.dir
    ensures writer.Valid()
    ensures var c := Setup(tail.parse, tail.chunkBytes, writer.budget, writer.keepFiles);
            var was, now := old(StateOf(writer, tail, pending, acked)), StateOf(writer, tail, pending, acked);
            Step(c, was, Op.Write(line), now) && Written(now) == Written(was) + [line + [LF]]
  {
    hide Recorded, Pruned, Holds;
    ghost var c := Setup(tail.parse, tail.chunkBytes, writer.budget, writer.keepFiles);
    ghost var was, identity := StateOf(writer, tail, pending, acked), writer.dir.nextIdentity;
    var ok := writer.Record(line);
    WriterHolds(writer, tail.Disk());
    ghost var now := StateOf(writer, tail, pending, acked);
    assert Writes(c, was, line, identity, now);
    OneMoreWritten(c, was, line, identity, now);
  }

  method ReadOne(tail: AuditTail, stop: Stop) returns (ys: seq<Yield>)
    requires tail.Valid()
    modifies tail`plan, tail`offset, tail`readOffset, tail`inode
    ensures tail.Valid()
    ensures Identified(tail.Disk()) && CleanState(tail.parse, tail.Disk(), old(tail.State())) ==>
              Reads(Setup(tail.parse, tail.chunkBytes, None, 0), tail.Disk(), old(tail.State()), stop, ys, tail.State())
  {
    hide Remaining, CleanState, Identified, OnMain, Fit, Accepted, Blocked, AtEnd, NextFits, LaterLine, Scan,
      WasRotated, Window, WholeWindow, Lines;
    ghost var d, st := tail.Disk(), tail.State();
    ys := tail.ReadNew(stop.accept, stop.quota);
    if Identified(d) && CleanState(tail.parse, d, st) {
      NoMainNoPlan(tail.parse, d, st);
      SettledAfter(tail.parse, d, st, tail.State());
      StandsOnMain(tail.parse, tail.chunkBytes, d, tail.State());
    }
  }

  lemma NoMainNoPlan(parse: Parser, d: Disk, st: TailState)
    requires CleanState(parse, d, st)
    ensures d.main.None? ==> st.plan.None?
  {
    hide CleanFrom, CleanPlan;
  }

  /** At the end of the main file or in front of an overlong line, the reader has turned to it. */
  lemma StandsOnMain(parse: Parser, limit: nat, d: Disk, st: TailState)
    requires Identified(d) && CleanState(parse, d, st)
    ensures d.main.Some? && (AtEnd(d, st) || Blocked(limit, d, st)) ==> OnMain(d, st)
  {
    if Blocked(limit, d, st) { BlockedSettled(parse, limit, d, st); }
    hide CleanFrom, CleanPlan;
  }

  method ReadOp(writer: AuditWriter, tail: AuditTail, stop: Stop, pending: seq<Yield>, ghost acked: seq<Item>,
                ghost c: Setup)
    returns (more: seq<Yield>)
    requires tail.Valid() && c.parse == tail.parse && c.chunkBytes == tail.chunkBytes
    modifies tail`plan, tail`offset, tail`readOffset, tail`inode
    ensures tail.Valid()
    ensures Tracks(c, old(StateOf(writer, tail, pending, acked))) ==>
              Step(c, old(StateOf(writer, tail, pending, acked)), Op.Read(stop), StateOf(writer, tail, more, acked))
  {
    ghost var s := StateOf(writer, tail, pending, acked);
    if Tracks(c, s) { TrackedIsClean(c, s); }
    hide *;
    var ys := ReadOne(tail, stop);
    more := pending + ys;
    if Tracks(c, s) { ReadIsStep(c, s, stop, ys, StateOf(writer, tail, more, acked)); }
  }

  lemma TrackedIsClean(c: Setup, s: LogState)
    requires Tracks(c, s)
    ensures Identified(s.disk) && CleanState(c.parse, s.disk, s.tail)
  {
    hide Holds, Legible, AreRecords, Stands, Unread, OnMain, Loaded, RecordItems, Written, Position, Items, Remaining,
      CleanState, Reading, Identified;
    var place :| TracksAt(c, s, place);
    AheadIs(c, s, place);
  }

  lemma ReadIsStep(c: Setup, s: LogState, stop: Stop, ys: seq<Yield>, t: LogState)
    requires Reads(Setup(c.parse, c.chunkBytes, None, 0), s.disk, s.tail, stop, ys, t.tail)
    requires t == s.(tail := t.tail, pending := s.pending + ys)
    ensures Step(c, s, Op.Read(stop), t)
  {
    hide CleanState, Remaining, OnMain, WasRotated, NextFits;
    assert Reads(c, s.disk, s.tail, stop, ys, t.tail);
  }

  method AckOp(writer: AuditWriter, tail: AuditTail, n: nat, pending: seq<Yield>, acked: seq<Item>)
    returns (left: seq<Yield>, more: seq<Item>)
    requires tail.Valid()
    modifies tail`offset, tail`cursor
    ensures tail.Valid()
    ensures StateOf(writer, tail, left, more) == Acknowledged(old(StateOf(writer, tail, pending, acked)), n)
  {
    hide Items;
    var k := Min(n, |pending|);
    left, more := pending, acked;
    if k > 0 {
      tail.Commit(pending[k - 1].offset);
      left, more := pending[k..], acked + Items(pending[..k]);
    }
  }

  lemma BeginsRunning(writer: AuditWriter, tail: AuditTail)
    requires writer.Valid() && writer.gens == [] && writer.History() == [] && tail.dir == writer.dir
    requires tail.State() == Loaded(Unreadable) && tail.cursor == Unreadable
    ensures Begins(StateOf(writer, tail, [], []))
  {
    WriterHolds(writer, tail.Disk());
    hide Holds;
  }

  lemma TraceSnoc(c: Setup, ops: seq<Op>, states: seq<LogState>, op: Op, t: LogState)
    requires Trace(c, ops, states)
    requires AllowedUpTo(c, ops, states, |ops|) ==> Step(c, states[|ops|], op, t)
    ensures Trace(c, ops + [op], states + [t])
  {
    hide Allowed, Step, Begins;
    var longer, more := ops + [op], states + [t];
    forall i | 0 <= i < |longer| && AllowedUpTo(c, longer, more, i + 1)
      ensures Step(c, more[i], longer[i], more[i + 1])
    {
      forall j | 0 <= j < i ensures Allowed(c, states[j], ops[j]) {
        assert Allowed(c, more[j], longer[j]);
      }
      if i < |ops| {
        assert Allowed(c, more[i], longer[i]);
        assert AllowedUpTo(c, ops, states, i + 1);
        assert Step(c, states[i], ops[i], states[i + 1]);
      }
    }
  }

  lemma TraceStart(c: Setup, s: LogState)
    requires Begins(s)
    ensures Trace(c, [], [s])
  {
  }

  /** A non-positive budget disables rotation, a negative keep count means none. */
  function SetupOf(parse: Parser, chunkBytes: nat, maxBytes: Option<int>, keepFiles: int): Setup {
    Setup(parse, chunkBytes, if maxBytes.Some? && maxBytes.value > 0 then Some(maxBytes.value) else None,
          Max(0, keepFiles))
  }

  /** Any run of writes, single reads, acknowledgements of any number of events and restarts, by
      the writer and the reader themselves, is a trace. */
  method Run(parse: Parser, chunkBytes: nat, maxBytes: Option<int>, keepFiles: int, ops: seq<Op>)
    returns (acked: seq<Item>, pending: seq<Yield>)
    requires chunkBytes > 0
    ensures var c := SetupOf(parse, chunkBytes, maxBytes, keepFiles);
            exists states: seq<LogState> ::
              && Trace(c, ops, states) && states[|ops|].acked == acked && states[|ops|].pending == pending
              && (AllowedUpTo(c, ops, states, |ops|) ==>
                    && AreRecords(parse, WrittenBy(ops))
                    && acked + Items(pending) <= RecordItems(parse, WrittenBy(ops)))
  {
    hide Trace, Step, Allowed, AllowedUpTo, Tracks, Begins, Written, WrittenBy, AreRecords, RecordItems, Items,
      Acknowledged, Remaining, Loaded;
    var writer := new AuditWriter(true, maxBytes, keepFiles);
    var tail := new AuditTail(parse, chunkBytes, writer.dir, Unreadable);
    ghost var c := Setup(parse, chunkBytes, writer.budget, writer.keepFiles);
    acked, pending := [], [];
    ghost var s := StateOf(writer, tail, pending, acked);
    ghost var states := [s];
    BeginsRunning(writer, tail);
    TraceStart(c, s);
    assert ops[..0] == [];
    var i := 0;
    while i < |ops|
      invariant 0 <= i <= |ops| && fresh(writer) && fresh(writer.dir) && fresh(tail)
      invariant writer.Valid() && writer.enabled && tail.Valid() && tail.dir == writer.dir
      invariant c == Setup(tail.parse, tail.chunkBytes, writer.budget, writer.keepFiles)
      invariant tail.parse == parse && tail.chunkBytes == chunkBytes
      invariant Trace(c, ops[..i], states) && |states| == i + 1
      invariant s == states[i] == StateOf(writer, tail, pending, acked)
    {
      ghost var done := ops[..i];
      assert ops[..i + 1] == done + [ops[i]];
      if AllowedUpTo(c, done, states, i) { TraceTracks(c, done, states, i); }
      match ops[i] {
        case Write(line) => WriteOne(writer, tail, line, pending, acked);
        case Read(stop) => pending := ReadOp(writer, tail, stop, pending, acked, c);
        case Ack(n) => pending, acked := AckOp(writer, tail, n, pending, acked);
        case Restart =>
          tail := new AuditTail(parse, chunkBytes, writer.dir, tail.cursor);
          pending := [];
      }
      ghost var t := StateOf(writer, tail, pending, acked);
      OtherSteps(c, s, ops[i], t);
      TraceSnoc(c, done, states, ops[i], t);
      states, s := states + [t], t;
      i := i + 1;
    }
    assert ops[..i] == ops;
    if AllowedUpTo(c, ops, states, |ops|) { RunDeliversOnce(c, ops, states, |ops|); }
    assert c == SetupOf(parse, chunkBytes, maxBytes, keepFiles);
  }

  lemma OtherSteps(c: Setup, s: LogState, op: Op, t: LogState)
    ensures op.Ack? && t == Acknowledged(s, op.n) ==> Step(c, s, op, t)
    ensures op.Restart? && t == Restarted(s) ==> Step(c, s, op, t)
  {
  }
}
