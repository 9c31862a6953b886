/** What the log reader has yet to deliver: its catch-up plan over rotated generations
    and its position in the main file, as functions of the directory's contents. */
module TailPlan {
  import opened Octets
  import opened LogLines
  import opened AuditLog

  /** The scan for rotated siblings stops after this many. */
  const MAX_ROTATED: nat := 64

  /** The directory as one poll sees it. */
  datatype Disk = Disk(main: Option<LogFile>, rotated: map<nat, LogFile>)

  /** A generation to read from `start`; `identity` is what it was when the plan was made. */
  datatype PlanEntry = PlanEntry(index: nat, start: nat, identity: Option<int>)

  datatype TailState = TailState(offset: nat, readOffset: nat, inode: Option<int>, plan: Option<seq<PlanEntry>>)

  /** Identity 0 means the file system has none. */
  function Usable(identity: nat): Option<int> {
    if identity == 0 then None else Some(identity)
  }

  /** The last index of the gap-free run of generations from `k` on. */
  function LastIndex(rotated: map<nat, LogFile>, k: nat): (n: nat)
    requires 1 <= k <= MAX_ROTATED + 1
    ensures k - 1 <= n <= MAX_ROTATED
    ensures forall i: nat :: k <= i <= n ==> i in rotated
    ensures n < MAX_ROTATED ==> n + 1 !in rotated
    decreases MAX_ROTATED + 1 - k
  {
    if k > MAX_ROTATED || k !in rotated then k - 1 else LastIndex(rotated, k + 1)
  }

  /** How many generations are looked at: those up to the first gap, at most 64. */
  function RotatedCount(rotated: map<nat, LogFile>): (n: nat)
    ensures n <= MAX_ROTATED == 64
    ensures n < 64 ==> n + 1 !in rotated
    ensures forall i: nat :: 1 <= i <= n ==> i in rotated
  {
    LastIndex(rotated, 1)
  }

  /** The first of the generations `k..n` with identity `inode`; 0 if there is none. */
  function Holding(rotated: map<nat, LogFile>, inode: Option<int>, k: nat, n: nat): (i: nat)
    requires forall i: nat :: k <= i <= n ==> i in rotated
    ensures i == 0 || (k <= i <= n && Usable(rotated[i].identity) == inode)
    ensures i == 0 && k > 0 ==> forall j: nat :: k <= j <= n ==> Usable(rotated[j].identity) != inode
    decreases n + 1 - k
  {
    if k > n then 0
    else if Usable(rotated[k].identity) == inode then k
    else Holding(rotated, inode, k + 1, n)
  }

  /** The generation the checkpoint was taken in; 0 when unknown or already pruned. */
  function CheckpointIndex(rotated: map<nat, LogFile>, inode: Option<int>): (i: nat)
    ensures i <= RotatedCount(rotated)
    ensures i > 0 ==> inode.Some? && Usable(rotated[i].identity) == inode
  {
    if inode.None? then 0 else Holding(rotated, inode, 1, RotatedCount(rotated))
  }

  /** Generations `top` down to 1, the first read from `start`, the others in full. */
  function Entries(rotated: map<nat, LogFile>, top: nat, start: nat): seq<PlanEntry>
    requires forall i: nat :: 1 <= i <= top ==> i in rotated
  {
    if top == 0 then []
    else [PlanEntry(top, start, Usable(rotated[top].identity))] + Entries(rotated, top - 1, 0)
  }

  /** The catch-up plan: the checkpoint's own generation from the checkpoint on, newer
      ones in full, older ones not at all; everything when nothing was acknowledged or
      the checkpoint's generation is not known. */
  function StartPlan(d: Disk, offset: nat, inode: Option<int>): seq<PlanEntry> {
    var checkpoint := if offset > 0 then CheckpointIndex(d.rotated, inode) else 0;
    if checkpoint > 0 then Entries(d.rotated, checkpoint, offset)
    else Entries(d.rotated, RotatedCount(d.rotated), 0)
  }

  predicate WasRotated(d: Disk, readOffset: nat, inode: Option<int>)
    requires d.main.Some?
  {
    var now := Usable(d.main.value.identity);
    if |d.main.value.content| < readOffset then true
    else if inode.None? then RotatedCount(d.rotated) > 0
    else now.Some? && now != inode
  }

  // ------------------------------------------------------ what is undelivered

  function EntryYields(parse: Parser, d: Disk, e: PlanEntry): seq<Yield> {
    if e.index in d.rotated then Drain(parse, d.rotated[e.index].content, e.start) else []
  }

  function PlanYields(parse: Parser, d: Disk, plan: seq<PlanEntry>): seq<Yield> {
    if plan == [] then [] else EntryYields(parse, d, plan[0]) + PlanYields(parse, d, plan[1..])
  }

  function MainYields(parse: Parser, d: Disk, pos: nat): seq<Yield> {
    if d.main.None? then [] else Scan(parse, d.main.value.content, pos)
  }

  /** A fresh catch-up: the plan, then the main file from its beginning. */
  function RebuiltYields(parse: Parser, d: Disk, offset: nat, inode: Option<int>): seq<Yield> {
    PlanYields(parse, d, StartPlan(d, offset, inode)) + MainYields(parse, d, 0)
  }

  function SettledYields(parse: Parser, d: Disk, st: TailState): seq<Yield> {
    if d.main.None? then []
    else if WasRotated(d, st.readOffset, st.inode) then RebuiltYields(parse, d, st.offset, st.inode)
    else MainYields(parse, d, st.readOffset)
  }

  /** The entry's generation is gone or holds nothing beyond its position. */
  predicate Spent(d: Disk, e: PlanEntry) {
    e.index !in d.rotated || |d.rotated[e.index].content| <= e.start
  }

  /** A rotation has moved another file into the entry's place. */
  predicate Shifted(d: Disk, e: PlanEntry)
    requires e.index in d.rotated
  {
    var now := Usable(d.rotated[e.index].identity);
    e.identity.Some? && now.Some? && now != e.identity
  }

  function CatchUpYields(parse: Parser, d: Disk, st: TailState, plan: seq<PlanEntry>): seq<Yield> {
    if plan == [] then SettledYields(parse, d, st)
    else if Spent(d, plan[0]) then CatchUpYields(parse, d, st, plan[1..])
    else if Shifted(d, plan[0]) then RebuiltYields(parse, d, st.offset, st.inode)
    else EntryYields(parse, d, plan[0]) + CatchUpYields(parse, d, st, plan[1..])
  }

  /** Everything the reader delivers from state `st` on if the directory stays as it is. */
  function Remaining(parse: Parser, d: Disk, st: TailState): seq<Yield> {
    if st.plan.Some? then CatchUpYields(parse, d, st, st.plan.value) else SettledYields(parse, d, st)
  }

  /** The main file has a usable identity. */
  predicate Identified(d: Disk) {
    d.main.Some? ==> d.main.value.identity != 0
  }

  /** The state a fresh catch-up starts in. */
  function Started(d: Disk, st: TailState): TailState {
    var inode := if d.main.Some? then Usable(d.main.value.identity) else None;
    TailState(0, 0, inode, Some(StartPlan(d, st.offset, st.inode)))
  }

  /** The plan matches the directory entry by entry. */
  predicate Current(d: Disk, plan: seq<PlanEntry>) {
    forall i :: 0 <= i < |plan| ==> plan[i].index in d.rotated && !Shifted(d, plan[i])
  }

  lemma {:induction false} EntriesAreCurrent(d: Disk, top: nat, start: nat)
    requires forall i: nat :: 1 <= i <= top ==> i in d.rotated
    ensures Current(d, Entries(d.rotated, top, start))
  {
    if top > 0 { EntriesAreCurrent(d, top - 1, 0); }
  }

  lemma StartPlanIsCurrent(d: Disk, offset: nat, inode: Option<int>)
    ensures Current(d, StartPlan(d, offset, inode))
  {
    hide Entries, Current;
    EntriesAreCurrent(d, CheckpointIndex(d.rotated, inode), offset);
    EntriesAreCurrent(d, RotatedCount(d.rotated), 0);
  }

  lemma SpentYieldsNothing(parse: Parser, d: Disk, e: PlanEntry)
    requires Spent(d, e)
    ensures EntryYields(parse, d, e) == []
  {
    if e.index in d.rotated && e.start == |d.rotated[e.index].content| {
      EmptyDrain(parse, d.rotated[e.index].content);
    }
  }

  lemma EmptyDrain(parse: Parser, content: Bytes)
    ensures Drain(parse, content, |content|) == []
  {
    var end := content[|content|..];
    assert end == [] && IsBlank(end);
    LinesUnfold(end);
    NothingToScan(parse, content, |content|);
  }

  lemma {:induction false} CurrentPlanYields(parse: Parser, d: Disk, st: TailState, plan: seq<PlanEntry>)
    requires Current(d, plan)
    ensures CatchUpYields(parse, d, st, plan) == PlanYields(parse, d, plan) + SettledYields(parse, d, st)
  {
    if plan == [] {
      assert PlanYields(parse, d, plan) == [];
      assert [] + SettledYields(parse, d, st) == SettledYields(parse, d, st);
    } else {
      assert plan[0].index in d.rotated && !Shifted(d, plan[0]);
      forall i | 0 <= i < |plan[1..]| ensures plan[1..][i].index in d.rotated && !Shifted(d, plan[1..][i]) {
        assert plan[1..][i] == plan[i + 1];
      }
      CurrentPlanYields(parse, d, st, plan[1..]);
      hide EntryYields, SettledYields;
      if Spent(d, plan[0]) {
        SpentYieldsNothing(parse, d, plan[0]);
      }
      Reassociate(EntryYields(parse, d, plan[0]), PlanYields(parse, d, plan[1..]), SettledYields(parse, d, st));
    }
  }

  /** Starting the catch-up neither adds nor drops anything. */
  lemma StartedYields(parse: Parser, d: Disk, st: TailState)
    requires Identified(d)
    ensures Remaining(parse, d, Started(d, st)) == RebuiltYields(parse, d, st.offset, st.inode)
  {
    var started := Started(d, st);
    StartPlanIsCurrent(d, st.offset, st.inode);
    CurrentPlanYields(parse, d, started, started.plan.value);
  }

  // ------------------------------------------------- what the code leaves out

  /** The cursor file: what the last commit stored, if it is readable. */
  datatype StoredCursor = Unreadable | Stored(offset: Option<int>, inode: Option<int>)

  /** The state a restarted reader begins in. */
  function Loaded(c: StoredCursor): TailState {
    if c.Unreadable? || c.offset.None? || c.offset.value < 0 then TailState(0, 0, None, None)
    else
      TailState(c.offset.value, c.offset.value,
                if c.inode == Some(0) then None else c.inode, None)
  }

  function Committed(st: TailState, offset: nat): StoredCursor {
    Stored(Some(offset), st.inode)
  }

  /** Mid-catch-up: the plan is current and the identity is already the new main file's. */
  predicate CatchingUp(d: Disk, st: TailState) {
    && st.plan.Some? && Current(d, st.plan.value) && st.readOffset == 0
    && d.main.Some? && Identified(d) && st.inode == Usable(d.main.value.identity)
  }

  /** A restart after acknowledging part of a catch-up loses exactly what the plan had
      left: the sentinel offset is stored with the new file's identity, so the restarted
      reader takes the main file for its own and reads only that. */
  lemma RestartInCatchUp(parse: Parser, d: Disk, st: TailState)
    requires CatchingUp(d, st)
    ensures var restarted := Loaded(Committed(st, 0));
            && Remaining(parse, d, st) == PlanYields(parse, d, st.plan.value) + Remaining(parse, d, restarted)
            && (Remaining(parse, d, restarted) == Remaining(parse, d, st) <==>
                PlanYields(parse, d, st.plan.value) == [])
  {
    CurrentPlanYields(parse, d, st, st.plan.value);
    var lost, kept := PlanYields(parse, d, st.plan.value), MainYields(parse, d, 0);
    hide PlanYields, MainYields, CatchUpYields, Current;
    assert |lost + kept| == |lost| + |kept|;
  }

  /** Reading from byte `stale` instead of from the beginning neither skips an event nor
      changes one: no event ends at or before it, and the line it cuts, if it cuts one,
      decodes to the same event without what stands in front of the cut. */
  predicate SkipsNothing(parse: Parser, content: Bytes, stale: nat)
    requires stale <= |content|
  {
    var cut, rest := Tail(content[..stale]), Lines(content[stale..]);
    && Scan(parse, content[..stale], 0) == []
    && (cut == [] || rest == [] || Decode(parse, cut + rest[0]) == Decode(parse, rest[0]))
  }

  /** An old file's offset committed after the rotation was noticed is taken, after a
      restart, for a position in the new main file. Within the file it is read from there,
      which delivers what was still to come if and only if nothing is skipped; behind its
      end the file seems to have shrunk and everything retained is replayed. */
  lemma StaleCommit(parse: Parser, d: Disk, st: TailState, stale: nat)
    requires d.main.Some? && Identified(d) && st.inode == Usable(d.main.value.identity)
    ensures var content, after := d.main.value.content, Remaining(parse, d, Loaded(Committed(st, stale)));
            if stale <= |content| then
              && after == MainYields(parse, d, stale)
              && (Delivered(after) == Delivered(MainYields(parse, d, 0)) <==> SkipsNothing(parse, content, stale))
            else
              (forall i: nat :: 1 <= i <= RotatedCount(d.rotated) ==> Usable(d.rotated[i].identity) != st.inode) ==>
                after == PlanYields(parse, d, Entries(d.rotated, RotatedCount(d.rotated), 0)) + MainYields(parse, d, 0)
  {
    hide Scan, Delivered, PlanYields, Entries, LastIndex, SkipsNothing;
    if stale <= |d.main.value.content| { SkippingIff(parse, d.main.value.content, stale); }
  }

  lemma SkippingIff(parse: Parser, content: Bytes, stale: nat)
    requires stale <= |content|
    ensures Delivered(Scan(parse, content, stale)) == Delivered(Scan(parse, content, 0)) <==>
              SkipsNothing(parse, content, stale)
  {
    SkipsIs(parse, content, stale);
    hide *;
    ScanFromAnywhere(parse, content, stale);
    if Tail(content[..stale]) != [] && Lines(content[stale..]) != [] {
      CutIff(parse, content, stale);
    } else {
      LeadingDelivered(Scan(parse, content[..stale], 0), Scan(parse, content, stale));
    }
  }

  lemma CutIff(parse: Parser, content: Bytes, stale: nat)
    requires stale <= |content| && Tail(content[..stale]) != [] && Lines(content[stale..]) != []
    ensures var cut, line := Tail(content[..stale]), Lines(content[stale..])[0];
            Delivered(Scan(parse, content, stale)) == Delivered(Scan(parse, content, 0)) <==>
              Scan(parse, content[..stale], 0) == [] && Decode(parse, cut + line) == Decode(parse, line)
  {
    hide *;
    var cut, line, before := Tail(content[..stale]), Lines(content[stale..])[0], Scan(parse, content[..stale], 0);
    var next := stale + |line| + 1;
    ScanFromAnywhere(parse, content, stale);
    if before != [] { ScanFromLineEnd(parse, content[..stale], 0, 0); }
    SameDecoded(parse, cut + line, line, next);
    SameDelivered(before, LineYield(parse, cut + line, next), LineYield(parse, line, next), Scan(parse, content, next),
                  next);
  }

  lemma SkipsIs(parse: Parser, content: Bytes, stale: nat)
    requires stale <= |content|
    ensures var cut, rest := Tail(content[..stale]), Lines(content[stale..]);
            SkipsNothing(parse, content, stale) <==>
              && Scan(parse, content[..stale], 0) == []
              && (cut == [] || rest == [] || Decode(parse, cut + rest[0]) == Decode(parse, rest[0]))
  {
  }

  lemma LeadingDelivered(before: seq<Yield>, later: seq<Yield>)
    ensures Delivered(later) == Delivered(before + later) <==> before == []
  {
    DeliveredAppend(before, later);
    Leading(before, later);
    assert |Delivered(before + later)| == |before| + |Delivered(later)|;
  }

  lemma SameDecoded(parse: Parser, a: Bytes, b: Bytes, next: nat)
    ensures Delivered(LineYield(parse, a, next)) == Delivered(LineYield(parse, b, next)) <==>
              Decode(parse, a) == Decode(parse, b)
    ensures AtMostOne(LineYield(parse, a, next), next) && AtMostOne(LineYield(parse, b, next), next)
  {
    hide Decode;
    DeliveredOne(parse, a, next);
    DeliveredOne(parse, b, next);
  }

  lemma DeliveredOne(parse: Parser, line: Bytes, next: nat)
    ensures Delivered(LineYield(parse, line, next)) ==
            if Decode(parse, line).Some? then [(next, Decode(parse, line).value)] else []
  {
    hide Decode;
  }

  predicate AtMostOne(ys: seq<Yield>, offset: nat) {
    ys == [] || (|ys| == 1 && ys[0].offset == offset)
  }

  lemma SameDelivered(before: seq<Yield>, whole: seq<Yield>, part: seq<Yield>, later: seq<Yield>, next: nat)
    requires AtMostOne(whole, next) && AtMostOne(part, next) && (before != [] ==> before[0].offset < next)
    ensures Delivered(part + later) == Delivered((before + whole) + later) <==>
              before == [] && Delivered(part) == Delivered(whole)
  {
    FirstDelivered(before);
    FirstDelivered(part);
    hide Delivered;
    DeliveredAppend(part, later);
    DeliveredAppend(before + whole, later);
    DeliveredAppend(before, whole);
    if Delivered(part + later) == Delivered((before + whole) + later) {
      CancelRight(Delivered(part), Delivered(before) + Delivered(whole), Delivered(later));
      Leading(Delivered(before), Delivered(whole));
    }
    Reassociate(Delivered(before), Delivered(whole), []);
  }

  lemma FirstDelivered(ys: seq<Yield>)
    ensures if ys == [] then Delivered(ys) == []
            else Delivered(ys) != [] && Delivered(ys)[0] == (ys[0].offset, ys[0].event)
  {
  }

  /** No planned generation is where it was. */
  predicate AllMoved(d: Disk, plan: seq<PlanEntry>) {
    forall i :: 0 <= i < |plan| ==> plan[i].index in d.rotated ==> Shifted(d, plan[i])
  }

  /** A rotation during a catch-up makes the reader plan anew, and since nothing of the new
      main file is acknowledged yet everything retained is delivered once more. */
  lemma {:induction false} RotationInCatchUp(parse: Parser, d: Disk, st: TailState, plan: seq<PlanEntry>)
    requires d.main.Some? && Identified(d) && AllMoved(d, plan)
    requires st.offset == 0 && st.inode.Some? && st.inode != Usable(d.main.value.identity)
    ensures CatchUpYields(parse, d, st, plan) ==
            PlanYields(parse, d, Entries(d.rotated, RotatedCount(d.rotated), 0)) + MainYields(parse, d, 0)
  {
    hide EntryYields, PlanYields, MainYields, Entries, LastIndex, Shifted;
    if plan != [] {
      assert forall i :: 0 <= i < |plan| - 1 ==> plan[1..][i] == plan[i + 1];
      RotationInCatchUp(parse, d, st, plan[1..]);
    }
  }

  /** What `n` polls in a row deliver from an unchanged directory, each read to the end of
      the main file and acknowledged there. */
  function Polled(parse: Parser, d: Disk, st: TailState, n: nat): seq<Yield>
    requires d.main.Some?
    decreases n
  {
    if n == 0 then []
    else
      var end := |d.main.value.content|;
      Remaining(parse, d, st) + Polled(parse, d, TailState(end, end, Usable(d.main.value.identity), None), n - 1)
  }

  function Copies<T>(s: seq<T>, n: nat): seq<T>
    decreases n
  {
    if n == 0 then [] else s + Copies(s, n - 1)
  }

  /** Without usable file identities the documented single replay repeats: every poll
      delivers every retained generation and the whole main file once more. */
  lemma {:induction false} UnusableIdentityReplays(parse: Parser, d: Disk, st: TailState, n: nat)
    requires d.main.Some? && d.main.value.identity == 0 && RotatedCount(d.rotated) > 0
    requires st.plan.None? && st.inode == None
    ensures Polled(parse, d, st, n) ==
            Copies(PlanYields(parse, d, Entries(d.rotated, RotatedCount(d.rotated), 0)) + MainYields(parse, d, 0), n)
    decreases n
  {
    hide PlanYields, MainYields, Entries, LastIndex, Holding;
    if n > 0 {
      var end := |d.main.value.content|;
      UnusableIdentityReplays(parse, d, TailState(end, end, None, None), n - 1);
      assert WasRotated(d, st.readOffset, st.inode);
    }
  }
}
