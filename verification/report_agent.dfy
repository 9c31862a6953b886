/** The reporter: queues events from the log reader, sends them in batches, and moves the
    persisted checkpoint only when the Hub has answered for a batch. */
module ReportAgents {
  import opened Octets
  import opened LogLines
  import opened AuditLog
  import opened TailPlan
  import opened AuditTailing

  /** Reading pauses at this many unacknowledged events. */
  const MAX_PENDING := 5000

  // ------------------------------------------------------------ preparing events

  datatype Level = Meta | Tool | Full

  predicate Present(e: Event, field: string) {
    field in e.fields && e.fields[field] != ""
  }

  /** The Hub requires these fields; an event without one is dropped, not sent. */
  predicate Reportable(e: Event) {
    Present(e, "toolName") && Present(e, "status") && Present(e, "startedAt")
  }

  function Withheld(level: Level): set<string> {
    match level
    case Full => {}
    case Tool => {"outputBytes", "outputPreview", "outputRef"}
    case Meta => {"argsText", "outputBytes", "outputPreview", "outputRef"}
  }

  function Prepare(level: Level, e: Event): Option<Event> {
    if !Reportable(e) then None else Some(Event(e.fields - Withheld(level)))
  }

  /** What `level` shows of the event read as `raw`: at `Meta` neither the arguments nor any
      output, at `Tool` no output, at `Full` everything; every other field as it was read. */
  ghost predicate Shows(level: Level, sent: Event, raw: Event) {
    var output, fields := {"outputBytes", "outputPreview", "outputRef"}, sent.fields;
    && (forall f :: f in fields ==> f in raw.fields && fields[f] == raw.fields[f])
    && (forall f :: f in raw.fields && f != "argsText" && f !in output ==> f in fields)
    && (match level
        case Full => fields == raw.fields
        case Tool => fields.Keys !! output && ("argsText" in raw.fields ==> "argsText" in fields)
        case Meta => fields.Keys !! output && "argsText" !in fields)
  }

  /** `sent` is what `level` makes of the record read as `raw`. */
  ghost predicate CarriesAt(level: Level, sent: Yield, raw: Yield) {
    sent.offset == raw.offset && sent.size == raw.size && Reportable(raw.event) && Shows(level, sent.event, raw.event)
  }

  /** `sent` is what some report level makes of the record read as `raw`. */
  ghost predicate Carries(sent: Yield, raw: Yield) {
    exists level :: CarriesAt(level, sent, raw)
  }

  /** The records read as `raw`, each at the level it was read at. */
  ghost predicate CarriedAs(levels: seq<Level>, sent: seq<Yield>, raw: seq<Yield>) {
    |sent| == |raw| == |levels| && forall i :: 0 <= i < |sent| ==> CarriesAt(levels[i], sent[i], raw[i])
  }

  ghost predicate Carried(sent: seq<Yield>, raw: seq<Yield>) {
    |sent| == |raw| && forall i :: 0 <= i < |sent| ==> Carries(sent[i], raw[i])
  }

  lemma CarriedAppend(s1: seq<Yield>, r1: seq<Yield>, s2: seq<Yield>, r2: seq<Yield>)
    requires Carried(s1, r1) && Carried(s2, r2)
    ensures Carried(s1 + s2, r1 + r2)
  {
    hide Carries;
  }

  lemma CarriedSplit(sent: seq<Yield>, raw: seq<Yield>, n: nat)
    requires Carried(sent, raw) && n <= |sent|
    ensures Carried(sent[..n], raw[..n]) && Carried(sent[n..], raw[n..])
  {
    hide Carries;
  }

  lemma PrepareCarries(level: Level, y: Yield)
    ensures Prepare(level, y.event).Some? <==> Reportable(y.event)
    ensures Prepare(level, y.event).Some? ==>
              CarriesAt(level, Yield(y.offset, Prepare(level, y.event).value, y.size), y)
  {
    match level case Full => case Tool => case Meta =>
  }

  function Reportables(ys: seq<Yield>): seq<Yield> {
    if ys == [] then [] else (if Reportable(ys[0].event) then [ys[0]] else []) + Reportables(ys[1..])
  }

  lemma {:induction false} ReportablesAppend(a: seq<Yield>, b: seq<Yield>)
    ensures Reportables(a + b) == Reportables(a) + Reportables(b)
  {
    hide Reportable;
    if a == [] {
      assert a + b == b;
    } else {
      assert (a + b)[1..] == a[1..] + b;
      ReportablesAppend(a[1..], b);
    }
  }

  /** A record is reportable if it has the three fields the Hub asks for. */
  lemma ReportablesOne(y: Yield)
    ensures Reportables([y]) == if Reportable(y.event) then [y] else []
    ensures Reportable(y.event) <==>
              && "toolName" in y.event.fields && y.event.fields["toolName"] != ""
              && "status" in y.event.fields && y.event.fields["status"] != ""
              && "startedAt" in y.event.fields && y.event.fields["startedAt"] != ""
  {
    var none: seq<Yield> := [y][1..];
    assert none == [];
  }

  lemma NoReportables()
    ensures Reportables([]) == []
  {
  }

  // ------------------------------------------------ records between two positions

  /** The reportable records between byte `from` and byte `to` of a file. */
  function Between(parse: Parser, content: Bytes, from: nat, to: nat): seq<Yield>
    requires to <= |content|
  {
    Reportables(Scan(parse, content[..to], from))
  }

  lemma BetweenIs(parse: Parser, content: Bytes, from: nat, to: nat)
    requires to <= |content|
    ensures Between(parse, content, from, to) == Reportables(Scan(parse, content[..to], from))
    ensures content[..|content|] == content
  {
  }

  lemma NothingBetween(parse: Parser, content: Bytes, pos: nat)
    requires pos <= |content|
    ensures Scan(parse, content[..pos], pos) == []
    ensures Between(parse, content, pos, pos) == []
  {
    hide *;
    BetweenIs(parse, content, pos, pos);
    NothingBehind(parse, content, pos);
    NoReportables();
  }

  lemma BetweenJoin(parse: Parser, content: Bytes, a: nat, m: nat, b: nat)
    requires LaterLine(content, a, m) && m <= b <= |content|
    ensures Between(parse, content, a, b) == Between(parse, content, a, m) + Between(parse, content, m, b)
  {
    hide Scan, Reportables;
    ScanJoin(parse, content, a, m, b);
    ReportablesAppend(Scan(parse, content[..m], a), Scan(parse, content[..b], m));
  }

  /** Committing behind the `n`-th queued record leaves exactly the later ones queued. */
  lemma {:induction false} QueueSplit(parse: Parser, content: Bytes, a: nat, b: nat, n: nat)
    requires a <= b <= |content| && 0 < n <= |Between(parse, content, a, b)|
    ensures var o := Between(parse, content, a, b)[n - 1].offset;
            && a < o <= b && content[o - 1] == LF
            && Between(parse, content, a, o) == Between(parse, content, a, b)[..n]
            && Between(parse, content, o, b) == Between(parse, content, a, b)[n..]
    decreases b - a
  {
    hide *;
    var file := content[..b];
    BetweenIs(parse, content, a, b);
    NoReportables();
    var next := ScanLine(parse, file, a);
    var line := file[a..next - 1];
    assert file[next - 1] == content[next - 1];
    LaterLineIs(content, a, next);
    BetweenJoin(parse, content, a, next, b);
    OneRecord(parse, content, a, next, b, line);
    var head, rest := Between(parse, content, a, next), Between(parse, content, next, b);
    if |head| == n {
      assert (head + rest)[..n] == head && (head + rest)[n..] == rest;
      assert (head + rest)[n - 1] == head[0];
    } else {
      QueueSplit(parse, content, next, b, n - |head|);
      var o := rest[n - |head| - 1].offset;
      assert (head + rest)[n - 1] == rest[n - |head| - 1];
      BetweenJoin(parse, content, a, next, o);
      assert (head + rest)[..n] == head + rest[..n - |head|];
      assert (head + rest)[n..] == rest[n - |head|..];
    }
  }

  lemma OneRecord(parse: Parser, content: Bytes, a: nat, next: nat, b: nat, line: Bytes)
    requires LaterLine(content, a, next) && a < next <= b <= |content|
    requires Scan(parse, content[..b], a) == LineYield(parse, line, next) + Scan(parse, content[..b], next)
    ensures var head := Between(parse, content, a, next); head == [] || (|head| == 1 && head[0].offset == next)
  {
    hide *;
    ScanJoin(parse, content, a, next, b);
    CancelRight(Scan(parse, content[..next], a), LineYield(parse, line, next), Scan(parse, content[..b], next));
    BetweenIs(parse, content, a, next);
    LineYieldItem(parse, line, next);
    NoReportables();
    var ys := Scan(parse, content[..next], a);
    if ys != [] {
      assert ys == [ys[0]];
      ReportablesOne(ys[0]);
    }
  }

  /** Checkpoints strictly increase, and each is the end of a line. */
  predicate Checkpoints(content: Bytes, from: nat, ys: seq<Yield>) {
    && (forall i :: 0 <= i < |ys| ==> from < ys[i].offset <= |content| && content[ys[i].offset - 1] == LF)
    && (forall i, j :: 0 <= i < j < |ys| ==> ys[i].offset < ys[j].offset)
  }

  lemma QueuedCheckpoints(parse: Parser, content: Bytes, a: nat, b: nat, sent: seq<Yield>)
    requires a <= b <= |content| && Carried(sent, Between(parse, content, a, b))
    ensures Checkpoints(content, a, sent)
  {
    hide Between, Carries, Carried, LF;
    CarriedLength(sent, Between(parse, content, a, b));
    forall i | 0 <= i < |sent| ensures a < sent[i].offset <= |content| && content[sent[i].offset - 1] == LF {
      QueuedAt(parse, content, a, b, sent, i);
    }
    forall i, j | 0 <= i < j < |sent| ensures sent[i].offset < sent[j].offset {
      QueuedAt(parse, content, a, b, sent, i);
      QueuedAt(parse, content, a, b, sent, j);
      QueuedInOrder(parse, content, a, b, i, j);
    }
  }

  lemma QueuedAt(parse: Parser, content: Bytes, a: nat, b: nat, sent: seq<Yield>, i: nat)
    requires a <= b <= |content| && Carried(sent, Between(parse, content, a, b)) && i < |sent|
    ensures |sent| == |Between(parse, content, a, b)| && sent[i].offset == Between(parse, content, a, b)[i].offset
    ensures a < sent[i].offset <= b && content[sent[i].offset - 1] == LF
  {
    hide *;
    CarriedAt(sent, Between(parse, content, a, b), i);
    QueueSplit(parse, content, a, b, i + 1);
  }

  lemma QueuedInOrder(parse: Parser, content: Bytes, a: nat, b: nat, i: nat, j: nat)
    requires a <= b <= |content| && i < j < |Between(parse, content, a, b)|
    ensures Between(parse, content, a, b)[i].offset < Between(parse, content, a, b)[j].offset
  {
    hide *;
    var ys := Between(parse, content, a, b);
    var o := ys[i].offset;
    QueueSplit(parse, content, a, b, i + 1);
    assert ys[i + 1..][j - i - 1] == ys[j];
    QueueSplit(parse, content, o, b, j - i);
  }

  // --------------------------------------------------------------------- the Hub

  /** What becomes of one report request. */
  datatype Outcome = Unavailable | Rejected | Acknowledged | Declined

  /** A batch the Hub accepted or rejected; `persisted` unless the process died before
      it could store the checkpoint. */
  datatype Answer = Answer(batch: seq<Yield>, persisted: bool)

  /** The batches whose checkpoint was stored, in order. */
  function Settled(answers: seq<Answer>): seq<Yield> {
    if answers == [] then []
    else
      var last := answers[|answers| - 1];
      Settled(answers[..|answers| - 1]) + (if last.persisted then last.batch else [])
  }

  lemma SettledSnoc(answers: seq<Answer>, a: Answer)
    ensures Settled(answers + [a]) == Settled(answers) + (if a.persisted then a.batch else [])
  {
    assert (answers + [a])[..|answers|] == answers;
  }

  lemma NothingSettled()
    ensures Settled([]) == []
  {
  }

  lemma OneSettled(batch: seq<Yield>)
    ensures Settled([Answer(batch, true)]) == batch
  {
    SettledSnoc([], Answer(batch, true));
    assert [] + [Answer(batch, true)] == [Answer(batch, true)] && [] + batch == batch;
  }

  lemma {:induction false} SettledAppend(a: seq<Answer>, b: seq<Answer>)
    ensures Settled(a + b) == Settled(a) + Settled(b)
    decreases |b|
  {
    if b == [] {
      assert a + b == a;
      assert Settled(a) + [] == Settled(a);
    } else {
      var b', last := b[..|b| - 1], b[|b| - 1];
      assert a + b == (a + b') + [last] && b == b' + [last];
      SettledAppend(a, b');
      SettledSnoc(a + b', last);
      SettledSnoc(b', last);
    }
  }

  // ------------------------------------------------------------------- invariant

  function Content(d: Disk): Bytes {
    if d.main.Some? then d.main.value.content else []
  }

  /** A file that was never rotated, and a reader that knows no other. */
  predicate OneFile(d: Disk, st: TailState) {
    && d.rotated == map[] && st.plan.None?
    && (d.main.None? ==> st.offset == st.readOffset == 0 && st.inode.None?)
    && (d.main.Some? ==> st.inode.None? || st.inode == Usable(d.main.value.identity))
  }

  /** On one log file that only grows: what is settled, what is queued and what is still
      unread split the file's reportable records at the checkpoint and the read position,
      and the stored checkpoint is the one in use. */
  ghost predicate Kept(parse: Parser, d: Disk, st: TailState, cursor: StoredCursor, pending: seq<Yield>,
                       settled: seq<Yield>) {
    && OneFile(d, st) && OneFile(d, Loaded(cursor)) && Loaded(cursor).offset == st.offset
    && LaterLine(Content(d), 0, st.offset) && LaterLine(Content(d), st.offset, st.readOffset)
    && Carried(settled, Between(parse, Content(d), 0, st.offset))
    && Carried(pending, Between(parse, Content(d), st.offset, st.readOffset))
  }

  lemma KeptAtStart(parse: Parser, d: Disk)
    requires d == Disk(None, map[])
    ensures Kept(parse, d, Loaded(Unreadable), Unreadable, [], [])
  {
    NothingBetween(parse, [], 0);
    hide Between;
  }

  lemma KeptParts(parse: Parser, d: Disk, st: TailState, cursor: StoredCursor, pending: seq<Yield>, settled: seq<Yield>)
    requires Kept(parse, d, st, cursor, pending, settled)
    ensures st.plan.None? && st.offset <= st.readOffset <= |Content(d)|
    ensures Carried(settled, Between(parse, Content(d), 0, st.offset))
    ensures Carried(pending, Between(parse, Content(d), st.offset, st.readOffset))
    ensures d.main.Some? ==> !WasRotated(d, st.readOffset, st.inode)
    ensures LaterLine(Content(d), 0, st.offset) && LaterLine(Content(d), st.offset, st.readOffset)
  {
    hide Between, Carried;
    if d.main.Some? { NoGenerations(d); }
  }

  lemma NoGenerations(d: Disk)
    requires d.rotated == map[]
    ensures RotatedCount(d.rotated) == 0
  {
  }

  /** What was read joins the queue. */
  lemma KeptRead(parse: Parser, d: Disk, was: TailState, now: TailState, cursor: StoredCursor,
                 pending: seq<Yield>, settled: seq<Yield>, ys: seq<Yield>, more: seq<Yield>)
    requires Kept(parse, d, was, cursor, pending, settled) && d.main.Some?
    requires now == TailState(was.offset, now.readOffset, Usable(d.main.value.identity), None)
    requires LaterLine(Content(d), was.readOffset, now.readOffset)
    requires Scan(parse, Content(d), was.readOffset) == ys + Scan(parse, Content(d), now.readOffset)
    requires Carried(more, Reportables(ys))
    ensures Kept(parse, d, now, cursor, pending + more, settled)
    ensures ys == Scan(parse, Content(d)[..now.readOffset], was.readOffset)
  {
    hide Between, Carried, Reportables, Scan, Loaded;
    var content := Content(d);
    assert content[..|content|] == content;
    ScanJoin(parse, content, was.readOffset, now.readOffset, |content|);
    CancelRight(ys, Scan(parse, content[..now.readOffset], was.readOffset), Scan(parse, content, now.readOffset));
    BetweenIs(parse, content, was.readOffset, now.readOffset);
    BetweenJoin(parse, content, was.offset, was.readOffset, now.readOffset);
    CarriedAppend(pending, Between(parse, content, was.offset, was.readOffset), more, Reportables(ys));
  }

  /** The first `n` queued records are settled and the checkpoint behind them is stored. */
  lemma KeptCommit(parse: Parser, d: Disk, st: TailState, cursor: StoredCursor, pending: seq<Yield>,
                   settled: seq<Yield>, n: nat)
    requires Kept(parse, d, st, cursor, pending, settled) && 0 < n <= |pending|
    ensures var offset := pending[n - 1].offset;
            Kept(parse, d, st.(offset := offset), Committed(st, offset), pending[n..], settled + pending[..n])
  {
    hide Between, Carried, Carries;
    var content, offset := Content(d), pending[n - 1].offset;
    var raw := Between(parse, content, st.offset, st.readOffset);
    CarriedAt(pending, raw, n - 1);
    QueueSplit(parse, content, st.offset, st.readOffset, n);
    BetweenJoin(parse, content, 0, st.offset, offset);
    CarriedSplit(pending, raw, n);
    CarriedAppend(settled, Between(parse, content, 0, st.offset), pending[..n], raw[..n]);
  }

  lemma CarriedAt(sent: seq<Yield>, raw: seq<Yield>, i: nat)
    requires Carried(sent, raw) && i < |sent|
    ensures |sent| == |raw| && sent[i].offset == raw[i].offset
  {
  }

  /** A restart reads again from the stored checkpoint. */
  lemma KeptRestart(parse: Parser, d: Disk, st: TailState, cursor: StoredCursor, pending: seq<Yield>,
                    settled: seq<Yield>)
    requires Kept(parse, d, st, cursor, pending, settled)
    ensures Kept(parse, d, Loaded(cursor), cursor, [], settled)
  {
    hide Between;
    NothingBetween(parse, Content(d), st.offset);
  }

  /** More bytes at the end of the file change nothing that was read. */
  lemma KeptAppend(parse: Parser, d: Disk, st: TailState, cursor: StoredCursor, pending: seq<Yield>,
                   settled: seq<Yield>, now: Disk, data: Bytes)
    requires Kept(parse, d, st, cursor, pending, settled)
    requires now.rotated == map[] && now.main.Some? && now.main.value.content == Content(d) + data
    requires d.main.Some? ==> now.main.value.identity == d.main.value.identity
    ensures Kept(parse, now, st, cursor, pending, settled)
  {
    hide Carried, Scan, Reportables, Loaded;
    var content := Content(d);
    assert Content(now)[..st.offset] == content[..st.offset]
      && Content(now)[..st.readOffset] == content[..st.readOffset];
    assert Loaded(cursor).offset == st.offset;
    assert d.main.None? ==> Loaded(cursor).readOffset == 0;
  }

  // ------------------------------------------------------------------- the agent

  function PreparedAll(level: Level, ys: seq<Yield>): seq<Yield> {
    if ys == [] then [] else PreparedOne(level, ys[0]) + PreparedAll(level, ys[1..])
  }

  function PreparedOne(level: Level, y: Yield): seq<Yield> {
    match Prepare(level, y.event)
    case Some(e) => [Yield(y.offset, e, y.size)]
    case None => []
  }

  lemma PreparedCons(level: Level, ys: seq<Yield>)
    requires ys != []
    ensures PreparedAll(level, ys) == PreparedOne(level, ys[0]) + PreparedAll(level, ys[1..])
  {
  }

  lemma NothingPrepared(level: Level)
    ensures PreparedAll(level, []) == []
  {
  }

  function Repeat(level: Level, n: nat): seq<Level> {
    seq(n, _ => level)
  }

  /** Preparing keeps exactly the reportable events, in order, each under its own offset and
      with the fields its level shows. */
  lemma {:induction false} PreparedCarried(level: Level, ys: seq<Yield>)
    ensures CarriedAs(Repeat(level, |Reportables(ys)|), PreparedAll(level, ys), Reportables(ys))
    ensures Carried(PreparedAll(level, ys), Reportables(ys))
  {
    hide *;
    if ys == [] {
      NothingPrepared(level);
      NoReportables();
      NothingCarried();
      RepeatSum(level, 0, 0);
    } else {
      var first := [ys[0]];
      assert ys == first + ys[1..];
      PreparedCons(level, ys);
      OneCarried(level, ys[0]);
      ReportablesAppend(first, ys[1..]);
      PreparedCarried(level, ys[1..]);
      CarriedJoin(Repeat(level, |Reportables(first)|), PreparedOne(level, ys[0]), Reportables(first),
                  Repeat(level, |Reportables(ys[1..])|), PreparedAll(level, ys[1..]), Reportables(ys[1..]));
      RepeatSum(level, |Reportables(first)|, |Reportables(ys[1..])|);
    }
    CarriedAsCarried(Repeat(level, |Reportables(ys)|), PreparedAll(level, ys), Reportables(ys));
  }

  lemma RepeatSum(level: Level, m: nat, n: nat)
    ensures Repeat(level, m) + Repeat(level, n) == Repeat(level, m + n) && Repeat(level, 0) == []
    ensures |Repeat(level, n)| == n && forall i :: 0 <= i < n ==> Repeat(level, n)[i] == level
  {
  }

  lemma CarriedJoin(l1: seq<Level>, s1: seq<Yield>, r1: seq<Yield>, l2: seq<Level>, s2: seq<Yield>, r2: seq<Yield>)
    requires CarriedAs(l1, s1, r1) && CarriedAs(l2, s2, r2)
    ensures CarriedAs(l1 + l2, s1 + s2, r1 + r2)
  {
    hide CarriesAt;
  }

  lemma CarriedAsCarried(levels: seq<Level>, sent: seq<Yield>, raw: seq<Yield>)
    requires CarriedAs(levels, sent, raw)
    ensures Carried(sent, raw)
  {
    hide CarriesAt;
  }

  lemma NothingCarried()
    ensures Carried([], []) && CarriedAs([], [], [])
  {
  }

  lemma OneCarried(level: Level, y: Yield)
    ensures CarriedAs(Repeat(level, |Reportables([y])|), PreparedOne(level, y), Reportables([y]))
  {
    PrepareCarries(level, y);
    ReportablesOne(y);
    hide CarriesAt, Reportable, Reportables;
  }

  /** The reader counts the events that the agent keeps. */
  lemma {:induction false} KeptCount(accept: Event -> bool, ys: seq<Yield>)
    requires forall e :: accept(e) <==> Reportable(e)
    ensures |Reportables(ys)| == Accepted(accept, ys)
  {
    hide *;
    if ys == [] {
      NoReportables();
      AcceptedNil(accept);
    } else {
      var most, last := ys[..|ys| - 1], ys[|ys| - 1];
      assert ys == most + [last];
      KeptCount(accept, most);
      AcceptedSnoc(accept, most, last);
      ReportablesAppend(most, [last]);
      ReportablesOne(last);
    }
  }

  lemma CarriedLength(sent: seq<Yield>, raw: seq<Yield>)
    requires Carried(sent, raw)
    ensures |sent| == |raw|
  {
  }

  // ------------------------------------------------------- what each step does

  datatype Setup = Setup(parse: Parser, chunkBytes: nat, maxBatch: nat, batchSize: nat, level: Level)

  datatype AgentState = AgentState(disk: Disk, tail: TailState, cursor: StoredCursor, pending: seq<Yield>, dropped: nat,
                                   level: Level)

  /** Pulling new events from the one log file: `ys` are the next of its events, read until
      the queue is full or no further line ends within one read. */
  ghost predicate Reads(setup: Setup, was: AgentState, ys: seq<Yield>, next: AgentState) {
    var room := MAX_PENDING - |was.pending|;
    && next == was.(tail := next.tail, pending := next.pending, dropped := next.dropped)
    && next.pending == was.pending + PreparedAll(was.level, ys)
    && next.dropped + |next.pending| == was.dropped + |was.pending| + |ys|
    && |Reportables(ys)| <= room
    && match was.disk.main
       case None => ys == [] && next.tail == was.tail
       case Some(file) =>
         && next.tail == TailState(was.tail.offset, next.tail.readOffset, Usable(file.identity), None)
         && LaterLine(file.content, was.tail.readOffset, next.tail.readOffset)
         && Scan(setup.parse, file.content, was.tail.readOffset) ==
           ys + Scan(setup.parse, file.content, next.tail.readOffset)
         && (next.tail.readOffset == was.tail.readOffset <==>
               Lines(Window(file.content, was.tail.readOffset, setup.chunkBytes)) == [])
         && (|Reportables(ys)| < room ==>
               WholeWindow(file.content, was.tail.readOffset, setup.chunkBytes, next.tail.readOffset))
  }

  /** Reading pauses while the queue is full. */
  ghost predicate ReadStep(setup: Setup, was: AgentState, next: AgentState) {
    if |was.pending| >= MAX_PENDING then next == was else exists ys :: Reads(setup, was, ys, next)
  }

  /** The batches one poll sends: one after the other while the Hub acknowledges; a rejected
      one is given up and is the last, an unanswered one stays queued. */
  function Batches(maxBatch: nat, pending: seq<Yield>, outcomes: seq<Outcome>): seq<Answer>
    decreases |outcomes|
  {
    if pending == [] || outcomes == [] || outcomes[0] in {Unavailable, Declined} then []
    else
      var n := Min(maxBatch, |pending|);
      [Answer(pending[..n], true)] +
      (if outcomes[0] == Acknowledged then Batches(maxBatch, pending[n..], outcomes[1..]) else [])
  }

  /** The queue's first `n` records are settled: they leave it, and the checkpoint behind them
      is stored. */
  function Committing(s: AgentState, n: nat): AgentState
    requires n <= |s.pending|
  {
    if n == 0 then s
    else
      var offset := s.pending[n - 1].offset;
      s.(pending := s.pending[n..], tail := s.tail.(offset := offset), cursor := Committed(s.tail, offset))
  }

  /** One poll: it reads, and if the queue is long enough or old enough it sends. `ready` when
      no retry is waiting, `due` when the report interval has passed. */
  ghost predicate PollStep(setup: Setup, was: AgentState, ready: bool, due: bool, outcomes: seq<Outcome>,
                           answers: seq<Answer>, next: AgentState)
  {
    if !ready then answers == [] && next == was
    else exists read :: ReadStep(setup, was, read) && Sends(setup, read, due, outcomes, answers, next)
  }

  ghost predicate Sends(setup: Setup, read: AgentState, due: bool, outcomes: seq<Outcome>, answers: seq<Answer>,
                        next: AgentState) {
    if read.pending == [] || !(|read.pending| >= setup.batchSize || due) then answers == [] && next == read
    else
      && answers == Batches(setup.maxBatch, read.pending, outcomes)
      && |Settled(answers)| <= |read.pending| && next == Committing(read, |Settled(answers)|)
  }

  /** What was settled was the front of the queue. */
  lemma {:induction false} BatchesAreFront(maxBatch: nat, pending: seq<Yield>, outcomes: seq<Outcome>)
    ensures var sent := Settled(Batches(maxBatch, pending, outcomes));
            |sent| <= |pending| && sent == pending[..|sent|]
    decreases |outcomes|
  {
    var answers := Batches(maxBatch, pending, outcomes);
    if answers == [] {
      NothingSettled();
    } else {
      var n := Min(maxBatch, |pending|);
      BatchesAreFront(maxBatch, pending[n..], outcomes[1..]);
      NothingSettled();
      hide Settled;
      SettledAppend([answers[0]], answers[1..]);
      assert answers == [answers[0]] + answers[1..];
      OneSettled(pending[..n]);
    }
  }

  /** An acknowledging Hub gets the whole queue. */
  lemma {:induction false} AllAcknowledged(maxBatch: nat, pending: seq<Yield>, outcomes: seq<Outcome>)
    requires maxBatch > 0 && |outcomes| >= |pending| && forall k :: 0 <= k < |outcomes| ==> outcomes[k] == Acknowledged
    ensures Settled(Batches(maxBatch, pending, outcomes)) == pending
    decreases |outcomes|
  {
    var answers := Batches(maxBatch, pending, outcomes);
    if pending == [] {
      NothingSettled();
    } else {
      var n := Min(maxBatch, |pending|);
      AllAcknowledged(maxBatch, pending[n..], outcomes[1..]);
      hide Settled;
      SettledAppend([answers[0]], answers[1..]);
      assert answers == [answers[0]] + answers[1..];
      OneSettled(pending[..n]);
      assert pending == pending[..n] + pending[n..];
    }
  }

  /** How many batches the Hub takes: those it acknowledges in a row, and one more if it rejects
      that one. */
  function BatchesTaken(outcomes: seq<Outcome>): nat {
    if outcomes == [] then 0
    else match outcomes[0]
      case Acknowledged => 1 + BatchesTaken(outcomes[1..])
      case Rejected => 1
      case Unavailable => 0
      case Declined => 0
  }

  /** What a poll settles: that many batches of at most `maxBatch` records from the front of the
      queue, as far as it goes. */
  lemma {:induction false} SettledCount(maxBatch: nat, pending: seq<Yield>, outcomes: seq<Outcome>)
    requires maxBatch > 0
    ensures |Settled(Batches(maxBatch, pending, outcomes))| == Min(|pending|, maxBatch * BatchesTaken(outcomes))
    ensures forall i :: 0 <= i < |Batches(maxBatch, pending, outcomes)| ==>
              0 < |Batches(maxBatch, pending, outcomes)[i].batch| <= maxBatch
    decreases |outcomes|
  {
    var answers := Batches(maxBatch, pending, outcomes);
    NothingSettled();
    if answers != [] {
      var n := Min(maxBatch, |pending|);
      SettledCount(maxBatch, pending[n..], outcomes[1..]);
      SettledAppend([answers[0]], answers[1..]);
      assert answers == [answers[0]] + answers[1..];
      OneSettled(pending[..n]);
      assert maxBatch * (1 + BatchesTaken(outcomes[1..])) == maxBatch + maxBatch * BatchesTaken(outcomes[1..]);
    }
  }

  /** Nothing is sent before its time: not while a retry waits, nor while the queue is shorter
      than a batch and the interval has not passed. */
  lemma PollHolds(setup: Setup, was: AgentState, ready: bool, due: bool, outcomes: seq<Outcome>, answers: seq<Answer>,
                  next: AgentState)
    requires PollStep(setup, was, ready, due, outcomes, answers, next)
    ensures !ready ==> answers == [] && next == was
    ensures answers != [] ==> due || |Settled(answers)| + |next.pending| >= setup.batchSize
    ensures |was.pending| >= 5000 && answers == [] ==> next == was
  {
    hide Scan, PreparedAll, Reportables, Lines, Window, WholeWindow, Settled, Batches, Reads;
    NothingSettled();
    if ready {
      var read := PollReads(setup, was, due, outcomes, answers, next);
      SendsFront(setup, read, due, outcomes, answers, next);
      assert |Settled(answers)| + |next.pending| == |read.pending|;
    }
  }

  /** A poll that is ready and due, with a Hub that acknowledges, settles the whole queue and
      all it has read; and it reads on if and only if a line ends within one read. */
  lemma PollSettles(setup: Setup, was: AgentState, due: bool, outcomes: seq<Outcome>, answers: seq<Answer>,
                    next: AgentState)
    returns (ys: seq<Yield>)
    requires PollStep(setup, was, true, due, outcomes, answers, next) && setup.maxBatch > 0
    requires |was.pending| < 5000 <= |outcomes|
    requires forall k :: 0 <= k < |outcomes| ==> outcomes[k] == Acknowledged
    requires due || |was.pending| >= setup.batchSize
    ensures next.pending == [] && Settled(answers) == was.pending + PreparedAll(was.level, ys)
    ensures CarriedAs(Repeat(was.level, |Reportables(ys)|), PreparedAll(was.level, ys), Reportables(ys))
    ensures match was.disk.main
            case None => ys == []
            case Some(file) =>
              && was.tail.readOffset <= next.tail.readOffset <= |file.content|
              && Scan(setup.parse, file.content, was.tail.readOffset) ==
                ys + Scan(setup.parse, file.content, next.tail.readOffset)
              && (next.tail.readOffset > was.tail.readOffset <==>
                    Lines(Window(file.content, was.tail.readOffset, setup.chunkBytes)) != [])
  {
    hide Scan, PreparedAll, Reportables, Lines, Window, WholeWindow, Settled, Batches;
    var read :| ReadStep(setup, was, read) && Sends(setup, read, due, outcomes, answers, next);
    ys :| Reads(setup, was, ys, read);
    PreparedCarried(was.level, ys);
    CarriedLength(PreparedAll(was.level, ys), Reportables(ys));
    AllAcknowledged(setup.maxBatch, read.pending, outcomes);
    NothingSettled();
    if was.disk.main.Some? { LaterLineIs(was.disk.main.value.content, was.tail.readOffset, read.tail.readOffset); }
  }

  class ReportAgent {
    const tail: AuditTail
    const maxBatch: nat
    const batchSize: nat
    /** The report level of the settings, until the Hub pushes another. */
    const configured: Level
    var pending: seq<Yield>
    var dropped: nat
    var level: Level

    ghost function Config(): Setup {
      Setup(tail.parse, tail.chunkBytes, maxBatch, batchSize, configured)
    }

    ghost function State(): AgentState
      reads this, tail, tail.dir
    {
      AgentState(tail.Disk(), tail.State(), tail.cursor, pending, dropped, level)
    }

    ghost predicate Keeps(settled: seq<Yield>)
      reads this, tail, tail.dir
    {
      && tail.Valid() && maxBatch > 0 && |pending| <= MAX_PENDING
      && Kept(tail.parse, tail.Disk(), tail.State(), tail.cursor, pending, settled)
    }

    constructor (parse: Parser, chunkBytes: nat, dir: LogDirectory, cursor: StoredCursor, maxBatch: nat, batchSize: nat,
                 level: Level)
      requires chunkBytes > 0 && maxBatch > 0
      ensures fresh(tail) && tail.Valid() && tail.State() == Loaded(cursor) && tail.cursor == cursor
      ensures tail.parse == parse && tail.chunkBytes == chunkBytes && tail.dir == dir
      ensures this.maxBatch == maxBatch && this.batchSize == batchSize && configured == this.level == level
      ensures pending == [] && dropped == 0
    {
      var t := new AuditTail(parse, chunkBytes, dir, cursor);
      tail := t;
      this.maxBatch, this.batchSize, this.configured, this.level := maxBatch, batchSize, level, level;
      pending, dropped := [], 0;
    }

    /** Queues what was read; unusable events are counted and dropped. */
    method Enqueue(ys: seq<Yield>)
      modifies this`pending, this`dropped
      ensures pending == old(pending) + PreparedAll(level, ys)
      ensures dropped + |pending| == old(dropped + |pending|) + |ys|
    {
      hide PreparedAll, Prepare;
      var i := 0;
      ghost var all := pending + PreparedAll(level, ys);
      assert ys[0..] == ys;
      while i < |ys|
        invariant 0 <= i <= |ys|
        invariant all == pending + PreparedAll(level, ys[i..])
        invariant dropped + |pending| == old(dropped + |pending|) + i
      {
        assert ys[i..][0] == ys[i] && ys[i..][1..] == ys[i + 1..];
        PreparedCons(level, ys[i..]);
        Reassociate(pending, PreparedOne(level, ys[i]), PreparedAll(level, ys[i + 1..]));
        var prepared := Prepare(level, ys[i].event);
        match prepared {
          case None => dropped := dropped + 1;
          case Some(e) => pending := pending + [Yield(ys[i].offset, e, ys[i].size)];
        }
        i := i + 1;
      }
      NothingPrepared(level);
      assert ys[i..] == [];
    }

    /** Pulls new events until the pending ceiling is reached. */
    method ReadMore(ghost settled: seq<Yield>)
      requires Keeps(settled)
      modifies this`pending, this`dropped, tail`plan, tail`offset, tail`readOffset, tail`inode
      ensures Keeps(settled) && ReadStep(Config(), old(State()), State())
    {
      hide Kept, WasRotated, Scan, Between, Carried, Carries, Prepare, PreparedAll, Reportables, LaterLine,
        CleanState, Remaining, Accepted, Reportable, Current, Window, WholeWindow, Lines;
      ghost var d, was := tail.Disk(), tail.State();
      KeptParts(tail.parse, d, was, tail.cursor, pending, settled);
      if |pending| >= MAX_PENDING {
        return;
      }
      var accept := e => Reportable(e);
      var ys := tail.ReadNew(accept, MAX_PENDING - |pending|);
      ghost var queued := pending;
      KeptCount(accept, ys);
      PreparedCarried(level, ys);
      CarriedLength(PreparedAll(level, ys), Reportables(ys));
      NothingPrepared(level);
      Enqueue(ys);
      assert queued + [] == queued;
      LaterLineIs(Content(d), was.readOffset, tail.readOffset);
      if d.main.Some? {
        KeptRead(tail.parse, d, was, tail.State(), tail.cursor, queued, settled, ys, PreparedAll(level, ys));
      }
      assert Reads(Config(), old(State()), ys, State());
    }

    /** Sends one batch; `sent` when the Hub acknowledged it. A rejected batch is given up. */
    method Flush(outcome: Outcome, ghost settled: seq<Yield>) returns (sent: bool, answers: seq<Answer>)
      requires Keeps(settled)
      modifies this`pending, tail`offset, tail`cursor
      ensures Keeps(settled + Settled(answers))
      ensures answers == Batches(maxBatch, old(pending), [outcome]) && |Settled(answers)| <= |old(pending)|
      ensures State() == Committing(old(State()), |Settled(answers)|)
      ensures sent <==> old(pending) == [] || outcome == Acknowledged
    {
      hide Kept, Settled, Batches;
      NothingSettled();
      NoBatch(maxBatch, pending, outcome);
      assert settled + [] == settled && [] + pending == pending;
      if pending == [] {
        return true, [];
      }
      if outcome == Unavailable || outcome == Declined {
        return false, [];
      }
      var batch := pending[..Min(maxBatch, |pending|)];
      KeptCommit(tail.parse, tail.Disk(), tail.State(), tail.cursor, pending, settled, |batch|);
      pending := pending[|batch|..];
      tail.Commit(batch[|batch| - 1].offset);
      answers := [Answer(batch, true)];
      sent := outcome == Acknowledged;
      OneSettled(batch);
    }

    lemma KeepsParts(settled: seq<Yield>)
      requires Keeps(settled)
      ensures maxBatch > 0
    {
    }

    /** Sends batch after batch until the queue is empty or one is not acknowledged. */
    method SendAll(outcomes: seq<Outcome>, ghost settled: seq<Yield>) returns (answers: seq<Answer>)
      requires Keeps(settled)
      modifies this`pending, tail`offset, tail`cursor
      ensures Keeps(settled + Settled(answers)) && answers == Batches(maxBatch, old(pending), outcomes)
      ensures |Settled(answers)| <= |old(pending)| && State() == Committing(old(State()), |Settled(answers)|)
    {
      hide Keeps, Settled, Committing, Batches;
      ghost var read := State();
      KeepsParts(settled);
      NothingSettled();
      Reassociate(settled, [], []);
      CommittingNone(read);
      assert outcomes[0..] == outcomes;
      EmptyAnswers(Batches(maxBatch, read.pending, outcomes));
      var sent, k := true, 0;
      answers := [];
      while pending != [] && sent
        invariant 0 <= k <= |outcomes| && Keeps(settled + Settled(answers))
        invariant |Settled(answers)| <= |read.pending| && State() == Committing(read, |Settled(answers)|)
        invariant Batches(maxBatch, read.pending, outcomes) ==
                  answers + (if sent then Batches(maxBatch, pending, outcomes[k..]) else [])
        decreases |pending|, sent
      {
        var outcome := if k < |outcomes| then outcomes[k] else Unavailable;
        ghost var before := State();
        CommittingPending(read, |Settled(answers)|);
        var more;
        sent, more := Flush(outcome, settled + Settled(answers));
        BatchesStep(maxBatch, before.pending, outcomes[k..], outcome);
        CommittingPending(before, |Settled(more)|);
        SettledAppend(answers, more);
        Reassociate(settled, Settled(answers), Settled(more));
        ghost var rest := outcomes[k..][Min(1, |outcomes| - k)..];
        Reassociate(answers, more, if sent then Batches(maxBatch, pending, rest) else []);
        CommittingTwice(read, |Settled(answers)|, |Settled(more)|);
        k := Min(k + 1, |outcomes|);
        answers := answers + more;
      }
      BatchesEnd(maxBatch, outcomes[k..]);
      Reassociate(answers, [], []);
    }

    /** One poll: reads new events, then sends batches until the Hub stops acknowledging.
        `ready` when no retry is waiting, `due` when the report interval has passed. */
    method Cycle(ready: bool, due: bool, outcomes: seq<Outcome>, ghost settled: seq<Yield>)
      returns (answers: seq<Answer>)
      requires Keeps(settled)
      modifies this`pending, this`dropped, tail
      ensures Keeps(settled + Settled(answers))
      ensures PollStep(Config(), old(State()), ready, due, outcomes, answers, State())
    {
      hide Kept, Settled, Committed, Committing, ReadStep, Batches;
      NothingSettled();
      Reassociate(settled, [], []);
      answers := [];
      if !ready {
        return;
      }
      ReadMore(settled);
      ghost var read := State();
      if pending != [] && (|pending| >= batchSize || due) {
        answers := SendAll(outcomes, settled);
      }
      assert Sends(Config(), read, due, outcomes, answers, State());
    }
  }

  lemma NoBatch(maxBatch: nat, pending: seq<Yield>, outcome: Outcome)
    ensures pending == [] || outcome in {Unavailable, Declined} ==> Batches(maxBatch, pending, [outcome]) == []
    ensures pending != [] && outcome in {Acknowledged, Rejected} ==>
              Batches(maxBatch, pending, [outcome]) == [Answer(pending[..Min(maxBatch, |pending|)], true)]
  {
    var none: seq<Outcome> := [outcome][1..];
    assert none == [];
  }

  lemma EmptyAnswers(answers: seq<Answer>)
    ensures [] + answers == answers
  {
  }

  lemma BatchesEnd(maxBatch: nat, outcomes: seq<Outcome>)
    ensures Batches(maxBatch, [], outcomes) == []
  {
  }

  /** The first batch and the others. */
  lemma BatchesStep(maxBatch: nat, pending: seq<Yield>, outcomes: seq<Outcome>, outcome: Outcome)
    requires pending != [] && outcome == (if outcomes != [] then outcomes[0] else Unavailable)
    ensures var first := Batches(maxBatch, pending, [outcome]);
            && first == (if outcome in {Unavailable, Declined} then []
                         else [Answer(pending[..Min(maxBatch, |pending|)], true)])
            && |Settled(first)| <= |pending| && (outcome == Acknowledged && maxBatch > 0 ==> |Settled(first)| > 0)
            && Batches(maxBatch, pending, outcomes) ==
               first + (if outcome == Acknowledged then Batches(maxBatch, pending[|Settled(first)|..], outcomes[1..])
                        else [])
  {
    NoBatch(maxBatch, pending, outcome);
    NothingSettled();
    OneSettled(pending[..Min(maxBatch, |pending|)]);
    Reassociate(Batches(maxBatch, pending, [outcome]), [], []);
    hide Settled;
  }

  lemma CommittingNone(s: AgentState)
    ensures Committing(s, 0) == s
  {
  }

  lemma CommittingPending(s: AgentState, n: nat)
    requires n <= |s.pending|
    ensures Committing(s, n).pending == s.pending[n..]
  {
  }

  lemma CommittingTwice(s: AgentState, m: nat, n: nat)
    requires m <= |s.pending| && n <= |s.pending| - m
    ensures Committing(Committing(s, m), n) == Committing(s, m + n)
  {
    assert s.pending[m..][n..] == s.pending[m + n..];
  }

  // ------------------------------------------------------------------------ runs

  /** The writer appends bytes, the agent polls, the Hub pushes a report level, the agent
      restarts, or it dies after the Hub answered but before the checkpoint is stored. */
  datatype Op =
    | Append(data: Bytes)
    | Poll(ready: bool, due: bool, outcomes: seq<Outcome>)
    | Configure(level: Level)
    | Restart
    | DiesBeforeCommit

  function Appended(ops: seq<Op>): Bytes {
    if ops == [] then []
    else
      var last := ops[|ops| - 1];
      Appended(ops[..|ops| - 1]) + (if last.Append? then last.data else [])
  }

  lemma AppendedSnoc(ops: seq<Op>, op: Op)
    ensures Appended(ops + [op]) == Appended(ops) + (if op.Append? then op.data else [])
  {
    assert (ops + [op])[..|ops|] == ops;
  }

  /** The log grows at its end, or comes into being. */
  ghost predicate Grows(was: Disk, data: Bytes, now: Disk) {
    && now.rotated == was.rotated && now.main.Some? && now.main.value.content == Content(was) + data
    && (was.main.Some? ==> now.main.value.identity == was.main.value.identity)
  }

  /** A new process starts from the stored checkpoint with an empty queue and its settings. */
  function AfterRestart(setup: Setup, s: AgentState): AgentState {
    s.(tail := Loaded(s.cursor), pending := [], dropped := 0, level := setup.level)
  }

  ghost predicate Step(setup: Setup, was: AgentState, op: Op, answers: seq<Answer>, next: AgentState) {
    match op
    case Append(data) => answers == [] && Grows(was.disk, data, next.disk) && next == was.(disk := next.disk)
    case Poll(ready, due, outcomes) => PollStep(setup, was, ready, due, outcomes, answers, next)
    case Configure(level) => answers == [] && next == was.(level := level)
    case Restart => answers == [] && next == AfterRestart(setup, was)
    case DiesBeforeCommit =>
      && answers == (if was.pending == [] then []
                     else [Answer(was.pending[..Min(setup.maxBatch, |was.pending|)], false)])
      && next == AfterRestart(setup, was)
  }

  function Fresh(level: Level): AgentState {
    AgentState(Disk(None, map[]), Loaded(Unreadable), Unreadable, [], 0, level)
  }

  /** The Hub's answers and the next state for every operation, from a first start on. */
  ghost predicate Trace(setup: Setup, ops: seq<Op>, answers: seq<seq<Answer>>, states: seq<AgentState>) {
    && setup.maxBatch > 0 && setup.chunkBytes > 0
    && |answers| == |ops| && |states| == |ops| + 1 && states[0] == Fresh(setup.level)
    && forall i :: 0 <= i < |ops| ==> Step(setup, states[i], ops[i], answers[i], states[i + 1])
  }

  ghost predicate KeptState(setup: Setup, s: AgentState, settled: seq<Yield>) {
    |s.pending| <= MAX_PENDING && Kept(setup.parse, s.disk, s.tail, s.cursor, s.pending, settled)
  }

  /** Another process appends to the log, creating it if need be. */
  method AppendBytes(agent: ReportAgent, dir: LogDirectory, data: Bytes, ghost settled: seq<Yield>)
    requires agent.Keeps(settled) && agent.tail.dir == dir
    modifies dir
    ensures agent.Keeps(settled) && Grows(old(agent.tail.Disk()), data, agent.tail.Disk())
  {
    hide Kept;
    ghost var d, tail := agent.tail.Disk(), agent.tail;
    KeptRotations(tail.parse, d, tail.State(), tail.cursor, agent.pending, settled);
    dir.main := Some(if dir.main.Some? then LogFile(dir.main.value.identity, dir.main.value.content + data)
                     else LogFile(dir.nextIdentity, data));
    assert [] + data == data;
    KeptAppend(tail.parse, d, tail.State(), tail.cursor, agent.pending, settled, tail.Disk(), data);
  }

  lemma KeptRotations(parse: Parser, d: Disk, st: TailState, cursor: StoredCursor, pending: seq<Yield>,
                      settled: seq<Yield>)
    requires Kept(parse, d, st, cursor, pending, settled)
    ensures d.rotated == map[]
  {
  }

  method Restarted(agent: ReportAgent, ghost settled: seq<Yield>) returns (next: ReportAgent)
    requires agent.Keeps(settled)
    ensures fresh(next) && fresh(next.tail) && next.Keeps(settled)
    ensures next.tail.dir == agent.tail.dir && next.Config() == agent.Config()
    ensures next.State() == AfterRestart(agent.Config(), agent.State())
  {
    hide Kept, Loaded;
    var tail := agent.tail;
    KeptRestart(tail.parse, tail.Disk(), tail.State(), tail.cursor, agent.pending, settled);
    next := new ReportAgent(tail.parse, tail.chunkBytes, tail.dir, tail.cursor, agent.maxBatch, agent.batchSize,
                            agent.configured);
  }

  method Run(parse: Parser, chunkBytes: nat, maxBatch: nat, batchSize: nat, level: Level, ops: seq<Op>)
    returns (answers: seq<seq<Answer>>, ghost states: seq<AgentState>)
    requires chunkBytes > 0 && maxBatch > 0
    ensures Trace(Setup(parse, chunkBytes, maxBatch, batchSize, level), ops, answers, states)
  {
    hide Kept, Settled, Loaded, PollStep;
    ghost var setup := Setup(parse, chunkBytes, maxBatch, batchSize, level);
    var dir := new LogDirectory();
    var agent := new ReportAgent(parse, chunkBytes, dir, Unreadable, maxBatch, batchSize, level);
    KeptAtStart(parse, agent.tail.Disk());
    answers, states := [], [agent.State()];
    ghost var settled: seq<Yield> := [];
    for i := 0 to |ops|
      invariant fresh(dir) && fresh(agent) && fresh(agent.tail) && agent.tail.dir == dir && agent.Config() == setup
      invariant agent.Keeps(settled) && |states| == i + 1 && states[i] == agent.State()
      invariant Trace(setup, ops[..i], answers, states)
    {
      var more := [];
      match ops[i] {
        case Append(data) =>
          AppendBytes(agent, dir, data, settled);
        case Poll(ready, due, outcomes) =>
          more := agent.Cycle(ready, due, outcomes, settled);
          settled := settled + Settled(more);
        case Configure(pushed) =>
          agent.level := pushed;
        case Restart =>
          agent := Restarted(agent, settled);
        case DiesBeforeCommit =>
          if agent.pending != [] {
            more := [Answer(agent.pending[..Min(agent.maxBatch, |agent.pending|)], false)];
          }
          agent := Restarted(agent, settled);
      }
      assert ops[..i + 1] == ops[..i] + [ops[i]];
      answers, states := answers + [more], states + [agent.State()];
    }
    assert ops[..|ops|] == ops;
  }

  // ----------------------------------------------------------------- every trace

  lemma StepKept(setup: Setup, was: AgentState, op: Op, answers: seq<Answer>, next: AgentState, settled: seq<Yield>)
    requires setup.maxBatch > 0 && Step(setup, was, op, answers, next) && KeptState(setup, was, settled)
    ensures KeptState(setup, next, settled + Settled(answers))
    ensures Content(next.disk) == Content(was.disk) + (if op.Append? then op.data else [])
  {
    hide Kept, Settled, Loaded, PollStep, Committed;
    NothingSettled();
    Reassociate(settled, [], []);
    Reassociate(Content(was.disk), [], []);
    match op {
      case Append(data) =>
        KeptRotations(setup.parse, was.disk, was.tail, was.cursor, was.pending, settled);
        KeptAppend(setup.parse, was.disk, was.tail, was.cursor, was.pending, settled, next.disk, data);
      case Poll(ready, due, outcomes) =>
        PollKept(setup, was, ready, due, outcomes, answers, next, settled);
      case Configure(_) =>
      case Restart =>
        KeptRestart(setup.parse, was.disk, was.tail, was.cursor, was.pending, settled);
      case DiesBeforeCommit =>
        KeptRestart(setup.parse, was.disk, was.tail, was.cursor, was.pending, settled);
        if was.pending != [] { LostSettlesNothing(answers[0]); }
    }
  }

  lemma LostSettlesNothing(a: Answer)
    ensures !a.persisted ==> Settled([a]) == []
  {
    SettledSnoc([], a);
    assert [] + [a] == [a];
  }

  lemma PollKept(setup: Setup, was: AgentState, ready: bool, due: bool, outcomes: seq<Outcome>, answers: seq<Answer>,
                 next: AgentState, settled: seq<Yield>)
    requires setup.maxBatch > 0 && PollStep(setup, was, ready, due, outcomes, answers, next)
    requires KeptState(setup, was, settled)
    ensures KeptState(setup, next, settled + Settled(answers)) && next.disk == was.disk
  {
    hide Kept, Settled, Loaded, Committed, Batches, ReadStep;
    NothingSettled();
    Reassociate(settled, [], []);
    if ready {
      var read :| ReadStep(setup, was, read) && Sends(setup, read, due, outcomes, answers, next);
      ReadKept(setup, was, read, settled);
      var n := |Settled(answers)|;
      BatchesAreFront(setup.maxBatch, read.pending, outcomes);
      if n > 0 {
        KeptCommit(setup.parse, read.disk, read.tail, read.cursor, read.pending, settled, n);
      }
    }
  }

  lemma ReadKept(setup: Setup, was: AgentState, read: AgentState, settled: seq<Yield>)
    requires ReadStep(setup, was, read) && KeptState(setup, was, settled)
    ensures KeptState(setup, read, settled) && read.disk == was.disk
  {
    hide Kept, Scan, PreparedAll, Reportables, Lines, Window, WholeWindow, LaterLine, Carried;
    if |was.pending| < MAX_PENDING {
      var ys :| Reads(setup, was, ys, read);
      PreparedCarried(was.level, ys);
      CarriedLength(PreparedAll(was.level, ys), Reportables(ys));
      NothingPrepared(was.level);
      Reassociate(was.pending, [], []);
      if was.disk.main.Some? {
        KeptRead(setup.parse, was.disk, was.tail, read.tail, was.cursor, was.pending, settled, ys,
                 PreparedAll(was.level, ys));
      }
    }
  }

  lemma {:induction false} TraceKept(setup: Setup, ops: seq<Op>, answers: seq<seq<Answer>>,
                                     states: seq<AgentState>, n: nat)
    requires Trace(setup, ops, answers, states) && n <= |ops|
    ensures KeptState(setup, states[n], Settled(Flatten(answers[..n]))) && Content(states[n].disk) == Appended(ops[..n])
  {
    hide Step, Kept, Settled, Flatten, Appended, Loaded;
    if n == 0 {
      KeptAtStart(setup.parse, states[0].disk);
      FlattenNil<Answer>();
      NothingSettled();
      NothingAppended();
    } else {
      TraceKept(setup, ops, answers, states, n - 1);
      var settled := Settled(Flatten(answers[..n - 1]));
      StepKept(setup, states[n - 1], ops[n - 1], answers[n - 1], states[n], settled);
      assert answers[..n] == answers[..n - 1] + [answers[n - 1]] && ops[..n] == ops[..n - 1] + [ops[n - 1]];
      FlattenSnoc(answers[..n - 1], answers[n - 1]);
      SettledAppend(Flatten(answers[..n - 1]), answers[n - 1]);
      AppendedSnoc(ops[..n - 1], ops[n - 1]);
    }
  }

  /** At every point of any run on one log file: the batches whose checkpoint was stored are
      exactly the reportable records that end at or before it, each once and in order; the
      queue holds the next ones; the others are still to be read. */
  lemma SettledExactly(setup: Setup, ops: seq<Op>, answers: seq<seq<Answer>>, states: seq<AgentState>,
                       n: nat)
    requires Trace(setup, ops, answers, states) && n <= |ops|
    ensures var content, s := Appended(ops[..n]), states[n];
            var records := Reportables(Scan(setup.parse, content, 0));
            var at, read := Loaded(s.cursor).offset, s.tail.readOffset;
            && at == s.tail.offset <= read <= |content|
            && Carried(Settled(Flatten(answers[..n])), UpTo(records, at))
            && Carried(s.pending, Between(setup.parse, content, at, read))
            && Checkpoints(content, at, s.pending) && |s.pending| <= 5000
            && records == UpTo(records, at) + Between(setup.parse, content, at, read)
                        + Reportables(Scan(setup.parse, content, read))
  {
    hide Kept, Settled, Flatten, Appended, Loaded, Scan, Between, Reportables, UpTo, Carried, Checkpoints, Step;
    TraceKept(setup, ops, answers, states, n);
    var s := states[n];
    Conclude(setup.parse, s.disk, s.tail, s.cursor, s.pending, Settled(Flatten(answers[..n])));
  }

  lemma NothingAppended()
    ensures Appended([]) == []
  {
  }

  /** The records among `ys` that end at or before byte `to`. */
  function UpTo(ys: seq<Yield>, to: nat): seq<Yield> {
    if ys == [] then [] else (if ys[0].offset <= to then [ys[0]] else []) + UpTo(ys[1..], to)
  }

  lemma {:induction false} UpToAll(a: seq<Yield>, b: seq<Yield>, to: nat)
    requires forall i :: 0 <= i < |a| ==> a[i].offset <= to
    requires forall i :: 0 <= i < |b| ==> b[i].offset > to
    ensures UpTo(a + b, to) == a
  {
    if a != [] {
      assert (a + b)[1..] == a[1..] + b;
      UpToAll(a[1..], b, to);
    } else if b != [] {
      assert a + b == b;
      UpToAll([], b[1..], to);
      assert [] + b[1..] == b[1..];
    }
  }

  /** The reportable records of a file up to the checkpoint, and those behind it. */
  lemma SplitAtCheckpoint(parse: Parser, content: Bytes, at: nat)
    requires LaterLine(content, 0, at)
    ensures UpTo(Reportables(Scan(parse, content, 0)), at) == Between(parse, content, 0, at)
    ensures Reportables(Scan(parse, content, 0)) ==
            Between(parse, content, 0, at) + Reportables(Scan(parse, content, at))
  {
    hide Scan, Reportables, UpTo, Between;
    LaterLineIs(content, 0, at);
    BetweenJoin(parse, content, 0, at, |content|);
    BetweenIs(parse, content, 0, |content|);
    BetweenIs(parse, content, at, |content|);
    Positions(parse, content, 0, at);
    Positions(parse, content, at, |content|);
    UpToAll(Between(parse, content, 0, at), Between(parse, content, at, |content|), at);
  }

  lemma Positions(parse: Parser, content: Bytes, a: nat, b: nat)
    requires a <= b <= |content|
    ensures forall i :: 0 <= i < |Between(parse, content, a, b)| ==> a < Between(parse, content, a, b)[i].offset <= b
  {
    hide *;
    forall i | 0 <= i < |Between(parse, content, a, b)| ensures a < Between(parse, content, a, b)[i].offset <= b {
      QueueSplit(parse, content, a, b, i + 1);
    }
  }

  lemma Conclude(parse: Parser, d: Disk, st: TailState, cursor: StoredCursor, pending: seq<Yield>, settled: seq<Yield>)
    requires Kept(parse, d, st, cursor, pending, settled)
    ensures var content := Content(d);
            var records := Reportables(Scan(parse, content, 0));
            && st.offset <= st.readOffset <= |content| && Loaded(cursor).offset == st.offset
            && Carried(settled, UpTo(records, st.offset))
            && Carried(pending, Between(parse, content, st.offset, st.readOffset))
            && Checkpoints(content, st.offset, pending)
            && records == UpTo(records, st.offset) + Between(parse, content, st.offset, st.readOffset)
                        + Reportables(Scan(parse, content, st.readOffset))
  {
    hide Scan, Between, Reportables, UpTo, Carried, Checkpoints, Loaded;
    var content := Content(d);
    SplitAtCheckpoint(parse, content, st.offset);
    BetweenJoin(parse, content, st.offset, st.readOffset, |content|);
    BetweenIs(parse, content, st.offset, |content|);
    BetweenIs(parse, content, st.readOffset, |content|);
    QueuedCheckpoints(parse, content, st.offset, st.readOffset, pending);
    Reassociate(Between(parse, content, 0, st.offset), Between(parse, content, st.offset, st.readOffset),
                Reportables(Scan(parse, content, st.readOffset)));
  }

  // ------------------------------------------------------------ what is shown

  /** The level at which each record settled or queued by then was read: those that one step
      adds are read at the level in force before it, those that a restart drops are forgotten. */
  ghost function LevelsRead(answers: seq<seq<Answer>>, states: seq<AgentState>, n: nat): seq<Level>
    requires n <= |answers| && n < |states|
  {
    if n == 0 then []
    else Extended(LevelsRead(answers, states, n - 1), states[n - 1].level,
                  |Settled(Flatten(answers[..n]))| + |states[n].pending|)
  }

  function Extended(levels: seq<Level>, level: Level, total: nat): seq<Level> {
    if total <= |levels| then levels[..total] else levels + Repeat(level, total - |levels|)
  }

  /** At every point of every run: what was settled and what is queued are the reportable
      records read so far, in order, each with the fields shown at the level in force when it
      was read. */
  lemma {:induction false} ShownAsRead(setup: Setup, ops: seq<Op>, answers: seq<seq<Answer>>, states: seq<AgentState>,
                                       n: nat)
    requires Trace(setup, ops, answers, states) && n <= |ops|
    ensures states[n].tail.readOffset <= |Appended(ops[..n])|
    ensures CarriedAs(LevelsRead(answers, states, n), Settled(Flatten(answers[..n])) + states[n].pending,
                      Between(setup.parse, Appended(ops[..n]), 0, states[n].tail.readOffset))
  {
    hide Step, Kept, Settled, Flatten, Appended, Loaded, Between, CarriedAs, Extended;
    TraceKept(setup, ops, answers, states, n);
    KeptBounds(setup, states[n], Settled(Flatten(answers[..n])));
    if n == 0 {
      FlattenNil<Answer>();
      NothingSettled();
      NothingBetween(setup.parse, [], 0);
      NothingAppended();
      NothingCarried();
      assert answers[..0] == [] && ops[..0] == [] && states[0].pending == [];
      var none: seq<Yield> := [];
      assert none + none == none;
    } else {
      var settled := Settled(Flatten(answers[..n - 1]));
      TraceKept(setup, ops, answers, states, n - 1);
      ShownAsRead(setup, ops, answers, states, n - 1);
      KeptBounds(setup, states[n - 1], settled);
      StepKept(setup, states[n - 1], ops[n - 1], answers[n - 1], states[n], settled);
      StepShown(setup, states[n - 1], ops[n - 1], answers[n - 1], states[n], settled,
                LevelsRead(answers, states, n - 1));
      assert answers[..n] == answers[..n - 1] + [answers[n - 1]];
      FlattenSnoc(answers[..n - 1], answers[n - 1]);
      SettledAppend(Flatten(answers[..n - 1]), answers[n - 1]);
    }
  }

  lemma KeptBounds(setup: Setup, s: AgentState, settled: seq<Yield>)
    requires KeptState(setup, s, settled)
    ensures s.tail.offset <= s.tail.readOffset <= |Content(s.disk)|
  {
    hide Between, Carried;
  }

  lemma StepShown(setup: Setup, was: AgentState, op: Op, answers: seq<Answer>, next: AgentState, settled: seq<Yield>,
                  levels: seq<Level>)
    requires setup.maxBatch > 0 && Step(setup, was, op, answers, next) && KeptState(setup, was, settled)
    requires was.tail.readOffset <= |Content(was.disk)| && next.tail.readOffset <= |Content(next.disk)|
    requires CarriedAs(levels, settled + was.pending, Between(setup.parse, Content(was.disk), 0, was.tail.readOffset))
    ensures CarriedAs(Extended(levels, was.level, |settled + Settled(answers)| + |next.pending|),
                      settled + Settled(answers) + next.pending,
                      Between(setup.parse, Content(next.disk), 0, next.tail.readOffset))
  {
    hide Kept, Settled, Loaded, PollStep, Committed, Between, CarriesAt;
    NothingSettled();
    Reassociate(settled, [], []);
    assert levels[..|levels|] == levels;
    match op {
      case Append(data) =>
        SameBetween(setup.parse, Content(was.disk), data, was.tail.readOffset);
      case Poll(ready, due, outcomes) =>
        PollShown(setup, was, ready, due, outcomes, answers, next, settled, levels);
      case Configure(_) =>
      case Restart =>
        RestartShown(setup, was, settled, levels);
      case DiesBeforeCommit =>
        if was.pending != [] { LostSettlesNothing(answers[0]); }
        RestartShown(setup, was, settled, levels);
    }
  }

  lemma SameBetween(parse: Parser, content: Bytes, data: Bytes, to: nat)
    requires to <= |content|
    ensures Between(parse, content + data, 0, to) == Between(parse, content, 0, to)
  {
    hide Scan, Reportables;
    assert (content + data)[..to] == content[..to];
  }

  lemma RestartShown(setup: Setup, was: AgentState, settled: seq<Yield>, levels: seq<Level>)
    requires KeptState(setup, was, settled) && was.tail.readOffset <= |Content(was.disk)|
    requires CarriedAs(levels, settled + was.pending, Between(setup.parse, Content(was.disk), 0, was.tail.readOffset))
    ensures Loaded(was.cursor).readOffset <= |Content(was.disk)| && |settled| <= |levels|
    ensures CarriedAs(levels[..|settled|], settled + [],
                      Between(setup.parse, Content(was.disk), 0, Loaded(was.cursor).readOffset))
  {
    hide Between, CarriesAt, Carries;
    var at, read := was.tail.offset, was.tail.readOffset;
    BetweenJoin(setup.parse, Content(was.disk), 0, at, read);
    assert (settled + was.pending)[..|settled|] == settled + [];
  }

  lemma PollShown(setup: Setup, was: AgentState, ready: bool, due: bool, outcomes: seq<Outcome>, answers: seq<Answer>,
                  next: AgentState, settled: seq<Yield>, levels: seq<Level>)
    requires setup.maxBatch > 0 && PollStep(setup, was, ready, due, outcomes, answers, next)
    requires KeptState(setup, was, settled) && was.tail.readOffset <= |Content(was.disk)|
    requires next.tail.readOffset <= |Content(next.disk)|
    requires CarriedAs(levels, settled + was.pending, Between(setup.parse, Content(was.disk), 0, was.tail.readOffset))
    ensures CarriedAs(Extended(levels, was.level, |settled + Settled(answers)| + |next.pending|),
                      settled + Settled(answers) + next.pending,
                      Between(setup.parse, Content(next.disk), 0, next.tail.readOffset))
  {
    hide *;
    if ready {
      var read := PollReads(setup, was, due, outcomes, answers, next);
      ReadShown(setup, was, read, settled, levels);
      SendsFront(setup, read, due, outcomes, answers, next);
      Reassociate(settled, Settled(answers), next.pending);
      assert |settled + Settled(answers)| + |next.pending| == |settled| + |read.pending|;
    } else {
      NotReady(setup, was, due, outcomes, answers, next);
      CarriedAsLength(levels, settled + was.pending, Between(setup.parse, Content(was.disk), 0, was.tail.readOffset));
      ExtendedSame(levels, was.level);
      Reassociate(settled, [], []);
    }
  }

  lemma ExtendedSame(levels: seq<Level>, level: Level)
    ensures Extended(levels, level, |levels|) == levels
  {
  }

  lemma NotReady(setup: Setup, was: AgentState, due: bool, outcomes: seq<Outcome>, answers: seq<Answer>,
                 next: AgentState)
    requires PollStep(setup, was, false, due, outcomes, answers, next)
    ensures next == was && Settled(answers) == []
  {
    NothingSettled();
    hide Settled;
  }

  lemma PollReads(setup: Setup, was: AgentState, due: bool, outcomes: seq<Outcome>, answers: seq<Answer>,
                  next: AgentState) returns (read: AgentState)
    requires PollStep(setup, was, true, due, outcomes, answers, next)
    ensures ReadStep(setup, was, read) && Sends(setup, read, due, outcomes, answers, next)
  {
    hide ReadStep, Sends;
    read :| ReadStep(setup, was, read) && Sends(setup, read, due, outcomes, answers, next);
  }

  /** What a poll settles and what it leaves queued are what it had queued before sending. */
  lemma SendsFront(setup: Setup, read: AgentState, due: bool, outcomes: seq<Outcome>, answers: seq<Answer>,
                   next: AgentState)
    requires Sends(setup, read, due, outcomes, answers, next)
    ensures Settled(answers) + next.pending == read.pending
    ensures next.disk == read.disk && next.tail.readOffset == read.tail.readOffset
  {
    hide Settled, Batches;
    NothingSettled();
    BatchesAreFront(setup.maxBatch, read.pending, outcomes);
    assert [] + read.pending == read.pending;
  }

  lemma CarriedAsLength(levels: seq<Level>, sent: seq<Yield>, raw: seq<Yield>)
    requires CarriedAs(levels, sent, raw)
    ensures |levels| == |sent| == |raw|
  {
  }

  /** What is read joins the queue at the level in force. */
  lemma ReadShown(setup: Setup, was: AgentState, read: AgentState, settled: seq<Yield>, levels: seq<Level>)
    requires ReadStep(setup, was, read) && KeptState(setup, was, settled)
    requires was.tail.readOffset <= |Content(was.disk)|
    requires CarriedAs(levels, settled + was.pending, Between(setup.parse, Content(was.disk), 0, was.tail.readOffset))
    ensures read.disk == was.disk && read.tail.readOffset <= |Content(read.disk)|
    ensures |settled| + |read.pending| >= |levels|
    ensures CarriedAs(Extended(levels, was.level, |settled| + |read.pending|), settled + read.pending,
                      Between(setup.parse, Content(read.disk), 0, read.tail.readOffset))
  {
    hide Kept, Scan, PreparedAll, Reportables, Lines, Window, WholeWindow, LaterLine, Carried, CarriedAs, Between;
    var content, from := Content(was.disk), was.tail.readOffset;
    CarriedAsLength(levels, settled + was.pending, Between(setup.parse, content, 0, from));
    assert levels[..|levels|] == levels;
    if |was.pending| < MAX_PENDING {
      var ys :| Reads(setup, was, ys, read);
      PreparedCarried(was.level, ys);
      CarriedAsLength(Repeat(was.level, |Reportables(ys)|), PreparedAll(was.level, ys), Reportables(ys));
      if was.disk.main.Some? {
        ReadBetween(setup, was, read, settled, ys);
        CarriedJoin(levels, settled + was.pending, Between(setup.parse, content, 0, from),
                    Repeat(was.level, |Reportables(ys)|), PreparedAll(was.level, ys), Reportables(ys));
        Reassociate(settled, was.pending, PreparedAll(was.level, ys));
        RepeatSum(was.level, |Reportables(ys)|, 0);
        assert levels + [] == levels;
      } else {
        NothingPrepared(was.level);
        Reassociate(was.pending, [], []);
      }
    }
  }

  lemma ReadBetween(setup: Setup, was: AgentState, read: AgentState, settled: seq<Yield>, ys: seq<Yield>)
    requires Reads(setup, was, ys, read) && KeptState(setup, was, settled) && was.disk.main.Some?
    ensures was.tail.readOffset <= read.tail.readOffset <= |Content(was.disk)|
    ensures Between(setup.parse, Content(was.disk), 0, read.tail.readOffset) ==
            Between(setup.parse, Content(was.disk), 0, was.tail.readOffset) + Reportables(ys)
  {
    hide Scan, PreparedAll, Reportables, Lines, Window, WholeWindow, Carried, Between, Loaded;
    PreparedCarried(was.level, ys);
    KeptRead(setup.parse, was.disk, was.tail, read.tail, was.cursor, was.pending, settled, ys,
             PreparedAll(was.level, ys));
    var content := Content(was.disk);
    BetweenIs(setup.parse, content, was.tail.readOffset, read.tail.readOffset);
    LineEndBefore(content, was.tail.offset, was.tail.readOffset);
    BetweenJoin(setup.parse, content, 0, was.tail.readOffset, read.tail.readOffset);
  }

  lemma LineEndBefore(content: Bytes, at: nat, read: nat)
    requires LaterLine(content, 0, at) && LaterLine(content, at, read)
    ensures LaterLine(content, 0, read)
  {
  }
}
