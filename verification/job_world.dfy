/** Durable jobs: what is on disk, which processes can be seen, and how a job's worker
    moves, step by step, beside the server. */
module JobWorld {
  import opened Octets

  datatype Status =
    | Starting | Running | CancelRequested | Lost
    | Completed | Failed | Canceled | TimedOut | Interrupted | StartFailed

  predicate Terminal(s: Status) {
    s in {Completed, Failed, Canceled, TimedOut, Interrupted, StartFailed}
  }

  /** A process is known by its pid and start time together; no two processes share both. */
  type Process = nat

  datatype Meta = Meta(status: Status, worker: Option<Process>, child: Option<Process>, keyHash: Option<string>)

  /** A job directory. Its files may be missing. */
  datatype Job = Job(meta: Option<Meta>, result: Option<Status>, cancel: bool, command: bool)

  datatype Mapping = Mapping(job: nat, fingerprint: string, tombstone: bool)

  /** Where a worker stands in its run. */
  datatype Phase =
    | Booting | Checking | Spawning
    | Spawned(child: Process)
    | Polling(child: Process, canceled: bool, timedOut: bool)
    | Reporting(status: Status)
    | Done

  datatype Worker = Worker(process: Process, phase: Phase)

  datatype Launch = Launch(job: nat, keyHash: Option<string>)

  /** `visible` are the processes that can still be seen, zombies included; `launches`
      is every worker ever launched, `cleaned` every job whose removal was begun. */
  datatype World = World(
    jobs: map<nat, Job>,
    mappings: map<string, Mapping>,
    nextJob: nat,
    workers: map<nat, Worker>,
    visible: set<Process>,
    nextProcess: Process,
    launches: seq<Launch>,
    cleaned: set<nat>)

  // ------------------------------------------------------------------------ status

  predicate Seen(p: Option<Process>, visible: set<Process>) {
    p.Some? && p.value in visible
  }

  /** A stored result decides; without one, the processes do. */
  function StatusFrom(job: Job, visible: set<Process>): Status
    requires job.meta.Some?
  {
    if job.result.Some? then job.result.value
    else if Seen(job.meta.value.child, visible) then
      (if job.cancel then CancelRequested else if Seen(job.meta.value.worker, visible) then Running else Lost)
    else if Seen(job.meta.value.worker, visible) then
      (if job.cancel then CancelRequested else Starting)
    else Interrupted
  }

  predicate Known(w: World, id: nat) {
    id in w.jobs && w.jobs[id].meta.Some?
  }

  function StatusOf(w: World, id: nat): Status
    requires Known(w, id)
  {
    StatusFrom(w.jobs[id], w.visible)
  }

  // --------------------------------------------------------------------- invariant

  /** What a job's files and its worker have to do with each other. */
  predicate JobSound(w: World, id: nat)
    requires id in w.jobs
  {
    var job := w.jobs[id];
    && id < w.nextJob
    && (job.meta.Some? && job.meta.value.worker.Some? ==>
          id in w.workers && job.meta.value.worker.value == w.workers[id].process)
    && (job.meta.Some? && job.meta.value.child.Some? ==> job.meta.value.child.value < w.nextProcess)
    && (job.result.Some? && id in w.workers ==> w.workers[id].phase.Done?)
  }

  ghost predicate Sound(w: World) {
    && (forall id :: id in w.jobs ==> JobSound(w, id))
    && (forall id :: id in w.workers ==>
          && id < w.nextJob && w.workers[id].process < w.nextProcess
          && (w.workers[id].phase.Done? || w.workers[id].process in w.visible)
          && PhaseSound(w, id))
    && (forall p :: p in w.visible ==> p < w.nextProcess)
    && LaunchesSound(w) && Apart(w)
  }

  function ChildOf(phase: Phase): Option<Process> {
    match phase
    case Spawned(child) => Some(child)
    case Polling(child, _, _) => Some(child)
    case _ => None
  }

  /** A job's command is not itself a worker. */
  ghost predicate Apart(w: World) {
    forall i, j :: i in w.workers && j in w.workers ==> ChildOf(w.workers[i].phase) != Some(w.workers[j].process)
  }

  predicate PhaseSound(w: World, id: nat)
    requires id in w.workers
  {
    var phase := w.workers[id].phase;
    && (ChildOf(phase).Some? ==> ChildOf(phase).value < w.nextProcess)
    && (phase.Reporting? ==> phase.status in {Completed, Failed, Canceled, TimedOut})
  }

  /** Every launched worker is launched once, for the job its key maps to. */
  ghost predicate LaunchesSound(w: World) {
    && (forall i :: 0 <= i < |w.launches| ==> w.launches[i].job in w.workers)
    && (forall i, j :: 0 <= i < j < |w.launches| ==> w.launches[i].job != w.launches[j].job)
    && (forall i :: 0 <= i < |w.launches| && w.launches[i].keyHash.Some? ==>
          var k := w.launches[i].keyHash.value; k in w.mappings && w.mappings[k].job == w.launches[i].job)
  }

  /** No worker runs under the job any more. */
  predicate Ended(w: World, id: nat) {
    id in w.workers ==> w.workers[id].phase.Done?
  }

  /** A status that observations must repeat until the job is cleaned up. */
  predicate Final(w: World, id: nat) {
    Known(w, id) && id !in w.cleaned && Ended(w, id) && Terminal(StatusOf(w, id))
  }

  /** What every step keeps: mappings stay, launches are never forgotten, jobs are never
      launched after the fact, a removed job never comes back, and a final status stays. */
  ghost predicate Follows(was: World, now: World) {
    && was.nextJob <= now.nextJob && was.nextProcess <= now.nextProcess && was.launches <= now.launches
    && was.cleaned <= now.cleaned
    && (forall k :: k in was.mappings ==>
          k in now.mappings && now.mappings[k].job == was.mappings[k].job
            && now.mappings[k].fingerprint == was.mappings[k].fingerprint)
    && (forall id: nat :: id < was.nextJob && !Known(was, id) ==> !Known(now, id))
    && (forall id: nat :: Final(was, id) && Known(now, id) && id !in now.cleaned ==>
          Final(now, id) && StatusOf(now, id) == StatusOf(was, id))
  }

  lemma FollowsSelf(w: World)
    ensures Follows(w, w)
  {
  }

  lemma FollowsChain(a: World, b: World, c: World)
    requires Follows(a, b) && Follows(b, c) && Sound(a)
    ensures Follows(a, c)
  {
    hide StatusOf, Ended, Terminal, JobSound, LaunchesSound;
    forall id: nat | Final(a, id) && Known(c, id) && id !in c.cleaned
      ensures Final(c, id) && StatusOf(c, id) == StatusOf(a, id)
    {
      assert Known(a, id) && id in a.jobs && id < a.nextJob by { SoundJob(a, id); }
      assert Known(b, id);
    }
  }

  lemma SoundJob(w: World, id: nat)
    requires Sound(w) && id in w.jobs
    ensures JobSound(w, id) && id < w.nextJob
  {
  }

  // ------------------------------------------------------------------ worker steps

  datatype Event = Go | SpawnFails | Timeout | Reaped(exit: int) | Dies

  function Classify(canceled: bool, timedOut: bool, requested: bool, exit: int): Status {
    if canceled || (!timedOut && requested) then Canceled
    else if timedOut then TimedOut
    else if exit == 0 then Completed
    else Failed
  }

  predicate CancelAsked(w: World, id: nat) {
    id in w.jobs && w.jobs[id].cancel
  }

  function AtPhase(w: World, id: nat, phase: Phase): World
    requires id in w.workers
  {
    w.(workers := w.workers[id := w.workers[id].(phase := phase)])
  }

  /** Stores the result and ends the worker; a directory that was removed in the meantime
      comes back without metadata. */
  function WriteResult(w: World, id: nat, s: Status): World
    requires id in w.workers
  {
    var job := if id in w.jobs then w.jobs[id] else Job(None, None, false, false);
    var meta := if job.meta.Some? then Some(job.meta.value.(status := s)) else None;
    AtPhase(w, id, Done).(jobs := w.jobs[id := job.(result := Some(s), meta := meta)])
  }

  function Fail(w: World, id: nat): World
    requires id in w.workers
  {
    var after := WriteResult(w, id, StartFailed);
    after.(jobs := after.jobs[id := after.jobs[id].(command := false)])
  }

  function WorkerStep(w: World, id: nat, e: Event): (r: World)
    requires id in w.workers
    ensures id in r.workers
  {
    var phase := w.workers[id].phase;
    if phase.Done? then w
    else if e.Dies? then AtPhase(w, id, Done)
    else match phase
      case Booting =>
        if id in w.jobs && w.jobs[id].command then
          AtPhase(w, id, Checking).(jobs := w.jobs[id := w.jobs[id].(command := false)])
        else Fail(w, id)
      case Checking =>
        if CancelAsked(w, id) then WriteResult(w, id, Canceled) else AtPhase(w, id, Spawning)
      case Spawning =>
        if e.SpawnFails? then Fail(w, id)
        else
          var child := w.nextProcess;
          AtPhase(w, id, Spawned(child)).(visible := w.visible + {child}, nextProcess := child + 1)
      case Spawned(child) =>
        if Known(w, id) then
          var meta := w.jobs[id].meta.value.(child := Some(child), status := Running);
          AtPhase(w, id, Polling(child, false, false)).(jobs := w.jobs[id := w.jobs[id].(meta := Some(meta))])
        else Fail(w, id)
      case Polling(child, canceled, timedOut) =>
        if e.Reaped? then
          var status := Classify(canceled, timedOut, CancelAsked(w, id), e.exit);
          AtPhase(w, id, Reporting(status)).(visible := w.visible - {child})
        else if canceled || timedOut then w
        else if CancelAsked(w, id) then AtPhase(w, id, Polling(child, true, false))
        else if e.Timeout? then AtPhase(w, id, Polling(child, false, true))
        else w
      case Reporting(s) => WriteResult(w, id, s)
      case Done => w
  }

  /** A process that ended disappears; a running worker does not. */
  function Vanish(w: World, p: Process): World {
    if exists id :: id in w.workers && !w.workers[id].phase.Done? && w.workers[id].process == p then w
    else w.(visible := w.visible - {p})
  }

  // ------------------------------------------------------- steps keep what was said

  /** A step that touches at most the files and worker of job `id`, and no mapping. */
  ghost predicate OnlyJob(was: World, now: World, id: nat) {
    && now.mappings == was.mappings && now.nextJob == was.nextJob && now.launches == was.launches
    && now.cleaned == was.cleaned
    && was.nextProcess <= now.nextProcess && now.workers.Keys == was.workers.Keys
    && (forall i: nat :: i != id ==> (i in was.jobs <==> i in now.jobs))
    && (forall i: nat :: i != id && i in was.jobs ==> now.jobs[i] == was.jobs[i])
    && (forall i: nat :: i != id && i in was.workers ==> now.workers[i] == was.workers[i])
    && (id in was.workers ==> now.workers[id].process == was.workers[id].process)
    && (forall p: nat :: p in now.visible ==> p in was.visible || was.nextProcess <= p < now.nextProcess)
    && (forall i: nat :: i in now.workers && !now.workers[i].phase.Done? ==> now.workers[i].process in now.visible)
  }

  /** Of the job itself: it stays sound, and its final status stays. */
  ghost predicate JobKept(was: World, now: World, id: nat) {
    && (id in now.jobs ==> id < was.nextJob && JobSound(now, id))
    && (id in now.workers && id in was.workers ==>
          var child := ChildOf(now.workers[id].phase);
          && PhaseSound(now, id)
          && (child.None? || child == ChildOf(was.workers[id].phase) || child.value >= was.nextProcess))
    && (Known(now, id) ==> Known(was, id))
    && (Final(was, id) && Known(now, id) ==> Final(now, id) && StatusOf(now, id) == StatusOf(was, id))
  }

  lemma OneJobKeeps(was: World, now: World, id: nat)
    requires Sound(was) && OnlyJob(was, now, id) && JobKept(was, now, id)
    ensures Sound(now) && Follows(was, now)
  {
    forall i: nat | i in now.jobs ensures JobSound(now, i) {
      if i != id { assert JobSound(was, i); }
    }
    forall i: nat | Final(was, i) && Known(now, i) ensures Final(now, i) && StatusOf(now, i) == StatusOf(was, i) {
      if i != id { OtherJobKept(was, now, id, i); }
    }
    hide StatusOf, Ended, Terminal, JobSound;
    assert LaunchesSound(now);
  }

  lemma OtherJobKept(was: World, now: World, id: nat, i: nat)
    requires Sound(was) && OnlyJob(was, now, id) && i != id && Final(was, i) && Known(now, i)
    ensures Final(now, i) && StatusOf(now, i) == StatusOf(was, i)
  {
    var job := was.jobs[i];
    assert JobSound(was, i) && now.jobs[i] == job;
  }

  lemma ResultKeeps(w: World, id: nat, s: Status)
    requires Sound(w) && id in w.workers && !w.workers[id].phase.Done?
    ensures OnlyJob(w, WriteResult(w, id, s), id) && JobKept(w, WriteResult(w, id, s), id)
  {
    RunningIsNotFinal(w, id);
    if id in w.jobs { assert JobSound(w, id); }
  }

  lemma FailKeeps(w: World, id: nat)
    requires Sound(w) && id in w.workers && !w.workers[id].phase.Done?
    ensures OnlyJob(w, Fail(w, id), id) && JobKept(w, Fail(w, id), id)
  {
    RunningIsNotFinal(w, id);
    if id in w.jobs { assert JobSound(w, id); }
  }

  /** A job whose worker is still running has no final status. */
  lemma RunningIsNotFinal(w: World, id: nat)
    requires Sound(w) && id in w.workers && !w.workers[id].phase.Done?
    ensures !Final(w, id)
  {
    if id in w.jobs { assert JobSound(w, id); }
  }

  lemma PhaseKeeps(w: World, id: nat, phase: Phase)
    requires Sound(w) && id in w.workers && !w.workers[id].phase.Done?
    requires !phase.Reporting? && (ChildOf(phase).None? || ChildOf(phase) == ChildOf(w.workers[id].phase))
    ensures OnlyJob(w, AtPhase(w, id, phase), id) && JobKept(w, AtPhase(w, id, phase), id)
  {
    RunningIsNotFinal(w, id);
    if id in w.jobs { assert JobSound(w, id); }
  }

  /** Whatever a worker does next, and whenever it dies, no final status changes. */
  lemma WorkerKeeps(w: World, id: nat, e: Event)
    requires Sound(w) && id in w.workers
    ensures Sound(WorkerStep(w, id, e)) && Follows(w, WorkerStep(w, id, e))
  {
    var now := WorkerStep(w, id, e);
    if w.workers[id].phase.Done? {
      FollowsSelf(w);
    } else {
      WorkerTouches(w, id, e);
      OneJobKeeps(w, now, id);
    }
  }

  lemma WorkerTouches(w: World, id: nat, e: Event)
    requires Sound(w) && id in w.workers && !w.workers[id].phase.Done?
    ensures OnlyJob(w, WorkerStep(w, id, e), id) && JobKept(w, WorkerStep(w, id, e), id)
  {
    hide OnlyJob, JobKept, Sound, WriteResult, Fail, AtPhase, JobSound, PhaseSound, Classify;
    StayKeeps(w, id);
    PhaseKeeps(w, id, Done);
    match w.workers[id].phase {
      case Booting =>
        FailKeeps(w, id);
        if id in w.jobs { CommandKeeps(w, id); }
      case Checking =>
        ResultKeeps(w, id, Canceled);
        PhaseKeeps(w, id, Spawning);
      case Spawning =>
        FailKeeps(w, id);
        SpawnKeeps(w, id);
      case Spawned(child) =>
        FailKeeps(w, id);
        if Known(w, id) { ChildKeeps(w, id, child); }
      case Polling(child, canceled, timedOut) =>
        PhaseKeeps(w, id, Polling(child, true, false));
        PhaseKeeps(w, id, Polling(child, false, true));
        if e.Reaped? {
          ClassifyRange(canceled, timedOut, CancelAsked(w, id), e.exit);
          ReapKeeps(w, id, child, Classify(canceled, timedOut, CancelAsked(w, id), e.exit));
        }
      case Reporting(s) =>
        ResultKeeps(w, id, s);
    }
  }

  lemma ClassifyRange(canceled: bool, timedOut: bool, requested: bool, exit: int)
    ensures Classify(canceled, timedOut, requested, exit) in {Completed, Failed, Canceled, TimedOut}
  {
  }

  lemma StayKeeps(w: World, id: nat)
    requires Sound(w) && id in w.workers
    ensures OnlyJob(w, w, id) && JobKept(w, w, id)
  {
  }

  lemma CommandKeeps(w: World, id: nat)
    requires Sound(w) && id in w.workers && !w.workers[id].phase.Done? && id in w.jobs
    ensures var now := AtPhase(w, id, Checking).(jobs := w.jobs[id := w.jobs[id].(command := false)]);
            OnlyJob(w, now, id) && JobKept(w, now, id)
  {
    RunningIsNotFinal(w, id);
    assert JobSound(w, id);
  }

  lemma SpawnKeeps(w: World, id: nat)
    requires Sound(w) && id in w.workers && !w.workers[id].phase.Done?
    ensures var child := w.nextProcess;
            var now := AtPhase(w, id, Spawned(child)).(visible := w.visible + {child}, nextProcess := child + 1);
            OnlyJob(w, now, id) && JobKept(w, now, id)
  {
    RunningIsNotFinal(w, id);
    if id in w.jobs { assert JobSound(w, id); }
  }

  lemma ChildKeeps(w: World, id: nat, child: Process)
    requires Sound(w) && id in w.workers && w.workers[id].phase == Spawned(child)
    requires Known(w, id)
    ensures var meta := w.jobs[id].meta.value.(child := Some(child), status := Running);
            var jobs := w.jobs[id := w.jobs[id].(meta := Some(meta))];
            var now := AtPhase(w, id, Polling(child, false, false)).(jobs := jobs);
            OnlyJob(w, now, id) && JobKept(w, now, id)
  {
    RunningIsNotFinal(w, id);
    assert JobSound(w, id);
  }

  lemma ReapKeeps(w: World, id: nat, child: Process, s: Status)
    requires Sound(w) && id in w.workers && s in {Completed, Failed, Canceled, TimedOut}
    requires ChildOf(w.workers[id].phase) == Some(child)
    ensures var now := AtPhase(w, id, Reporting(s)).(visible := w.visible - {child});
            OnlyJob(w, now, id) && JobKept(w, now, id)
  {
    RunningIsNotFinal(w, id);
    if id in w.jobs { assert JobSound(w, id); }
  }

  lemma VanishKeeps(w: World, p: Process)
    requires Sound(w)
    ensures Sound(Vanish(w, p)) && Follows(w, Vanish(w, p))
  {
  }

  // ------------------------------------------------------- when a status is final

  function WorkerSteps(w: World, id: nat, es: seq<Event>): (r: World)
    requires id in w.workers
    ensures id in r.workers
    decreases |es|
  {
    if es == [] then w else WorkerSteps(WorkerStep(w, id, es[0]), id, es[1..])
  }

  lemma {:induction false} EndedStays(w: World, id: nat, es: seq<Event>)
    requires id in w.workers && w.workers[id].phase.Done?
    ensures WorkerSteps(w, id, es) == w
    decreases |es|
  {
    if es != [] { EndedStays(w, id, es[1..]); }
  }

  /** A worker still running although its job reads as interrupted, because it is not on
      record, goes on to store another, equally terminal status. */
  lemma InterruptedIsNotFinal(w: World, id: nat) returns (es: seq<Event>)
    requires Sound(w) && Known(w, id) && id in w.workers && !w.workers[id].phase.Done?
    requires StatusOf(w, id) == Interrupted
    ensures |es| == 3
    ensures var later := WorkerStep(WorkerStep(WorkerStep(w, id, es[0]), id, es[1]), id, es[2]);
            Known(later, id) && Terminal(StatusOf(later, id)) && StatusOf(later, id) != Interrupted
  {
    match w.workers[id].phase {
      case Booting =>
        es := [Go, Go, SpawnFails];
      case Checking =>
        es := [Go, SpawnFails, Go];
      case Spawning =>
        es := [SpawnFails, Go, Go];
      case Spawned(_) =>
        es := [Go, Reaped(0), Go];
      case Polling(_, _, _) =>
        es := [Reaped(0), Go, Go];
      case Reporting(_) =>
        es := [Go, Go, Go];
    }
  }

  lemma ThreeSteps(w: World, id: nat, es: seq<Event>)
    requires id in w.workers && |es| == 3
    ensures WorkerSteps(w, id, es) == WorkerStep(WorkerStep(WorkerStep(w, id, es[0]), id, es[1]), id, es[2])
  {
    hide WorkerStep;
    var one := WorkerStep(w, id, es[0]);
    var two := WorkerStep(one, id, es[1]);
    assert es[1..][1..][1..] == [] && es[1..][0] == es[1] && es[1..][1..][0] == es[2];
    assert WorkerSteps(two, id, es[1..][1..]) == WorkerSteps(WorkerStep(two, id, es[2]), id, []);
    assert WorkerSteps(one, id, es[1..]) == WorkerSteps(two, id, es[1..][1..]);
  }

  /** The status stays whatever the job's worker still does. */
  ghost predicate Lasts(w: World, id: nat)
    requires Known(w, id)
  {
    id in w.workers ==>
      forall es: seq<Event> ::
        var later := WorkerSteps(w, id, es);
        Known(later, id) && StatusOf(later, id) == StatusOf(w, id)
  }

  /** A terminal status outlasts the job's worker if and only if no worker runs any more. */
  lemma TerminalLastsIff(w: World, id: nat)
    requires Sound(w) && Known(w, id) && Terminal(StatusOf(w, id))
    ensures Lasts(w, id) <==> Ended(w, id)
  {
    if id in w.workers {
      if w.workers[id].phase.Done? {
        forall es: seq<Event> ensures WorkerSteps(w, id, es) == w { EndedStays(w, id, es); }
      } else {
        SoundJob(w, id);
        var es := InterruptedIsNotFinal(w, id);
        ThreeSteps(w, id, es);
        assert StatusOf(WorkerSteps(w, id, es), id) != StatusOf(w, id);
      }
    }
  }
}
