/** What clients of the job server are told and what a job goes through, said of files,
    processes and runs. */
module JobReports {
  import opened Octets
  import opened JobWorld
  import opened DurableJobs

  // ------------------------------------------------------------- what is told

  /** In every run: who asks for a job without metadata is told that there is none; a job with
      a result is told by it; any other by which of its two recorded processes can be seen
      and whether a cancel was asked for. */
  lemma StatusTold(setup: Setup, ops: seq<Op>, replies: seq<Reply>, worlds: seq<World>, i: nat)
    requires Trace(setup, ops, replies, worlds) && i < |ops| && (ops[i].Observe? || ops[i].Cancel?)
    ensures replies[i].Told?
    ensures var jobs, id, told := worlds[i].jobs, ops[i].job, replies[i].seen;
            if id !in jobs || jobs[id].meta.None? then told == Err(UnknownJob)
            else
              var job, visible := jobs[id], worlds[i].visible;
              var worker := job.meta.value.worker.Some? && job.meta.value.worker.value in visible;
              var command := job.meta.value.child.Some? && job.meta.value.child.value in visible;
              && told.Ok?
              && (job.result.Some? ==> told.value == job.result.value)
              && (job.result.None? ==>
                    && (told.value == Running <==> worker && command && !job.cancel)
                    && (told.value == Lost <==> !worker && command && !job.cancel)
                    && (told.value == Starting <==> worker && !command && !job.cancel)
                    && (told.value == CancelRequested <==> (worker || command) && job.cancel)
                    && (told.value == Interrupted <==> !worker && !command))
  {
  }

  /** The world after more operations. */
  function Played(setup: Setup, w: World, ops: seq<Op>): World
    decreases |ops|
  {
    if ops == [] then w else Played(setup, AfterOp(setup, w, ops[0]), ops[1..])
  }

  lemma {:induction false} PlayedAppend(setup: Setup, w: World, a: seq<Op>, b: seq<Op>)
    ensures Played(setup, w, a + b) == Played(setup, Played(setup, w, a), b)
    decreases |a|
  {
    hide AfterOp;
    if a == [] {
      assert a + b == b;
    } else {
      assert (a + b)[1..] == a[1..] + b;
      PlayedAppend(setup, AfterOp(setup, w, a[0]), a[1..], b);
    }
  }

  lemma PlayedOne(setup: Setup, w: World, op: Op)
    ensures Played(setup, w, [op]) == AfterOp(setup, w, op)
  {
    hide AfterOp;
    var none: seq<Op> := [op][1..];
    assert none == [];
  }

  lemma PlayedTwo(setup: Setup, w: World, op: Op, op': Op)
    ensures Played(setup, w, [op, op']) == AfterOp(setup, AfterOp(setup, w, op), op')
  {
    hide AfterOp;
    assert [op, op'] == [op] + [op'];
    PlayedAppend(setup, w, [op], [op']);
    PlayedOne(setup, w, op);
    PlayedOne(setup, AfterOp(setup, w, op), op');
  }

  lemma PlayedThree(setup: Setup, w: World, op: Op, op': Op, op'': Op)
    ensures Played(setup, w, [op, op', op'']) == AfterOp(setup, AfterOp(setup, AfterOp(setup, w, op), op'), op'')
  {
    hide AfterOp;
    assert [op, op', op''] == [op, op'] + [op''];
    PlayedAppend(setup, w, [op, op'], [op'']);
    PlayedTwo(setup, w, op, op');
    PlayedOne(setup, Played(setup, w, [op, op']), op'');
  }

  /** The worlds of a trace are the ones its operations lead to. */
  lemma {:induction false} TraceIsPlayed(setup: Setup, ops: seq<Op>, replies: seq<Reply>, worlds: seq<World>, n: nat)
    requires Trace(setup, ops, replies, worlds) && n <= |ops|
    ensures worlds[n] == Played(setup, EMPTY, ops[..n])
  {
    hide AfterOp, ReplyTo;
    if n > 0 {
      TraceIsPlayed(setup, ops, replies, worlds, n - 1);
      assert ops[..n] == ops[..n - 1] + [ops[n - 1]];
      PlayedAppend(setup, EMPTY, ops[..n - 1], [ops[n - 1]]);
      PlayedOne(setup, worlds[n - 1], ops[n - 1]);
    }
  }

  /** A start whose worker is recorded, and the worker's first four steps. */
  function Booted(fingerprint: string): seq<Op> {
    [Start(None, fingerprint, Launches([]), Survives)] + [Step(0, Go), Step(0, Go)] + [Step(0, Go), Step(0, Go)]
  }

  /** What is told of the first job after a run from the beginning. */
  function Tells(setup: Setup, ops: seq<Op>): Reply {
    ReplyTo(setup, Played(setup, EMPTY, ops), Observe(0))
  }

  /** The only job, its worker and its command. */
  function One(status: Status, child: Option<Process>, result: Option<Status>, cancel: bool, command: bool,
               phase: Phase, visible: set<Process>): World
  {
    World(map[0 := Job(Some(Meta(status, Some(0), child, None)), result, cancel, command)], map[], 1,
          map[0 := Worker(0, phase)], visible, if child.Some? || phase.Spawned? then 2 else 1, [Launch(0, None)], {})
  }

  lemma StartedWorld(setup: Setup, fingerprint: string, launch: Launching)
    requires setup.maxJobs > 0 && launch in {LaunchFails, Launches([])}
    ensures AfterOp(setup, EMPTY, Start(None, fingerprint, launch, Survives)) ==
            if launch.LaunchFails?
            then
              var job := Job(Some(Meta(StartFailed, None, None, None)), Some(StartFailed), false, false);
              EMPTY.(nextJob := 1, jobs := map[0 := job])
            else One(Starting, None, None, false, true, Booting, {0})
  {
    assert ActiveJobs(EMPTY, 0) == {};
    assert ReconciledUpTo(EMPTY, 0) == EMPTY;
    var laid := LaidOut(EMPTY, None, fingerprint, Survives);
    if launch.Launches? {
      var launched := Launched(laid, 0, None);
      assert WorkerSteps(launched, 0, []) == launched;
      assert WorkerRecorded(launched, 0, 0) == One(Starting, None, None, false, true, Booting, {0});
    }
  }

  lemma BootSteps(setup: Setup)
    ensures AfterOp(setup, One(Starting, None, None, false, true, Booting, {0}), Step(0, Go)) ==
            One(Starting, None, None, false, false, Checking, {0})
    ensures AfterOp(setup, One(Starting, None, None, false, false, Checking, {0}), Step(0, Go)) ==
            One(Starting, None, None, false, false, Spawning, {0})
    ensures AfterOp(setup, One(Starting, None, None, false, false, Spawning, {0}), Step(0, Go)) ==
            One(Starting, None, None, false, false, Spawned(1), {0, 1})
    ensures AfterOp(setup, One(Starting, None, None, false, false, Spawned(1), {0, 1}), Step(0, Go)) == Busy()
  {
  }

  /** The worker waits for its command. */
  function Busy(): World {
    One(Running, Some(1), None, false, false, Polling(1, false, false), {0, 1})
  }

  lemma BootedWorld(setup: Setup, fingerprint: string)
    requires setup.maxJobs > 0
    ensures Played(setup, EMPTY, Booted(fingerprint)) == Busy()
  {
    hide AfterOp, Played, One;
    var start, go := [Start(None, fingerprint, Launches([]), Survives)], [Step(0, Go), Step(0, Go)];
    StartedWorld(setup, fingerprint, Launches([]));
    BootSteps(setup);
    PlayedAppend(setup, EMPTY, start + go, go);
    PlayedAppend(setup, EMPTY, start, go);
    PlayedOne(setup, EMPTY, start[0]);
    PlayedTwo(setup, Played(setup, EMPTY, start), Step(0, Go), Step(0, Go));
    PlayedTwo(setup, Played(setup, EMPTY, start + go), Step(0, Go), Step(0, Go));
  }

  /** From there: what each next thing leads to. */
  lemma BusySteps(setup: Setup)
    ensures AfterOp(setup, Busy(), Cancel(0)) ==
            One(Running, Some(1), None, true, false, Polling(1, false, false), {0, 1})
    ensures AfterOp(setup, Busy(), Step(0, Timeout)) ==
            One(Running, Some(1), None, false, false, Polling(1, false, true), {0, 1})
    ensures AfterOp(setup, Busy(), Step(0, Dies)) == One(Running, Some(1), None, false, false, Done, {0, 1})
    ensures AfterOp(setup, One(Running, Some(1), None, false, false, Done, {0, 1}), Gone(0)) ==
            One(Running, Some(1), None, false, false, Done, {1})
    ensures AfterOp(setup, One(Running, Some(1), None, false, false, Done, {1}), Gone(1)) ==
            One(Running, Some(1), None, false, false, Done, {})
  {
    assert {0, 1} - {0} == {1} && {1} - {1} == {};
  }

  /** However the waiting ended, the command's end and one more step store the outcome. */
  lemma EndSteps(setup: Setup, cancel: bool, canceled: bool, timedOut: bool, exit: int, outcome: Status)
    requires outcome == if canceled || (cancel && !timedOut) then Canceled
                        else if timedOut then TimedOut
                        else if exit == 0 then Completed
                        else Failed
    ensures Played(setup, One(Running, Some(1), None, cancel, false, Polling(1, canceled, timedOut), {0, 1}),
                   [Step(0, Reaped(exit)), Step(0, Go)]) ==
            One(outcome, Some(1), Some(outcome), cancel, false, Done, {0})
  {
    hide AfterOp, Played, One;
    var was := One(Running, Some(1), None, cancel, false, Polling(1, canceled, timedOut), {0, 1});
    PlayedTwo(setup, was, Step(0, Reaped(exit)), Step(0, Go));
    ReapStep(setup, cancel, canceled, timedOut, exit, outcome);
    StoreStep(setup, cancel, outcome);
  }

  lemma ReapStep(setup: Setup, cancel: bool, canceled: bool, timedOut: bool, exit: int, outcome: Status)
    requires outcome == if canceled || (cancel && !timedOut) then Canceled
                        else if timedOut then TimedOut
                        else if exit == 0 then Completed
                        else Failed
    ensures AfterOp(setup, One(Running, Some(1), None, cancel, false, Polling(1, canceled, timedOut), {0, 1}),
                    Step(0, Reaped(exit))) ==
            One(Running, Some(1), None, cancel, false, Reporting(outcome), {0})
  {
    assert {0, 1} - {1} == {0};
  }

  lemma StoreStep(setup: Setup, cancel: bool, outcome: Status)
    ensures AfterOp(setup, One(Running, Some(1), None, cancel, false, Reporting(outcome), {0}), Step(0, Go)) ==
            One(outcome, Some(1), Some(outcome), cancel, false, Done, {0})
  {
  }

  lemma ToldAfter(setup: Setup, ops: seq<Op>, more: seq<Op>, w: World, status: Status)
    requires Played(setup, Played(setup, EMPTY, ops), more) == w
    requires ReplyTo(setup, w, Observe(0)) == Told(Ok(status))
    ensures Tells(setup, ops + more) == Told(Ok(status))
  {
    hide Played, ReplyTo;
    PlayedAppend(setup, EMPTY, ops, more);
  }

  /** A run for each of the ten statuses. */
  lemma EachStatusIsTold(setup: Setup, fingerprint: string)
    requires setup.maxJobs > 0
    ensures var up := Booted(fingerprint);
            && Tells(setup, [Start(None, fingerprint, Launches([]), Survives)]) == Told(Ok(Starting))
            && Tells(setup, up) == Told(Ok(Running))
            && Tells(setup, up + [Cancel(0)]) == Told(Ok(CancelRequested))
            && Tells(setup, up + [Step(0, Dies), Gone(0)]) == Told(Ok(Lost))
            && Tells(setup, up + [Step(0, Dies), Gone(0), Gone(1)]) == Told(Ok(Interrupted))
            && Tells(setup, up + [Step(0, Reaped(0)), Step(0, Go)]) == Told(Ok(Completed))
            && Tells(setup, up + [Step(0, Reaped(1)), Step(0, Go)]) == Told(Ok(Failed))
            && Tells(setup, up + [Cancel(0)] + [Step(0, Reaped(0)), Step(0, Go)]) == Told(Ok(Canceled))
            && Tells(setup, up + [Step(0, Timeout)] + [Step(0, Reaped(0)), Step(0, Go)]) == Told(Ok(TimedOut))
            && Tells(setup, [Start(None, fingerprint, LaunchFails, Survives)]) == Told(Ok(StartFailed))
  {
    var up, start := Booted(fingerprint), Start(None, fingerprint, Launches([]), Survives);
    var failing := Start(None, fingerprint, LaunchFails, Survives);
    hide Played, AfterOp;
    BootedWorld(setup, fingerprint);
    BusySteps(setup);
    StartedWorld(setup, fingerprint, Launches([]));
    StartedWorld(setup, fingerprint, LaunchFails);
    PlayedOne(setup, EMPTY, start);
    PlayedOne(setup, EMPTY, failing);
    PlayedOne(setup, Busy(), Cancel(0));
    PlayedOne(setup, Busy(), Step(0, Timeout));
    PlayedTwo(setup, Busy(), Step(0, Dies), Gone(0));
    PlayedThree(setup, Busy(), Step(0, Dies), Gone(0), Gone(1));
    PlayedAppend(setup, EMPTY, up, [Cancel(0)]);
    PlayedAppend(setup, EMPTY, up, [Step(0, Timeout)]);
    EndSteps(setup, false, false, false, 0, Completed);
    EndSteps(setup, false, false, false, 1, Failed);
    EndSteps(setup, true, false, false, 0, Canceled);
    EndSteps(setup, false, false, true, 0, TimedOut);
    ToldAfter(setup, up, [Cancel(0)], AfterOp(setup, Busy(), Cancel(0)), CancelRequested);
    ToldAfter(setup, up, [Step(0, Dies), Gone(0)], One(Running, Some(1), None, false, false, Done, {1}), Lost);
    ToldAfter(setup, up, [Step(0, Dies), Gone(0), Gone(1)], One(Running, Some(1), None, false, false, Done, {}),
              Interrupted);
    var end, failed := [Step(0, Reaped(0)), Step(0, Go)], [Step(0, Reaped(1)), Step(0, Go)];
    ToldAfter(setup, up, end, One(Completed, Some(1), Some(Completed), false, false, Done, {0}), Completed);
    ToldAfter(setup, up, failed, One(Failed, Some(1), Some(Failed), false, false, Done, {0}), Failed);
    ToldAfter(setup, up + [Cancel(0)], end, One(Canceled, Some(1), Some(Canceled), true, false, Done, {0}), Canceled);
    ToldAfter(setup, up + [Step(0, Timeout)], end, One(TimedOut, Some(1), Some(TimedOut), false, false, Done, {0}),
              TimedOut);
  }

  // ------------------------------------------------------------ finished or not

  /** Told by its files and processes: not over yet. */
  predicate Unfinished(w: World, id: nat) {
    && id in w.jobs && w.jobs[id].meta.Some?
    && (if w.jobs[id].result.Some? then w.jobs[id].result.value in {Starting, Running, CancelRequested, Lost}
        else
          var worker, child := w.jobs[id].meta.value.worker, w.jobs[id].meta.value.child;
          (worker.Some? && worker.value in w.visible) || (child.Some? && child.value in w.visible))
  }

  lemma ActiveIff(w: World, id: nat)
    ensures Active(w, id) <==> Unfinished(w, id)
    ensures Known(w, id) ==> (Terminal(StatusOf(w, id)) <==> !Unfinished(w, id))
  {
    if Known(w, id) { OverOrNot(StatusOf(w, id)); }
    hide Terminal;
  }

  lemma OverOrNot(s: Status)
    ensures Terminal(s) <==> s !in {Starting, Running, CancelRequested, Lost}
  {
    match s case Starting => case Running => case CancelRequested => case Lost => case Completed => case Failed =>
    case Canceled => case TimedOut => case Interrupted => case StartFailed =>
  }

  /** What a start is answered, case by case: the key is empty or longer than 256 bytes; it was
      used for another request, for a job that is gone, or for this job; or it is new, and as
      many jobs as allowed are unfinished, or not. */
  lemma StartTold(setup: Setup, w: World, key: Option<string>, fingerprint: string, launch: Launching, dies: StartCrash)
    ensures var told := StartReply(setup, w, key, fingerprint, launch, dies);
            var busy := |set id | 0 <= id < w.nextJob && Unfinished(w, id)|;
            if key.Some? && (key.value == "" || setup.bytesOf(key.value) > 256) then told == Err(InvalidKey)
            else if key.Some? && setup.hashOf(key.value) in w.mappings then
              var m := w.mappings[setup.hashOf(key.value)];
              if m.fingerprint != fingerprint then told == Err(DifferentRequest)
              else if m.job !in w.jobs then told == Err(CleanedUp)
              else if w.jobs[m.job].meta.None? then told == Err(UnknownJob)
              else told.Ok? && told.value.job == m.job && told.value.reused
                   && Observed(w, m.job) == Ok(told.value.status)
            else if busy >= setup.maxJobs then told == Err(TooManyJobs)
            else
              && (told.Ok? ==> told.value == Started(w.nextJob, if launch == LaunchFails then StartFailed else Starting,
                                                     false))
              && (told.Err? ==> told.error == ServerDied)
              && (told.Err? <==> dies in {AfterDirectory, AfterCommand, AfterMetadata, AfterMapping}
                                 || (launch == LaunchFails && dies in {AfterDrop, AfterResult})
                                 || (launch != LaunchFails && dies == AfterLaunch))
  {
    forall id: nat ensures Active(w, id) <==> Unfinished(w, id) { ActiveIff(w, id); }
    hide Unfinished, Active, StatusOf;
    assert (set id | 0 <= id < w.nextJob && Unfinished(w, id)) == ActiveJobs(w, w.nextJob);
  }

  // ----------------------------------------------------------- what a crash leaves

  /** A start stores directory, command, metadata and key in this order, and launches only
      then; a launch that failed takes the command away, stores the result and then notes it. */
  lemma CrashLeaves(w: World, keyHash: Option<string>, fingerprint: string, launch: Launching, dies: StartCrash)
    requires launch in {LaunchFails, Launches([])} && (keyHash.Some? ==> keyHash.value !in w.mappings)
    ensures var id, now := w.nextJob, Created(w, keyHash, fingerprint, launch, dies);
            var early := dies in {AfterDirectory, AfterCommand, AfterMetadata, AfterMapping};
            && id in now.jobs && !now.jobs[id].cancel
            && (now.jobs[id].meta.Some? <==> dies !in {AfterDirectory, AfterCommand})
            && (now.jobs[id].command <==> dies != AfterDirectory && (early || launch != LaunchFails))
            && (keyHash.Some? ==> (keyHash.value in now.mappings <==>
                                   dies !in {AfterDirectory, AfterCommand, AfterMetadata}))
            && (keyHash.Some? && keyHash.value in now.mappings ==>
                  now.mappings[keyHash.value] == Mapping(id, fingerprint, false))
            && now.jobs[id].result == (if launch == LaunchFails && !early && dies != AfterDrop then Some(StartFailed)
                                       else None)
            && (now.jobs[id].meta.Some? ==>
                  now.jobs[id].meta.value ==
                  Meta(if launch == LaunchFails && !early && dies !in {AfterDrop, AfterResult} then StartFailed
                       else Starting,
                       if launch != LaunchFails && !early && dies != AfterLaunch then Some(w.nextProcess) else None,
                       None, keyHash))
            && now.launches == w.launches + (if early || launch == LaunchFails then [] else [Launch(id, keyHash)])
  {
    if launch.Launches? {
      var launched := Launched(LaidOut(w, keyHash, fingerprint, dies), w.nextJob, keyHash);
      assert WorkerSteps(launched, w.nextJob, []) == launched;
    }
  }

  // --------------------------------------------------------------------- the worker

  /** A worker that finds a cancel before it spawns its command never spawns it, and neither does
      one that finds no command. */
  lemma NeverSpawns(w: World, id: nat, e: Event)
    requires id in w.workers && !e.Dies?
    requires || (w.workers[id].phase == Checking && id in w.jobs && w.jobs[id].cancel)
             || (w.workers[id].phase == Booting && (id !in w.jobs || !w.jobs[id].command))
    ensures var now := WorkerStep(w, id, e);
            && now.visible == w.visible && now.nextProcess == w.nextProcess && now.workers[id].phase == Done
            && id in now.jobs
            && now.jobs[id].result == Some(if w.workers[id].phase == Booting then StartFailed else Canceled)
  {
  }

  /** Otherwise it takes the command file away, checks, spawns one process and records it. */
  lemma Spawns(w: World, id: nat)
    requires id in w.workers && w.workers[id].phase == Booting && id in w.jobs && w.jobs[id].command
    requires w.jobs[id].meta.Some? && !w.jobs[id].cancel
    ensures var checking := WorkerStep(w, id, Go);
            var spawning := WorkerStep(checking, id, Go);
            var spawned := WorkerStep(spawning, id, Go);
            var polling := WorkerStep(spawned, id, Go);
            && !checking.jobs[id].command && checking.visible == w.visible == spawning.visible
            && spawned.visible == w.visible + {w.nextProcess} == polling.visible
            && polling.jobs[id].meta.value.child == Some(w.nextProcess)
            && polling.workers[id].phase == Polling(w.nextProcess, false, false)
  {
  }

  /** While it waits, the cancel comes before the timeout, and the first to come counts. */
  lemma Waits(w: World, id: nat, e: Event)
    requires id in w.workers && w.workers[id].phase.Polling? && e in {Go, Timeout, SpawnFails}
    ensures var was, now := w.workers[id].phase, WorkerStep(w, id, e).workers[id].phase;
            && now.Polling? && now.child == was.child
            && WorkerStep(w, id, e) == w.(workers := w.workers[id := w.workers[id].(phase := now)])
            && (was.canceled || was.timedOut ==> now == was)
            && (!was.canceled && !was.timedOut ==>
                  && (now.canceled <==> id in w.jobs && w.jobs[id].cancel)
                  && (now.timedOut <==> !now.canceled && e == Timeout))
  {
    assert w.workers[id := w.workers[id]] == w.workers;
  }

  /** Once its command has ended it stores what became of it: canceled if it had seen the
      cancel, or sees it now and did not time out; timed out if it had; otherwise the exit code
      decides. */
  lemma Stores(w: World, id: nat, exit: int)
    requires id in w.workers && w.workers[id].phase.Polling?
    ensures var phase, now := w.workers[id].phase, WorkerStep(WorkerStep(w, id, Reaped(exit)), id, Go);
            var canceled := phase.canceled || (id in w.jobs && w.jobs[id].cancel && !phase.timedOut);
            && id in now.jobs && now.jobs[id].result.Some? && now.workers[id].phase == Done
            && now.visible == w.visible - {phase.child}
            && var stored := now.jobs[id].result.value;
               && (stored == Canceled <==> canceled)
               && (stored == TimedOut <==> phase.timedOut && !canceled)
               && (stored == Completed <==> !canceled && !phase.timedOut && exit == 0)
               && (stored == Failed <==> !canceled && !phase.timedOut && exit != 0)
  {
  }

  // ---------------------------------------------------------------- looking, cleaning

  /** Looking at a job changes nothing unless it has no result and neither of its processes can
      be seen; then its command goes and its metadata say interrupted, if they did not say
      before that it is over. */
  lemma LookNotes(w: World, id: nat)
    ensures var now := Reconciled(w, id);
            if id in w.jobs && w.jobs[id].meta.Some? && w.jobs[id].result.None? && !Unfinished(w, id) then
              var job, meta := w.jobs[id], w.jobs[id].meta.value;
              var over := meta.status !in {Starting, Running, CancelRequested, Lost};
              now == w.(jobs := w.jobs[id :=
                Job(Some(meta.(status := if over then meta.status else Interrupted)), None, job.cancel, false)])
            else now == w
  {
    if id in w.jobs && w.jobs[id].meta.Some? { OverOrNot(w.jobs[id].meta.value.status); }
    hide Terminal;
  }

  /** A cancel marks an unfinished job and nothing else. */
  lemma CancelMarks(w: World, id: nat)
    ensures Unfinished(w, id) ==> AfterCancel(w, id) == w.(jobs := w.jobs[id := w.jobs[id].(cancel := true)])
    ensures !Unfinished(w, id) ==> AfterCancel(w, id) == Reconciled(w, id)
  {
    ActiveIff(w, id);
    LookNotes(w, id);
    hide Active, Reconciled;
  }

  /** A cleanup of a finished job turns its key into a tombstone first, so that whatever the
      server leaves of the directory when it dies, the key starts nothing again. */
  lemma CleanupLeaves(w: World, id: nat, dies: CleanupCrash)
    requires id in w.jobs && w.jobs[id].meta.Some? && !Unfinished(w, id)
    ensures var now, seen := AfterCleanup(w, id, dies), Reconciled(w, id);
            var key := w.jobs[id].meta.value.keyHash;
            && id in seen.jobs && id in now.cleaned
            && (key.Some? && key.value in w.mappings && w.mappings[key.value].job == id ==>
                  now.mappings == w.mappings[key.value := w.mappings[key.value].(tombstone := true)])
            && (!(key.Some? && key.value in w.mappings && w.mappings[key.value].job == id) ==>
                  now.mappings == w.mappings)
            && (id in now.jobs <==> dies != Completes)
            && (dies == AfterTombstone ==> now.jobs == seen.jobs)
            && (dies.MidRemoval? ==>
                  now.jobs[id] == Job(if dies.keepsMeta then seen.jobs[id].meta else None,
                                      if dies.keepsResult then seen.jobs[id].result else None,
                                      dies.keepsCancel && seen.jobs[id].cancel, false))
  {
    ActiveIff(w, id);
    ReconciledRefreshes(w, id);
    RefreshedStatus(w, Reconciled(w, id));
    RefreshedCounters(w, Reconciled(w, id));
    assert SameFiles(w.jobs[id], Reconciled(w, id).jobs[id]);
    hide Terminal, StatusOf, Reconciled, Active;
  }
}
