/** The job server: starting, observing, canceling, cleaning up and recovering durable
    jobs, with a crash possible between any two things it stores. */
module DurableJobs {
  import opened Octets
  import opened JobWorld

  datatype JobError = UnknownJob | InvalidKey | DifferentRequest | CleanedUp | TooManyJobs | StillActive | ServerDied

  datatype Started = Started(job: nat, status: Status, reused: bool)

  /** Where the server dies while starting a job; `AfterDrop` and `AfterResult` are only
      passed when the launch failed, `AfterLaunch` only when it did not. */
  datatype StartCrash =
    | Survives | AfterDirectory | AfterCommand | AfterMetadata | AfterMapping | AfterDrop | AfterResult | AfterLaunch

  /** Where it dies while cleaning one up, and which files are still there then. */
  datatype CleanupCrash = Completes | AfterTombstone | MidRemoval(keepsMeta: bool, keepsResult: bool, keepsCancel: bool)

  /** How the launch of a worker goes: it fails, or the worker takes some steps before the
      server records it. */
  datatype Launching = LaunchFails | Launches(early: seq<Event>)

  const MAX_KEY_BYTES := 256

  /** The limit on active jobs, the hash that names a key's mapping file, and a key's
      encoded length. */
  datatype Setup = Setup(maxJobs: nat, hashOf: string -> string, bytesOf: string -> nat)

  predicate KeyRefused(setup: Setup, key: Option<string>) {
    key.Some? && (key.value == "" || setup.bytesOf(key.value) > MAX_KEY_BYTES)
  }

  function HashOf(setup: Setup, key: Option<string>): Option<string> {
    if key.Some? then Some(setup.hashOf(key.value)) else None
  }

  // ------------------------------------------------------------- observing a job

  /** A job found interrupted is noted as such and loses its command, so that it can never
      be replayed; looking at any other job changes nothing. */
  function Reconciled(w: World, id: nat): World {
    if Known(w, id) && w.jobs[id].result.None? && StatusOf(w, id) == Interrupted then
      var meta := w.jobs[id].meta.value;
      var noted := if Terminal(meta.status) then meta else meta.(status := Interrupted);
      w.(jobs := w.jobs[id := w.jobs[id].(meta := Some(noted), command := false)])
    else w
  }

  /** Every job below `n` looked at. */
  function ReconciledUpTo(w: World, n: nat): World {
    if n == 0 then w else Reconciled(ReconciledUpTo(w, n - 1), n - 1)
  }

  function Observed(w: World, id: nat): Result<Status, JobError> {
    if Known(w, id) then Ok(StatusOf(w, id)) else Err(UnknownJob)
  }

  /** Observing may note that a job was interrupted and drop its command, nothing else. */
  ghost predicate Refreshed(was: World, now: World) {
    && now == was.(jobs := now.jobs)
    && (forall id: nat :: id in now.jobs <==> id in was.jobs)
    && (forall id: nat :: id in was.jobs ==> SameFiles(was.jobs[id], now.jobs[id]))
  }

  predicate SameFiles(was: Job, now: Job) {
    && now.result == was.result && now.cancel == was.cancel && (now.command ==> was.command)
    && (now.meta.Some? <==> was.meta.Some?)
    && (was.meta.Some? ==> now.meta.value == was.meta.value.(status := now.meta.value.status))
  }

  lemma ReconciledRefreshes(w: World, id: nat)
    ensures Refreshed(w, Reconciled(w, id))
  {
  }

  lemma {:induction false} UpToRefreshes(w: World, n: nat)
    ensures Refreshed(w, ReconciledUpTo(w, n))
  {
    hide Refreshed, Reconciled;
    if n == 0 {
      RefreshedSelf(w);
    } else {
      UpToRefreshes(w, n - 1);
      ReconciledRefreshes(ReconciledUpTo(w, n - 1), n - 1);
      RefreshedChain(w, ReconciledUpTo(w, n - 1), ReconciledUpTo(w, n));
    }
  }

  lemma RefreshedKeeps(was: World, now: World)
    requires Sound(was) && Refreshed(was, now)
    ensures Sound(now) && Follows(was, now)
  {
    RefreshedStatus(was, now);
    forall id: nat | id in now.jobs ensures JobSound(now, id) {
      assert JobSound(was, id) && SameFiles(was.jobs[id], now.jobs[id]);
    }
    hide StatusOf;
  }

  lemma RefreshedStatus(was: World, now: World)
    requires Refreshed(was, now)
    ensures forall id: nat :: Known(now, id) <==> Known(was, id)
    ensures forall id: nat :: Known(was, id) ==> StatusOf(now, id) == StatusOf(was, id)
  {
    forall id: nat | Known(was, id) ensures Known(now, id) && StatusOf(now, id) == StatusOf(was, id) {
      assert SameFiles(was.jobs[id], now.jobs[id]);
    }
    hide StatusOf;
    forall id: nat | Known(now, id) ensures Known(was, id) {
      assert SameFiles(was.jobs[id], now.jobs[id]);
    }
  }

  lemma RefreshedChain(a: World, b: World, c: World)
    requires Refreshed(a, b) && Refreshed(b, c)
    ensures Refreshed(a, c)
  {
    forall id: nat | id in a.jobs ensures SameFiles(a.jobs[id], c.jobs[id]) {
      assert SameFiles(a.jobs[id], b.jobs[id]) && SameFiles(b.jobs[id], c.jobs[id]);
    }
  }

  lemma RefreshedSelf(w: World)
    ensures Refreshed(w, w)
  {
  }

  predicate Active(w: World, id: nat) {
    Known(w, id) && !Terminal(StatusOf(w, id))
  }

  function ActiveJobs(w: World, n: nat): set<nat> {
    set id | 0 <= id < n && Active(w, id)
  }

  lemma ActiveStep(w: World, n: nat)
    ensures ActiveJobs(w, n + 1) == if Active(w, n) then ActiveJobs(w, n) + {n} else ActiveJobs(w, n)
    ensures n !in ActiveJobs(w, n) && ActiveJobs(w, 0) == {}
  {
    hide Active;
  }

  // ---------------------------------------------------------------- one new job

  /** What is stored before the launch: directory, command, metadata, then the key. */
  function LaidOut(w: World, keyHash: Option<string>, fingerprint: string, dies: StartCrash): World {
    var id := w.nextJob;
    var job := Job(if dies in {AfterDirectory, AfterCommand} then None else Some(Meta(Starting, None, None, keyHash)),
                   None, false, dies != AfterDirectory);
    var mapped := keyHash.Some? && dies !in {AfterDirectory, AfterCommand, AfterMetadata};
    w.(nextJob := id + 1, jobs := w.jobs[id := job],
       mappings := if mapped then w.mappings[keyHash.value := Mapping(id, fingerprint, false)] else w.mappings)
  }

  /** A launch that failed: the command goes, the result comes, then the metadata follows. */
  function LaunchFailed(w: World, id: nat, dies: StartCrash): World
    requires Known(w, id)
  {
    var job := w.jobs[id];
    var failed := Some(job.meta.value.(status := StartFailed));
    w.(jobs := w.jobs[id := Job(if dies in {AfterDrop, AfterResult} then job.meta else failed,
                                if dies == AfterDrop then job.result else Some(StartFailed), job.cancel, false)])
  }

  function Launched(w: World, id: nat, keyHash: Option<string>): (r: World)
    ensures id in r.workers
  {
    w.(nextProcess := w.nextProcess + 1, visible := w.visible + {w.nextProcess},
       workers := w.workers[id := Worker(w.nextProcess, Booting)], launches := w.launches + [Launch(id, keyHash)])
  }

  function WorkerRecorded(w: World, id: nat, process: Process): World {
    if Known(w, id) then
      w.(jobs := w.jobs[id := w.jobs[id].(meta := Some(w.jobs[id].meta.value.(worker := Some(process))))])
    else w
  }

  predicate DiesEarly(dies: StartCrash) {
    dies in {AfterDirectory, AfterCommand, AfterMetadata, AfterMapping}
  }

  /** Everything a start does once it has decided for a new job. */
  function Created(w: World, keyHash: Option<string>, fingerprint: string, launch: Launching, dies: StartCrash): World {
    var id := w.nextJob;
    var laid := LaidOut(w, keyHash, fingerprint, dies);
    if DiesEarly(dies) then laid
    else match launch
      case LaunchFails => LaunchFailed(laid, id, dies)
      case Launches(early) =>
        var running := WorkerSteps(Launched(laid, id, keyHash), id, early);
        if dies == AfterLaunch then running else WorkerRecorded(running, id, w.nextProcess)
  }

  function CreateReply(w: World, launch: Launching, dies: StartCrash): Result<Started, JobError> {
    if DiesEarly(dies) || (if launch.LaunchFails? then dies in {AfterDrop, AfterResult} else dies == AfterLaunch)
    then Err(ServerDied)
    else Ok(Started(w.nextJob, if launch.LaunchFails? then StartFailed else Starting, false))
  }

  /** What a start leaves: the mapping, if any, is new, and a launched worker is launched for
      the new job alone, whatever it has done since. */
  ghost predicate Creates(was: World, now: World, keyHash: Option<string>) {
    var id := was.nextJob;
    && now.nextJob == id + 1 && now.cleaned == was.cleaned && was.nextProcess <= now.nextProcess
    && (keyHash.Some? ==> keyHash.value !in was.mappings)
    && id in now.jobs && now.jobs == was.jobs[id := now.jobs[id]] && JobSound(now, id)
    && (now.mappings == was.mappings
        || (keyHash.Some? && keyHash.value in now.mappings && now.mappings[keyHash.value].job == id
            && now.mappings == was.mappings[keyHash.value := now.mappings[keyHash.value]]))
    && (forall p: nat :: p in now.visible ==> p in was.visible || was.nextProcess <= p < now.nextProcess)
    && (forall i: nat :: i in now.workers && !now.workers[i].phase.Done? ==> now.workers[i].process in now.visible)
    && (if now.launches == was.launches then now.workers == was.workers
        else
          && now.launches == was.launches + [Launch(id, keyHash)]
          && (keyHash.Some? ==> keyHash.value in now.mappings && now.mappings[keyHash.value].job == id)
          && id in now.workers && now.workers == was.workers[id := now.workers[id]] && OwnWorker(was, now))
  }

  /** The new job's worker is a new process, and so is what it started. */
  predicate OwnWorker(was: World, now: World)
    requires was.nextJob in now.workers
  {
    var worker := now.workers[was.nextJob];
    && worker.process == was.nextProcess < now.nextProcess && PhaseSound(now, was.nextJob)
    && (ChildOf(worker.phase).Some? ==> ChildOf(worker.phase).value > was.nextProcess)
  }

  lemma CreatesKeeps(was: World, now: World, keyHash: Option<string>)
    requires Sound(was) && Creates(was, now, keyHash)
    ensures Sound(now) && Follows(was, now)
  {
    var id := was.nextJob;
    CreatedJobs(was, now, keyHash);
    CreatedLaunches(was, now, keyHash);
    forall i: nat | Final(was, i) && Known(now, i) && i !in now.cleaned
      ensures Final(now, i) && StatusOf(now, i) == StatusOf(was, i)
    {
      OldJobKept(was, now, keyHash, i);
    }
    hide StatusOf, Ended, Terminal, JobSound, LaunchesSound;
  }

  lemma CreatedJobs(was: World, now: World, keyHash: Option<string>)
    requires Sound(was) && Creates(was, now, keyHash)
    ensures forall i: nat :: i in now.jobs ==> JobSound(now, i)
    ensures forall i: nat :: i != was.nextJob && i in now.jobs ==> i in was.jobs && now.jobs[i] == was.jobs[i]
    ensures was.nextJob !in was.workers && was.nextJob !in was.jobs
    ensures Apart(now)
  {
    forall i: nat | i in now.jobs ensures JobSound(now, i) {
      if i != was.nextJob { assert JobSound(was, i); }
    }
    assert was.nextJob in was.jobs ==> JobSound(was, was.nextJob);
    hide JobSound, LaunchesSound;
    forall i, j | i in now.workers && j in now.workers
      ensures ChildOf(now.workers[i].phase) != Some(now.workers[j].process)
    {
      assert i in was.workers ==> PhaseSound(was, i);
    }
  }

  lemma CreatedLaunches(was: World, now: World, keyHash: Option<string>)
    requires Sound(was) && Creates(was, now, keyHash)
    ensures LaunchesSound(now)
  {
    hide JobSound, Apart, PhaseSound;
    assert was.nextJob !in was.workers;
  }

  lemma OldJobKept(was: World, now: World, keyHash: Option<string>, i: nat)
    requires Sound(was) && Creates(was, now, keyHash) && Final(was, i) && Known(now, i)
    ensures Final(now, i) && StatusOf(now, i) == StatusOf(was, i)
  {
    assert JobSound(was, i);
  }

  lemma NoWorkerYet(w: World)
    requires Sound(w)
    ensures w.nextJob !in w.workers && w.nextJob !in w.jobs
  {
    assert w.nextJob in w.jobs ==> JobSound(w, w.nextJob);
  }

  lemma CreatedCreates(w: World, keyHash: Option<string>, fingerprint: string, launch: Launching, dies: StartCrash)
    requires Sound(w) && (keyHash.Some? ==> keyHash.value !in w.mappings)
    ensures Creates(w, Created(w, keyHash, fingerprint, launch, dies), keyHash)
  {
    hide Creates;
    var laid := LaidOut(w, keyHash, fingerprint, dies);
    if DiesEarly(dies) || launch.LaunchFails? {
      hide WorkerSteps;
      NotLaunched(w, Created(w, keyHash, fingerprint, launch, dies), keyHash, fingerprint, dies);
    } else {
      var start := Launched(laid, w.nextJob, keyHash);
      JustLaunched(w, start, keyHash);
      EarlySteps(w, start, keyHash, launch.early);
      RecordKeeps(w, WorkerSteps(start, w.nextJob, launch.early), keyHash);
    }
  }

  lemma NotLaunched(was: World, now: World, keyHash: Option<string>, fingerprint: string, dies: StartCrash)
    requires Sound(was) && (keyHash.Some? ==> keyHash.value !in was.mappings)
    requires var laid := LaidOut(was, keyHash, fingerprint, dies);
             now == laid || (!DiesEarly(dies) && now == LaunchFailed(laid, was.nextJob, dies))
    ensures Creates(was, now, keyHash)
  {
    NoWorkerYet(was);
    hide LaunchesSound, Apart;
  }

  lemma JustLaunched(was: World, now: World, keyHash: Option<string>)
    requires Sound(was) && (keyHash.Some? ==> keyHash.value !in was.mappings)
    requires exists fingerprint, dies ::
               !DiesEarly(dies) && now == Launched(LaidOut(was, keyHash, fingerprint, dies), was.nextJob, keyHash)
    ensures Creates(was, now, keyHash) && |now.launches| > |was.launches|
  {
    NoWorkerYet(was);
    hide LaunchesSound, Apart;
    assert |now.launches| == |was.launches| + 1;
  }

  /** Whatever the new worker does before it is on record stays within the new job. */
  lemma {:induction false} EarlySteps(was: World, now: World, keyHash: Option<string>, early: seq<Event>)
    requires Sound(was) && Creates(was, now, keyHash) && |now.launches| > |was.launches|
    ensures var later := WorkerSteps(now, was.nextJob, early);
            Creates(was, later, keyHash) && |later.launches| > |was.launches|
    decreases |early|
  {
    hide Sound, WorkerStep, JobSound;
    if early != [] {
      EarlyStep(was, now, keyHash, early[0]);
      EarlySteps(was, WorkerStep(now, was.nextJob, early[0]), keyHash, early[1..]);
    }
  }

  lemma EarlyStep(was: World, now: World, keyHash: Option<string>, e: Event)
    requires Sound(was) && Creates(was, now, keyHash) && |now.launches| > |was.launches|
    ensures var later := WorkerStep(now, was.nextJob, e);
            Creates(was, later, keyHash) && |later.launches| > |was.launches|
  {
    CreatesKeeps(was, now, keyHash);
    LaunchedParts(was, now, keyHash);
    hide Sound, WorkerStep, Creates, OnlyJob, JobKept;
    if !now.workers[was.nextJob].phase.Done? {
      WorkerTouches(now, was.nextJob, e);
      JobStays(now, was.nextJob, e);
      StillCreates(was, now, WorkerStep(now, was.nextJob, e), keyHash);
    } else {
      DoneStays(now, was.nextJob, e);
    }
  }

  lemma LaunchedParts(was: World, now: World, keyHash: Option<string>)
    requires Creates(was, now, keyHash) && |now.launches| > |was.launches|
    ensures was.nextJob in now.workers && was.nextJob in now.jobs
  {
  }

  lemma DoneStays(w: World, id: nat, e: Event)
    requires id in w.workers && w.workers[id].phase.Done?
    ensures WorkerStep(w, id, e) == w
  {
  }

  /** A step within the new job. */
  lemma StillCreates(was: World, now: World, later: World, keyHash: Option<string>)
    requires Creates(was, now, keyHash) && |now.launches| > |was.launches|
    requires OnlyJob(now, later, was.nextJob) && JobKept(now, later, was.nextJob) && was.nextJob in later.jobs
    ensures Creates(was, later, keyHash) && |later.launches| > |was.launches|
  {
    hide JobSound, PhaseSound, Final, ChildOf;
    var id := was.nextJob;
    assert id in later.workers.Keys;
    SameElsewhere(was.jobs, now.jobs, later.jobs, id);
    assert forall i: nat :: i in now.workers <==> i in later.workers by {
      assert now.workers.Keys == later.workers.Keys;
    }
    SameElsewhere(was.workers, now.workers, later.workers, id);
  }

  lemma SameElsewhere<T>(a: map<nat, T>, b: map<nat, T>, c: map<nat, T>, k: nat)
    requires k in b && k in c && b == a[k := b[k]]
    requires forall i: nat :: i != k ==> (i in b <==> i in c)
    requires forall i: nat :: i != k && i in b ==> c[i] == b[i]
    ensures c == a[k := c[k]]
  {
  }

  lemma JobStays(w: World, id: nat, e: Event)
    requires id in w.workers && id in w.jobs
    ensures id in WorkerStep(w, id, e).jobs
  {
  }

  lemma RecordKeeps(was: World, now: World, keyHash: Option<string>)
    requires Sound(was) && Creates(was, now, keyHash) && |now.launches| > |was.launches|
    ensures Creates(was, WorkerRecorded(now, was.nextJob, was.nextProcess), keyHash)
  {
    hide Sound;
    var id := was.nextJob;
    var later := WorkerRecorded(now, id, was.nextProcess);
    SameElsewhere(was.jobs, now.jobs, later.jobs, id);
  }

  // ------------------------------------------------- what each request comes to

  /** A key that was used before never starts anything again: the same request gets the job
      it started, unless that was cleaned up, and any other request is refused. */
  function AfterStart(setup: Setup, w: World, key: Option<string>, fingerprint: string, launch: Launching,
                      dies: StartCrash): World {
    var keyHash := HashOf(setup, key);
    if KeyRefused(setup, key) then w
    else if key.Some? && keyHash.value in w.mappings then
      var m := w.mappings[keyHash.value];
      if m.fingerprint == fingerprint then Reconciled(w, m.job) else w
    else
      var seen := ReconciledUpTo(w, w.nextJob);
      if |ActiveJobs(w, w.nextJob)| >= setup.maxJobs then seen else Created(seen, keyHash, fingerprint, launch, dies)
  }

  function StartReply(setup: Setup, w: World, key: Option<string>, fingerprint: string, launch: Launching,
                      dies: StartCrash)
    : Result<Started, JobError>
  {
    var keyHash := HashOf(setup, key);
    if KeyRefused(setup, key) then Err(InvalidKey)
    else if key.Some? && keyHash.value in w.mappings then
      var m := w.mappings[keyHash.value];
      if m.fingerprint != fingerprint then Err(DifferentRequest)
      else if m.job !in w.jobs then Err(CleanedUp)
      else if !Known(w, m.job) then Err(UnknownJob)
      else Ok(Started(m.job, StatusOf(w, m.job), true))
    else if |ActiveJobs(w, w.nextJob)| >= setup.maxJobs then Err(TooManyJobs)
    else CreateReply(w, launch, dies)
  }

  /** A cancel leaves the durable marker unless the job is over already. */
  function AfterCancel(w: World, id: nat): World {
    var seen := Reconciled(w, id);
    if Active(w, id) && id in seen.jobs then seen.(jobs := seen.jobs[id := seen.jobs[id].(cancel := true)]) else seen
  }

  /** A removal begun: the key stays behind as a tombstone. */
  function Cleaned(w: World, id: nat, dies: CleanupCrash): World
    requires Known(w, id)
  {
    var job := w.jobs[id];
    var keyHash := job.meta.value.keyHash;
    var mappings :=
      if keyHash.Some? && keyHash.value in w.mappings && w.mappings[keyHash.value].job == id
      then w.mappings[keyHash.value := w.mappings[keyHash.value].(tombstone := true)] else w.mappings;
    var jobs :=
      match dies
      case Completes => w.jobs - {id}
      case AfterTombstone => w.jobs
      case MidRemoval(keepsMeta, keepsResult, keepsCancel) =>
        w.jobs[id := Job(if keepsMeta then job.meta else None, if keepsResult then job.result else None,
                         keepsCancel && job.cancel, false)];
    w.(jobs := jobs, mappings := mappings, cleaned := w.cleaned + {id})
  }

  function AfterCleanup(w: World, id: nat, dies: CleanupCrash): World {
    var seen := Reconciled(w, id);
    if Known(w, id) && Terminal(StatusOf(w, id)) && Known(seen, id) then Cleaned(seen, id, dies) else seen
  }

  function CleanupReply(w: World, id: nat, dies: CleanupCrash): Result<bool, JobError> {
    if id !in w.jobs then Ok(false)
    else if !Known(w, id) then Err(UnknownJob)
    else if !Terminal(StatusOf(w, id)) then Err(StillActive)
    else if dies.Completes? then Ok(true)
    else Err(ServerDied)
  }

  /** At startup: every job below `n` is looked at, and cleaned up if it finished long ago. */
  function RecoveredUpTo(w: World, expired: set<nat>, n: nat): World {
    if n == 0 then w
    else
      var done, id := RecoveredUpTo(w, expired, n - 1), n - 1;
      if Known(done, id) && Terminal(StatusOf(done, id)) && id in expired
      then AfterCleanup(Reconciled(done, id), id, Completes) else Reconciled(done, id)
  }

  lemma CancelKeeps(w: World, id: nat)
    requires Sound(w)
    ensures Sound(AfterCancel(w, id)) && Follows(w, AfterCancel(w, id))
  {
    var seen := Reconciled(w, id);
    ReconciledRefreshes(w, id);
    RefreshedKeeps(w, seen);
    RefreshedStatus(w, seen);
    if Active(w, id) && id in seen.jobs {
      MarkKeeps(seen, id);
      FollowsChain(w, seen, AfterCancel(w, id));
    }
  }

  lemma MarkKeeps(w: World, id: nat)
    requires Sound(w) && Known(w, id) && !Terminal(StatusOf(w, id))
    ensures var now := w.(jobs := w.jobs[id := w.jobs[id].(cancel := true)]); Sound(now) && Follows(w, now)
  {
    var now := w.(jobs := w.jobs[id := w.jobs[id].(cancel := true)]);
    assert JobSound(w, id);
    hide Follows, StatusOf, LaunchesSound, Apart;
    OneJobKeeps(w, now, id);
  }

  lemma CleanupKeeps(w: World, id: nat, dies: CleanupCrash)
    requires Sound(w)
    ensures Sound(AfterCleanup(w, id, dies)) && Follows(w, AfterCleanup(w, id, dies))
  {
    hide Sound, Follows, Reconciled, Refreshed, Cleaned, StatusOf, Terminal;
    var seen := Reconciled(w, id);
    ReconciledRefreshes(w, id);
    RefreshedKeeps(w, seen);
    if Known(w, id) && Terminal(StatusOf(w, id)) && Known(seen, id) {
      CleanedKeeps(seen, id, dies);
      FollowsChain(w, seen, AfterCleanup(w, id, dies));
    }
  }

  lemma CleanedKeeps(w: World, id: nat, dies: CleanupCrash)
    requires Sound(w) && Known(w, id)
    ensures Sound(Cleaned(w, id, dies)) && Follows(w, Cleaned(w, id, dies))
  {
    var now := Cleaned(w, id, dies);
    assert id in w.jobs;
    forall i: nat | i in now.jobs ensures JobSound(now, i) {
      assert JobSound(w, i);
    }
    forall i: nat | Final(w, i) && Known(now, i) && i !in now.cleaned
      ensures Final(now, i) && StatusOf(now, i) == StatusOf(w, i)
    {
      assert now.jobs[i] == w.jobs[i];
    }
    hide StatusOf, Ended, Terminal, JobSound;
  }

  lemma {:induction false} RecoverKeeps(w: World, expired: set<nat>, n: nat)
    requires Sound(w)
    ensures Sound(RecoveredUpTo(w, expired, n)) && Follows(w, RecoveredUpTo(w, expired, n))
  {
    hide Sound, Follows, Reconciled, Refreshed, AfterCleanup, StatusOf, Terminal;
    if n == 0 {
      FollowsSelf(w);
    } else {
      RecoverKeeps(w, expired, n - 1);
      var done := RecoveredUpTo(w, expired, n - 1);
      var seen := Reconciled(done, n - 1);
      ReconciledRefreshes(done, n - 1);
      RefreshedKeeps(done, seen);
      FollowsChain(w, done, seen);
      CleanupKeeps(seen, n - 1, Completes);
      FollowsChain(w, seen, AfterCleanup(seen, n - 1, Completes));
    }
  }

  /** What recovery makes of one job. */
  ghost predicate RecoveredJob(w: World, expired: set<nat>, now: World, id: nat) {
    if Known(w, id) && Terminal(StatusOf(w, id)) && id in expired then id !in now.jobs
    else
      && (id in now.jobs <==> id in w.jobs)
      && (Known(w, id) ==>
            && Known(now, id) && StatusOf(now, id) == StatusOf(w, id)
            && (w.jobs[id].result.None? && StatusOf(w, id) == Interrupted ==>
                  !now.jobs[id].command && Terminal(now.jobs[id].meta.value.status)))
      && (id in w.jobs && w.jobs[id].meta.None? ==> now.jobs[id] == w.jobs[id])
  }

  /** Recovery removes exactly the finished jobs whose time is up, notes every interrupted
      one and takes its command away, and launches or ends nothing. */
  lemma {:induction false} RecoveryDoes(w: World, expired: set<nat>, n: nat)
    ensures var now := RecoveredUpTo(w, expired, n);
            && now == w.(jobs := now.jobs, mappings := now.mappings, cleaned := now.cleaned)
            && (forall id: nat :: id < n ==> RecoveredJob(w, expired, now, id))
            && (forall id: nat :: id >= n ==> SameJob(w, now, id))
  {
    hide RecoveredJob, Known, StatusOf, Terminal, AfterCleanup, Reconciled;
    if n > 0 {
      RecoveryDoes(w, expired, n - 1);
      var done := RecoveredUpTo(w, expired, n - 1);
      OneRecovered(done, expired, n - 1);
      var now := RecoveredUpTo(w, expired, n);
      assert SameJob(w, done, n - 1);
      forall id: nat | id >= n ensures SameJob(w, now, id) {
        assert SameJob(w, done, id) && SameJob(done, now, id);
      }
      forall id: nat | id < n ensures RecoveredJob(w, expired, now, id) {
        if id < n - 1 {
          assert RecoveredJob(w, expired, done, id) && SameJob(done, now, id);
          SameRecovered(w, w, expired, done, now, id);
        } else {
          SameRecovered(done, w, expired, now, now, id);
        }
      }
    }
  }

  predicate SameJob(a: World, b: World, id: nat) {
    a.visible == b.visible && (id in a.jobs <==> id in b.jobs) && (id in a.jobs ==> a.jobs[id] == b.jobs[id])
  }

  lemma SameRecovered(w: World, w': World, expired: set<nat>, now: World, now': World, id: nat)
    requires RecoveredJob(w, expired, now, id) && SameJob(w, w', id) && SameJob(now, now', id)
    ensures RecoveredJob(w', expired, now', id)
  {
  }

  lemma OneRecovered(w: World, expired: set<nat>, id: nat)
    ensures var now := if Known(w, id) && Terminal(StatusOf(w, id)) && id in expired
                       then AfterCleanup(Reconciled(w, id), id, Completes) else Reconciled(w, id);
            && now == w.(jobs := now.jobs, mappings := now.mappings, cleaned := now.cleaned)
            && RecoveredJob(w, expired, now, id)
            && (forall i: nat :: i != id ==> SameJob(w, now, i))
  {
    var seen := Reconciled(w, id);
    ReconciledRefreshes(w, id);
    RefreshedStatus(w, seen);
    ReconciledRefreshes(seen, id);
    RefreshedStatus(seen, Reconciled(seen, id));
  }

  /** A removal is confirmed exactly when a finished job is gone for good; it touches no other
      job and forgets no key. */
  lemma CleanupDoes(w: World, id: nat, dies: CleanupCrash)
    ensures var now, finished := AfterCleanup(w, id, dies), Known(w, id) && Terminal(StatusOf(w, id));
            && (CleanupReply(w, id, dies) == Ok(true) <==> finished && dies == Completes)
            && (finished && dies == Completes ==> id !in now.jobs)
            && (id in now.cleaned <==> finished || id in w.cleaned)
            && (!finished ==> now == Reconciled(w, id))
            && (forall i: nat :: i != id ==> SameJob(w, now, i))
            && (forall k :: k in w.mappings ==>
                  && k in now.mappings && now.mappings[k].job == w.mappings[k].job
                  && now.mappings[k].fingerprint == w.mappings[k].fingerprint)
  {
    var seen := Reconciled(w, id);
    ReconciledRefreshes(w, id);
    RefreshedStatus(w, seen);
    RefreshedCounters(w, seen);
    hide StatusOf, Terminal;
  }

  /** The key of a removed job never starts anything again. */
  lemma CleanedKeyIsRefused(setup: Setup, w: World, id: nat, key: string, fingerprint: string, launch: Launching,
                            dies: StartCrash)
    requires Known(w, id) && Terminal(StatusOf(w, id)) && !KeyRefused(setup, Some(key))
    requires setup.hashOf(key) in w.mappings && w.mappings[setup.hashOf(key)].job == id
    ensures var now := AfterCleanup(w, id, Completes);
            && StartReply(setup, now, Some(key), fingerprint, launch, dies) ==
               Err(if w.mappings[setup.hashOf(key)].fingerprint == fingerprint then CleanedUp else DifferentRequest)
            && AfterStart(setup, now, Some(key), fingerprint, launch, dies) == now
  {
    CleanupDoes(w, id, Completes);
    UnknownStays(AfterCleanup(w, id, Completes), id);
    hide StatusOf, Terminal, AfterCleanup, Reconciled;
  }

  // ------------------------------------------------------------------- the server

  const EMPTY := World(map[], map[], 0, map[], {}, 0, [], {})

  class JobServer {
    const setup: Setup
    var jobs: map<nat, Job>
    var mappings: map<string, Mapping>
    var nextJob: nat
    var workers: map<nat, Worker>
    var visible: set<Process>
    var nextProcess: Process
    var launches: seq<Launch>
    var cleaned: set<nat>

    function State(): World
      reads this
    {
      World(jobs, mappings, nextJob, workers, visible, nextProcess, launches, cleaned)
    }

    constructor (setup: Setup)
      ensures State() == EMPTY && this.setup == setup
    {
      this.setup := setup;
      jobs, mappings, nextJob, workers, visible, nextProcess, launches, cleaned :=
        map[], map[], 0, map[], {}, 0, [], {};
    }

    /** Reconciles what is stored with the processes that can be seen. */
    method JobStatus(id: nat) returns (r: Result<Status, JobError>)
      modifies this`jobs
      ensures State() == Reconciled(old(State()), id) && r == Observed(old(State()), id)
    {
      if id !in jobs || jobs[id].meta.None? {
        return Err(UnknownJob);
      }
      var job := jobs[id];
      var meta := job.meta.value;
      var status;
      if job.result.Some? {
        status := job.result.value;
      } else {
        var childAlive := meta.child.Some? && meta.child.value in visible;
        var workerAlive := meta.worker.Some? && meta.worker.value in visible;
        if childAlive && workerAlive {
          status := if job.cancel then CancelRequested else Running;
        } else if childAlive {
          status := if job.cancel then CancelRequested else Lost;
        } else if workerAlive {
          status := if job.cancel then CancelRequested else Starting;
        } else {
          status := Interrupted;
          if !Terminal(meta.status) {
            meta := meta.(status := Interrupted);
          }
          jobs := jobs[id := job.(meta := Some(meta), command := false)];
        }
      }
      return Ok(status);
    }

    /** How many jobs are not terminal; looking at them reconciles each. */
    method CountActive() returns (count: nat)
      modifies this`jobs
      ensures State() == ReconciledUpTo(old(State()), old(nextJob)) && count == |ActiveJobs(old(State()), old(nextJob))|
    {
      hide Reconciled, Refreshed, StatusOf, Terminal;
      ghost var was := State();
      count := 0;
      ActiveStep(was, 0);
      var id := 0;
      while id < nextJob
        invariant 0 <= id <= nextJob && nextJob == was.nextJob
        invariant State() == ReconciledUpTo(was, id)
        invariant count == |ActiveJobs(was, id)|
      {
        UpToRefreshes(was, id);
        RefreshedStatus(was, State());
        UpToRefreshes(was, id + 1);
        RefreshedCounters(was, ReconciledUpTo(was, id + 1));
        ActiveStep(was, id);
        var r := JobStatus(id);
        if r.Ok? && !Terminal(r.value) {
          count := count + 1;
        }
        id := id + 1;
      }
    }

    method StartJob(key: Option<string>, fingerprint: string, launch: Launching, dies: StartCrash)
      returns (r: Result<Started, JobError>)
      modifies this
      ensures State() == AfterStart(setup, old(State()), key, fingerprint, launch, dies)
      ensures r == StartReply(setup, old(State()), key, fingerprint, launch, dies)
    {
      hide Reconciled, Refreshed, StatusOf, Terminal, Created, CreateReply;
      ghost var was := State();
      var keyHash := HashOf(setup, key);
      if key.Some? {
        if KeyRefused(setup, key) {
          return Err(InvalidKey);
        }
        if keyHash.value in mappings {
          var m := mappings[keyHash.value];
          if m.fingerprint != fingerprint {
            return Err(DifferentRequest);
          }
          if m.job !in jobs {
            UnknownStays(was, m.job);
            return Err(CleanedUp);
          }
          var existing := JobStatus(m.job);
          if existing.Err? {
            return Err(existing.error);
          }
          return Ok(Started(m.job, existing.value, true));
        }
      }
      var active := CountActive();
      UpToRefreshes(was, was.nextJob);
      RefreshedCounters(was, State());
      if active >= setup.maxJobs {
        return Err(TooManyJobs);
      }
      SameReply(was, State(), launch, dies);
      r := CreateJob(keyHash, fingerprint, launch, dies);
    }

    /** Lays out the job directory, records the key, launches the worker and records it. */
    method CreateJob(keyHash: Option<string>, fingerprint: string, launch: Launching, dies: StartCrash)
      returns (r: Result<Started, JobError>)
      modifies this
      ensures State() == Created(old(State()), keyHash, fingerprint, launch, dies)
      ensures r == CreateReply(old(State()), launch, dies)
    {
      hide WorkerSteps, LaunchFailed, Launched, WorkerRecorded;
      var id := nextJob;
      LaidOutParts(State(), keyHash, fingerprint, dies);
      var laidOut := LayOut(keyHash, fingerprint, dies);
      if !laidOut {
        return Err(ServerDied);
      }
      match launch {
        case LaunchFails =>
          var stored := StoreFailure(id, dies);
          return if stored then Ok(Started(id, StartFailed, false)) else Err(ServerDied);
        case Launches(early) =>
          var recorded := LaunchWorker(id, keyHash, early, dies);
          return if recorded then Ok(Started(id, Starting, false)) else Err(ServerDied);
      }
    }

    /** The launch failed. */
    method StoreFailure(id: nat, dies: StartCrash) returns (ok: bool)
      requires Known(State(), id)
      modifies this`jobs
      ensures State() == LaunchFailed(old(State()), id, dies) && (ok <==> dies !in {AfterDrop, AfterResult})
    {
      var job := jobs[id].(command := false);
      jobs := jobs[id := job];
      if dies == AfterDrop {
        return false;
      }
      job := job.(result := Some(StartFailed));
      jobs := jobs[id := job];
      assert jobs == old(jobs)[id := job];
      if dies == AfterResult {
        return false;
      }
      job := job.(meta := Some(job.meta.value.(status := StartFailed)));
      jobs := jobs[id := job];
      assert jobs == old(jobs)[id := job];
      return true;
    }

    /** The worker runs; it may get ahead of its being recorded. */
    method LaunchWorker(id: nat, keyHash: Option<string>, early: seq<Event>, dies: StartCrash) returns (ok: bool)
      modifies this
      ensures var running := WorkerSteps(Launched(old(State()), id, keyHash), id, early);
              State() == if dies == AfterLaunch then running else WorkerRecorded(running, id, old(nextProcess))
      ensures ok <==> dies != AfterLaunch
    {
      hide WorkerSteps;
      var process := nextProcess;
      nextProcess, visible := process + 1, visible + {process};
      workers := workers[id := Worker(process, Booting)];
      launches := launches + [Launch(id, keyHash)];
      RunAhead(id, early);
      if dies == AfterLaunch {
        return false;
      }
      if id in jobs && jobs[id].meta.Some? {
        jobs := jobs[id := jobs[id].(meta := Some(jobs[id].meta.value.(worker := Some(process))))];
      }
      return true;
    }

    /** The new worker goes ahead while the server has not recorded it yet. */
    method RunAhead(id: nat, early: seq<Event>)
      requires id in workers
      modifies this
      ensures State() == WorkerSteps(old(State()), id, early)
    {
      hide WorkerStep;
      var i := 0;
      assert early[0..] == early;
      while i < |early|
        invariant 0 <= i <= |early| && id in workers
        invariant WorkerSteps(old(State()), id, early) == WorkerSteps(State(), id, early[i..])
      {
        assert early[i..][0] == early[i] && early[i..][1..] == early[i + 1..];
        Work(id, early[i]);
        i := i + 1;
      }
    }

    /** What is stored before the launch: directory, command, metadata, then the key. */
    method LayOut(keyHash: Option<string>, fingerprint: string, dies: StartCrash) returns (ok: bool)
      modifies this`jobs, this`mappings, this`nextJob
      ensures State() == LaidOut(old(State()), keyHash, fingerprint, dies) && (ok <==> !DiesEarly(dies))
    {
      var id := nextJob;
      nextJob := id + 1;
      var job := Job(None, None, false, false);
      jobs := jobs[id := job];
      if dies == AfterDirectory {
        return false;
      }
      job := job.(command := true);
      jobs := jobs[id := job];
      assert jobs == old(jobs)[id := job];
      if dies == AfterCommand {
        return false;
      }
      job := job.(meta := Some(Meta(Starting, None, None, keyHash)));
      jobs := jobs[id := job];
      assert jobs == old(jobs)[id := job];
      if dies == AfterMetadata {
        return false;
      }
      if keyHash.Some? {
        mappings := mappings[keyHash.value := Mapping(id, fingerprint, false)];
      }
      return dies != AfterMapping;
    }

    /** Asks a job to stop: leaves the durable marker unless it is over already. */
    method CancelJob(id: nat) returns (r: Result<Status, JobError>)
      modifies this`jobs
      ensures State() == AfterCancel(old(State()), id) && r == Observed(old(State()), id)
    {
      hide StatusOf, Terminal;
      r := JobStatus(id);
      if r.Err? || Terminal(r.value) {
        return;
      }
      jobs := jobs[id := jobs[id].(cancel := true)];
    }

    /** Removes a finished job. Its key stays behind as a tombstone. */
    method CleanupJob(id: nat, dies: CleanupCrash) returns (r: Result<bool, JobError>)
      modifies this`jobs, this`mappings, this`cleaned
      ensures State() == AfterCleanup(old(State()), id, dies) && r == CleanupReply(old(State()), id, dies)
    {
      hide StatusOf, Terminal, Reconciled, Refreshed;
      ghost var was := State();
      ReconciledRefreshes(was, id);
      RefreshedStatus(was, Reconciled(was, id));
      if id !in jobs {
        UnknownStays(was, id);
        return Ok(false);
      }
      var status := JobStatus(id);
      if status.Err? {
        return Err(status.error);
      }
      if !Terminal(status.value) {
        return Err(StillActive);
      }
      RefreshedCounters(was, State());
      var keyHash := jobs[id].meta.value.keyHash;
      if keyHash.Some? && keyHash.value in mappings && mappings[keyHash.value].job == id {
        mappings := mappings[keyHash.value := mappings[keyHash.value].(tombstone := true)];
      }
      cleaned := cleaned + {id};
      match dies {
        case Completes =>
          jobs := jobs - {id};
        case AfterTombstone =>
        case MidRemoval(keepsMeta, keepsResult, keepsCancel) =>
          var job := jobs[id];
          jobs := jobs[id := Job(if keepsMeta then job.meta else None, if keepsResult then job.result else None,
                                 keepsCancel && job.cancel, false)];
      }
      return if dies.Completes? then Ok(true) else Err(ServerDied);
    }

    /** At startup: reconciles every job, and cleans up those finished long ago. */
    method RecoverJobs(expired: set<nat>)
      modifies this`jobs, this`mappings, this`cleaned
      ensures State() == RecoveredUpTo(old(State()), expired, old(nextJob))
    {
      hide StatusOf, Terminal, Reconciled, AfterCleanup;
      var id := 0;
      while id < nextJob
        invariant 0 <= id <= nextJob
        invariant State() == RecoveredUpTo(old(State()), expired, id)
      {
        var status := JobStatus(id);
        if status.Ok? && Terminal(status.value) && id in expired {
          var _ := CleanupJob(id, Completes);
        }
        id := id + 1;
      }
    }

    /** The environment: a worker takes its next step, or a process disappears. */
    method Work(id: nat, e: Event)
      modifies this`jobs, this`workers, this`visible, this`nextProcess
      ensures State() == AfterWork(old(State()), id, e)
    {
      if id in workers {
        WorkerFrame(State(), id, e);
        var now := WorkerStep(State(), id, e);
        jobs, workers, visible, nextProcess := now.jobs, now.workers, now.visible, now.nextProcess;
      }
    }

    method Disappear(p: Process)
      modifies this`visible
      ensures State() == Vanish(old(State()), p)
    {
      if !(exists id :: id in workers && !workers[id].phase.Done? && workers[id].process == p) {
        visible := visible - {p};
      }
    }
  }

  function AfterWork(w: World, id: nat, e: Event): World {
    if id in w.workers then WorkerStep(w, id, e) else w
  }

  lemma WorkerFrame(w: World, id: nat, e: Event)
    requires id in w.workers
    ensures var now := WorkerStep(w, id, e);
            now == w.(jobs := now.jobs, workers := now.workers, visible := now.visible, nextProcess := now.nextProcess)
  {
  }

  lemma LaidOutParts(w: World, keyHash: Option<string>, fingerprint: string, dies: StartCrash)
    ensures var laid := LaidOut(w, keyHash, fingerprint, dies);
            (!DiesEarly(dies) ==> Known(laid, w.nextJob)) && laid.nextProcess == w.nextProcess
  {
  }

  lemma RefreshedCounters(was: World, now: World)
    requires Refreshed(was, now)
    ensures now == was.(jobs := now.jobs) && forall id: nat :: id in now.jobs <==> id in was.jobs
  {
  }

  lemma UnknownStays(w: World, id: nat)
    requires id !in w.jobs
    ensures Reconciled(w, id) == w
  {
  }

  lemma SameReply(was: World, now: World, launch: Launching, dies: StartCrash)
    requires was.nextJob == now.nextJob
    ensures CreateReply(was, launch, dies) == CreateReply(now, launch, dies)
  {
  }

  // ------------------------------------------------------------------------ runs

  datatype Op =
    | Start(key: Option<string>, fingerprint: string, launch: Launching, startDies: StartCrash)
    | Observe(job: nat)
    | Cancel(job: nat)
    | Cleanup(job: nat, cleanupDies: CleanupCrash)
    | Recover(expired: set<nat>)
    | Step(job: nat, event: Event)
    | Gone(process: Process)

  datatype Reply =
    | Answered(start: Result<Started, JobError>)
    | Told(seen: Result<Status, JobError>)
    | Removal(removed: Result<bool, JobError>)
    | Silence

  function AfterOp(setup: Setup, w: World, op: Op): World {
    match op
    case Start(key, fingerprint, launch, dies) => AfterStart(setup, w, key, fingerprint, launch, dies)
    case Observe(id) => Reconciled(w, id)
    case Cancel(id) => AfterCancel(w, id)
    case Cleanup(id, dies) => AfterCleanup(w, id, dies)
    case Recover(expired) => RecoveredUpTo(w, expired, w.nextJob)
    case Step(id, event) => AfterWork(w, id, event)
    case Gone(process) => Vanish(w, process)
  }

  function ReplyTo(setup: Setup, w: World, op: Op): Reply {
    match op
    case Start(key, fingerprint, launch, dies) => Answered(StartReply(setup, w, key, fingerprint, launch, dies))
    case Observe(id) => Told(Observed(w, id))
    case Cancel(id) => Told(Observed(w, id))
    case Cleanup(id, dies) => Removal(CleanupReply(w, id, dies))
    case Recover(_) => Silence
    case Step(_, _) => Silence
    case Gone(_) => Silence
  }

  /** One reply and one next world for every operation, from the empty one on. */
  ghost predicate Trace(setup: Setup, ops: seq<Op>, replies: seq<Reply>, worlds: seq<World>) {
    && |worlds| == |ops| + 1 && |replies| == |ops| && worlds[0] == EMPTY
    && forall i :: 0 <= i < |ops| ==>
         replies[i] == ReplyTo(setup, worlds[i], ops[i]) && worlds[i + 1] == AfterOp(setup, worlds[i], ops[i])
  }

  method Serve(server: JobServer, op: Op) returns (reply: Reply)
    modifies server
    ensures server.State() == AfterOp(server.setup, old(server.State()), op)
    ensures reply == ReplyTo(server.setup, old(server.State()), op)
  {
    hide AfterStart, StartReply, Reconciled, Observed, AfterCancel, AfterCleanup, CleanupReply, RecoveredUpTo,
      AfterWork, Vanish;
    reply := Silence;
    match op {
      case Start(key, fingerprint, launch, dies) =>
        var r := server.StartJob(key, fingerprint, launch, dies);
        reply := Answered(r);
      case Observe(id) =>
        var r := server.JobStatus(id);
        reply := Told(r);
      case Cancel(id) =>
        var r := server.CancelJob(id);
        reply := Told(r);
      case Cleanup(id, dies) =>
        var r := server.CleanupJob(id, dies);
        reply := Removal(r);
      case Recover(expired) =>
        server.RecoverJobs(expired);
      case Step(id, event) =>
        server.Work(id, event);
      case Gone(process) =>
        server.Disappear(process);
    }
  }

  method Run(setup: Setup, ops: seq<Op>) returns (replies: seq<Reply>, worlds: seq<World>)
    ensures Trace(setup, ops, replies, worlds)
  {
    hide AfterOp, ReplyTo;
    var server := new JobServer(setup);
    replies, worlds := [], [server.State()];
    for i := 0 to |ops|
      invariant fresh(server) && server.setup == setup && |worlds| == i + 1 && worlds[i] == server.State()
      invariant Trace(setup, ops[..i], replies, worlds)
    {
      var reply := Serve(server, ops[i]);
      assert ops[..i + 1] == ops[..i] + [ops[i]];
      replies, worlds := replies + [reply], worlds + [server.State()];
    }
    assert ops[..|ops|] == ops;
  }

  // ----------------------------------------------------------------- every trace

  lemma StartKeeps(setup: Setup, w: World, key: Option<string>, fingerprint: string, launch: Launching,
                   dies: StartCrash)
    requires Sound(w)
    ensures var now := AfterStart(setup, w, key, fingerprint, launch, dies); Sound(now) && Follows(w, now)
  {
    hide Sound, Follows, Reconciled, Refreshed, Created, StatusOf, Terminal, Creates;
    var keyHash := HashOf(setup, key);
    FollowsSelf(w);
    if key.Some? && keyHash.value in w.mappings {
      ReconciledRefreshes(w, w.mappings[keyHash.value].job);
      RefreshedKeeps(w, Reconciled(w, w.mappings[keyHash.value].job));
    } else {
      var seen := ReconciledUpTo(w, w.nextJob);
      UpToRefreshes(w, w.nextJob);
      RefreshedKeeps(w, seen);
      RefreshedCounters(w, seen);
      CreatedCreates(seen, keyHash, fingerprint, launch, dies);
      CreatesKeeps(seen, Created(seen, keyHash, fingerprint, launch, dies), keyHash);
      FollowsChain(w, seen, Created(seen, keyHash, fingerprint, launch, dies));
    }
  }

  lemma OpKeeps(setup: Setup, w: World, op: Op)
    requires Sound(w)
    ensures Sound(AfterOp(setup, w, op)) && Follows(w, AfterOp(setup, w, op))
  {
    hide Sound, Follows, AfterStart, Reconciled, AfterCancel, AfterCleanup, RecoveredUpTo, Vanish, Refreshed,
      WorkerStep;
    match op {
      case Start(key, fingerprint, launch, dies) => StartKeeps(setup, w, key, fingerprint, launch, dies);
      case Observe(id) =>
        ReconciledRefreshes(w, id);
        RefreshedKeeps(w, Reconciled(w, id));
      case Cancel(id) => CancelKeeps(w, id);
      case Cleanup(id, dies) => CleanupKeeps(w, id, dies);
      case Recover(expired) => RecoverKeeps(w, expired, w.nextJob);
      case Step(id, event) =>
        FollowsSelf(w);
        if id in w.workers { WorkerKeeps(w, id, event); }
      case Gone(process) => VanishKeeps(w, process);
    }
  }

  /** Which operation launches a worker, and for which job. */
  predicate LaunchesOne(setup: Setup, w: World, op: Op) {
    && op.Start? && op.launch.Launches? && !DiesEarly(op.startDies)
    && !KeyRefused(setup, op.key) && (op.key.Some? ==> setup.hashOf(op.key.value) !in w.mappings)
    && |ActiveJobs(w, w.nextJob)| < setup.maxJobs
  }

  lemma LaunchedIff(setup: Setup, w: World, op: Op)
    requires Sound(w)
    ensures AfterOp(setup, w, op).launches ==
            w.launches + (if LaunchesOne(setup, w, op) then [Launch(w.nextJob, HashOf(setup, op.key))] else [])
  {
    hide Sound, Reconciled, Refreshed, StatusOf, Terminal, WorkerStep, WorkerSteps;
    match op {
      case Start(key, fingerprint, launch, dies) =>
        var seen := ReconciledUpTo(w, w.nextJob);
        UpToRefreshes(w, w.nextJob);
        RefreshedCounters(w, seen);
        if key.Some? && setup.hashOf(key.value) in w.mappings {
          ReconciledRefreshes(w, w.mappings[setup.hashOf(key.value)].job);
          RefreshedCounters(w, Reconciled(w, w.mappings[setup.hashOf(key.value)].job));
        }
        if launch.Launches? {
          var start := Launched(LaidOut(seen, HashOf(setup, key), fingerprint, dies), w.nextJob, HashOf(setup, key));
          WorkLaunchesNothing(start, w.nextJob, launch.early);
        }
      case Observe(id) =>
        ReconciledRefreshes(w, id);
        RefreshedCounters(w, Reconciled(w, id));
      case Cancel(id) =>
        ReconciledRefreshes(w, id);
        RefreshedCounters(w, Reconciled(w, id));
      case Cleanup(id, dies) =>
        ReconciledRefreshes(w, id);
        RefreshedCounters(w, Reconciled(w, id));
      case Recover(expired) => RecoveryDoes(w, expired, w.nextJob);
      case Step(id, event) => if id in w.workers { WorkerFrame(w, id, event); }
      case Gone(_) =>
    }
  }

  lemma {:induction false} WorkLaunchesNothing(w: World, id: nat, es: seq<Event>)
    requires id in w.workers
    ensures WorkerSteps(w, id, es).launches == w.launches
    decreases |es|
  {
    hide WorkerStep;
    if es != [] {
      WorkerFrame(w, id, es[0]);
      WorkLaunchesNothing(WorkerStep(w, id, es[0]), id, es[1..]);
    }
  }

  lemma {:induction false} TraceKeeps(setup: Setup, ops: seq<Op>, replies: seq<Reply>, worlds: seq<World>, i: nat,
                                      j: nat)
    requires Trace(setup, ops, replies, worlds) && i <= j <= |ops|
    ensures Sound(worlds[i]) && Sound(worlds[j]) && Follows(worlds[i], worlds[j])
    decreases j
  {
    hide Sound, Follows, AfterOp, ReplyTo;
    if j == 0 {
      EmptySound();
      FollowsSelf(EMPTY);
    } else if i < j {
      TraceKeeps(setup, ops, replies, worlds, i, j - 1);
      OpKeeps(setup, worlds[j - 1], ops[j - 1]);
      FollowsChain(worlds[i], worlds[j - 1], worlds[j]);
    } else {
      TraceKeeps(setup, ops, replies, worlds, j - 1, j - 1);
      OpKeeps(setup, worlds[j - 1], ops[j - 1]);
      FollowsSelf(worlds[j]);
    }
  }

  lemma EmptySound()
    ensures Sound(EMPTY)
  {
  }

  /** A keyed start answered with a job. */
  predicate Accepted(op: Op, reply: Reply) {
    op.Start? && op.key.Some? && reply.Answered? && reply.start.Ok?
  }

  lemma AcceptedIsMapped(setup: Setup, w: World, op: Op)
    requires Sound(w) && Accepted(op, ReplyTo(setup, w, op))
    ensures var keyHash, now := setup.hashOf(op.key.value), AfterOp(setup, w, op);
            var started := ReplyTo(setup, w, op).start.value;
            && keyHash in now.mappings && now.mappings[keyHash].job == started.job
            && now.mappings[keyHash].fingerprint == op.fingerprint
            && (started.reused <==> keyHash in w.mappings)
            && (started.reused ==>
                  w.mappings[keyHash].job == started.job && w.mappings[keyHash].fingerprint == op.fingerprint)
  {
    hide Sound, Reconciled, Refreshed, StatusOf, Terminal, WorkerStep, WorkerSteps;
    var keyHash := setup.hashOf(op.key.value);
    if keyHash in w.mappings {
      ReconciledRefreshes(w, w.mappings[keyHash].job);
      RefreshedCounters(w, Reconciled(w, w.mappings[keyHash].job));
    } else {
      var seen := ReconciledUpTo(w, w.nextJob);
      UpToRefreshes(w, w.nextJob);
      RefreshedCounters(w, seen);
      if op.launch.Launches? {
        var start := Launched(LaidOut(seen, Some(keyHash), op.fingerprint, op.startDies), w.nextJob, Some(keyHash));
        WorkKeepsMappings(start, w.nextJob, op.launch.early);
      }
    }
  }

  lemma {:induction false} WorkKeepsMappings(w: World, id: nat, es: seq<Event>)
    requires id in w.workers
    ensures WorkerSteps(w, id, es).mappings == w.mappings
    decreases |es|
  {
    hide WorkerStep;
    if es != [] {
      WorkerFrame(w, id, es[0]);
      WorkKeepsMappings(WorkerStep(w, id, es[0]), id, es[1..]);
    }
  }

  /** Any run of starts, observations, cancels, cleanups, recoveries, worker steps and process
      ends, with server crashes: at most one worker is ever launched for a job and for a key;
      keyed starts that are answered with a job are all answered with the same job, for one
      and the same request; and a terminal status told when no worker runs any more is told
      until the job is cleaned up. */
  lemma JobsAreSafe(setup: Setup, ops: seq<Op>, replies: seq<Reply>, worlds: seq<World>)
    requires Trace(setup, ops, replies, worlds)
    ensures forall n :: 0 <= n <= |ops| ==> LaunchedOnce(worlds[n])
    ensures forall i, j :: 0 <= i < j < |ops| && SameKey(setup, ops[i], replies[i], ops[j], replies[j]) ==>
              SameStart(ops[i], replies[i], ops[j], replies[j])
    ensures forall i, j :: 0 <= i < j < |ops| && ToldTwice(ops[i], replies[i], ops[j], replies[j]) ==>
              Terminal(replies[i].seen.value) && Ended(worlds[i], ops[i].job) && ops[i].job !in worlds[j].cleaned ==>
                replies[j].seen == replies[i].seen
  {
    hide Sound, AfterOp, ReplyTo, StatusOf, Terminal;
    forall n | 0 <= n <= |ops| ensures LaunchedOnce(worlds[n]) {
      TraceKeeps(setup, ops, replies, worlds, n, n);
      DistinctLaunches(worlds[n]);
    }
    forall i, j | 0 <= i < j < |ops| && SameKey(setup, ops[i], replies[i], ops[j], replies[j])
      ensures SameStart(ops[i], replies[i], ops[j], replies[j])
    {
      TraceKeeps(setup, ops, replies, worlds, i, i);
      TraceKeeps(setup, ops, replies, worlds, i + 1, j);
      AcceptedIsMapped(setup, worlds[i], ops[i]);
      AcceptedIsMapped(setup, worlds[j], ops[j]);
    }
    forall i, j | 0 <= i < j < |ops| && ToldTwice(ops[i], replies[i], ops[j], replies[j])
        && Terminal(replies[i].seen.value) && Ended(worlds[i], ops[i].job) && ops[i].job !in worlds[j].cleaned
      ensures replies[j].seen == replies[i].seen
    {
      TraceKeeps(setup, ops, replies, worlds, i, j);
      ToldIs(setup, worlds[i], ops[i]);
      ToldIs(setup, worlds[j], ops[j]);
    }
  }

  /** Two keyed starts under one key, both answered with a job. */
  predicate SameKey(setup: Setup, op: Op, reply: Reply, op': Op, reply': Reply) {
    Accepted(op, reply) && Accepted(op', reply') && setup.hashOf(op.key.value) == setup.hashOf(op'.key.value)
  }

  predicate SameStart(op: Op, reply: Reply, op': Op, reply': Reply)
    requires Accepted(op, reply) && Accepted(op', reply')
  {
    reply'.start.value.job == reply.start.value.job && op'.fingerprint == op.fingerprint && reply'.start.value.reused
  }

  /** A job's status was asked for and told. */
  predicate ToldOf(op: Op, reply: Reply) {
    op.Observe? && reply.Told? && reply.seen.Ok?
  }

  predicate ToldTwice(op: Op, reply: Reply, op': Op, reply': Reply) {
    ToldOf(op, reply) && ToldOf(op', reply') && op.job == op'.job
  }

  lemma ToldIs(setup: Setup, w: World, op: Op)
    requires ToldOf(op, ReplyTo(setup, w, op))
    ensures Known(w, op.job) && ReplyTo(setup, w, op).seen.value == StatusOf(w, op.job)
  {
    hide StatusOf;
  }

  ghost predicate LaunchedOnce(w: World) {
    && (forall i, j :: 0 <= i < j < |w.launches| ==> w.launches[i].job != w.launches[j].job)
    && (forall i, j :: 0 <= i < j < |w.launches| && w.launches[i].keyHash.Some? ==>
          w.launches[j].keyHash != w.launches[i].keyHash)
  }

  lemma DistinctLaunches(w: World)
    requires Sound(w)
    ensures LaunchedOnce(w)
  {
  }

  // -------------------------------------------------------- a status that changes

  /** The world of one job, unrecorded worker 0 and no key. */
  function Lone(job: Job, phase: Phase, visible: set<Process>, nextProcess: Process): World {
    World(map[0 := job], map[], 1, map[0 := Worker(0, phase)], visible, nextProcess, [Launch(0, None)], {})
  }

  function LoneJob(status: Status, child: Option<Process>, result: Option<Status>, command: bool): Job {
    Job(Some(Meta(status, None, child, None)), result, false, command)
  }

  lemma LoneStart(setup: Setup, fingerprint: string)
    requires setup.maxJobs > 0
    ensures AfterStart(setup, EMPTY, None, fingerprint, Launches([]), AfterLaunch) ==
            Lone(LoneJob(Starting, None, None, true), Booting, {0}, 1)
  {
    assert ActiveJobs(EMPTY, 0) == {};
    assert ReconciledUpTo(EMPTY, 0) == EMPTY;
    var laid := LaidOut(EMPTY, None, fingerprint, AfterLaunch);
    assert WorkerSteps(Launched(laid, 0, None), 0, []) == Launched(laid, 0, None);
    assert Launched(laid, 0, None) == Lone(LoneJob(Starting, None, None, true), Booting, {0}, 1);
  }

  lemma LoneLook()
    ensures var w := Lone(LoneJob(Starting, None, None, false), Checking, {0}, 1);
            && Reconciled(w, 0) == Lone(LoneJob(Interrupted, None, None, false), Checking, {0}, 1)
            && Observed(w, 0) == Ok(Interrupted)
    ensures AfterWork(Lone(LoneJob(Starting, None, None, true), Booting, {0}, 1), 0, Go) ==
            Lone(LoneJob(Starting, None, None, false), Checking, {0}, 1)
  {
  }

  lemma LoneSpawn()
    ensures AfterWork(Lone(LoneJob(Interrupted, None, None, false), Checking, {0}, 1), 0, Go) ==
            Lone(LoneJob(Interrupted, None, None, false), Spawning, {0}, 1)
    ensures AfterWork(Lone(LoneJob(Interrupted, None, None, false), Spawning, {0}, 1), 0, Go) ==
            Lone(LoneJob(Interrupted, None, None, false), Spawned(1), {0, 1}, 2)
    ensures AfterWork(Lone(LoneJob(Interrupted, None, None, false), Spawned(1), {0, 1}, 2), 0, Go) ==
            Lone(LoneJob(Running, Some(1), None, false), Polling(1, false, false), {0, 1}, 2)
  {
  }

  lemma LoneFinish()
    ensures var polling := Lone(LoneJob(Running, Some(1), None, false), Polling(1, false, false), {0, 1}, 2);
            AfterWork(polling, 0, Reaped(0)) ==
            Lone(LoneJob(Running, Some(1), None, false), Reporting(Completed), {0}, 2)
    ensures AfterWork(Lone(LoneJob(Running, Some(1), None, false), Reporting(Completed), {0}, 2), 0, Go) ==
            Lone(LoneJob(Completed, Some(1), Some(Completed), false), Done, {0}, 2)
    ensures Observed(Lone(LoneJob(Completed, Some(1), Some(Completed), false), Done, {0}, 2), 0) == Ok(Completed)
  {
    assert {0, 1} - {1} == {0};
  }

  /** The server dies between launching a worker and recording it: the job is told to be
      interrupted while its worker runs on, and later to be completed. */
  method InterruptedCompletes(setup: Setup, fingerprint: string)
    returns (first: Result<Status, JobError>, second: Result<Status, JobError>)
    requires setup.maxJobs > 0
    ensures first == Ok(Interrupted) && second == Ok(Completed)
  {
    hide AfterStart, StartReply, AfterWork, Reconciled, Observed;
    LoneStart(setup, fingerprint);
    LoneLook();
    LoneSpawn();
    LoneFinish();
    var server := new JobServer(setup);
    var started := server.StartJob(None, fingerprint, Launches([]), AfterLaunch);
    server.Work(0, Go);
    first := server.JobStatus(0);
    server.Work(0, Go);
    server.Work(0, Go);
    server.Work(0, Go);
    server.Work(0, Reaped(0));
    server.Work(0, Go);
    second := server.JobStatus(0);
  }
}
