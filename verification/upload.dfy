/** One resumable upload: chunks are appended to a staging file, which is published under
    the target name once its size and digest are right. */
module Uploads {
  import opened Octets
  import opened Folders

  datatype Status = Open | HashMismatch | Committed | Aborted | Expired

  /** What stands under the target name. */
  datatype Entry = Entry(kind: Kind, content: Bytes)

  datatype UploadError =
    | BadTotal | BadDigest
    | BadOffset | TooLarge | ChunkMismatch | NotOpen(status: Status) | StagingMissing
    | Overlap | Conflict | OutOfOrder | Exceeds | ShortWrite
    | Incomplete | Mismatch | SymlinkTarget | NotRegular | Appeared | SystemError | ServerDied | AlreadyCommitted

  datatype Progress = Progress(next: nat, duplicate: bool, complete: bool)

  datatype Report = Report(status: Status, next: nat)

  datatype Receipt = Receipt(sha: string, size: nat, replaced: bool)

  predicate IsKind(e: Option<Entry>, kind: Kind) {
    e.Some? && e.value.kind == kind
  }

  /** The target lets itself be published onto: nothing stands there or, with `overwrite`,
      a regular file, and no directory does at the instant of the rename. */
  predicate Admits(overwrite: bool, existing: Option<Entry>, race: Option<Option<Entry>>,
                   later: Option<Option<Entry>>) {
    var raced := if race.Some? then race.value else existing;
    if !overwrite then existing.None? && raced.None?
    else if existing.Some? then IsKind(existing, Regular) && !IsKind(raced, Directory)
    else raced.None? || (IsKind(raced, Regular) && !IsKind(if later.Some? then later.value else raced, Directory))
  }

  /** What an upload was begun with. */
  datatype Terms = Terms(total: nat, expected: string, overwrite: bool, expiresAt: int, maxChunk: nat,
                         sha: Bytes -> string)

  /** The stored metadata, the staging file, what stands under the target name, and what the
      upload has renamed onto the target. */
  datatype State = State(status: Status, finalSha: string, replaced: bool, staging: Option<Bytes>,
                         target: Option<Entry>, published: seq<Bytes>)

  ghost predicate Sound(t: Terms, s: State) {
    && |s.published| <= 1
    && (s.published != [] ==> s.staging.None? && |s.published[0]| == t.total && t.sha(s.published[0]) == t.expected)
    && (s.status == Committed ==> s.published != [] && s.finalSha == t.expected)
    && (s.staging.Some? ==> |s.staging.value| <= t.total)
  }

  /** Everything staged or published so far is a beginning of `payload`. */
  ghost predicate Carries(s: State, payload: Bytes) {
    && (s.staging.Some? ==> s.staging.value <= payload)
    && (s.published != [] ==> s.published[0] <= payload)
  }

  // ------------------------------------------------------- what each request does

  predicate Expires(t: Terms, s: State, now: int) {
    s.status == Open && t.expiresAt < now
  }

  function AfterExpiry(t: Terms, s: State, now: int): State {
    if Expires(t, s, now) then s.(status := Expired, staging := None) else s
  }

  /** How many of `size` bytes a row of write calls takes before one of them takes nothing. */
  function Taken(accepted: seq<nat>, size: nat): (n: nat)
    ensures n <= size
    decreases |accepted|
  {
    if size == 0 || accepted == [] then size
    else if accepted[0] == 0 then 0
    else Min(accepted[0], size) + Taken(accepted[1..], size - Min(accepted[0], size))
  }

  predicate WellFormed(t: Terms, offset: int, data: Bytes, digest: Option<string>) {
    && 0 <= offset && |data| <= t.maxChunk
    && (digest.Some? ==> IsDigest(Lower(digest.value)) && Lower(digest.value) == t.sha(data))
  }

  /** The staging file holds `data` at `offset`. */
  predicate Holds(staged: Bytes, offset: int, data: Bytes) {
    0 <= offset && offset + |data| <= |staged| && staged[offset..offset + |data|] == data
  }

  /** Why a chunk is refused. */
  predicate Refuses(t: Terms, s: State, offset: int, data: Bytes, digest: Option<string>, e: UploadError) {
    match e
    case BadOffset => offset < 0
    case TooLarge => offset >= 0 && |data| > t.maxChunk
    case BadDigest => offset >= 0 && |data| <= t.maxChunk && digest.Some? && !IsDigest(Lower(digest.value))
    case ChunkMismatch =>
      offset >= 0 && |data| <= t.maxChunk && digest.Some? && IsDigest(Lower(digest.value))
      && Lower(digest.value) != t.sha(data)
    case NotOpen(status) => WellFormed(t, offset, data, digest) && s.status == status != Open
    case StagingMissing => WellFormed(t, offset, data, digest) && s.status == Open && s.staging.None?
    case _ =>
      && WellFormed(t, offset, data, digest) && s.status == Open && s.staging.Some?
      && DoesNotFit(s.staging.value, t.total, offset, data, e)
  }

  predicate DoesNotFit(staged: Bytes, total: nat, offset: int, data: Bytes, e: UploadError) {
    match e
    case Overlap => offset < |staged| < offset + |data|
    case Conflict => 0 <= offset < |staged| && offset + |data| <= |staged| && !Holds(staged, offset, data)
    case OutOfOrder => offset > |staged|
    case Exceeds => offset == |staged| && |staged| + |data| > total
    case _ => false
  }

  /** A chunk that repeats staged bytes is confirmed; one that continues them is appended as
      far as it gets written; any other is refused and stages nothing. */
  ghost predicate ChunkStep(t: Terms, was: State, now: int, offset: int, data: Bytes, digest: Option<string>,
                            accepted: seq<nat>, r: Result<Progress, UploadError>, next: State)
  {
    var s := AfterExpiry(t, was, now);
    if !WellFormed(t, offset, data, digest) then
      r.Err? && Refuses(t, was, offset, data, digest, r.error) && next == was
    else if s.status != Open || s.staging.None? then
      r.Err? && Refuses(t, s, offset, data, digest, r.error) && next == s
    else
      var staged := s.staging.value;
      if offset < |staged| && Holds(staged, offset, data) then
        r == Ok(Progress(|staged|, true, |staged| == t.total)) && next == s
      else if offset == |staged| && |staged| + |data| <= t.total then
        var n := Taken(accepted, |data|);
        && next == s.(staging := Some(staged + data[..n]))
        && r == if n == |data| then Ok(Progress(|staged| + n, false, |staged| + n == t.total)) else Err(ShortWrite)
      else r.Err? && Refuses(t, s, offset, data, digest, r.error) && next == s
  }

  /** The size of the staging file, as the client is told it. */
  function Received(s: State): nat {
    if s.staging.Some? then |s.staging.value| else 0
  }

  function NextOffset(t: Terms, s: State): nat {
    if s.status == Committed then t.total else if s.status in {Aborted, Expired} then 0 else Received(s)
  }

  /** The staged bytes are whole, verified, and can be renamed onto the target. */
  predicate Publishes(t: Terms, s: State, race: Option<Option<Entry>>, later: Option<Option<Entry>>) {
    && s.status == Open && s.staging.Some? && |s.staging.value| == t.total && t.sha(s.staging.value) == t.expected
    && Admits(t.overwrite, s.target, race, later)
  }

  /** The staged bytes are whole, but not the promised ones. */
  predicate Mismatched(t: Terms, s: State) {
    && s.status == Open && s.staging.Some? && |s.staging.value| == t.total
    && t.sha(s.staging.value) != t.expected
  }

  /** Why a finish is refused; whatever stands in the way under the target name comes last. */
  predicate CannotFinish(t: Terms, s: State, e: UploadError) {
    match e
    case NotOpen(status) => s.status == status != Open
    case StagingMissing => s.status == Open && s.staging.None?
    case Incomplete => s.status == Open && s.staging.Some? && |s.staging.value| != t.total
    case Mismatch => Mismatched(t, s)
    case SymlinkTarget | NotRegular | Appeared | SystemError =>
      && s.status == Open && s.staging.Some? && |s.staging.value| == t.total
      && t.sha(s.staging.value) == t.expected
    case _ => false
  }

  /** A finish publishes exactly when the staged bytes and the target allow it; a digest
      mismatch is final; anything else that fails leaves the upload as it is. */
  ghost predicate FinishStep(t: Terms, was: State, now: int, race: Option<Option<Entry>>, later: Option<Option<Entry>>,
                             dies: bool, r: Result<Receipt, UploadError>, next: State)
  {
    var s := AfterExpiry(t, was, now);
    if s.status == Committed then r == Ok(Receipt(s.finalSha, t.total, s.replaced)) && next == s
    else if Publishes(t, s, race, later) then
      var displaces := s.target.Some? || (race.Some? && race.value.Some?);
      var published := s.(staging := None, published := s.published + [s.staging.value],
                          target := Some(Entry(Regular, s.staging.value)));
      if dies then r == Err(ServerDied) && next == published
      else
        && next == published.(status := Committed, finalSha := t.expected, replaced := displaces)
        && r == Ok(Receipt(t.expected, t.total, displaces))
    else
      && r.Err? && CannotFinish(t, s, r.error)
      && (next.target == s.target || race == Some(next.target) || later == Some(next.target))
      && next == if Mismatched(t, s)
                 then s.(status := HashMismatch, finalSha := t.sha(s.staging.value), target := next.target)
                 else s.(target := next.target)
  }

  ghost predicate AbortStep(was: State, dies: bool, r: Result<(), UploadError>, next: State) {
    if was.status == Committed then r == Err(AlreadyCommitted) && next == was
    else if dies then r == Err(ServerDied) && next == was.(staging := None)
    else r == Ok(()) && next == was.(staging := None, status := Aborted)
  }

  class Upload {
    const terms: Terms
    /** The stored metadata. */
    var status: Status
    var finalSha: string
    var replaced: bool
    /** The staging file and what stands under the target name. */
    var staging: Option<Bytes>
    var target: Option<Entry>
    /** What this upload has renamed onto the target. */
    ghost var published: seq<Bytes>

    ghost function Present(): State
      reads this
    {
      State(status, finalSha, replaced, staging, target, published)
    }

    constructor (terms: Terms, target: Option<Entry>)
      requires target.Some? ==> terms.overwrite && target.value.kind.Regular?
      ensures Present() == Begun(target) && this.terms == terms
    {
      this.terms, this.target := terms, target;
      status, finalSha, replaced, staging, published := Open, "", target.Some?, Some([]), [];
    }

    method Expire(now: int)
      modifies this`status, this`staging
      ensures Present() == AfterExpiry(terms, old(Present()), now)
    {
      if status == Open && terms.expiresAt < now {
        staging := None;
        status := Expired;
      }
    }

    /** Appends `data` as far as the write calls take it. */
    method Append(data: Bytes, accepted: seq<nat>) returns (ok: bool)
      requires staging.Some?
      modifies this`staging
      ensures staging == Some(old(staging.value) + data[..Taken(accepted, |data|)])
      ensures ok <==> Taken(accepted, |data|) == |data|
    {
      var done, i := 0, 0;
      assert staging.value + data[..0] == staging.value && accepted[0..] == accepted;
      while done < |data|
        invariant 0 <= done <= |data| && 0 <= i <= |accepted| && staging.Some?
        invariant staging.value == old(staging.value) + data[..done]
        invariant Taken(accepted, |data|) == done + Taken(accepted[i..], |data| - done)
        decreases |data| - done
      {
        var written := if i < |accepted| then Min(accepted[i], |data| - done) else |data| - done;
        if written <= 0 {
          return false;
        }
        assert data[..done] + data[done..done + written] == data[..done + written];
        assert i < |accepted| ==> accepted[i..][1..] == accepted[i + 1..];
        staging := Some(staging.value + data[done..done + written]);
        done, i := done + written, Min(i + 1, |accepted|);
      }
      return true;
    }

    method Chunk(now: int, offset: int, data: Bytes, digest: Option<string>, accepted: seq<nat>)
      returns (r: Result<Progress, UploadError>)
      modifies this`status, this`staging
      ensures ChunkStep(terms, old(Present()), now, offset, data, digest, accepted, r, Present())
    {
      if offset < 0 {
        return Err(BadOffset);
      }
      if |data| > terms.maxChunk {
        return Err(TooLarge);
      }
      if digest.Some? {
        if !IsDigest(Lower(digest.value)) {
          return Err(BadDigest);
        }
        if Lower(digest.value) != terms.sha(data) {
          return Err(ChunkMismatch);
        }
      }
      Expire(now);
      if status != Open {
        return Err(NotOpen(status));
      }
      if staging.None? {
        return Err(StagingMissing);
      }
      var current := |staging.value|;
      if offset < current {
        if offset + |data| > current {
          return Err(Overlap);
        }
        if staging.value[offset..offset + |data|] != data {
          return Err(Conflict);
        }
        return Ok(Progress(current, true, current == terms.total));
      }
      if offset > current {
        return Err(OutOfOrder);
      }
      if current + |data| > terms.total {
        return Err(Exceeds);
      }
      var ok := Append(data, accepted);
      if !ok {
        return Err(ShortWrite);
      }
      return Ok(Progress(current + |data|, false, current + |data| == terms.total));
    }

    method Query(now: int) returns (r: Report)
      modifies this`status, this`staging
      ensures Present() == AfterExpiry(terms, old(Present()), now) && r == Report(status, NextOffset(terms, Present()))
    {
      Expire(now);
      var received :=
        if status == Committed then terms.total
        else if status == Aborted || status == Expired then 0
        else if staging.Some? then |staging.value| else 0;
      return Report(status, received);
    }

    /** Renames `content` onto the target if it may; says whether something was replaced. */
    method RenameOnto(content: Bytes, race: Option<Option<Entry>>, later: Option<Option<Entry>>)
      returns (r: Result<bool, UploadError>)
      modifies this`target
      ensures if Admits(terms.overwrite, old(target), race, later) then
                && r == Ok(old(target).Some? || (race.Some? && race.value.Some?))
                && target == Some(Entry(Regular, content))
              else
                && r.Err? && r.error in {SymlinkTarget, NotRegular, Appeared, SystemError}
                && (target == old(target) || race == Some(target) || later == Some(target))
    {
      var existing := target;
      if existing.Some? && existing.value.kind.Symlink? {
        return Err(SymlinkTarget);
      }
      if existing.Some? && !existing.value.kind.Regular? {
        return Err(NotRegular);
      }
      if existing.Some? && !terms.overwrite {
        return Err(Appeared);
      }
      if race.Some? {
        target := race.value;
      }
      var displaces := existing.Some?;
      if !terms.overwrite && target.Some? {
        return Err(Appeared);
      }
      if terms.overwrite && !displaces && target.Some? {
        if target.value.kind.Symlink? {
          return Err(SymlinkTarget);
        }
        if !target.value.kind.Regular? {
          return Err(NotRegular);
        }
        if later.Some? {
          target := later.value;
        }
        displaces := true;
      }
      if target.Some? && target.value.kind.Directory? {
        return Err(SystemError);
      }
      target := Some(Entry(Regular, content));
      return Ok(displaces);
    }

    /** Verifies the staged bytes and publishes them. Another process may change what
        stands under the target name between our calls (`race`, `later`), and the server
        may die between the rename and the metadata write. */
    method Finish(now: int, race: Option<Option<Entry>>, later: Option<Option<Entry>>, dies: bool)
      returns (r: Result<Receipt, UploadError>)
      modifies this
      ensures FinishStep(terms, old(Present()), now, race, later, dies, r, Present())
    {
      hide Admits, IsKind, Lower, IsDigest, Taken;
      Expire(now);
      if status == Committed {
        return Ok(Receipt(finalSha, terms.total, replaced));
      }
      if status != Open {
        return Err(NotOpen(status));
      }
      if staging.None? {
        return Err(StagingMissing);
      }
      var content := staging.value;
      if |content| != terms.total {
        return Err(Incomplete);
      }
      var actual := terms.sha(content);
      if actual != terms.expected {
        status, finalSha := HashMismatch, actual;
        return Err(Mismatch);
      }
      var renamed := RenameOnto(content, race, later);
      if renamed.Err? {
        return Err(renamed.error);
      }
      staging := None;
      published := published + [content];
      if dies {
        return Err(ServerDied);
      }
      status, finalSha, replaced := Committed, actual, renamed.value;
      return Ok(Receipt(finalSha, terms.total, replaced));
    }

    /** Gives an upload up; the server may die before that is stored. */
    method Abort(dies: bool) returns (r: Result<(), UploadError>)
      modifies this`status, this`staging
      ensures AbortStep(old(Present()), dies, r, Present())
    {
      if status == Committed {
        return Err(AlreadyCommitted);
      }
      staging := None;
      if dies {
        return Err(ServerDied);
      }
      status := Aborted;
      return Ok(());
    }
  }

  function Begun(target: Option<Entry>): State {
    State(Open, "", target.Some?, Some([]), target, [])
  }

  /** The target lets an upload begin: nothing stands there or, with `overwrite`, a regular file. */
  predicate Startable(overwrite: bool, target: Option<Entry>) {
    target.None? || (overwrite && IsKind(target, Regular))
  }

  method BeginUpload(total: int, maxTransfer: int, expected: string, overwrite: bool, expiresAt: int, maxChunk: nat,
                     sha: Bytes -> string, target: Option<Entry>)
    returns (r: Result<Upload, UploadError>)
    ensures r.Ok? <==> 0 <= total <= maxTransfer && IsDigest(Lower(expected)) && Startable(overwrite, target)
    ensures r.Ok? ==>
              && fresh(r.value) && r.value.Present() == Begun(target)
              && r.value.terms == Terms(total, Lower(expected), overwrite, expiresAt, maxChunk, sha)
  {
    if total < 0 || total > maxTransfer {
      return Err(BadTotal);
    }
    if !IsDigest(Lower(expected)) {
      return Err(BadDigest);
    }
    if IsKind(target, Symlink) {
      return Err(SymlinkTarget);
    }
    if target.Some? && !IsKind(target, Regular) {
      return Err(NotRegular);
    }
    if target.Some? && !overwrite {
      return Err(Appeared);
    }
    var u := new Upload(Terms(total, Lower(expected), overwrite, expiresAt, maxChunk, sha), target);
    return Ok(u);
  }

  // ------------------------------------------------------------------------ runs

  /** A client's requests and the mishaps around them. `SendChunk` carries the slice of the
      payload at its offset; lost replies and retries are further requests. */
  datatype Op =
    | SendChunk(chunkNow: int, offset: int, size: nat, garbage: Bytes, digest: Option<string>, accepted: seq<nat>)
    | Ask(askNow: int)
    | Commit(commitNow: int, race: Option<Option<Entry>>, later: Option<Option<Entry>>, commitDies: bool)
    | GiveUp(abortDies: bool)
    | DiesExpiring(expireNow: int)
    | Meanwhile(target: Option<Entry>)

  /** The slice of `payload` a client sends for an offset; anything else for an offset
      that is out of range, which every server refuses. */
  function SliceAt(payload: Bytes, offset: int, size: nat, garbage: Bytes): Bytes {
    if 0 <= offset <= |payload| then payload[offset..Min(|payload|, offset + size)]
    else if offset < 0 then garbage
    else []
  }

  datatype Reply =
    | Refused(error: UploadError)
    | Progressed(progress: Progress)
    | Told(report: Report)
    | Finished(receipt: Receipt)
    | Abandoned
    | Silence

  /** One request, or one mishap. */
  ghost predicate Step(t: Terms, payload: Bytes, was: State, op: Op, reply: Reply, next: State) {
    match op
    case SendChunk(now, offset, size, garbage, digest, accepted) =>
      exists r :: ChunkStep(t, was, now, offset, SliceAt(payload, offset, size, garbage), digest, accepted, r, next)
                  && reply == if r.Ok? then Progressed(r.value) else Refused(r.error)
    case Ask(now) => next == AfterExpiry(t, was, now) && reply == Told(Report(next.status, NextOffset(t, next)))
    case Commit(now, race, later, dies) =>
      exists r :: FinishStep(t, was, now, race, later, dies, r, next)
        && reply == if r.Ok? then Finished(r.value) else Refused(r.error)
    case GiveUp(dies) =>
      exists r :: AbortStep(was, dies, r, next) && reply == if r.Ok? then Abandoned else Refused(r.error)
    case DiesExpiring(now) => reply == Silence && next == if Expires(t, was, now) then was.(staging := None) else was
    case Meanwhile(entry) => reply == Silence && next == was.(target := entry)
  }

  /** One reply for every operation, each by a step from one state to the next. */
  ghost predicate Trace(t: Terms, payload: Bytes, ops: seq<Op>, replies: seq<Reply>, states: seq<State>) {
    && |states| == |ops| + 1 && |replies| == |ops|
    && forall i :: 0 <= i < |ops| ==> Step(t, payload, states[i], ops[i], replies[i], states[i + 1])
  }

  method Serve(u: Upload, payload: Bytes, op: Op) returns (reply: Reply)
    modifies u
    ensures Step(u.terms, payload, old(u.Present()), op, reply, u.Present())
  {
    hide ChunkStep, FinishStep, AbortStep;
    reply := Silence;
    match op {
      case SendChunk(now, offset, size, garbage, digest, accepted) =>
        var r := u.Chunk(now, offset, SliceAt(payload, offset, size, garbage), digest, accepted);
        reply := if r.Ok? then Progressed(r.value) else Refused(r.error);
      case Ask(now) =>
        var report := u.Query(now);
        reply := Told(report);
      case Commit(now, race, later, dies) =>
        var r := u.Finish(now, race, later, dies);
        reply := if r.Ok? then Finished(r.value) else Refused(r.error);
      case GiveUp(dies) =>
        var r := u.Abort(dies);
        reply := if r.Ok? then Abandoned else Refused(r.error);
      case DiesExpiring(now) =>
        if u.status == Open && u.terms.expiresAt < now {
          u.staging := None;
        }
      case Meanwhile(entry) =>
        u.target := entry;
    }
  }

  /** Begins an upload and serves `ops`: a trace, if the upload can begin at all. */
  method Run(payload: Bytes, maxTransfer: int, expected: string, overwrite: bool, expiresAt: int, maxChunk: nat,
             sha: Bytes -> string, target: Option<Entry>, ops: seq<Op>)
    returns (replies: seq<Reply>, ghost states: seq<State>)
    ensures |payload| <= maxTransfer && IsDigest(Lower(expected)) && Startable(overwrite, target) ==>
              && Trace(Terms(|payload|, Lower(expected), overwrite, expiresAt, maxChunk, sha), payload, ops, replies,
                       states)
              && states[0] == Begun(target)
    ensures !(|payload| <= maxTransfer && IsDigest(Lower(expected)) && Startable(overwrite, target)) ==>
              replies == [] && states == []
  {
    hide Step;
    var begun := BeginUpload(|payload|, maxTransfer, expected, overwrite, expiresAt, maxChunk, sha, target);
    if begun.Err? {
      return [], [];
    }
    var u := begun.value;
    replies, states := [], [u.Present()];
    var i := 0;
    while i < |ops|
      invariant 0 <= i <= |ops| && |states| == i + 1 && fresh(u) && states[i] == u.Present()
      invariant states[0] == Begun(target)
      invariant u.terms == Terms(|payload|, Lower(expected), overwrite, expiresAt, maxChunk, sha)
      invariant Trace(u.terms, payload, ops[..i], replies, states)
    {
      var reply := Serve(u, payload, ops[i]);
      assert ops[..i + 1] == ops[..i] + [ops[i]];
      replies, states := replies + [reply], states + [u.Present()];
      i := i + 1;
    }
    assert ops[..i] == ops;
  }

  // ---------------------------------------------------------------- every trace

  /** The next offset a reply names while the upload is open. */
  predicate NamesOffset(r: Reply) {
    r.Progressed? || (r.Told? && r.report.status == Open)
  }

  function OffsetIn(r: Reply): nat
    requires NamesOffset(r)
  {
    match r
    case Progressed(p) => p.next
    case Told(report) => report.next
  }

  /** One request, seen from outside: the staging file grows or goes, committed stays. */
  ghost predicate Moves(t: Terms, was: State, next: State, reply: Reply) {
    && Later(was, next)
    && (was.status == Committed ==>
          (reply.Finished? || (reply.Told? && reply.report.status == Committed) || reply.Refused? || reply.Silence?))
    && (reply.Finished? ==> next.status == Committed && reply.receipt == Receipt(next.finalSha, t.total, next.replaced))
    && (NamesOffset(reply) ==> OffsetIn(reply) == Received(next) && next.status == Open)
    && (reply.Progressed? ==> next.staging.Some?)
  }

  /** The staging file only grows until it goes; an upload once closed stays closed. */
  ghost predicate Later(was: State, next: State) {
    && (next.staging.Some? ==> was.staging.Some? && was.staging.value <= next.staging.value)
    && (was.status == Committed ==>
          next.status == Committed && next.finalSha == was.finalSha && next.replaced == was.replaced)
    && (was.status != Open ==> next.status != Open)
    && was.published <= next.published
  }

  lemma StepKeeps(t: Terms, payload: Bytes, was: State, op: Op, reply: Reply, next: State)
    requires Step(t, payload, was, op, reply, next) && Sound(t, was) && Carries(was, payload)
    ensures Sound(t, next) && Carries(next, payload) && Moves(t, was, next, reply)
  {
    match op {
      case SendChunk(now, offset, size, garbage, digest, accepted) =>
        var data := SliceAt(payload, offset, size, garbage);
        var r :| ChunkStep(t, was, now, offset, data, digest, accepted, r, next)
                 && reply == if r.Ok? then Progressed(r.value) else Refused(r.error);
        ChunkKeeps(t, payload, was, now, offset, size, garbage, digest, accepted, r, next);
      case Commit(now, race, later, dies) =>
        var r :| FinishStep(t, was, now, race, later, dies, r, next)
          && reply == if r.Ok? then Finished(r.value) else Refused(r.error);
      case _ =>
    }
  }

  lemma ChunkKeeps(t: Terms, payload: Bytes, was: State, now: int, offset: int, size: nat, garbage: Bytes,
                   digest: Option<string>, accepted: seq<nat>, r: Result<Progress, UploadError>, next: State)
    requires ChunkStep(t, was, now, offset, SliceAt(payload, offset, size, garbage), digest, accepted, r, next)
    requires Sound(t, was) && Carries(was, payload)
    ensures Sound(t, next) && Carries(next, payload)
    ensures Moves(t, was, next, if r.Ok? then Progressed(r.value) else Refused(r.error))
  {
    var data := SliceAt(payload, offset, size, garbage);
    hide Taken, Lower, IsDigest;
    if next.staging.Some? && was.staging.Some? && offset == |was.staging.value| {
      assert offset <= |payload|;
      assert forall n :: 0 <= n <= |data| ==> was.staging.value + data[..n] <= payload;
    }
  }

  /** A run of an upload of `payload` from its beginning. */
  ghost predicate Uploading(t: Terms, payload: Bytes, ops: seq<Op>, replies: seq<Reply>, states: seq<State>) {
    && Trace(t, payload, ops, replies, states) && t.total == |payload|
    && states[0] == Begun(states[0].target)
  }

  lemma {:induction false} TraceKeeps(t: Terms, payload: Bytes, ops: seq<Op>, replies: seq<Reply>, states: seq<State>,
                                      n: nat)
    requires Uploading(t, payload, ops, replies, states) && n <= |ops|
    ensures Sound(t, states[n]) && Carries(states[n], payload)
    ensures n < |ops| ==> Moves(t, states[n], states[n + 1], replies[n])
  {
    hide Step, Moves, Sound, Carries;
    if n == 0 {
      BegunIsSound(t, payload, states[0].target);
    } else {
      TraceKeeps(t, payload, ops, replies, states, n - 1);
      StepKeeps(t, payload, states[n - 1], ops[n - 1], replies[n - 1], states[n]);
    }
    if n < |ops| { StepKeeps(t, payload, states[n], ops[n], replies[n], states[n + 1]); }
  }

  lemma BegunIsSound(t: Terms, payload: Bytes, target: Option<Entry>)
    ensures Sound(t, Begun(target)) && Carries(Begun(target), payload)
  {
  }

  lemma {:induction false} TraceGrows(t: Terms, payload: Bytes, ops: seq<Op>, replies: seq<Reply>, states: seq<State>,
                                      i: nat, j: nat)
    requires Uploading(t, payload, ops, replies, states) && i <= j <= |ops|
    ensures Later(states[i], states[j])
    decreases j
  {
    hide Step, Later, Moves;
    if i < j {
      TraceGrows(t, payload, ops, replies, states, i, j - 1);
      TraceKeeps(t, payload, ops, replies, states, j - 1);
      StillLater(t, states[i], states[j - 1], states[j], replies[j - 1]);
    } else {
      LaterSelf(states[i]);
    }
  }

  lemma LaterSelf(s: State)
    ensures Later(s, s)
  {
  }

  lemma StillLater(t: Terms, first: State, was: State, next: State, reply: Reply)
    requires Later(first, was) && Moves(t, was, next, reply)
    ensures Later(first, next)
  {
  }

  /** Any run of chunks, queries, finishes, aborts, expiries and crashes, for slices of one
      payload in any order: the staging file is always a prefix of the payload, at most one
      publication happens and it is the whole, verified payload, and a finish that was
      confirmed is what every later reply confirms. */
  lemma UploadIsSafe(t: Terms, payload: Bytes, ops: seq<Op>, replies: seq<Reply>, states: seq<State>)
    requires Uploading(t, payload, ops, replies, states)
    ensures forall n :: 0 <= n <= |ops| ==> Whole(t, payload, states[n])
    ensures forall i :: 0 <= i < |ops| && replies[i].Finished? ==>
              && states[i + 1].published == [payload]
              && replies[i].receipt.sha == t.expected && replies[i].receipt.size == |payload|
    ensures forall i, j :: 0 <= i < j < |ops| && replies[i].Finished? ==> StillFinished(replies[i], replies[j])
  {
    hide Step, Moves, Later;
    forall n | 0 <= n <= |ops| ensures Whole(t, payload, states[n]) {
      TraceKeeps(t, payload, ops, replies, states, n);
      WholePayload(t, payload, states[n]);
    }
    forall i | 0 <= i < |ops| && replies[i].Finished?
      ensures states[i + 1].status == Committed
      ensures replies[i].receipt == Receipt(t.expected, |payload|, states[i + 1].replaced)
    {
      TraceKeeps(t, payload, ops, replies, states, i);
      TraceKeeps(t, payload, ops, replies, states, i + 1);
      MovesIs(t, states[i], states[i + 1], replies[i]);
    }
    forall i, j | 0 <= i < j < |ops| && replies[i].Finished? ensures StillFinished(replies[i], replies[j]) {
      TraceGrows(t, payload, ops, replies, states, i + 1, j);
      TraceKeeps(t, payload, ops, replies, states, j);
      TraceKeeps(t, payload, ops, replies, states, j + 1);
      CommittedStays(t, states[i + 1], states[j], states[j + 1], replies[j]);
    }
  }

  /** What is staged is a prefix of the payload; what is published is all of it. */
  ghost predicate Whole(t: Terms, payload: Bytes, s: State) {
    && (s.staging.Some? ==> s.staging.value <= payload)
    && (s.published == [] || (s.published == [payload] && t.sha(payload) == t.expected && s.staging.None?))
    && (s.status == Committed ==> s.published == [payload])
  }

  /** A published prefix of the declared size is the payload. */
  lemma WholePayload(t: Terms, payload: Bytes, s: State)
    requires Sound(t, s) && Carries(s, payload) && t.total == |payload|
    ensures Whole(t, payload, s)
  {
    if s.published != [] {
      var p := s.published[0];
      assert p == payload[..|p|] && s.published == [p];
      assert payload[..|payload|] == payload;
    }
  }

  lemma MovesIs(t: Terms, was: State, next: State, reply: Reply)
    requires Moves(t, was, next, reply)
    ensures reply.Finished? ==>
              next.status == Committed && reply.receipt == Receipt(next.finalSha, t.total, next.replaced)
    ensures NamesOffset(reply) ==>
              OffsetIn(reply) == Received(next) && next.status == Open && (reply.Progressed? ==> next.staging.Some?)
  {
  }

  /** Every reply behind a confirmed finish confirms it. */
  predicate StillFinished(first: Reply, reply: Reply)
    requires first.Finished?
  {
    match reply
    case Finished(receipt) => receipt == first.receipt
    case Told(report) => report.status == Committed
    case Progressed(_) => false
    case Abandoned => false
    case Refused(_) => true
    case Silence => true
  }

  lemma CommittedStays(t: Terms, first: State, was: State, next: State, reply: Reply)
    requires first.status == Committed && Later(first, was) && Moves(t, was, next, reply)
    ensures StillFinished(Finished(Receipt(first.finalSha, t.total, first.replaced)), reply)
  {
  }

  // -------------------------------------------------------- when the offset falls

  /** The server dies behind the removal or renaming of the staging file of an open upload
      and in front of the metadata write. */
  predicate LosesStaging(t: Terms, s: State, op: Op) {
    && s.status == Open && s.staging.Some?
    && match op
       case GiveUp(dies) => dies
       case DiesExpiring(now) => t.expiresAt < now
       case Commit(now, race, later, dies) => dies && !(t.expiresAt < now) && Publishes(t, s, race, later)
       case _ => false
  }

  predicate Dies(op: Op) {
    match op
    case GiveUp(dies) => dies
    case DiesExpiring(_) => true
    case Commit(_, _, _, dies) => dies
    case _ => false
  }

  lemma LostIff(t: Terms, payload: Bytes, was: State, op: Op, reply: Reply, next: State)
    requires Step(t, payload, was, op, reply, next) && was.staging.Some? && next.status == Open
    ensures next.staging.None? <==> LosesStaging(t, was, op)
  {
    hide Taken, Lower, IsDigest, Admits;
  }

  lemma {:induction false} StagingKept(t: Terms, payload: Bytes, ops: seq<Op>, replies: seq<Reply>, states: seq<State>,
                                       i: nat, j: nat)
    requires Uploading(t, payload, ops, replies, states) && i <= j <= |ops|
    requires states[i].staging.Some? && states[j].status == Open
    ensures states[j].staging.None? <==> exists k :: i <= k < j && LosesStaging(t, states[k], ops[k])
    decreases j
  {
    hide Step, LosesStaging, Later;
    if i < j {
      TraceGrows(t, payload, ops, replies, states, j - 1, j);
      LaterIs(states[j - 1], states[j]);
      StagingKept(t, payload, ops, replies, states, i, j - 1);
      if states[j - 1].staging.Some? {
        LostIff(t, payload, states[j - 1], ops[j - 1], replies[j - 1], states[j]);
      }
    }
  }

  lemma LaterIs(was: State, next: State)
    requires Later(was, next)
    ensures next.status == Open ==> was.status == Open
    ensures next.staging.Some? ==> was.staging.Some? && |was.staging.value| <= |next.staging.value|
  {
  }

  /** The offset a client is told of an open upload falls if and only if, since it was told
      more than 0, the server died with the staging file gone and the status still open; and
      then it is 0 for good. */
  lemma OffsetFallsIff(t: Terms, payload: Bytes, ops: seq<Op>, replies: seq<Reply>, states: seq<State>, i: nat, j: nat)
    requires Uploading(t, payload, ops, replies, states) && i < j < |ops|
    requires NamesOffset(replies[i]) && NamesOffset(replies[j])
    ensures OffsetIn(replies[j]) < OffsetIn(replies[i]) <==>
              OffsetIn(replies[i]) > 0 && exists k :: i < k <= j && LosesStaging(t, states[k], ops[k])
    ensures OffsetIn(replies[j]) < OffsetIn(replies[i]) ==>
              forall k :: j <= k < |ops| && NamesOffset(replies[k]) ==> replies[k].Told? && OffsetIn(replies[k]) == 0
  {
    hide Step, Moves, Later, LosesStaging;
    TraceKeeps(t, payload, ops, replies, states, i);
    TraceKeeps(t, payload, ops, replies, states, j);
    MovesIs(t, states[i], states[i + 1], replies[i]);
    MovesIs(t, states[j], states[j + 1], replies[j]);
    TraceGrows(t, payload, ops, replies, states, i + 1, j + 1);
    LaterIs(states[i + 1], states[j + 1]);
    if states[i + 1].staging.Some? {
      StagingKept(t, payload, ops, replies, states, i + 1, j + 1);
    }
    forall k | j <= k < |ops| && NamesOffset(replies[k]) && states[j + 1].staging.None?
      ensures replies[k].Told? && OffsetIn(replies[k]) == 0
    {
      TraceGrows(t, payload, ops, replies, states, j + 1, k + 1);
      LaterIs(states[j + 1], states[k + 1]);
      TraceKeeps(t, payload, ops, replies, states, k);
      MovesIs(t, states[k], states[k + 1], replies[k]);
    }
  }

  /** Without such a death the offset never falls. */
  lemma OffsetNeverFalls(t: Terms, payload: Bytes, ops: seq<Op>, replies: seq<Reply>, states: seq<State>)
    requires Uploading(t, payload, ops, replies, states) && forall k :: 0 <= k < |ops| ==> !Dies(ops[k])
    ensures forall i, j :: 0 <= i < j < |ops| && NamesOffset(replies[i]) && NamesOffset(replies[j]) ==>
              OffsetIn(replies[i]) <= OffsetIn(replies[j])
  {
    hide Step;
    forall i: nat, j: nat | i < j < |ops| && NamesOffset(replies[i]) && NamesOffset(replies[j])
      ensures OffsetIn(replies[i]) <= OffsetIn(replies[j])
    {
      OffsetFallsIff(t, payload, ops, replies, states, i, j);
    }
  }

  /** Every such death, at each of the three places it can strike, is seen as a fall: a client
      that was told of the staged bytes is told 0 next, and that the upload is open. */
  method EveryDeathShows(u: Upload, payload: Bytes, op: Op, now: int)
    returns (before: Report, reply: Reply, after: Report)
    requires LosesStaging(u.terms, u.Present(), op) && !(u.terms.expiresAt < now)
    modifies u
    ensures before == Report(Open, |old(u.staging).value|) && after == Report(Open, 0)
    ensures u.published == old(u.published) + (if op.Commit? then [old(u.staging).value] else [])
  {
    before := u.Query(now);
    ghost var was := u.Present();
    reply := Serve(u, payload, op);
    LostShows(u.terms, payload, was, op, reply, u.Present());
    after := u.Query(now);
  }

  lemma LostShows(t: Terms, payload: Bytes, was: State, op: Op, reply: Reply, next: State)
    requires Step(t, payload, was, op, reply, next) && LosesStaging(t, was, op)
    ensures next.status == Open && next.staging.None?
    ensures next.published == was.published + (if op.Commit? then [was.staging.value] else [])
  {
    hide Admits;
  }

  /** A finish that dies between its rename and the metadata write has published, but the
      upload still reads as open: an abort is accepted although the target was replaced. */
  method AbortAfterLostFinish(u: Upload, now: int) returns (r: Result<(), UploadError>)
    requires u.status == Open && !(u.terms.expiresAt < now) && Publishes(u.terms, u.Present(), None, None)
    modifies u
    ensures r == Ok(()) && u.status == Aborted
    ensures u.published == old(u.published) + [old(u.staging.value)]
    ensures u.target == Some(Entry(Regular, old(u.staging.value)))
  {
    var finished := u.Finish(now, None, None, true);
    r := u.Abort(false);
  }
}
