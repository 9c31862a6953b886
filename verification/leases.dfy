/** Advisory leases: a registry of named resources, each held under a token until it is
    released or expires. */
module Leases {
  import opened Octets

  datatype Lease = Lease(token: nat, resource: string, holder: Option<string>, expiresAt: int)

  datatype LeaseError = BadResource | BadHolder | BadTtl

  datatype Answer = Answer(acquired: bool, token: Option<nat>, holder: Option<string>, expiresAt: int)

  /** The leases still running at `now`. */
  function Running(leases: seq<Lease>, now: int): seq<Lease> {
    if leases == [] then []
    else
      var last := leases[|leases| - 1];
      Running(leases[..|leases| - 1], now) + if last.expiresAt > now then [last] else []
  }

  function Without(leases: seq<Lease>, token: nat): seq<Lease> {
    if leases == [] then []
    else
      var last := leases[|leases| - 1];
      Without(leases[..|leases| - 1], token) + if last.token != token then [last] else []
  }

  /** One lease for a resource, one resource for a token. */
  predicate Distinct(leases: seq<Lease>) {
    forall i, j :: 0 <= i < j < |leases| ==>
        leases[i].resource != leases[j].resource && leases[i].token != leases[j].token
  }

  lemma {:induction false} RunningIs(leases: seq<Lease>, now: int)
    ensures forall l :: l in Running(leases, now) <==> l in leases && l.expiresAt > now
  {
    if leases != [] {
      RunningIs(leases[..|leases| - 1], now);
      assert leases == leases[..|leases| - 1] + [leases[|leases| - 1]];
    }
  }

  lemma {:induction false} RunningKeeps(leases: seq<Lease>, now: int)
    requires Distinct(leases)
    ensures Distinct(Running(leases, now))
    ensures forall l :: l in Running(leases, now) <==> l in leases && l.expiresAt > now
  {
    if leases != [] {
      var most, last := leases[..|leases| - 1], leases[|leases| - 1];
      RunningKeeps(most, now);
      KeptSnoc(most, Running(most, now), last);
      assert leases == most + [last];
    }
  }

  lemma {:induction false} WithoutIs(leases: seq<Lease>, token: nat)
    ensures forall l :: l in Without(leases, token) <==> l in leases && l.token != token
  {
    if leases != [] {
      WithoutIs(leases[..|leases| - 1], token);
      assert leases == leases[..|leases| - 1] + [leases[|leases| - 1]];
    }
  }

  lemma {:induction false} WithoutKeeps(leases: seq<Lease>, token: nat)
    requires Distinct(leases)
    ensures Distinct(Without(leases, token))
    ensures forall l :: l in Without(leases, token) <==> l in leases && l.token != token
  {
    if leases != [] {
      var most, last := leases[..|leases| - 1], leases[|leases| - 1];
      WithoutKeeps(most, token);
      KeptSnoc(most, Without(most, token), last);
      assert leases == most + [last];
    }
  }

  lemma {:induction false} WithoutShrinks(leases: seq<Lease>, token: nat)
    ensures |Without(leases, token)| <= |leases|
    ensures |Without(leases, token)| == |leases| <==> forall l :: l in leases ==> l.token != token
  {
    if leases != [] {
      var most, last := leases[..|leases| - 1], leases[|leases| - 1];
      WithoutShrinks(most, token);
      assert leases == most + [last];
    }
  }

  lemma WithoutStep(leases: seq<Lease>, i: nat, token: nat)
    requires i <= |leases|
    ensures Without(leases[..0], token) == []
    ensures i < |leases| ==>
              Without(leases[..i + 1], token) ==
              Without(leases[..i], token) + if leases[i].token != token then [leases[i]] else []
  {
    if i < |leases| { assert leases[..i + 1][..i] == leases[..i]; }
  }

  lemma KeptSnoc(most: seq<Lease>, kept: seq<Lease>, last: Lease)
    requires Distinct(most + [last]) && Distinct(kept) && forall l :: l in kept ==> l in most
    ensures Distinct(kept + [last]) && Distinct(most)
  {
    var all := most + [last];
    forall i | 0 <= i < |kept| ensures kept[i].resource != last.resource && kept[i].token != last.token {
      assert kept[i] in most;
      var k :| 0 <= k < |most| && most[k] == kept[i];
      assert all[k] == kept[i] && all[|most|] == last;
    }
    forall i, j | 0 <= i < j < |most| ensures most[i].resource != most[j].resource && most[i].token != most[j].token {
      assert all[i] == most[i] && all[j] == most[j];
    }
  }

  // ------------------------------------------------------- what each request does

  /** How names are stripped and measured. */
  datatype Naming = Naming(strip: string -> string, bytesOf: string -> nat)

  predicate BadName(naming: Naming, resource: string) {
    var name := naming.strip(resource);
    name == "" || '\0' in name || naming.bytesOf(name) > 256
  }

  /** The registry file; tokens are never used twice. */
  datatype State = State(leases: seq<Lease>, nextToken: nat)

  ghost predicate Sound(s: State) {
    Distinct(s.leases) && forall l :: l in s.leases ==> l.token < s.nextToken
  }

  /** The lease on `name`, if there is one. */
  predicate IsHolder(leases: seq<Lease>, name: string, held: Option<Lease>) {
    if held.Some? then held.value in leases && held.value.resource == name
    else forall l :: l in leases ==> l.resource != name
  }

  datatype Op =
    | Take(resource: string, holder: Option<string>, ttl: int, later: int)
    | Ask(resource: string)
    | Give(token: nat)

  datatype Reply =
    | Taken(answer: Result<Answer, LeaseError>)
    | Told(held: Result<Option<Lease>, LeaseError>)
    | Gave(released: bool)

  ghost predicate TakeStep(was: State, running: seq<Lease>, name: string, op: Op, held: Option<Lease>,
                           answer: Result<Answer, LeaseError>, next: State)
    requires op.Take?
  {
    if held.Some? then
      answer == Ok(Answer(false, None, held.value.holder, held.value.expiresAt)) && next == was.(leases := running)
    else
      && answer == Ok(Answer(true, Some(was.nextToken), op.holder, op.later + op.ttl))
      && next == State(running + [Lease(was.nextToken, name, op.holder, op.later + op.ttl)], was.nextToken + 1)
  }

  /** A resource is granted unless a running lease holds it; a release ends the running
      lease with its token and no other; whatever is asked, expired leases go. */
  ghost predicate Step(naming: Naming, now: int, was: State, op: Op, reply: Reply, next: State) {
    var running := Running(was.leases, now);
    match op
    case Take(resource, holder, ttl, later) =>
      var name := naming.strip(resource);
      && reply.Taken?
      && (if BadName(naming, resource) then reply.answer == Err(BadResource) && next == was
          else if holder.Some? && naming.bytesOf(holder.value) > 128 then reply.answer == Err(BadHolder) && next == was
          else if ttl < 5 || ttl > 86400 then reply.answer == Err(BadTtl) && next == was
          else
            exists held ::
              IsHolder(running, name, held) && TakeStep(was, running, name, op, held, reply.answer, next))
    case Ask(resource) =>
      && reply.Told?
      && (if BadName(naming, resource) then reply.held == Err(BadResource) && next == was
          else
            && reply.held.Ok? && IsHolder(running, naming.strip(resource), reply.held.value)
            && next == was.(leases := running))
    case Give(token) =>
      && reply == Gave(exists l :: l in running && l.token == token)
      && next == was.(leases := Without(running, token))
  }

  class Registry {
    const naming: Naming
    var leases: seq<Lease>
    var nextToken: nat

    function Stored(): State
      reads this
    {
      State(leases, nextToken)
    }

    constructor (naming: Naming)
      ensures Stored() == State([], 0) && this.naming == naming
    {
      this.naming := naming;
      leases, nextToken := [], 0;
    }

    /** Drops what has expired. */
    method Load(now: int)
      modifies this`leases
      ensures leases == Running(old(leases), now)
    {
      var kept: seq<Lease> := [];
      var i := 0;
      assert leases[..0] == [];
      while i < |leases|
        invariant 0 <= i <= |leases| && leases == old(leases)
        invariant kept == Running(leases[..i], now)
      {
        assert leases[..i + 1][..i] == leases[..i];
        if leases[i].expiresAt > now {
          kept := kept + [leases[i]];
        }
        i := i + 1;
      }
      assert leases[..i] == leases;
      leases := kept;
    }

    method Holder(name: string) returns (held: Option<Lease>)
      ensures IsHolder(leases, name, held)
    {
      var i := 0;
      while i < |leases|
        invariant 0 <= i <= |leases|
        invariant forall j :: 0 <= j < i ==> leases[j].resource != name
      {
        if leases[i].resource == name {
          return Some(leases[i]);
        }
        i := i + 1;
      }
      return None;
    }

    /** Grants the resource unless a running lease holds it; the clock is read again
        (`later`) for the new lease's expiry. */
    method Acquire(resource: string, holder: Option<string>, ttl: int, now: int, later: int)
      returns (r: Result<Answer, LeaseError>)
      modifies this
      ensures Step(naming, now, old(Stored()), Take(resource, holder, ttl, later), Taken(r), Stored())
    {
      hide Running, IsHolder;
      var name := naming.strip(resource);
      if name == "" || '\0' in name || naming.bytesOf(name) > 256 {
        return Err(BadResource);
      }
      if holder.Some? && naming.bytesOf(holder.value) > 128 {
        return Err(BadHolder);
      }
      if ttl < 5 || ttl > 86400 {
        return Err(BadTtl);
      }
      Load(now);
      var held := Holder(name);
      if held.Some? {
        return Ok(Answer(false, None, held.value.holder, held.value.expiresAt));
      }
      var token := nextToken;
      nextToken := token + 1;
      leases := leases + [Lease(token, name, holder, later + ttl)];
      return Ok(Answer(true, Some(token), holder, later + ttl));
    }

    method Status(resource: string, now: int) returns (r: Result<Option<Lease>, LeaseError>)
      modifies this`leases
      ensures Step(naming, now, old(Stored()), Ask(resource), Told(r), Stored())
    {
      var name := naming.strip(resource);
      if name == "" || '\0' in name || naming.bytesOf(name) > 256 {
        return Err(BadResource);
      }
      Load(now);
      var held := Holder(name);
      return Ok(held);
    }

    /** Ends the lease with this token, and no other. */
    method Release(token: nat, now: int) returns (released: bool)
      modifies this`leases
      ensures Step(naming, now, old(Stored()), Give(token), Gave(released), Stored())
    {
      Load(now);
      var remaining := Others(leases, token);
      WithoutShrinks(leases, token);
      released := |remaining| != |leases|;
      leases := remaining;
    }
  }

  method Others(leases: seq<Lease>, token: nat) returns (remaining: seq<Lease>)
    ensures remaining == Without(leases, token)
  {
    remaining := [];
    var i := 0;
    WithoutStep(leases, 0, token);
    while i < |leases|
      invariant 0 <= i <= |leases|
      invariant remaining == Without(leases[..i], token)
    {
      WithoutStep(leases, i, token);
      if leases[i].token != token {
        remaining := remaining + [leases[i]];
      }
      i := i + 1;
    }
    assert leases[..i] == leases;
  }

  // ------------------------------------------------------------------------ runs

  predicate Steady(clock: seq<int>) {
    forall i, j :: 0 <= i < j < |clock| ==> clock[i] <= clock[j]
  }

  /** One reply and one next state for every operation, from the empty registry on. */
  ghost predicate Trace(naming: Naming, clock: seq<int>, ops: seq<Op>, replies: seq<Reply>, states: seq<State>) {
    && |clock| == |ops| == |replies| && |states| == |ops| + 1 && states[0] == State([], 0)
    && forall i :: 0 <= i < |ops| ==> Step(naming, clock[i], states[i], ops[i], replies[i], states[i + 1])
  }

  method Run(naming: Naming, clock: seq<int>, ops: seq<Op>) returns (replies: seq<Reply>, states: seq<State>)
    requires |clock| == |ops|
    ensures Trace(naming, clock, ops, replies, states)
  {
    hide Step;
    var registry := new Registry(naming);
    replies, states := [], [registry.Stored()];
    for i := 0 to |ops|
      invariant fresh(registry) && registry.naming == naming && |states| == i + 1 && states[i] == registry.Stored()
      invariant Trace(naming, clock[..i], ops[..i], replies, states)
    {
      var reply;
      match ops[i] {
        case Take(resource, holder, ttl, later) =>
          var r := registry.Acquire(resource, holder, ttl, clock[i], later);
          reply := Taken(r);
        case Ask(resource) =>
          var r := registry.Status(resource, clock[i]);
          reply := Told(r);
        case Give(token) =>
          var released := registry.Release(token, clock[i]);
          reply := Gave(released);
      }
      assert ops[..i + 1] == ops[..i] + [ops[i]] && clock[..i + 1] == clock[..i] + [clock[i]];
      replies, states := replies + [reply], states + [registry.Stored()];
    }
    assert ops[..|ops|] == ops && clock[..|ops|] == clock;
  }

  // ----------------------------------------------------------------- every trace

  predicate Granted(op: Op, reply: Reply) {
    op.Take? && reply.Taken? && reply.answer.Ok? && reply.answer.value.acquired && reply.answer.value.token.Some?
  }

  /** The lease a granted request made. */
  function LeaseOf(naming: Naming, op: Op, reply: Reply): Lease
    requires Granted(op, reply)
  {
    var answer := reply.answer.value;
    Lease(answer.token.value, naming.strip(op.resource), op.holder, answer.expiresAt)
  }

  predicate ReleasedWithin(ops: seq<Op>, replies: seq<Reply>, token: nat, i: int, j: int)
    requires |replies| == |ops| && 0 <= i <= j <= |ops|
  {
    exists k :: i <= k < j && ops[k] == Give(token) && replies[k] == Gave(true)
  }

  /** A lease stays in the registry until its token is released or it has expired. */
  lemma {:induction false} GrantLasts(naming: Naming, clock: seq<int>, ops: seq<Op>, replies: seq<Reply>,
                                      states: seq<State>, i: nat, n: nat)
    requires Trace(naming, clock, ops, replies, states) && Steady(clock) && i < n <= |ops|
    requires Granted(ops[i], replies[i])
    ensures var lease := LeaseOf(naming, ops[i], replies[i]);
            || ReleasedWithin(ops, replies, lease.token, i + 1, n)
            || (n > i + 1 && lease.expiresAt <= clock[n - 1])
            || lease in states[n].leases
    decreases n
  {
    var lease := LeaseOf(naming, ops[i], replies[i]);
    assert Step(naming, clock[n - 1], states[n - 1], ops[n - 1], replies[n - 1], states[n]);
    hide Trace;
    if n > i + 1 {
      GrantLasts(naming, clock, ops, replies, states, i, n - 1);
      if lease in states[n - 1].leases {
        LeaseStays(naming, clock[n - 1], states[n - 1], ops[n - 1], replies[n - 1], states[n], lease);
      }
    } else {
      GrantStored(naming, clock[i], states[i], ops[i], replies[i], states[n]);
    }
  }

  lemma GrantStored(naming: Naming, now: int, was: State, op: Op, reply: Reply, next: State)
    requires Step(naming, now, was, op, reply, next) && Granted(op, reply)
    ensures LeaseOf(naming, op, reply) in next.leases
    ensures forall l :: l in was.leases && l.expiresAt > now ==> l.resource != naming.strip(op.resource)
  {
    RunningIs(was.leases, now);
    hide Running;
  }

  lemma LeaseStays(naming: Naming, now: int, was: State, op: Op, reply: Reply, next: State, lease: Lease)
    requires Step(naming, now, was, op, reply, next) && lease in was.leases
    ensures (op == Give(lease.token) && reply == Gave(true)) || lease.expiresAt <= now || lease in next.leases
  {
    RunningIs(was.leases, now);
    match op {
      case Give(token) => WithoutIs(Running(was.leases, now), token);
      case _ =>
    }
    hide Running, Without;
  }

  /** Under a clock that never goes back two grants of one resource are separated by a release
      of the first token or by its expiry. */
  lemma GrantsAreExclusive(naming: Naming, clock: seq<int>, ops: seq<Op>, replies: seq<Reply>, states: seq<State>,
                           i: nat, j: nat)
    requires Trace(naming, clock, ops, replies, states) && Steady(clock) && i < j < |ops|
    requires Granted(ops[i], replies[i]) && Granted(ops[j], replies[j])
    requires naming.strip(ops[i].resource) == naming.strip(ops[j].resource)
    ensures var lease := LeaseOf(naming, ops[i], replies[i]);
            ReleasedWithin(ops, replies, lease.token, i + 1, j) || lease.expiresAt <= clock[j]
  {
    GrantLasts(naming, clock, ops, replies, states, i, j);
    assert Step(naming, clock[j], states[j], ops[j], replies[j], states[j + 1]);
    GrantStored(naming, clock[j], states[j], ops[j], replies[j], states[j + 1]);
  }

  /** At every point there is at most one lease for a resource and one resource for a token. */
  lemma {:induction false} LeasesStayDistinct(naming: Naming, clock: seq<int>, ops: seq<Op>, replies: seq<Reply>,
                                              states: seq<State>, n: nat)
    requires Trace(naming, clock, ops, replies, states) && n <= |ops|
    ensures Sound(states[n])
  {
    if n > 0 {
      LeasesStayDistinct(naming, clock, ops, replies, states, n - 1);
      StepKeeps(naming, clock[n - 1], states[n - 1], ops[n - 1], replies[n - 1], states[n]);
    }
  }

  lemma StepKeeps(naming: Naming, now: int, was: State, op: Op, reply: Reply, next: State)
    requires Step(naming, now, was, op, reply, next) && Sound(was)
    ensures Sound(next)
  {
    RunningKeeps(was.leases, now);
    match op {
      case Give(token) => WithoutKeeps(Running(was.leases, now), token);
      case _ =>
    }
    hide Running, Without;
  }

  // ------------------------------------------------------------- told by history

  /** A name as the registry takes it: not empty, without NUL and at most 256 bytes once
      stripped. */
  predicate GoodName(naming: Naming, resource: string) {
    var name := naming.strip(resource);
    name != "" && '\0' !in name && naming.bytesOf(name) <= 256
  }

  predicate WellFormed(naming: Naming, op: Op)
    requires op.Take?
  {
    && GoodName(naming, op.resource) && (op.holder.Some? ==> naming.bytesOf(op.holder.value) <= 128)
    && 5 <= op.ttl <= 86400
  }

  /** The `k`-th request was granted, has not expired `at` that time, and was not released by
      any request up to the `n`-th. */
  predicate InForce(ops: seq<Op>, replies: seq<Reply>, k: nat, n: nat, at: int)
    requires k < n <= |ops| == |replies|
  {
    && Granted(ops[k], replies[k]) && ops[k].later + ops[k].ttl > at
    && !ReleasedWithin(ops, replies, replies[k].answer.value.token.value, k + 1, n)
  }

  /** The lease that a granted request was promised. */
  function Promised(naming: Naming, op: Op, reply: Reply): Lease
    requires Granted(op, reply)
  {
    Lease(reply.answer.value.token.value, naming.strip(op.resource), op.holder, op.later + op.ttl)
  }

  lemma GrantPromises(naming: Naming, now: int, was: State, op: Op, reply: Reply, next: State)
    requires Step(naming, now, was, op, reply, next)
    ensures Granted(op, reply) ==>
              && Promised(naming, op, reply) == LeaseOf(naming, op, reply) && WellFormed(naming, op)
              && next.leases == Running(was.leases, now) + [Promised(naming, op, reply)]
              && reply.answer == Ok(Answer(true, Some(was.nextToken), op.holder, op.later + op.ttl))
    ensures !Granted(op, reply) && !op.Give? ==> next.leases == was.leases || next.leases == Running(was.leases, now)
    ensures was.nextToken <= next.nextToken && (Granted(op, reply) ==> was.nextToken < next.nextToken)
  {
    hide Running, IsHolder;
  }

  /** What is stored at any point and has not expired are the leases in force. */
  lemma {:induction false} StoredIsInForce(naming: Naming, clock: seq<int>, ops: seq<Op>, replies: seq<Reply>,
                                           states: seq<State>, n: nat, at: int, l: Lease)
    returns (k: nat)
    requires Trace(naming, clock, ops, replies, states) && n <= |ops| && (n > 0 ==> clock[n - 1] <= at)
    requires Steady(clock) && l in states[n].leases && l.expiresAt > at
    ensures k < n && InForce(ops, replies, k, n, at) && l == Promised(naming, ops[k], replies[k])
    decreases n
  {
    var op, reply, was := ops[n - 1], replies[n - 1], states[n - 1];
    assert Step(naming, clock[n - 1], was, op, reply, states[n]);
    hide Step;
    if Granted(op, reply) && l == Promised(naming, op, reply) {
      k := n - 1;
    } else {
      WasStored(naming, clock[n - 1], was, op, reply, states[n], l);
      k := StoredIsInForce(naming, clock, ops, replies, states, n - 1, at, l);
      StillInForce(ops, replies, k, n - 1, at);
    }
  }

  lemma WasStored(naming: Naming, now: int, was: State, op: Op, reply: Reply, next: State, l: Lease)
    requires Step(naming, now, was, op, reply, next) && l in next.leases && l.expiresAt > now
    requires !(Granted(op, reply) && l == Promised(naming, op, reply))
    ensures l in was.leases && op != Give(l.token)
  {
    GrantPromises(naming, now, was, op, reply, next);
    RunningIs(was.leases, now);
    if op.Give? { WithoutIs(Running(was.leases, now), op.token); }
    hide Running, Without, IsHolder;
  }

  lemma StillInForce(ops: seq<Op>, replies: seq<Reply>, k: nat, n: nat, at: int)
    requires k < n < |ops| == |replies| && InForce(ops, replies, k, n, at)
    requires ops[n] != Give(replies[k].answer.value.token.value)
    ensures InForce(ops, replies, k, n + 1, at)
  {
  }

  lemma InForceIsStored(naming: Naming, clock: seq<int>, ops: seq<Op>, replies: seq<Reply>, states: seq<State>,
                        k: nat, n: nat, at: int)
    requires Trace(naming, clock, ops, replies, states) && Steady(clock) && k < n <= |ops|
    requires clock[n - 1] <= at && InForce(ops, replies, k, n, at)
    ensures Promised(naming, ops[k], replies[k]) in states[n].leases
  {
    assert Step(naming, clock[k], states[k], ops[k], replies[k], states[k + 1]);
    GrantPromises(naming, clock[k], states[k], ops[k], replies[k], states[k + 1]);
    GrantLasts(naming, clock, ops, replies, states, k, n);
  }

  /** Some lease in force when the `n`-th request comes is on `name`. */
  ghost predicate Held(naming: Naming, clock: seq<int>, ops: seq<Op>, replies: seq<Reply>, n: nat, name: string)
    requires n < |clock| == |ops| == |replies|
  {
    exists k: nat :: k < n && InForce(ops, replies, k, n, clock[n]) && naming.strip(ops[k].resource) == name
  }

  /** Under a clock that never goes back every answer follows from the requests before it: a
      well-formed one is granted, for its time to live and under a new token, if and only if no
      lease on the name is in force, and otherwise told whose is and until when. */
  lemma TakeIsTold(naming: Naming, clock: seq<int>, ops: seq<Op>, replies: seq<Reply>, states: seq<State>, n: nat)
    requires Trace(naming, clock, ops, replies, states) && Steady(clock) && n < |ops| && ops[n].Take?
    ensures replies[n].Taken?
    ensures var op, answer := ops[n], replies[n].answer;
            if !WellFormed(naming, op) then
              answer == Err(if !GoodName(naming, op.resource) then BadResource
                            else if op.holder.Some? && naming.bytesOf(op.holder.value) > 128 then BadHolder
                            else BadTtl)
            else
              && answer.Ok?
              && (answer.value.acquired <==> !Held(naming, clock, ops, replies, n, naming.strip(op.resource)))
              && (answer.value.acquired ==>
                    && answer.value.token.Some? && answer.value.holder == op.holder
                    && answer.value.expiresAt == op.later + op.ttl
                    && (forall k: nat :: k < n && Granted(ops[k], replies[k]) ==>
                          replies[k].answer.value.token != answer.value.token))
              && (!answer.value.acquired ==>
                    exists k: nat :: k < n && InForce(ops, replies, k, n, clock[n])
                      && naming.strip(ops[k].resource) == naming.strip(op.resource)
                      && answer.value == Answer(false, None, ops[k].holder, ops[k].later + ops[k].ttl))
  {
    var op, was := ops[n], states[n];
    assert Step(naming, clock[n], was, op, replies[n], states[n + 1]);
    GrantPromises(naming, clock[n], was, op, replies[n], states[n + 1]);
    RunningIs(was.leases, clock[n]);
    if WellFormed(naming, op) {
      var name := naming.strip(op.resource);
      var held :| IsHolder(Running(was.leases, clock[n]), name, held)
                  && TakeStep(was, Running(was.leases, clock[n]), name, op, held, replies[n].answer, states[n + 1]);
      if held.Some? {
        var k := StoredIsInForce(naming, clock, ops, replies, states, n, clock[n], held.value);
        assert InForce(ops, replies, k, n, clock[n]);
      } else {
        forall k: nat | k < n && InForce(ops, replies, k, n, clock[n])
          ensures naming.strip(ops[k].resource) != name
        {
          InForceIsStored(naming, clock, ops, replies, states, k, n, clock[n]);
        }
        forall k: nat | k < n && Granted(ops[k], replies[k])
          ensures replies[k].answer.value.token.value < was.nextToken
        {
          TokenUsed(naming, clock, ops, replies, states, k, n);
        }
      }
    }
  }

  lemma {:induction false} TokenUsed(naming: Naming, clock: seq<int>, ops: seq<Op>, replies: seq<Reply>,
                                     states: seq<State>, k: nat, n: nat)
    requires Trace(naming, clock, ops, replies, states) && k < n <= |ops| && Granted(ops[k], replies[k])
    ensures replies[k].answer.value.token.value < states[n].nextToken
    decreases n
  {
    assert Step(naming, clock[n - 1], states[n - 1], ops[n - 1], replies[n - 1], states[n]);
    GrantPromises(naming, clock[n - 1], states[n - 1], ops[n - 1], replies[n - 1], states[n]);
    if k < n - 1 { TokenUsed(naming, clock, ops, replies, states, k, n - 1); }
  }

  /** Who asks for a name is told the lease in force on it, if there is one; a release is
      confirmed if and only if a lease with the token is in force. */
  lemma AskAndGiveAreTold(naming: Naming, clock: seq<int>, ops: seq<Op>, replies: seq<Reply>, states: seq<State>,
                          n: nat)
    requires Trace(naming, clock, ops, replies, states) && Steady(clock) && n < |ops| && !ops[n].Take?
    ensures ops[n].Ask? ==>
              && replies[n].Told?
              && (if !GoodName(naming, ops[n].resource) then replies[n].held == Err(BadResource)
                  else
                    && replies[n].held.Ok?
                    && (replies[n].held.value.Some? <==>
                          Held(naming, clock, ops, replies, n, naming.strip(ops[n].resource)))
                    && (replies[n].held.value.Some? ==>
                          exists k: nat :: k < n && InForce(ops, replies, k, n, clock[n])
                            && naming.strip(ops[k].resource) == naming.strip(ops[n].resource)
                            && replies[n].held.value.value == Promised(naming, ops[k], replies[k])))
    ensures ops[n].Give? ==>
              (replies[n] == Gave(true) <==>
                 exists k: nat :: k < n && InForce(ops, replies, k, n, clock[n])
                   && replies[k].answer.value.token == Some(ops[n].token))
              && (replies[n] == Gave(true) || replies[n] == Gave(false))
  {
    var op, was := ops[n], states[n];
    assert Step(naming, clock[n], was, op, replies[n], states[n + 1]);
    RunningIs(was.leases, clock[n]);
    forall k: nat | k < n && InForce(ops, replies, k, n, clock[n])
      ensures Promised(naming, ops[k], replies[k]) in was.leases
    {
      InForceIsStored(naming, clock, ops, replies, states, k, n, clock[n]);
    }
    forall l | l in was.leases && l.expiresAt > clock[n]
      ensures exists k: nat ::
                k < n && InForce(ops, replies, k, n, clock[n]) && l == Promised(naming, ops[k], replies[k])
    {
      var k := StoredIsInForce(naming, clock, ops, replies, states, n, clock[n], l);
      assert InForce(ops, replies, k, n, clock[n]);
    }
  }
}
