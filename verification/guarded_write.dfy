/** Guarded publication: the new file is exchanged with the destination in one atomic
    step, the displaced object is verified afterwards, and put back if it is not the
    one whose digest the caller expected. */
module GuardedWrite {
  import opened Octets
  import opened Folders

  // -------------------------------------------------------------------- the request

  datatype WriteError =
    | SymlinkDestination | NotRegular | Exists | BadDigest | Missing
    | Mismatch | Disappeared | Changed | Appeared | SystemError

  /** What other processes do between our system calls, and which of ours fail. */
  datatype Schedule = Schedule(
    start: seq<Step>,               // before the destination is opened for hashing
    reading: seq<seq<Step>>,        // before each piece of it is read
    read: seq<Step>,                // before it is fingerprinted
    accepted: seq<nat>,             // how many bytes each write call takes
    staging: seq<Step>,             // before the commit
    exchanged: seq<Step>,           // before the displaced object is looked at
    opening: seq<Step>,             // before it is opened
    openFails: bool,
    rereading: seq<seq<Step>>,      // before each piece of it is read
    verified: seq<Step>,            // before it is unlinked
    checking: seq<Step>,            // before the ownership check of a roll-back
    returning: seq<Step>,           // between that check and the exchange back
    closing: seq<Step>)             // before the temporary name is unlinked

  /** Nobody else knows the temporary name. */
  predicate Secret(s: Schedule, tmp: string) {
    && Avoids(s.start, tmp) && Avoids(Flatten(s.reading), tmp) && Avoids(s.read, tmp) && Avoids(s.staging, tmp)
    && Avoids(s.exchanged, tmp) && Avoids(s.opening, tmp) && Avoids(Flatten(s.rereading), tmp)
    && Avoids(s.verified, tmp)
    && Avoids(s.checking, tmp) && Avoids(s.returning, tmp) && Avoids(s.closing, tmp)
  }

  /** What a stat call tells an object by. */
  datatype Identity = Identity(id: nat, size: nat, stamp: nat)

  function IdentityOf(w: World, id: nat): Identity
    requires id in w.nodes
  {
    Identity(id, |w.nodes[id].content|, w.nodes[id].stamp)
  }

  function Exchanged(w: World, a: string, b: string): World
    requires a in w.entries && b in w.entries
  {
    w.(entries := w.entries[a := w.entries[b]][b := w.entries[a]])
  }

  /** Renaming `from` over `to`. */
  function Replaced(w: World, from: string, to: string): World
    requires from in w.entries
  {
    w.(entries := (w.entries - {from})[to := w.entries[from]])
  }

  // ------------------------------------------------------------------- the folder

  class Folder {
    var entries: map<string, nat>
    var nodes: map<nat, Node>
    var next: nat
    var clock: nat
    /** The objects whose entries this process has unlinked. */
    ghost var removed: seq<nat>

    function State(): World
      reads this
    {
      World(entries, nodes, next, clock)
    }

    /** Other processes run. */
    method Await(steps: seq<Step>)
      modifies this`entries, this`nodes, this`next, this`clock
      ensures State() == Play(old(State()), steps)
    {
      hide Apply;
      var i := 0;
      assert steps[0..] == steps;
      while i < |steps|
        invariant 0 <= i <= |steps|
        invariant Play(State(), steps[i..]) == Play(old(State()), steps)
      {
        assert steps[i..][0] == steps[i] && steps[i..][1..] == steps[i + 1..];
        var now := Apply(State(), steps[i]);
        entries, nodes, next, clock := now.entries, now.nodes, now.next, now.clock;
        assert State() == now;
        i := i + 1;
      }
    }

    method Unlink(name: string)
      requires name in entries
      modifies this`entries, this`removed
      ensures State() == Without(old(State()), name)
      ensures removed == old(removed) + [old(entries[name])]
    {
      removed := removed + [entries[name]];
      entries := entries - {name};
    }

    /** Reads an open object to its end, piece by piece. */
    method ReadAll(id: nat, turns: seq<seq<Step>>, size: nat) returns (content: Bytes)
      requires size > 0
      modifies this`entries, this`nodes, this`next, this`clock
      ensures content == ReadFrom(old(State()), id, 0, turns, size)
      ensures State() == Play(old(State()), Flatten(turns))
    {
      hide *;
      content := [];
      var k, done := 0, false;
      ghost var was := State();
      ghost var all := ReadFrom(was, id, 0, turns, size);
      assert turns[0..] == turns && [] + all == all;
      while !done
        invariant 0 <= k <= |turns|
        invariant done ==> content == all
        invariant !done ==> content + ReadFrom(State(), id, |content|, turns[k..], size) == all
        invariant Play(State(), Flatten(turns[k..])) == Play(was, Flatten(turns))
        decreases !done, |turns| - k, |ContentAt(State(), id)| - |content|
      {
        ReadStep(State(), id, |content|, turns[k..], size);
        ghost var before, later := content, turns[k..];
        if k < |turns| {
          assert turns[k..][0] == turns[k] && turns[k..][1..] == turns[k + 1..];
          PlayAppend(State(), turns[k], Flatten(turns[k + 1..]));
          Await(turns[k]);
          k := k + 1;
        }
        var piece := PieceAt(ContentAt(State(), id), |content|, size);
        PieceLength(ContentAt(State(), id), |content|, size);
        done := piece == [];
        content := content + piece;
        Reassociate(before, piece, ReadFrom(State(), id, |content|, turns[k..], size));
      }
      Await(Flatten(turns[k..]));
    }
  }

  lemma ReadStep(w: World, id: nat, pos: nat, turns: seq<seq<Step>>, size: nat)
    requires size > 0
    ensures turns != [] ==> Flatten(turns) == turns[0] + Flatten(turns[1..])
    ensures var now := if turns == [] then w else Play(w, turns[0]);
            var rest := if turns == [] then [] else turns[1..];
            var piece := PieceAt(ContentAt(now, id), pos, size);
            ReadFrom(w, id, pos, turns, size) ==
            if piece == [] then [] else piece + ReadFrom(now, id, pos + |piece|, rest, size)
  {
    hide Play;
    if turns == [] {
      var content, piece := ContentAt(w, id), PieceAt(ContentAt(w, id), pos, size);
      if pos <= |content| {
        assert content[pos..] == piece + content[pos + |piece|..];
      }
    }
  }

  lemma PieceLength(content: Bytes, pos: nat, size: nat)
    requires size > 0
    ensures var piece := PieceAt(content, pos, size); piece != [] ==> pos + |piece| <= |content|
  {
  }

  // ------------------------------------------------------------ the guarded commit

  /** What the verification after the exchange goes by; `commit` is the world in which
      the exchange happened. */
  datatype Run = Run(commit: World, looked: World, held: World, reread: Bytes, after: World)

  function RunFrom(commit: World, name: string, tmp: string, s: Schedule, size: nat): Run
    requires name in commit.entries && tmp in commit.entries
  {
    var looked := Play(Exchanged(commit, tmp, name), s.exchanged);
    var held := Play(looked, s.opening);
    Run(commit, looked, held, ReadFrom(held, commit.entries[name], 0, s.rereading, size),
        Play(held, Flatten(s.rereading)))
  }

  /** The displaced object `x` is the fingerprinted one and still has the digest. */
  predicate Passes(run: Run, x: nat, id: Identity, expected: string, s: Schedule, sha: Bytes -> string) {
    && x in run.looked.nodes && run.looked.nodes[x].kind.Regular? && IdentityOf(run.looked, x) == id
    && !s.openFails && x in run.held.nodes
    && sha(run.reread) == expected && IdentityOf(run.held, x) == id
  }

  /** The world in which the verification fails: at the first look, at the failed open, or once
      the object was read again. */
  function FailedIn(run: Run, x: nat, id: Identity, s: Schedule): World {
    if !(x in run.looked.nodes && run.looked.nodes[x].kind.Regular? && IdentityOf(run.looked, x) == id) then run.looked
    else if s.openFails then run.held
    else run.after
  }

  /** No other process wrote to object `x` between two moments. */
  ghost predicate Unwritten(was: World, now: World, x: nat) {
    x in was.nodes && x in now.nodes && now.nodes[x].stamp == was.nodes[x].stamp
  }

  lemma SteadyReadAll(w: World, id: nat, turns: seq<seq<Step>>, size: nat)
    requires Sound(w) && id in w.nodes && size > 0
    ensures var now := Play(w, Flatten(turns));
            && Sound(now) && Later(w, now)
            && (Unwritten(w, now, id) ==> ReadFrom(w, id, 0, turns, size) == w.nodes[id].content)
  {
    SteadyRead(w, id, 0, turns, size);
    assert w.nodes[id].content[0..] == w.nodes[id].content;
  }

  lemma ExchangedSound(w: World, a: string, b: string)
    requires Sound(w) && a in w.entries && b in w.entries
    ensures Sound(Exchanged(w, a, b)) && Later(w, Exchanged(w, a, b))
  {
  }

  lemma RunLater(commit: World, name: string, tmp: string, s: Schedule, size: nat)
    requires Sound(commit) && name in commit.entries && tmp in commit.entries && size > 0
    ensures var run := RunFrom(commit, name, tmp, s, size);
            Later(commit, run.looked) && Later(run.looked, run.held) && Later(run.held, run.after)
            && Sound(run.looked) && Sound(run.held) && Sound(run.after)
  {
    hide Sound, Later, Play;
    var e := Exchanged(commit, tmp, name);
    ExchangedSound(commit, tmp, name);
    var run := RunFrom(commit, name, tmp, s, size);
    PlayLater(e, s.exchanged);
    LaterChain(commit, e, run.looked);
    PlayLater(run.looked, s.opening);
    PlayLater(run.held, Flatten(s.rereading));
  }

  /** What a verified exchange proves about the object it displaced: it is the one that
      was fingerprinted, unchanged since; and it had the expected digest at the instant
      of the exchange, unless other processes wrote to it in place both while it was
      first hashed and while it was hashed again. */
  lemma DisplacedIsExpected(hashed: World, found: World, commit: World, x: nat, name: string, tmp: string,
                            id: Identity, expected: string, s: Schedule, sha: Bytes -> string, size: nat)
    requires Sound(hashed) && x in hashed.nodes && size > 0
    requires Later(hashed, found) && Later(found, commit) && Sound(commit) && name in commit.entries
    requires tmp in commit.entries
    requires x in found.nodes && id == IdentityOf(found, x)
    requires Unwritten(hashed, found, x) ==> sha(hashed.nodes[x].content) == expected
    requires Passes(RunFrom(commit, name, tmp, s, size), commit.entries[name], id, expected, s, sha)
    ensures commit.entries[name] == x && x in commit.nodes && commit.nodes[x] == found.nodes[x]
    ensures var run := RunFrom(commit, name, tmp, s, size);
            Unwritten(hashed, found, x) || Unwritten(run.held, run.after, x) ==>
                sha(commit.nodes[x].content) == expected
  {
    hide Sound, Later, Play, ReadFrom;
    var run := RunFrom(commit, name, tmp, s, size);
    RunLater(commit, name, tmp, s, size);
    LaterChain(commit, run.looked, run.held);
    SameStamp(found, commit, x);
    SameStamp(commit, run.looked, x);
    SameStamp(run.looked, run.held, x);
    SameStamp(hashed, found, x);
    SteadyReadAll(run.held, x, s.rereading, size);
  }

  // ---------------------------------------------------------------------- roll-back

  /** Our object still owns the destination. */
  predicate Owns(w: World, name: string, ours: nat) {
    name in w.entries && w.entries[name] == ours
  }

  /** The worlds of a roll-back: the ownership check, then the exchange back. */
  function CheckedIn(found: World, s: Schedule): World {
    Play(found, s.checking)
  }

  function ReturnedIn(found: World, s: Schedule): World {
    Play(CheckedIn(found, s), s.returning)
  }

  /** How a failed guarded commit ends, from the world in which the failure was found. */
  ghost predicate GivenUp(found: World, final: World, was: seq<nat>, removed: seq<nat>, e: WriteError,
                          name: string, tmp: string, ours: nat, x: nat, s: Schedule)
  {
    var back := ReturnedIn(found, s);
    if !Owns(CheckedIn(found, s), name, ours) then
      && e == Changed && final == CheckedIn(found, s) && removed == was && tmp in final.entries
      && final.entries[tmp] == x
    else if name !in back.entries then
      e == SystemError && final == Without(back, tmp) && removed == was + [x]
    else
      && e == Changed && removed == was + [back.entries[name]]
      && final == Play(Without(back, tmp).(entries := Without(back, tmp).entries[name := x]), s.closing)
  }

  /** Gives up a guarded commit: exchanges back if our object still owns the destination,
      otherwise keeps the displaced object under the temporary name. */
  method GiveUp(folder: Folder, name: string, tmp: string, ours: nat, s: Schedule) returns (e: WriteError)
    requires Sound(folder.State()) && tmp in folder.entries && tmp != name
    requires Avoids(s.checking, tmp) && Avoids(s.returning, tmp) && Avoids(s.closing, tmp)
    modifies folder
    ensures GivenUp(old(folder.State()), folder.State(), old(folder.removed), folder.removed, e, name, tmp, ours,
                    old(folder.entries[tmp]), s)
  {
    hide Play, Sound, Avoids;
    var x := folder.entries[tmp];
    PlayApart(folder.State(), s.checking, tmp);
    folder.Await(s.checking);
    if !(name in folder.entries && folder.entries[name] == ours) {
      return Changed;
    }
    ghost var before := folder.State();
    PlayApart(before, s.returning, tmp);
    folder.Await(s.returning);
    if name !in folder.entries {
      folder.Unlink(tmp);
      return SystemError;
    }
    ghost var back := folder.State();
    folder.entries := folder.entries[tmp := folder.entries[name]][name := x];
    PlayApart(folder.State(), s.closing, tmp);
    assert Without(folder.State(), tmp).entries == Without(back, tmp).entries[name := x];
    folder.Await(s.closing);
    folder.Unlink(tmp);
    return Changed;
  }

  /** The commit of a guarded write. */
  method ExchangeAndVerify(folder: Folder, name: string, tmp: string, ours: nat, id: Identity, expected: string,
                           s: Schedule, sha: Bytes -> string, size: nat)
    returns (r: Result<(), WriteError>, ghost found: World)
    requires Sound(folder.State()) && tmp in folder.entries && folder.entries[tmp] == ours && tmp != name && size > 0
    requires Secret(s, tmp)
    modifies folder
    ensures var c := Play(old(folder.State()), s.staging);
            && tmp in c.entries && c.entries[tmp] == ours
            && (name !in c.entries ==>
                  r == Err(Disappeared) && folder.State() == Without(c, tmp)
                    && folder.removed == old(folder.removed) + [ours])
            && (name in c.entries ==>
                  var run, x := RunFrom(c, name, tmp, s, size), c.entries[name];
                  && (r.Ok? <==> Passes(run, x, id, expected, s, sha))
                  && (r.Ok? ==> !s.openFails)
                  && (r.Ok? ==> folder.State() == Without(Play(run.after, s.verified), tmp)
                                && folder.removed == old(folder.removed) + [x])
                  && (r.Err? ==> found == FailedIn(run, x, id, s)
                                 && GivenUp(found, folder.State(), old(folder.removed), folder.removed, r.error, name,
                                            tmp, ours, x, s)))
  {
    hide Play, Sound, Avoids, ReadFrom, GivenUp;
    SecretParts(s, tmp);
    PlayApart(folder.State(), s.staging, tmp);
    PlayLater(folder.State(), s.staging);
    folder.Await(s.staging);
    if name !in folder.entries {
      folder.Unlink(tmp);
      found := folder.State();
      return Err(Disappeared), found;
    }
    ghost var c := folder.State();
    ghost var run := RunFrom(c, name, tmp, s, size);
    var x := folder.entries[name];
    RunLater(c, name, tmp, s, size);
    folder.entries := folder.entries[tmp := x][name := folder.entries[tmp]];
    assert folder.State() == Exchanged(c, tmp, name);
    PlayApart(folder.State(), s.exchanged, tmp);
    folder.Await(s.exchanged);
    InNodes(folder.State(), tmp);
    assert folder.entries[tmp] == x;
    var info := IdentityOf(folder.State(), x);
    var ok := folder.nodes[x].kind.Regular? && info == id;
    if ok {
      PlayApart(folder.State(), s.opening, tmp);
      folder.Await(s.opening);
      InNodes(folder.State(), tmp);
      ok := !s.openFails;
      if ok {
        info := IdentityOf(folder.State(), x);
        PlayApart(folder.State(), Flatten(s.rereading), tmp);
        var content := folder.ReadAll(x, s.rereading, size);
        ok := sha(content) == expected && info == id;
      }
    }
    found := folder.State();
    if !ok {
      var e := GiveUp(folder, name, tmp, ours, s);
      return Err(e), found;
    }
    PlayApart(folder.State(), s.verified, tmp);
    folder.Await(s.verified);
    folder.Unlink(tmp);
    return Ok(()), found;
  }

  lemma SecretParts(s: Schedule, tmp: string)
    requires Secret(s, tmp)
    ensures Avoids(s.staging, tmp) && Avoids(s.exchanged, tmp) && Avoids(s.opening, tmp)
    ensures Avoids(Flatten(s.rereading), tmp)
    ensures Avoids(s.verified, tmp) && Avoids(s.checking, tmp) && Avoids(s.returning, tmp) && Avoids(s.closing, tmp)
    ensures Avoids(s.start, tmp) && Avoids(Flatten(s.reading), tmp) && Avoids(s.read, tmp)
  {
    hide Avoids;
  }

  lemma InNodes(w: World, name: string)
    requires Sound(w)
    ensures name in w.entries ==> w.entries[name] in w.nodes
  {
  }

  /** After a failed verification only our own object is ever unlinked, if and only if
      our object still owned the destination at the instant of the exchange back, or no
      longer did at the check before it. */
  lemma OnlyOursIsRemoved(found: World, final: World, was: seq<nat>, removed: seq<nat>, e: WriteError,
                          name: string, tmp: string, ours: nat, x: nat, s: Schedule)
    requires GivenUp(found, final, was, removed, e, name, tmp, ours, x, s) && x != ours
    ensures was <= removed
    ensures (forall i :: |was| <= i < |removed| ==> removed[i] == ours) <==>
            (Owns(CheckedIn(found, s), name, ours) ==> Owns(ReturnedIn(found, s), name, ours))
  {
    hide Play;
    if Owns(CheckedIn(found, s), name, ours) {
      assert removed[|was|] == if name in ReturnedIn(found, s).entries then ReturnedIn(found, s).entries[name] else x;
    }
  }

  /** If nothing touches the destination between the check and the exchange back, the
      displaced object is put back under its name or kept under the temporary one. */
  lemma DisplacedIsKept(found: World, final: World, was: seq<nat>, removed: seq<nat>, e: WriteError,
                        name: string, tmp: string, ours: nat, x: nat, s: Schedule)
    requires GivenUp(found, final, was, removed, e, name, tmp, ours, x, s) && x != ours
    requires Avoids(s.returning, name)
    ensures forall i :: |was| <= i < |removed| ==> removed[i] == ours
    ensures e == Changed
    ensures Avoids(s.closing, name) ==>
              if Owns(CheckedIn(found, s), name, ours) then name in final.entries && final.entries[name] == x
              else tmp in final.entries && final.entries[tmp] == x
  {
    hide Play, Avoids;
    PlayApart(CheckedIn(found, s), s.returning, name);
    OnlyOursIsRemoved(found, final, was, removed, e, name, tmp, ours, x, s);
    if Owns(CheckedIn(found, s), name, ours) && Avoids(s.closing, name) {
      var back := ReturnedIn(found, s);
      PlayApart(Without(back, tmp).(entries := Without(back, tmp).entries[name := x]), s.closing, name);
    }
  }

  /** Both writes together do defeat the guard: for every destination and every other
      content with another digest there is a schedule in which the verification passes
      although the object displaced did not have the expected digest. */
  lemma BothWritesSlip(w: World, x: nat, name: string, tmp: string, data: Bytes, other: Bytes, sha: Bytes -> string,
                       size: nat)
    returns (s: Schedule)
    requires Sound(w) && name in w.entries && w.entries[name] == x && w.nodes[x].kind.Regular? && size > 0
    requires name != tmp && tmp !in w.entries && sha(other) != sha(w.nodes[x].content)
    ensures Secret(s, tmp)
    ensures var expected := sha(w.nodes[x].content);
            var found := Play(Play(Play(w, s.start), Flatten(s.reading)), s.read);
            var c := Play(Bound(found, tmp, Regular, data), s.staging);
            && sha(ReadFrom(Play(w, s.start), x, 0, s.reading, size)) == expected
            && x in found.nodes && name in c.entries && c.entries[name] == x && tmp in c.entries && x in c.nodes
            && Passes(RunFrom(c, name, tmp, s, size), x, IdentityOf(found, x), expected, s, sha)
            && sha(c.nodes[x].content) != expected
  {
    var content := w.nodes[x].content;
    var first, second := [Rewrite(x, other)], [Rewrite(x, content)];
    s := Schedule([], [], first, [], [], [], [], false, [second], [], [], [], []);
    var found := PlayOne(w, first[0]);
    var c := Bound(found, tmp, Regular, data);
    var e := Exchanged(c, tmp, name);
    var after := PlayOne(e, second[0]);
    ReadAfterOneTurn(e, x, second, size);
  }

  lemma PlayOne(w: World, step: Step) returns (now: World)
    ensures now == Apply(w, step) == Play(w, [step])
  {
    now := Apply(w, step);
    var rest := [step][1..];
    assert rest == [] && Play(now, rest) == now;
  }

  /** What is written before the first piece is read is all that is read. */
  lemma ReadAfterOneTurn(w: World, x: nat, steps: seq<Step>, size: nat)
    requires size > 0
    ensures ReadFrom(w, x, 0, [steps], size) == ContentAt(Play(w, steps), x)
  {
    hide Play;
    var turns := [steps];
    var content, now := ContentAt(Play(w, steps), x), Play(w, steps);
    var piece := PieceAt(content, 0, size);
    var rest := turns[1..];
    assert rest == [];
    ReadStep(w, x, 0, turns, size);
    assert content == piece + content[|piece|..];
  }

  // --------------------------------------------------------------------- the write

  /** The worlds in which the destination is opened for hashing and fingerprinted. */
  function HashedIn(w: World, s: Schedule): World {
    Play(w, s.start)
  }

  function FoundIn(w: World, s: Schedule): World {
    Play(Play(HashedIn(w, s), Flatten(s.reading)), s.read)
  }

  /** The world in which the new file is committed. */
  function CommitIn(w: World, tmp: string, data: Bytes, s: Schedule): World {
    Play(Bound(w, tmp, Regular, data), s.staging)
  }

  predicate IsKind(w: World, name: string, kind: Kind) {
    name in w.entries && w.entries[name] in w.nodes && w.nodes[w.entries[name]].kind == kind
  }

  /** Hashes the destination and takes its fingerprint. */
  method Fingerprint(folder: Folder, name: string, expected: string, s: Schedule, sha: Bytes -> string, size: nat)
    returns (r: Result<Identity, WriteError>)
    requires Sound(folder.State()) && size > 0
    modifies folder`entries, folder`nodes, folder`next, folder`clock
    ensures Sound(folder.State()) && Later(old(folder.State()), folder.State())
    ensures var h, found := HashedIn(old(folder.State()), s), FoundIn(old(folder.State()), s);
            if name !in h.entries || IsKind(h, name, Symlink) then r == Err(SystemError) && folder.State() == h
            else if !IsKind(h, name, Regular) then r == Err(NotRegular) && folder.State() == h
            else
              var x := h.entries[name];
              && folder.State() == found && x in found.nodes
              && r == if sha(ReadFrom(h, x, 0, s.reading, size)) == expected
                      then Ok(IdentityOf(found, x)) else Err(Mismatch)
  {
    hide Play, Sound, Later, ReadFrom;
    ghost var w := folder.State();
    PlayLater(w, s.start);
    folder.Await(s.start);
    ghost var h := folder.State();
    InNodes(h, name);
    if name !in folder.entries || folder.nodes[folder.entries[name]].kind.Symlink? {
      return Err(SystemError);
    }
    var x := folder.entries[name];
    if !folder.nodes[x].kind.Regular? {
      return Err(NotRegular);
    }
    PlayLater(h, Flatten(s.reading));
    var content := folder.ReadAll(x, s.reading, size);
    ghost var after := folder.State();
    PlayLater(after, s.read);
    folder.Await(s.read);
    LaterChain(w, h, after);
    LaterChain(w, after, folder.State());
    LaterChain(h, after, folder.State());
    SameStamp(h, folder.State(), x);
    var id := IdentityOf(folder.State(), x);
    if sha(content) != expected {
      return Err(Mismatch);
    }
    return Ok(id);
  }

  /** Writes the temporary file; a write call that takes nothing fails it. */
  method Stage(folder: Folder, tmp: string, data: Bytes, accepted: seq<nat>) returns (ok: bool)
    requires tmp !in folder.entries
    modifies folder`entries, folder`nodes, folder`next, folder`clock
    ensures ok ==> folder.State() == Bound(old(folder.State()), tmp, Regular, data)
    ensures !ok ==>
              exists k :: 0 <= k <= |data| && folder.State() == Bound(old(folder.State()), tmp, Regular, data[..k])
    ensures ok <==> !Stalls(accepted, |data|)
  {
    hide Sum, Stalls;
    var ours, stamp := folder.next, folder.clock;
    folder.entries := folder.entries[tmp := ours];
    folder.nodes := folder.nodes[ours := Node(Regular, [], stamp)];
    folder.next, folder.clock := ours + 1, stamp + 1;
    var done, i := 0, 0;
    NothingTaken(accepted);
    while done < |data|
      invariant 0 <= done <= |data| && 0 <= i && (i > |accepted| ==> done == |data|)
      invariant forall j :: 0 <= j < i && j < |accepted| ==> accepted[j] > 0
      invariant i <= |accepted| ==> done == Min(|data|, Sum(accepted[..i]))
      invariant folder.State() == Bound(old(folder.State()), tmp, Regular, data[..done])
      decreases |data| - done
    {
      var written := if i < |accepted| then Min(accepted[i], |data| - done) else |data| - done;
      if i < |accepted| { SumGrows(accepted, i, i + 1); }
      if written <= 0 {
        StallsAt(accepted, |data|, i);
        return false;
      }
      assert data[..done] + data[done..done + written] == data[..done + written];
      folder.nodes := folder.nodes[ours := Node(Regular, data[..done + written], stamp)];
      done, i := done + written, i + 1;
    }
    assert data[..done] == data;
    NeverStalls(accepted, |data|, i);
    return true;
  }

  /** The commit without an expected digest: over whatever is there, or only if nothing is. */
  method Publish(folder: Folder, name: string, tmp: string, overwrite: bool, s: Schedule)
    returns (r: Result<(), WriteError>)
    requires Sound(folder.State()) && tmp in folder.entries && tmp != name && Avoids(s.staging, tmp)
    modifies folder
    ensures var c := Play(old(folder.State()), s.staging);
            && tmp in c.entries && c.entries[tmp] == old(folder.entries[tmp])
            && (r.Ok? <==> name !in c.entries || (overwrite && !IsKind(c, name, Directory)))
            && (r.Ok? ==> folder.State() == Replaced(c, tmp, name) && folder.removed == old(folder.removed))
            && (r.Err? ==> r.error == (if overwrite then SystemError else Appeared)
                           && folder.State() == Without(c, tmp)
                           && folder.removed == old(folder.removed) + [c.entries[tmp]])
  {
    hide Play, Sound, Avoids;
    PlayApart(folder.State(), s.staging, tmp);
    PlayLater(folder.State(), s.staging);
    folder.Await(s.staging);
    InNodes(folder.State(), name);
    if name in folder.entries && (!overwrite || folder.nodes[folder.entries[name]].kind.Directory?) {
      folder.Unlink(tmp);
      return Err(if overwrite then SystemError else Appeared);
    }
    folder.entries := (folder.entries - {tmp})[name := folder.entries[tmp]];
    return Ok(());
  }

  /** The check on an expected digest: 64 characters that read as a hexadecimal integer. */
  predicate LooksLikeDigest(s: string, isHex: string -> bool) {
    |s| == 64 && isHex(s)
  }

  /** The destination was refused before anything was touched. */
  function Refusal(w: World, name: string, overwrite: bool, expected: Option<string>,
                   isHex: string -> bool): Option<WriteError>
    requires name in w.entries ==> w.entries[name] in w.nodes
  {
    if name in w.entries && w.nodes[w.entries[name]].kind.Symlink? then Some(SymlinkDestination)
    else if name in w.entries && !w.nodes[w.entries[name]].kind.Regular? then Some(NotRegular)
    else if name in w.entries && !overwrite then Some(Exists)
    else if expected.None? then None
    else if !LooksLikeDigest(Lower(expected.value), isHex) then Some(BadDigest)
    else if name !in w.entries then Some(Missing)
    else None
  }

  /** The refusals, one by one. */
  lemma RefusalIff(w: World, name: string, overwrite: bool, expected: Option<string>, isHex: string -> bool)
    requires name in w.entries ==> w.entries[name] in w.nodes
    ensures var refusal, there := Refusal(w, name, overwrite, expected, isHex), name in w.entries;
            var kind := if there then w.nodes[w.entries[name]].kind else Regular;
            var bad := expected.Some? && !(|expected.value| == 64 && isHex(Lower(expected.value)));
            && (refusal == Some(SymlinkDestination) <==> kind == Symlink)
            && (refusal == Some(NotRegular) <==> kind == Directory || kind == Special)
            && (refusal == Some(Exists) <==> there && kind == Regular && !overwrite)
            && (refusal == Some(BadDigest) <==> kind == Regular && (there ==> overwrite) && bad)
            && (refusal == Some(Missing) <==> !there && expected.Some? && !bad)
            && (refusal.Some? ==> refusal.value in {SymlinkDestination, NotRegular, Exists, BadDigest, Missing})
  {
  }

  /** The destination could be opened and hashed, and had the expected digest then. */
  predicate Fingerprinted(w: World, name: string, digest: string, s: Schedule, sha: Bytes -> string, size: nat) {
    var h := HashedIn(w, s);
    IsKind(h, name, Regular) && sha(ReadFrom(h, h.entries[name], 0, s.reading, size)) == digest
  }

  /** The world in which the temporary file is created: its number is the next one then. */
  function StagedIn(w: World, expected: Option<string>, s: Schedule): World {
    if expected.Some? then FoundIn(w, s) else w
  }

  /** Seen without the temporary name, the new file appears in one step: other processes
      run, `name` comes to hold the object that held `tmp`, other processes run on. */
  ghost predicate Swapped(w: World, c: World, final: World, name: string, tmp: string, s: Schedule) {
    && name in c.entries && tmp in c.entries
    && final == Play(Without(c, tmp).(entries := Without(c, tmp).entries[name := c.entries[tmp]]),
                     s.exchanged + s.opening + Flatten(s.rereading) + s.verified)
  }

  /** The object displaced in `c` is the one fingerprinted, unchanged since, and had the
      expected digest unless both of its readings were written into. */
  ghost predicate ExpectedDisplaced(w: World, c: World, name: string, tmp: string, expected: string,
                                    s: Schedule, sha: Bytes -> string, size: nat)
    requires name in c.entries && tmp in c.entries
  {
    var x, h, found, run := c.entries[name], HashedIn(w, s), FoundIn(w, s), RunFrom(c, name, tmp, s, size);
    && name in h.entries && h.entries[name] == x && x in found.nodes && x in c.nodes && c.nodes[x] == found.nodes[x]
    && (Unwritten(h, found, x) || Unwritten(run.held, run.after, x) ==> sha(c.nodes[x].content) == expected)
  }

  /** How a write ends, case by case: the answer, the directory and what was unlinked. */
  ghost predicate Ended(w: World, was: seq<nat>, now: World, removed: seq<nat>, r: Result<bool, WriteError>,
                        found: World, name: string, tmp: string, data: Bytes, overwrite: bool,
                        expected: Option<string>, s: Schedule, sha: Bytes -> string, isHex: string -> bool, size: nat)
    requires name in w.entries ==> w.entries[name] in w.nodes
  {
    var refusal := Refusal(w, name, overwrite, expected, isHex);
    var staged := StagedIn(w, expected, s);
    var c := CommitIn(staged, tmp, data, s);
    // Refused: nothing happened.
    if refusal.Some? then r == Err(refusal.value) && now == w && removed == was
    // Not the expected content: only other processes did anything.
    else if expected.Some? && !Fingerprinted(w, name, Lower(expected.value), s, sha, size) then
      var h := HashedIn(w, s);
      && removed == was
      && (if name !in h.entries || IsKind(h, name, Symlink) then r == Err(SystemError) && now == h
          else if !IsKind(h, name, Regular) then r == Err(NotRegular) && now == h
          else r == Err(Mismatch) && now == staged)
    // A failed write: the temporary file is gone again.
    else if Stalls(s.accepted, |data|) then
      && r == Err(SystemError) && removed == was + [staged.next]
      && exists k :: 0 <= k <= |data| && now == Without(Bound(staged, tmp, Regular, data[..k]), tmp)
    else
      && tmp in c.entries && c.entries[tmp] == staged.next
      && if expected.None? then
           // Without a digest the rename succeeds or leaves everything to the others.
           if name in c.entries && (!overwrite || IsKind(c, name, Directory)) then
             && r == Err(if overwrite then SystemError else Appeared)
             && now == Without(c, tmp) && removed == was + [staged.next]
           else r == Ok(name in w.entries) && now == Replaced(c, tmp, name) && removed == was
         else if name !in c.entries then
           r == Err(Disappeared) && now == Without(c, tmp) && removed == was + [staged.next]
         else
           var run, x := RunFrom(c, name, tmp, s, size), c.entries[name];
           var h := HashedIn(w, s);
           && name in h.entries && h.entries[name] in staged.nodes
           && var id := IdentityOf(staged, h.entries[name]);
              if Passes(run, x, id, Lower(expected.value), s, sha) then
                && r == Ok(true) && removed == was + [x] && Swapped(w, c, now, name, tmp, s)
                && ExpectedDisplaced(w, c, name, tmp, Lower(expected.value), s, sha, size)
              else
                && r.Err? && found == FailedIn(run, x, id, s)
                && GivenUp(found, now, was, removed, r.error, name, tmp, staged.next, x, s)
  }

  /** Replaces the file `name` by one that holds `data`. With an expected digest this is
      a compare-and-swap: on success one atomic exchange, with other processes running
      before and after it, took the destination from the fingerprinted object to the new
      file, and the displaced object then had the expected digest unless it was written
      in place during both of its readings. */
  method WriteTextFile(folder: Folder, name: string, tmp: string, data: Bytes, overwrite: bool,
                       expected: Option<string>, s: Schedule, sha: Bytes -> string, isHex: string -> bool, size: nat)
    returns (r: Result<bool, WriteError>, ghost found: World)
    requires Sound(folder.State()) && size > 0
    requires tmp != name && tmp !in folder.entries && Secret(s, tmp)
    modifies folder
    ensures Ended(old(folder.State()), old(folder.removed), folder.State(), folder.removed, r, found, name, tmp, data,
                  overwrite, expected, s, sha, isHex, size)
    // A displaced object that cannot be opened again is never taken for the expected one.
    ensures r.Ok? && expected.Some? ==> !s.openFails
  {
    hide Play, Sound, Avoids, ReadFrom, GivenUp, Secret, Passes, Later;
    ghost var w0 := folder.State();
    found := w0;
    SecretParts(s, tmp);
    InNodes(w0, name);
    var existed := name in folder.entries;
    if existed && folder.nodes[folder.entries[name]].kind.Symlink? {
      return Err(SymlinkDestination), found;
    }
    if existed && !folder.nodes[folder.entries[name]].kind.Regular? {
      return Err(NotRegular), found;
    }
    if existed && !overwrite {
      return Err(Exists), found;
    }
    var digest, id := "", Identity(0, 0, 0);
    if expected.Some? {
      digest := Lower(expected.value);
      if !LooksLikeDigest(digest, isHex) {
        return Err(BadDigest), found;
      }
      if !existed {
        return Err(Missing), found;
      }
      FingerprintApart(w0, tmp, s);
      var taken := Fingerprint(folder, name, digest, s, sha, size);
      if taken.Err? {
        return Err(taken.error), found;
      }
      id := taken.value;
    }
    var ours := folder.next;
    ghost var w := folder.State();
    if expected.None? { LaterSelf(w); }
    OursIsNew(w0, w);
    var staged := Stage(folder, tmp, data, s.accepted);
    if !staged {
      folder.Unlink(tmp);
      return Err(SystemError), found;
    }
    BoundSound(w, tmp, data);
    if expected.Some? {
      var done;
      done, found := ExchangeAndVerify(folder, name, tmp, ours, id, digest, s, sha, size);
      if done.Err? {
        return Err(done.error), found;
      }
      SwappedIs(CommitIn(w, tmp, data, s), name, tmp, s, size);
      SuccessDisplaced(w0, name, tmp, data, id, digest, s, sha, size);
    } else {
      var done := Publish(folder, name, tmp, overwrite, s);
      if done.Err? {
        return Err(done.error), found;
      }
    }
    return Ok(existed), found;
  }

  /** Steps that leave both a name and its object alone. */
  predicate Leaves(steps: seq<Step>, name: string, x: nat) {
    Avoids(steps, name) && Spares(steps, x)
  }

  predicate AllLeave(s: Schedule, name: string, x: nat) {
    && Leaves(s.start, name, x) && Leaves(Flatten(s.reading), name, x) && Leaves(s.read, name, x)
    && Leaves(s.staging, name, x) && Leaves(s.exchanged, name, x) && Leaves(s.opening, name, x)
    && Leaves(Flatten(s.rereading), name, x)
  }

  lemma LeftAlone(w: World, steps: seq<Step>, name: string, x: nat)
    requires Sound(w) && x in w.nodes && Leaves(steps, name, x)
    ensures var now := Play(w, steps);
            && Sound(now) && x in now.nodes && now.nodes[x] == w.nodes[x]
            && (name in now.entries <==> name in w.entries)
            && (name in w.entries ==> now.entries[name] == w.entries[name])
  {
    hide Play, Avoids, Spares, Sound;
    PlayLater(w, steps);
    PlayApart(w, steps, name);
    PlayKeeps(w, steps, x);
  }

  lemma ReadAlone(w: World, turns: seq<seq<Step>>, name: string, x: nat, size: nat)
    requires Sound(w) && x in w.nodes && size > 0 && Leaves(Flatten(turns), name, x)
    ensures ReadFrom(w, x, 0, turns, size) == w.nodes[x].content
  {
    hide Play, Avoids, Spares, Sound, ReadFrom, Later;
    SteadyReadAll(w, x, turns, size);
    LeftAlone(w, Flatten(turns), name, x);
  }

  /** A guarded write with the digest of the destination passes every check as long as nobody
      else touches the destination, whatever else they do. */
  lemma QuietWritePasses(w: World, name: string, tmp: string, data: Bytes, s: Schedule, sha: Bytes -> string, size: nat)
    requires Sound(w) && size > 0 && IsKind(w, name, Regular) && tmp != name && tmp !in w.entries && Secret(s, tmp)
    requires AllLeave(s, name, w.entries[name]) && !s.openFails
    ensures var x, found := w.entries[name], FoundIn(w, s);
            var c, digest := CommitIn(found, tmp, data, s), sha(w.nodes[w.entries[name]].content);
            && Fingerprinted(w, name, digest, s, sha, size) && x in found.nodes
            && name in c.entries && c.entries[name] == x && tmp in c.entries
            && Passes(RunFrom(c, name, tmp, s, size), x, IdentityOf(found, x), digest, s, sha)
  {
    hide Play, Avoids, Spares, Sound, ReadFrom, Leaves;
    var x, h, found := w.entries[name], HashedIn(w, s), FoundIn(w, s);
    SecretParts(s, tmp);
    LeftAlone(w, s.start, name, x);
    ReadAlone(h, s.reading, name, x, size);
    LeftAlone(h, Flatten(s.reading), name, x);
    LeftAlone(Play(h, Flatten(s.reading)), s.read, name, x);
    var b := Bound(found, tmp, Regular, data);
    BoundSound(found, tmp, data);
    OldIsNotNew(found, x);
    LeftAlone(b, s.staging, name, x);
    PlayApart(b, s.staging, tmp);
    var c := CommitIn(found, tmp, data, s);
    ExchangedSound(c, tmp, name);
    var run := RunFrom(c, name, tmp, s, size);
    LeftAlone(Exchanged(c, tmp, name), s.exchanged, name, x);
    LeftAlone(run.looked, s.opening, name, x);
    ReadAlone(run.held, s.rereading, name, x, size);
  }

  lemma OldIsNotNew(w: World, x: nat)
    requires Sound(w) && x in w.nodes
    ensures x != w.next
  {
  }

  lemma BoundSound(w: World, tmp: string, data: Bytes)
    requires Sound(w)
    ensures Sound(Bound(w, tmp, Regular, data)) && Later(w, Bound(w, tmp, Regular, data))
  {
  }

  lemma OursIsNew(was: World, now: World)
    requires Sound(was) && Later(was, now)
    ensures now.next !in was.nodes
  {
  }

  /** Neither hashing nor waiting for it brings the temporary name into being. */
  lemma FingerprintApart(w: World, tmp: string, s: Schedule)
    requires tmp !in w.entries && Secret(s, tmp)
    ensures tmp !in HashedIn(w, s).entries && tmp !in FoundIn(w, s).entries
  {
    hide Play, Avoids;
    PlayApart(w, s.start, tmp);
    PlayApart(HashedIn(w, s), Flatten(s.reading), tmp);
    PlayApart(Play(HashedIn(w, s), Flatten(s.reading)), s.read, tmp);
  }

  lemma SwappedIs(c: World, name: string, tmp: string, s: Schedule, size: nat)
    requires name in c.entries && tmp in c.entries && name != tmp && Secret(s, tmp)
    ensures Without(Play(RunFrom(c, name, tmp, s, size).after, s.verified), tmp) ==
            Play(Without(c, tmp).(entries := Without(c, tmp).entries[name := c.entries[tmp]]),
                 s.exchanged + s.opening + Flatten(s.rereading) + s.verified)
  {
    hide Play, Avoids, ReadFrom;
    var run, e := RunFrom(c, name, tmp, s, size), Exchanged(c, tmp, name);
    PlayAppend(e, s.exchanged, s.opening);
    PlayAppend(e, s.exchanged + s.opening, Flatten(s.rereading));
    PlayAppend(e, s.exchanged + s.opening + Flatten(s.rereading), s.verified);
    var all := s.exchanged + s.opening + Flatten(s.rereading) + s.verified;
    AvoidsAll(s, tmp);
    PlayApart(e, all, tmp);
    assert Without(e, tmp) == Without(c, tmp).(entries := Without(c, tmp).entries[name := c.entries[tmp]]);
  }

  lemma AvoidsAll(s: Schedule, tmp: string)
    requires Secret(s, tmp)
    ensures Avoids(s.exchanged + s.opening + Flatten(s.rereading) + s.verified, tmp)
  {
    hide Names;
  }

  lemma SuccessDisplaced(w: World, name: string, tmp: string, data: Bytes, id: Identity, expected: string,
                         s: Schedule, sha: Bytes -> string, size: nat)
    requires Sound(w) && size > 0
    requires var h := HashedIn(w, s);
             name in h.entries && h.entries[name] in FoundIn(w, s).nodes
             && sha(ReadFrom(h, h.entries[name], 0, s.reading, size)) == expected
             && id == IdentityOf(FoundIn(w, s), h.entries[name])
    requires var c := CommitIn(FoundIn(w, s), tmp, data, s);
             name in c.entries && tmp in c.entries
               && Passes(RunFrom(c, name, tmp, s, size), c.entries[name], id, expected, s, sha)
    ensures ExpectedDisplaced(w, CommitIn(FoundIn(w, s), tmp, data, s), name, tmp, expected, s, sha, size)
  {
    hide Play, Sound, Later, ReadFrom, Passes;
    var h, found, c := HashedIn(w, s), FoundIn(w, s), CommitIn(FoundIn(w, s), tmp, data, s);
    var x := h.entries[name];
    PlayLater(w, s.start);
    InNodes(h, name);
    SteadyReadAll(h, x, s.reading, size);
    var after := Play(h, Flatten(s.reading));
    PlayLater(after, s.read);
    LaterChain(h, after, found);
    SameStamp(h, after, x);
    SameStamp(after, found, x);
    BoundSound(found, tmp, data);
    PlayLater(Bound(found, tmp, Regular, data), s.staging);
    LaterChain(found, Bound(found, tmp, Regular, data), c);
    DisplacedIsExpected(h, found, c, x, name, tmp, id, expected, s, sha, size);
  }

  /** What is published is the whole of `data`, as long as nobody writes to an object
      they cannot name. */
  lemma PublishedContent(w: World, tmp: string, data: Bytes, s: Schedule)
    requires Sound(w) && Avoids(s.staging, tmp) && Spares(s.staging, w.next)
    ensures var c := CommitIn(w, tmp, data, s);
            && tmp in c.entries && c.entries[tmp] == w.next
            && w.next in c.nodes && c.nodes[w.next].content == data && c.nodes[w.next].kind.Regular?
  {
    hide Play, Avoids, Spares, Sound;
    var b := Bound(w, tmp, Regular, data);
    BoundSound(w, tmp, data);
    PlayApart(b, s.staging, tmp);
    PlayKeeps(b, s.staging, w.next);
  }
}
