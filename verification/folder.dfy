/** One directory shared with other processes: entries, the objects they name, and what
    another process can do to them between two of our system calls. */
module Folders {
  import opened Octets

  datatype Kind = Regular | Symlink | Directory | Special

  /** A file system object; `stamp` is its modification time. */
  datatype Node = Node(kind: Kind, content: Bytes, stamp: nat)

  /** Object numbers are never reused, and every write gets a stamp of its own. */
  datatype World = World(entries: map<string, nat>, nodes: map<nat, Node>, next: nat, clock: nat)

  /** One action of another process. */
  datatype Step =
    | Bind(name: string, kind: Kind, content: Bytes)
    | Unbind(name: string)
    | Move(from: string, to: string)
    | Rewrite(id: nat, content: Bytes)

  ghost predicate Sound(w: World) {
    && (forall n :: n in w.entries ==> w.entries[n] in w.nodes)
    && (forall i :: i in w.nodes ==> i < w.next && w.nodes[i].stamp < w.clock)
  }

  /** A new object under `name`, replacing what was there. */
  function Bound(w: World, name: string, kind: Kind, content: Bytes): World {
    World(w.entries[name := w.next], w.nodes[w.next := Node(kind, content, w.clock)], w.next + 1, w.clock + 1)
  }

  function Apply(w: World, step: Step): World {
    match step
    case Bind(name, kind, content) => Bound(w, name, kind, content)
    case Unbind(name) => w.(entries := w.entries - {name})
    case Move(from, to) =>
      if from in w.entries && from != to then w.(entries := (w.entries - {from})[to := w.entries[from]]) else w
    case Rewrite(id, content) =>
      if id in w.nodes && w.nodes[id].kind.Regular?
      then w.(nodes := w.nodes[id := Node(Regular, content, w.clock)], clock := w.clock + 1)
      else w
  }

  function Play(w: World, steps: seq<Step>): World
    decreases |steps|
  {
    if steps == [] then w else Play(Apply(w, steps[0]), steps[1..])
  }

  lemma {:induction false} PlayAppend(w: World, a: seq<Step>, b: seq<Step>)
    ensures Play(w, a + b) == Play(Play(w, a), b)
    decreases |a|
  {
    hide Apply;
    if a == [] {
      assert a + b == b;
    } else {
      assert (a + b)[1..] == a[1..] + b;
      PlayAppend(Apply(w, a[0]), a[1..], b);
    }
  }

  // ------------------------------------------------------------- what steps keep

  /** Objects persist, and an object whose stamp is unchanged is unchanged. */
  ghost predicate Later(was: World, now: World) {
    && was.next <= now.next && was.clock <= now.clock
    && forall i :: i in was.nodes ==>
         && i in now.nodes && now.nodes[i].kind == was.nodes[i].kind
         && was.nodes[i].stamp <= now.nodes[i].stamp
         && (now.nodes[i].stamp == was.nodes[i].stamp ==> now.nodes[i] == was.nodes[i])
  }

  lemma LaterChain(a: World, b: World, c: World)
    requires Later(a, b) && Later(b, c)
    ensures Later(a, c)
  {
  }

  lemma LaterSelf(w: World)
    ensures Later(w, w)
  {
  }

  lemma ApplyLater(w: World, step: Step)
    requires Sound(w)
    ensures Sound(Apply(w, step)) && Later(w, Apply(w, step))
  {
  }

  lemma {:induction false} PlayLater(w: World, steps: seq<Step>)
    requires Sound(w)
    ensures Sound(Play(w, steps)) && Later(w, Play(w, steps))
    decreases |steps|
  {
    hide Apply, Sound, Later;
    if steps == [] {
      LaterSelf(w);
    } else {
      ApplyLater(w, steps[0]);
      PlayLater(Apply(w, steps[0]), steps[1..]);
      LaterChain(w, Apply(w, steps[0]), Play(Apply(w, steps[0]), steps[1..]));
    }
  }

  /** An object found with an earlier stamp has not been written since. */
  lemma SameStamp(was: World, now: World, id: nat)
    requires Later(was, now) && id in was.nodes
    ensures id in now.nodes
    ensures now.nodes[id].stamp == was.nodes[id].stamp ==> now.nodes[id] == was.nodes[id]
    ensures was.nodes[id].stamp <= now.nodes[id].stamp
  {
  }

  // --------------------------------------------------------------- one name apart

  predicate Names(step: Step, name: string) {
    match step
    case Bind(n, _, _) => n == name
    case Unbind(n) => n == name
    case Move(from, to) => from == name || to == name
    case Rewrite(_, _) => false
  }

  predicate Avoids(steps: seq<Step>, name: string) {
    forall i :: 0 <= i < |steps| ==> !Names(steps[i], name)
  }

  function Without(w: World, name: string): World {
    w.(entries := w.entries - {name})
  }

  lemma ApplyApart(w: World, step: Step, name: string)
    requires !Names(step, name)
    ensures Apply(Without(w, name), step) == Without(Apply(w, step), name)
    ensures name in w.entries <==> name in Apply(w, step).entries
    ensures name in w.entries ==> Apply(w, step).entries[name] == w.entries[name]
  {
    var e := w.entries;
    match step {
      case Bind(n, _, _) =>
        var bound: map<string, nat> := e[n := w.next];
        assert (e - {name})[n := w.next] == bound - {name};
      case Unbind(n) => assert e - {name} - {n} == e - {n} - {name};
      case Move(from, to) =>
        if from in e && from != to {
          var moved: map<string, nat> := (e - {from})[to := e[from]];
          assert (e - {name} - {from})[to := e[from]] == moved - {name};
        }
      case Rewrite(_, _) =>
    }
  }

  /** Steps that avoid a name neither see nor change its entry. */
  lemma {:induction false} PlayApart(w: World, steps: seq<Step>, name: string)
    requires Avoids(steps, name)
    ensures Play(Without(w, name), steps) == Without(Play(w, steps), name)
    ensures name in w.entries <==> name in Play(w, steps).entries
    ensures name in w.entries ==> Play(w, steps).entries[name] == w.entries[name]
    decreases |steps|
  {
    if steps != [] {
      hide Apply, Names, Without;
      ApplyApart(w, steps[0], name);
      assert forall i :: 0 <= i < |steps| - 1 ==> steps[1..][i] == steps[i + 1];
      PlayApart(Apply(w, steps[0]), steps[1..], name);
    }
  }

  predicate Spares(steps: seq<Step>, id: nat) {
    forall i :: 0 <= i < |steps| && steps[i].Rewrite? ==> steps[i].id != id
  }

  /** Steps that do not rewrite an object leave it as it is. */
  lemma {:induction false} PlayKeeps(w: World, steps: seq<Step>, id: nat)
    requires Sound(w) && id in w.nodes
    requires Spares(steps, id)
    ensures id in Play(w, steps).nodes && Play(w, steps).nodes[id] == w.nodes[id]
    decreases |steps|
  {
    if steps != [] {
      ApplyLater(w, steps[0]);
      assert steps[0].Rewrite? ==> steps[0].id != id;
      assert Apply(w, steps[0]).nodes[id] == w.nodes[id];
      hide Apply, Sound, Later;
      assert forall i :: 0 <= i < |steps| - 1 ==> steps[1..][i] == steps[i + 1];
      PlayKeeps(Apply(w, steps[0]), steps[1..], id);
    }
  }

  // --------------------------------------------------------------------- reading

  function ContentAt(w: World, id: nat): Bytes {
    if id in w.nodes then w.nodes[id].content else []
  }

  function PieceAt(content: Bytes, pos: nat, size: nat): Bytes {
    if pos <= |content| then content[pos..Min(|content|, pos + size)] else []
  }

  /** What a chunked read of an open object sees: other processes act before each piece. */
  function ReadFrom(w: World, id: nat, pos: nat, turns: seq<seq<Step>>, size: nat): Bytes
    decreases |turns|
  {
    if turns == [] then
      if pos <= |ContentAt(w, id)| then ContentAt(w, id)[pos..] else []
    else
      var now := Play(w, turns[0]);
      var piece := PieceAt(ContentAt(now, id), pos, size);
      if piece == [] then [] else piece + ReadFrom(now, id, pos + |piece|, turns[1..], size)
  }

  /** A read during which the object was not written sees its content. */
  lemma {:induction false} SteadyRead(w: World, id: nat, pos: nat, turns: seq<seq<Step>>, size: nat)
    requires Sound(w) && id in w.nodes && size > 0
    ensures Sound(Play(w, Flatten(turns))) && Later(w, Play(w, Flatten(turns)))
    ensures var now := Play(w, Flatten(turns));
            now.nodes[id].stamp == w.nodes[id].stamp && pos <= |w.nodes[id].content| ==>
              ReadFrom(w, id, pos, turns, size) == w.nodes[id].content[pos..]
    decreases |turns|
  {
    hide Sound, Play, Later, Apply;
    PlayLater(w, Flatten(turns));
    if turns != [] {
      var now := Play(w, turns[0]);
      PlayLater(w, turns[0]);
      SameStamp(w, now, id);
      PlayAppend(w, turns[0], Flatten(turns[1..]));
      SteadyRead(now, id, pos, turns[1..], size);
      SameStamp(now, Play(now, Flatten(turns[1..])), id);
      var piece := PieceAt(ContentAt(now, id), pos, size);
      SteadyRead(now, id, pos + |piece|, turns[1..], size);
      if now.nodes[id] == w.nodes[id] && pos <= |w.nodes[id].content| {
        var content := w.nodes[id].content;
        assert content[pos..] == piece + content[pos + |piece|..];
      }
    }
  }
}
