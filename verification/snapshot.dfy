/** Snapshots: a bounded copy of files and directories, and putting that copy back. */
module Snapshots {
  import opened Octets

  datatype Node = File(content: Bytes) | Dir(entries: map<string, Node>) | Link | Special

  /** The names from the root down. */
  type Path = seq<string>

  datatype SnapshotError =
    | BadCount | BadLimits | Duplicate | NotFound | IsLink | IsSpecial | TooManyNodes | TooManyBytes | NoParent

  datatype Entry = Entry(path: Path, node: Node)

  datatype Snapshot = Snapshot(entries: seq<Entry>, totalBytes: nat, totalNodes: nat)

  /** Lists the names in a directory, each once. */
  ghost predicate Lists(listing: set<string> -> seq<string>) {
    forall names :: InListing(listing(names), names)
  }

  ghost predicate InListing(list: seq<string>, names: set<string>) {
    && (forall n :: n in list <==> n in names)
    && (forall i, j :: 0 <= i < j < |list| ==> list[i] != list[j])
  }

  // ------------------------------------------------------------------------ measures

  /** Only files and directories, all the way down. */
  predicate Plain(n: Node) {
    match n
    case File(_) => true
    case Dir(entries) => forall k :: k in entries ==> Plain(entries[k])
    case Link => false
    case Special => false
  }

  ghost function NodesIn(n: Node, listing: set<string> -> seq<string>): nat
    decreases n, 1, 0
  {
    match n
    case Dir(entries) => 1 + NodesUnder(n, listing(entries.Keys), listing)
    case _ => 1
  }

  ghost function NodesUnder(d: Node, names: seq<string>, listing: set<string> -> seq<string>): nat
    requires d.Dir?
    decreases d, 0, |names|
  {
    if names == [] then 0
    else
      var last := names[|names| - 1];
      NodesUnder(d, names[..|names| - 1], listing) + if last in d.entries then NodesIn(d.entries[last], listing) else 0
  }

  ghost function BytesIn(n: Node, listing: set<string> -> seq<string>): nat
    decreases n, 1, 0
  {
    match n
    case File(content) => |content|
    case Dir(entries) => BytesUnder(n, listing(entries.Keys), listing)
    case _ => 0
  }

  ghost function BytesUnder(d: Node, names: seq<string>, listing: set<string> -> seq<string>): nat
    requires d.Dir?
    decreases d, 0, |names|
  {
    if names == [] then 0
    else
      var last := names[|names| - 1];
      BytesUnder(d, names[..|names| - 1], listing) + if last in d.entries then BytesIn(d.entries[last], listing) else 0
  }

  lemma DirMeasures(d: Node, listing: set<string> -> seq<string>)
    requires d.Dir?
    ensures NodesIn(d, listing) == 1 + NodesUnder(d, listing(d.entries.Keys), listing)
    ensures BytesIn(d, listing) == BytesUnder(d, listing(d.entries.Keys), listing)
    ensures NodesUnder(d, [], listing) == 0 == BytesUnder(d, [], listing)
    ensures Plain(d) <==> forall k :: k in d.entries ==> Plain(d.entries[k])
  {
  }

  lemma UnderSnoc(d: Node, names: seq<string>, name: string, listing: set<string> -> seq<string>)
    requires d.Dir? && name in d.entries
    ensures NodesUnder(d, names + [name], listing) == NodesUnder(d, names, listing) + NodesIn(d.entries[name], listing)
    ensures BytesUnder(d, names + [name], listing) == BytesUnder(d, names, listing) + BytesIn(d.entries[name], listing)
  {
    assert (names + [name])[..|names|] == names;
  }

  lemma {:induction false} UnderGrows(d: Node, names: seq<string>, k: nat, listing: set<string> -> seq<string>)
    requires d.Dir? && k <= |names|
    ensures NodesUnder(d, names[..k], listing) <= NodesUnder(d, names, listing)
    ensures BytesUnder(d, names[..k], listing) <= BytesUnder(d, names, listing)
    decreases |names|
  {
    if k == |names| {
      assert names[..k] == names;
    } else {
      assert names[..|names| - 1][..k] == names[..k];
      UnderGrows(d, names[..|names| - 1], k, listing);
    }
  }

  /** Two orders of listing a directory make no difference to its measures. */
  lemma {:induction false} MeasuresAgree(n: Node, a: set<string> -> seq<string>, b: set<string> -> seq<string>)
    requires Lists(a) && Lists(b)
    ensures NodesIn(n, a) == NodesIn(n, b) && BytesIn(n, a) == BytesIn(n, b)
    decreases n, 1, 0
  {
    if n.Dir? {
      var keys := n.entries.Keys;
      assert InListing(a(keys), keys) && InListing(b(keys), keys);
      hide Lists;
      UnderAgrees(n, a(keys), b(keys), keys, a, b);
      DirMeasures(n, a);
      DirMeasures(n, b);
    }
  }

  lemma {:induction false} UnderAgrees(d: Node, xs: seq<string>, ys: seq<string>, names: set<string>,
                                       a: set<string> -> seq<string>, b: set<string> -> seq<string>)
    requires Lists(a) && Lists(b) && d.Dir? && names <= d.entries.Keys && InListing(xs, names) && InListing(ys, names)
    ensures NodesUnder(d, xs, a) == NodesUnder(d, ys, b) && BytesUnder(d, xs, a) == BytesUnder(d, ys, b)
    decreases d, 0, |xs|
  {
    hide Lists, NodesIn, BytesIn, NodesUnder, BytesUnder;
    DirMeasures(d, a);
    DirMeasures(d, b);
    SomeName(ys, names);
    if xs == [] {
      assert names == {};
    } else {
      var x := xs[|xs| - 1];
      assert x in ys;
      var j :| 0 <= j < |ys| && ys[j] == x;
      ListingWithout(xs, |xs| - 1, names);
      ListingWithout(ys, j, names);
      UnderAgrees(d, xs[..|xs| - 1], ys[..j] + ys[j + 1..], names - {x}, a, b);
      MeasuresAgree(d.entries[x], a, b);
      assert xs == xs[..|xs| - 1] + [x] && xs[..|xs| - 1] + xs[|xs|..] == xs[..|xs| - 1];
      UnderSnoc(d, xs[..|xs| - 1], x, a);
      UnderWithout(d, ys, j, b);
    }
  }

  lemma SomeName(xs: seq<string>, names: set<string>)
    requires InListing(xs, names)
    ensures xs == [] || names != {}
  {
    if xs != [] { assert xs[0] in names; }
  }

  lemma ListingWithout(xs: seq<string>, j: nat, names: set<string>)
    requires InListing(xs, names) && j < |xs|
    ensures InListing(xs[..j] + xs[j + 1..], names - {xs[j]})
  {
    var rest := xs[..j] + xs[j + 1..];
    assert forall i :: 0 <= i < |rest| ==> rest[i] == if i < j then xs[i] else xs[i + 1];
    forall n | n in names - {xs[j]} ensures n in rest {
      var i :| 0 <= i < |xs| && xs[i] == n;
      assert rest[if i < j then i else i - 1] == n;
    }
  }

  lemma {:induction false} UnderWithout(d: Node, xs: seq<string>, j: nat, listing: set<string> -> seq<string>)
    requires d.Dir? && j < |xs| && forall i :: 0 <= i < |xs| ==> xs[i] in d.entries
    ensures NodesUnder(d, xs, listing) ==
            NodesUnder(d, xs[..j] + xs[j + 1..], listing) + NodesIn(d.entries[xs[j]], listing)
    ensures BytesUnder(d, xs, listing) ==
            BytesUnder(d, xs[..j] + xs[j + 1..], listing) + BytesIn(d.entries[xs[j]], listing)
    decreases |xs|
  {
    hide NodesUnder, BytesUnder, NodesIn, BytesIn;
    var most, last := xs[..|xs| - 1], xs[|xs| - 1];
    assert xs == most + [last];
    UnderSnoc(d, most, last, listing);
    if j == |xs| - 1 {
      assert xs[..j] + xs[j + 1..] == most;
    } else {
      UnderWithout(d, most, j, listing);
      assert xs[..j] + xs[j + 1..] == (most[..j] + most[j + 1..]) + [last];
      UnderSnoc(d, most[..j] + most[j + 1..], last, listing);
    }
  }

  // ------------------------------------------------------------------------- budget

  class SnapshotBudget {
    const maxBytes: nat
    const maxNodes: nat
    var bytes: nat
    var nodes: nat

    constructor (maxBytes: nat, maxNodes: nat)
      ensures this.maxBytes == maxBytes && this.maxNodes == maxNodes && bytes == 0 && nodes == 0
    {
      this.maxBytes, this.maxNodes, bytes, nodes := maxBytes, maxNodes, 0, 0;
    }

    predicate Within()
      reads this
    {
      nodes <= maxNodes && bytes <= maxBytes
    }

    method AddNode() returns (ok: bool)
      modifies this`nodes
      ensures nodes == old(nodes) + 1 && (ok <==> nodes <= maxNodes)
    {
      nodes := nodes + 1;
      ok := nodes <= maxNodes;
    }

    method AddBytes(count: nat) returns (ok: bool)
      modifies this`bytes
      ensures bytes == old(bytes) + count && (ok <==> bytes <= maxBytes)
    {
      bytes := bytes + count;
      ok := bytes <= maxBytes;
    }
  }

  /** `node` can be copied within what is left of the budget. */
  ghost predicate Affordable(node: Node, nodes: nat, bytes: nat, maxNodes: nat, maxBytes: nat,
                             listing: set<string> -> seq<string>) {
    Plain(node) && nodes + NodesIn(node, listing) <= maxNodes && bytes + BytesIn(node, listing) <= maxBytes
  }

  lemma AffordableIs(node: Node, nodes: nat, bytes: nat, maxNodes: nat, maxBytes: nat,
                     listing: set<string> -> seq<string>)
    ensures Affordable(node, nodes, bytes, maxNodes, maxBytes, listing) <==>
            Plain(node) && nodes + NodesIn(node, listing) <= maxNodes && bytes + BytesIn(node, listing) <= maxBytes
  {
  }

  /** What has been copied of a directory. */
  ghost predicate Copied(copied: map<string, Node>, d: Node, names: seq<string>) {
    && d.Dir? && (forall n :: n in copied <==> n in names)
    && (forall n :: n in copied ==> n in d.entries && copied[n] == d.entries[n] && Plain(d.entries[n]))
  }

  lemma ListedAt(d: Node, listing: set<string> -> seq<string>, i: nat)
    requires d.Dir? && Lists(listing) && i < |listing(d.entries.Keys)|
    ensures listing(d.entries.Keys)[i] in d.entries
    ensures var names := listing(d.entries.Keys); names[..i + 1] == names[..i] + [names[i]]
  {
    var names := listing(d.entries.Keys);
    assert InListing(names, d.entries.Keys) && names[i] in names;
  }

  lemma WholeList(names: seq<string>)
    ensures names[..|names|] == names && names[..0] == []
  {
  }

  lemma NothingCopied(d: Node)
    requires d.Dir?
    ensures Copied(map[], d, [])
  {
  }

  lemma CopiedSnoc(copied: map<string, Node>, d: Node, names: seq<string>, name: string)
    requires Copied(copied, d, names) && name in d.entries && Plain(d.entries[name])
    ensures Copied(copied[name := d.entries[name]], d, names + [name])
  {
    hide Plain;
  }

  lemma CopiedAll(copied: map<string, Node>, d: Node, names: seq<string>, listing: set<string> -> seq<string>)
    requires Copied(copied, d, names) && Lists(listing) && names == listing(d.entries.Keys)
    ensures copied == d.entries && Plain(d)
  {
    assert InListing(names, d.entries.Keys);
    assert Plain(d) <==> forall k :: k in d.entries ==> Plain(d.entries[k]);
    hide Plain, Lists;
    assert forall k :: k in d.entries ==> k in names;
  }

  /** Copies a file or a directory tree: the copy is complete and counted, and it is made
      exactly when it holds nothing else and fits. */
  method CopyNode(source: Node, budget: SnapshotBudget, listing: set<string> -> seq<string>)
    returns (r: Result<Node, SnapshotError>)
    requires Lists(listing) && budget.Within()
    modifies budget
    ensures r.Ok? <==>
              Affordable(source, old(budget.nodes), old(budget.bytes), budget.maxNodes, budget.maxBytes, listing)
    ensures r.Ok? ==>
              && r.value == source && budget.Within()
              && budget.nodes == old(budget.nodes) + NodesIn(source, listing)
              && budget.bytes == old(budget.bytes) + BytesIn(source, listing)
    decreases source, 1
  {
    match source {
      case Link => return Err(IsLink);
      case Special => return Err(IsSpecial);
      case File(content) =>
        var ok := budget.AddNode();
        if !ok {
          return Err(TooManyNodes);
        }
        ok := budget.AddBytes(|content|);
        if !ok {
          return Err(TooManyBytes);
        }
        return Ok(File(content));
      case Dir(entries) =>
        r := CopyTree(source, budget, listing);
    }
  }

  method CopyTree(source: Node, budget: SnapshotBudget, listing: set<string> -> seq<string>)
    returns (r: Result<Node, SnapshotError>)
    requires Lists(listing) && budget.Within() && source.Dir?
    modifies budget
    ensures r.Ok? <==>
              Affordable(source, old(budget.nodes), old(budget.bytes), budget.maxNodes, budget.maxBytes, listing)
    ensures r.Ok? ==>
              && r.value == source && budget.Within()
              && budget.nodes == old(budget.nodes) + NodesIn(source, listing)
              && budget.bytes == old(budget.bytes) + BytesIn(source, listing)
    decreases source, 0
  {
    AffordableIs(source, budget.nodes, budget.bytes, budget.maxNodes, budget.maxBytes, listing);
    var entries := source.entries;
    var names := listing(entries.Keys);
    hide NodesIn, BytesIn, NodesUnder, BytesUnder, Plain, Copied, Lists, InListing, Affordable;
    DirMeasures(source, listing);
    NothingCopied(source);
    WholeList(names);
    var ok := budget.AddNode();
    if !ok {
      return Err(TooManyNodes);
    }
    var copied: map<string, Node> := map[];
    var i := 0;
    while i < |names|
      invariant 0 <= i <= |names| && budget.Within()
      invariant budget.nodes == old(budget.nodes) + 1 + NodesUnder(source, names[..i], listing)
      invariant budget.bytes == old(budget.bytes) + BytesUnder(source, names[..i], listing)
      invariant Copied(copied, source, names[..i])
    {
      var name := names[i];
      ListedAt(source, listing, i);
      UnderSnoc(source, names[..i], name, listing);
      UnderGrows(source, names, i + 1, listing);
      AffordableIs(entries[name], budget.nodes, budget.bytes, budget.maxNodes, budget.maxBytes, listing);
      var child := CopyNode(entries[name], budget, listing);
      if child.Err? {
        return Err(child.error);
      }
      CopiedSnoc(copied, source, names[..i], name);
      copied := copied[name := child.value];
      i := i + 1;
    }
    WholeList(names);
    CopiedAll(copied, source, names, listing);
    return Ok(Dir(copied));
  }

  // -------------------------------------------------------------------------- paths

  function Lookup(t: Node, path: Path): Option<Node>
    decreases |path|
  {
    if path == [] then Some(t)
    else if t.Dir? && path[0] in t.entries then Lookup(t.entries[path[0]], path[1..])
    else None
  }

  predicate HasParent(t: Node, path: Path) {
    && path != []
    && var parent := Lookup(t, path[..|path| - 1]);
       parent.Some? && parent.value.Dir?
  }

  /** The tree with `n` at `path`, over whatever was there. */
  function Put(t: Node, path: Path, n: Node): Node
    decreases |path|
  {
    if path == [] then n
    else if t.Dir? && |path| == 1 then Dir(t.entries[path[0] := n])
    else if t.Dir? && path[0] in t.entries then Dir(t.entries[path[0] := Put(t.entries[path[0]], path[1..], n)])
    else t
  }

  lemma ParentBelow(t: Node, path: Path)
    requires HasParent(t, path) && |path| > 1
    ensures t.Dir? && path[0] in t.entries && HasParent(t.entries[path[0]], path[1..])
  {
    assert path[..|path| - 1][0] == path[0];
    assert path[..|path| - 1][1..] == path[1..][..|path[1..]| - 1];
  }

  lemma ParentAtTop(t: Node, path: Path)
    requires HasParent(t, path) && |path| == 1
    ensures t.Dir?
  {
    assert path[..0] == [];
  }

  /** Below the place: the new tree. */
  lemma {:induction false} LookupBelow(t: Node, path: Path, n: Node, rest: Path)
    requires path == [] || HasParent(t, path)
    ensures Lookup(Put(t, path, n), path + rest) == Lookup(n, rest)
    decreases |path|
  {
    if path == [] {
      assert path + rest == rest;
    } else {
      assert (path + rest)[0] == path[0] && (path + rest)[1..] == path[1..] + rest;
      if |path| == 1 {
        ParentAtTop(t, path);
        assert path[1..] + rest == rest;
      } else {
        ParentBelow(t, path);
        LookupBelow(t.entries[path[0]], path[1..], n, rest);
      }
    }
  }

  /** Above the place: the old tree with the new one put in. */
  lemma {:induction false} LookupAbove(t: Node, path: Path, n: Node, rest: Path)
    requires rest != [] && HasParent(t, path + rest)
    ensures Lookup(t, path).Some? && Lookup(Put(t, path + rest, n), path) == Some(Put(Lookup(t, path).value, rest, n))
    decreases |path|
  {
    if path == [] {
      assert path + rest == rest;
    } else {
      assert (path + rest)[0] == path[0] && (path + rest)[1..] == path[1..] + rest;
      ParentBelow(t, path + rest);
      LookupAbove(t.entries[path[0]], path[1..], n, rest);
    }
  }

  /** Elsewhere: nothing changes. */
  lemma {:induction false} LookupElsewhere(t: Node, path: Path, n: Node, other: Path)
    requires !(path <= other) && !(other <= path)
    ensures Lookup(Put(t, path, n), other) == Lookup(t, other)
    decreases |path|
  {
    assert path[0] == other[0] ==> !(path[1..] <= other[1..]) && !(other[1..] <= path[1..]) by {
      if path[0] == other[0] {
        assert path == [path[0]] + path[1..] && other == [other[0]] + other[1..];
      }
    }
    if t.Dir? && path[0] == other[0] {
      assert |path| > 1;
      if path[0] in t.entries {
        LookupElsewhere(t.entries[path[0]], path[1..], n, other[1..]);
      }
    }
  }

  /** Putting back what is there changes nothing. */
  lemma {:induction false} PutSame(t: Node, path: Path)
    requires Lookup(t, path).Some?
    ensures Put(t, path, Lookup(t, path).value) == t
    decreases |path|
  {
    if path != [] {
      var name := path[0];
      PutSame(t.entries[name], path[1..]);
      assert t.entries[name := t.entries[name]] == t.entries;
    }
  }

  /** Putting one entry into a directory is putting the changed directory back. */
  lemma {:induction false} PutInParent(t: Node, dir: Path, name: string, n: Node)
    requires Lookup(t, dir).Some? && Lookup(t, dir).value.Dir?
    ensures Put(t, dir + [name], n) == Put(t, dir, Dir(Lookup(t, dir).value.entries[name := n]))
    decreases |dir|
  {
    var path := dir + [name];
    if dir == [] {
      assert path == [name];
    } else {
      assert path[0] == dir[0] && path[1..] == dir[1..] + [name];
      PutInParent(t.entries[dir[0]], dir[1..], name, n);
    }
  }

  lemma {:induction false} PutTwice(t: Node, path: Path, a: Node, b: Node)
    requires Lookup(t, path).Some?
    ensures Lookup(Put(t, path, a), path) == Some(a) && Put(Put(t, path, a), path, b) == Put(t, path, b)
    decreases |path|
  {
    if path != [] && |path| > 1 {
      PutTwice(t.entries[path[0]], path[1..], a, b);
    } else if |path| == 1 {
      assert path[1..] == [];
    }
  }

  // ------------------------------------------------------- measures, path by path

  /** How much content stands at a path. */
  function SizeAt(t: Node, path: Path): nat {
    var found := Lookup(t, path);
    if found.Some? && found.value.File? then |found.value.content| else 0
  }

  function SizesAt(t: Node, paths: seq<Path>): nat {
    if paths == [] then 0 else SizesAt(t, paths[..|paths| - 1]) + SizeAt(t, paths[|paths| - 1])
  }

  ghost predicate Names(t: Node, paths: seq<Path>) {
    && (forall p: Path :: p in paths <==> Lookup(t, p).Some?)
    && (forall i, j :: 0 <= i < j < |paths| ==> paths[i] != paths[j])
  }

  /** A tree has as many nodes as there are paths in it, and as many bytes as stand at them. */
  lemma {:induction false} MeasuresCount(t: Node, listing: set<string> -> seq<string>) returns (paths: seq<Path>)
    requires Lists(listing)
    ensures Names(t, paths) && NodesIn(t, listing) == |paths| && BytesIn(t, listing) == SizesAt(t, paths)
    decreases t, 1, 0
  {
    match t {
      case Dir(entries) =>
        assert InListing(listing(entries.Keys), entries.Keys);
        var below := MeasuresUnder(t, listing(entries.Keys), listing);
        hide NodesIn, BytesIn, SizeAt;
        DirMeasures(t, listing);
        OnePath(t);
        SizesAppend(t, [[]], below);
        paths := [[]] + below;
        forall p: Path ensures p in paths <==> Lookup(t, p).Some? { assert p != [] ==> (p in paths <==> p in below); }
      case _ =>
        OnePath(t);
        paths := [[]];
    }
  }

  lemma OnePath(t: Node)
    ensures SizesAt(t, [[]]) == SizeAt(t, []) && SizesAt(t, []) == 0
    ensures SizeAt(t, []) == if t.File? then |t.content| else 0
    ensures !t.Dir? ==> Names(t, [[]])
  {
    var one: seq<Path> := [[]];
    assert one[..0] == [];
  }

  lemma {:induction false} SizesAppend(t: Node, a: seq<Path>, b: seq<Path>)
    ensures SizesAt(t, a + b) == SizesAt(t, a) + SizesAt(t, b)
    decreases |b|
  {
    if b == [] {
      assert a + b == a;
    } else {
      assert (a + b)[..|a + b| - 1] == a + b[..|b| - 1];
      SizesAppend(t, a, b[..|b| - 1]);
    }
  }

  /** The paths that begin with one of `names`. */
  ghost predicate NamesUnder(d: Node, names: seq<string>, paths: seq<Path>)
    requires d.Dir?
  {
    && (forall p: Path :: p in paths <==> p != [] && p[0] in names && Lookup(d, p).Some?)
    && (forall i, j :: 0 <= i < j < |paths| ==> paths[i] != paths[j])
  }

  lemma {:induction false} MeasuresUnder(d: Node, names: seq<string>, listing: set<string> -> seq<string>)
    returns (paths: seq<Path>)
    requires Lists(listing) && d.Dir? && InListing(names, set n | n in names)
    requires forall n :: n in names ==> n in d.entries
    ensures NamesUnder(d, names, paths)
    ensures NodesUnder(d, names, listing) == |paths| && BytesUnder(d, names, listing) == SizesAt(d, paths)
    decreases d, 0, |names|
  {
    if names == [] {
      paths := [];
      OnePath(d);
    } else {
      var most, last := names[..|names| - 1], names[|names| - 1];
      assert names == most + [last] && last in names;
      var before := MeasuresUnder(d, most, listing);
      var inside := MeasuresCount(d.entries[last], listing);
      hide NodesIn, BytesIn, NodesUnder, BytesUnder, Lists;
      UnderSnoc(d, most, last, listing);
      var more := Prefixed(last, inside);
      PrefixedNames(d, last, inside);
      SizesAppend(d, before, more);
      paths := before + more;
      JoinNames(d, most, last, before, more);
    }
  }

  function Prefixed(name: string, paths: seq<Path>): seq<Path> {
    seq(|paths|, i requires 0 <= i < |paths| => [name] + paths[i])
  }

  lemma {:induction false} PrefixedNames(d: Node, name: string, inside: seq<Path>)
    requires d.Dir? && name in d.entries && Names(d.entries[name], inside)
    ensures NamesUnder(d, [name], Prefixed(name, inside))
    ensures SizesAt(d, Prefixed(name, inside)) == SizesAt(d.entries[name], inside)
  {
    var all := Prefixed(name, inside);
    forall p: Path ensures p in all <==> p != [] && p[0] in [name] && Lookup(d, p).Some? {
      if p != [] && p[0] == name {
        assert p == [name] + p[1..];
        if p[1..] in inside {
          var i :| 0 <= i < |inside| && inside[i] == p[1..];
          assert all[i] == p;
        }
      }
      if p in all {
        var i :| 0 <= i < |all| && all[i] == p;
        assert p[1..] == inside[i] && inside[i] in inside;
      }
    }
    forall i, j | 0 <= i < j < |all| ensures all[i] != all[j] {
      assert all[i][1..] == inside[i] && all[j][1..] == inside[j];
    }
    PrefixedSizes(d, name, inside);
  }

  lemma {:induction false} PrefixedSizes(d: Node, name: string, inside: seq<Path>)
    requires d.Dir? && name in d.entries
    ensures SizesAt(d, Prefixed(name, inside)) == SizesAt(d.entries[name], inside)
    decreases |inside|
  {
    if inside != [] {
      var most, last := inside[..|inside| - 1], inside[|inside| - 1];
      PrefixedSizes(d, name, most);
      assert Prefixed(name, inside)[..|inside| - 1] == Prefixed(name, most);
      assert ([name] + last)[1..] == last;
    }
  }

  lemma JoinNames(d: Node, most: seq<string>, last: string, before: seq<Path>, more: seq<Path>)
    requires d.Dir? && NamesUnder(d, most, before) && NamesUnder(d, [last], more) && last !in most
    ensures NamesUnder(d, most + [last], before + more)
  {
    var all := before + more;
    forall i, j | 0 <= i < j < |all| ensures all[i] != all[j] {
      if i < |before| <= j { assert all[i] in before && all[j] in more; }
    }
  }

  /** Nothing but files and directories stands at any path. */
  ghost predicate NothingElse(t: Node) {
    forall p: Path :: Lookup(t, p).Some? ==> Lookup(t, p).value.File? || Lookup(t, p).value.Dir?
  }

  /** That is what a plain tree is. */
  lemma {:induction false} PlainIff(t: Node)
    ensures Plain(t) <==> NothingElse(t)
  {
    if t.Dir? {
      forall k | k in t.entries ensures Plain(t.entries[k]) <==> NothingElse(t.entries[k]) { PlainIff(t.entries[k]); }
      if Plain(t) {
        forall p: Path | Lookup(t, p).Some? ensures Lookup(t, p).value.File? || Lookup(t, p).value.Dir? {
          if p != [] { assert NothingElse(t.entries[p[0]]); }
        }
      }
      if NothingElse(t) {
        forall k | k in t.entries ensures NothingElse(t.entries[k]) {
          forall p: Path ensures Lookup(t, [k] + p) == Lookup(t.entries[k], p) { assert ([k] + p)[1..] == p; }
        }
      }
    } else {
      assert Lookup(t, []) == Some(t);
    }
  }

  // ------------------------------------------------------------------------ creation

  ghost function NodesOf(entries: seq<Entry>, listing: set<string> -> seq<string>): nat {
    if entries == [] then 0
    else NodesOf(entries[..|entries| - 1], listing) + NodesIn(entries[|entries| - 1].node, listing)
  }

  ghost function BytesOf(entries: seq<Entry>, listing: set<string> -> seq<string>): nat {
    if entries == [] then 0
    else BytesOf(entries[..|entries| - 1], listing) + BytesIn(entries[|entries| - 1].node, listing)
  }

  lemma OfSnoc(entries: seq<Entry>, e: Entry, listing: set<string> -> seq<string>)
    ensures NodesOf(entries + [e], listing) == NodesOf(entries, listing) + NodesIn(e.node, listing)
    ensures BytesOf(entries + [e], listing) == BytesOf(entries, listing) + BytesIn(e.node, listing)
  {
    assert (entries + [e])[..|entries|] == entries;
  }

  predicate Distinct(paths: seq<Path>) {
    forall i, j :: 0 <= i < j < |paths| ==> paths[i] != paths[j]
  }

  /** Every path names a file or directory, with nothing else below. */
  predicate Capturable(root: Node, paths: seq<Path>) {
    forall i :: 0 <= i < |paths| ==> Lookup(root, paths[i]).Some? && Plain(Lookup(root, paths[i]).value)
  }

  /** The tree's own contents at the paths. */
  function EntriesAt(root: Node, paths: seq<Path>): seq<Entry>
    requires Capturable(root, paths)
  {
    seq(|paths|, i requires 0 <= i < |paths| => Entry(paths[i], Lookup(root, paths[i]).value))
  }

  lemma {:induction false} OfGrows(entries: seq<Entry>, k: nat, listing: set<string> -> seq<string>)
    requires k <= |entries|
    ensures NodesOf(entries[..k], listing) <= NodesOf(entries, listing)
    ensures BytesOf(entries[..k], listing) <= BytesOf(entries, listing)
    decreases |entries|
  {
    if k == |entries| {
      assert entries[..k] == entries;
    } else {
      assert entries[..|entries| - 1][..k] == entries[..k];
      OfGrows(entries[..|entries| - 1], k, listing);
    }
  }

  /** The paths up to the `k`-th, and what their capture costs. */
  lemma OneMore(root: Node, paths: seq<Path>, k: nat, listing: set<string> -> seq<string>)
    requires k < |paths| && Capturable(root, paths[..k])
    ensures paths[..k + 1] == paths[..k] + [paths[k]]
    ensures Capturable(root, paths[..k + 1]) <==> Lookup(root, paths[k]).Some? && Plain(Lookup(root, paths[k]).value)
    ensures Capturable(root, paths) ==> Capturable(root, paths[..k + 1])
    ensures Capturable(root, paths[..k + 1]) ==>
              var node := Lookup(root, paths[k]).value;
              && EntriesAt(root, paths[..k + 1]) == EntriesAt(root, paths[..k]) + [Entry(paths[k], node)]
              && NodesOf(EntriesAt(root, paths[..k + 1]), listing) ==
                NodesOf(EntriesAt(root, paths[..k]), listing) + NodesIn(node, listing)
              && BytesOf(EntriesAt(root, paths[..k + 1]), listing) ==
                BytesOf(EntriesAt(root, paths[..k]), listing) + BytesIn(node, listing)
    ensures Capturable(root, paths) ==>
              && NodesOf(EntriesAt(root, paths[..k + 1]), listing) <= NodesOf(EntriesAt(root, paths), listing)
              && BytesOf(EntriesAt(root, paths[..k + 1]), listing) <= BytesOf(EntriesAt(root, paths), listing)
  {
    hide Lookup, Plain, NodesOf, BytesOf, NodesIn, BytesIn;
    assert paths[..k + 1] == paths[..k] + [paths[k]];
    if Lookup(root, paths[k]).Some? && Plain(Lookup(root, paths[k]).value) {
      OfSnoc(EntriesAt(root, paths[..k]), Entry(paths[k], Lookup(root, paths[k]).value), listing);
      assert EntriesAt(root, paths[..k + 1]) ==
        EntriesAt(root, paths[..k]) + [Entry(paths[k], Lookup(root, paths[k]).value)];
    }
    if Capturable(root, paths) {
      OfGrows(EntriesAt(root, paths), k + 1, listing);
      assert EntriesAt(root, paths)[..k + 1] == EntriesAt(root, paths[..k + 1]);
      assert Lookup(root, paths[k]).Some?;
    }
  }

  /** What a capture asks of the tree and the limits. */
  ghost predicate Captures(root: Node, paths: seq<Path>, maxBytes: int, maxNodes: int, transferLimit: int,
                           listing: set<string> -> seq<string>)
  {
    && 1 <= |paths| <= 20 && 1 <= maxBytes <= transferLimit && 1 <= maxNodes <= 20000
    && Distinct(paths) && Capturable(root, paths)
    && NodesOf(EntriesAt(root, paths), listing) <= maxNodes && BytesOf(EntriesAt(root, paths), listing) <= maxBytes
  }

  /** A capture that succeeds finds each path new, there, and affordable after the ones before. */
  lemma CapturesEach(root: Node, paths: seq<Path>, maxBytes: nat, maxNodes: nat, transferLimit: int, i: nat,
                     listing: set<string> -> seq<string>)
    requires Captures(root, paths, maxBytes, maxNodes, transferLimit, listing) && i < |paths|
    requires Capturable(root, paths[..i])
    ensures paths[i] !in paths[..i] && Lookup(root, paths[i]).Some?
    ensures var before := EntriesAt(root, paths[..i]);
            Affordable(Lookup(root, paths[i]).value, NodesOf(before, listing), BytesOf(before, listing), maxNodes,
                       maxBytes, listing)
  {
    hide NodesOf, BytesOf, NodesIn, BytesIn, Plain, Lookup, EntriesAt;
    OneMore(root, paths, i, listing);
  }

  lemma CapturesAll(root: Node, paths: seq<Path>, maxBytes: nat, maxNodes: nat, transferLimit: int,
                    listing: set<string> -> seq<string>)
    requires 1 <= |paths| <= 20 && 1 <= maxBytes <= transferLimit && 1 <= maxNodes <= 20000
    requires (forall i :: 0 <= i < |paths| ==> paths[i] !in paths[..i]) && Capturable(root, paths)
    requires NodesOf(EntriesAt(root, paths), listing) <= maxNodes
    requires BytesOf(EntriesAt(root, paths), listing) <= maxBytes
    ensures Captures(root, paths, maxBytes, maxNodes, transferLimit, listing)
  {
    hide NodesOf, BytesOf, NodesIn, BytesIn, Plain, Lookup, EntriesAt, Capturable;
    forall i, j | 0 <= i < j < |paths| ensures paths[i] != paths[j] {
      assert paths[..j][i] == paths[i];
    }
  }

  /** Captures every path, or nothing: exactly when the paths are distinct, name nothing
      but files and directories, and fit the limits all together. */
  method SnapshotCreate(root: Node, paths: seq<Path>, maxBytes: int, maxNodes: int, transferLimit: int,
                        listing: set<string> -> seq<string>)
    returns (r: Result<Snapshot, SnapshotError>)
    requires Lists(listing)
    ensures r.Ok? <==> Captures(root, paths, maxBytes, maxNodes, transferLimit, listing)
    ensures r.Ok? ==>
              var s := r.value;
              && s.entries == EntriesAt(root, paths)
              && s.totalNodes == NodesOf(s.entries, listing) && s.totalBytes == BytesOf(s.entries, listing)
  {
    if paths == [] || |paths| > 20 {
      return Err(BadCount);
    }
    if maxBytes < 1 || maxBytes > transferLimit || maxNodes < 1 || maxNodes > 20000 {
      return Err(BadLimits);
    }
    r := CaptureAll(root, paths, maxBytes, maxNodes, transferLimit, listing);
  }

  method CaptureAll(root: Node, paths: seq<Path>, maxBytes: nat, maxNodes: nat, transferLimit: int,
                    listing: set<string> -> seq<string>)
    returns (r: Result<Snapshot, SnapshotError>)
    requires Lists(listing) && 1 <= |paths| <= 20 && 1 <= maxBytes <= transferLimit && 1 <= maxNodes <= 20000
    ensures r.Ok? <==> Captures(root, paths, maxBytes, maxNodes, transferLimit, listing)
    ensures r.Ok? ==>
              var s := r.value;
              && Capturable(root, paths) && s.entries == EntriesAt(root, paths)
              && s.totalNodes == NodesOf(s.entries, listing) && s.totalBytes == BytesOf(s.entries, listing)
  {
    hide NodesOf, BytesOf, NodesIn, BytesIn, Plain, Lookup, Lists, Affordable, Capturable, EntriesAt, Captures;
    ghost var fits := Captures(root, paths, maxBytes, maxNodes, transferLimit, listing);
    var budget := new SnapshotBudget(maxBytes, maxNodes);
    var entries: seq<Entry> := [];
    NothingOf(root, listing);
    assert paths[..0] == [];
    var i := 0;
    while i < |paths|
      invariant 0 <= i <= |paths| && fresh(budget) && budget.Within()
      invariant budget.maxBytes == maxBytes && budget.maxNodes == maxNodes
      invariant forall a :: 0 <= a < i ==> paths[a] !in paths[..a]
      invariant Capturable(root, paths[..i]) && entries == EntriesAt(root, paths[..i])
      invariant budget.nodes == NodesOf(entries, listing) && budget.bytes == BytesOf(entries, listing)
    {
      OneMore(root, paths, i, listing);
      if fits { CapturesEach(root, paths, maxBytes, maxNodes, transferLimit, i, listing); }
      if paths[i] in paths[..i] {
        return Err(Duplicate);
      }
      var found := Lookup(root, paths[i]);
      if found.None? {
        return Err(NotFound);
      }
      AffordableIs(found.value, budget.nodes, budget.bytes, budget.maxNodes, budget.maxBytes, listing);
      var copy := CopyNode(found.value, budget, listing);
      if copy.Err? {
        return Err(copy.error);
      }
      entries := entries + [Entry(paths[i], copy.value)];
      i := i + 1;
    }
    assert paths[..i] == paths;
    CapturesAll(root, paths, maxBytes, maxNodes, transferLimit, listing);
    return Ok(Snapshot(entries, budget.bytes, budget.nodes));
  }

  lemma NothingOf(root: Node, listing: set<string> -> seq<string>)
    ensures NodesOf([], listing) == 0 == BytesOf([], listing)
    ensures Capturable(root, []) && EntriesAt(root, []) == []
  {
  }

  // -------------------------------------------------------------------------- restore

  function PutAll(t: Node, entries: seq<Entry>): Node {
    if entries == [] then t
    else
      var last := entries[|entries| - 1];
      Put(PutAll(t, entries[..|entries| - 1]), last.path, last.node)
  }

  lemma PutAllSnoc(t: Node, entries: seq<Entry>, e: Entry)
    ensures PutAll(t, entries + [e]) == Put(PutAll(t, entries), e.path, e.node)
  {
    assert (entries + [e])[..|entries|] == entries;
  }

  class FileTree {
    var root: Node

    constructor (root: Node)
      ensures this.root == root
    {
      this.root := root;
    }

    /** Stages a copy beside `path` under a fresh name, swaps it in and removes what it
        displaced. */
    method RestoreEntry(path: Path, copy: Node, unused: set<string> -> string) returns (ok: bool)
      requires forall names :: unused(names) !in names
      modifies this
      ensures ok <==> old(HasParent(root, path))
      ensures root == if ok then Put(old(root), path, copy) else old(root)
    {
      if path == [] {
        return false;
      }
      var dir, name := path[..|path| - 1], path[|path| - 1];
      assert path == dir + [name];
      var parent := Lookup(root, dir);
      if parent.None? || !parent.value.Dir? {
        return false;
      }
      ghost var was := root;
      var before := parent.value.entries;
      hide Lookup, Put;
      PutInParent(was, dir, name, copy);
      var temp := unused(before.Keys + {name});
      var entries: map<string, Node> := before[temp := copy];
      root := Put(root, dir, Dir(entries));
      PutTwice(was, dir, Dir(entries), Dir(entries));
      if name in entries {
        entries := entries[temp := entries[name]][name := copy];
        root := Put(root, dir, Dir(entries));
        PutTwice(was, dir, Dir(before[temp := copy]), Dir(entries));
        PutTwice(was, dir, Dir(entries), Dir(entries - {temp}));
        entries := entries - {temp};
      } else {
        entries := (entries - {temp})[name := copy];
        PutTwice(was, dir, Dir(before[temp := copy]), Dir(entries));
      }
      root := Put(root, dir, Dir(entries));
      assert entries == before[name := copy];
      return true;
    }

    /** Restores entry after entry; a missing parent directory stops it there. */
    method SnapshotRestore(snapshot: Snapshot, unused: set<string> -> string)
      returns (r: Result<nat, SnapshotError>, ghost done: nat)
      requires forall names :: unused(names) !in names
      modifies this
      ensures done <= |snapshot.entries| && root == PutAll(old(root), snapshot.entries[..done])
      ensures RestorableUpTo(old(root), snapshot.entries, done)
      ensures if r.Ok? then done == |snapshot.entries| == r.value
              else r.error == NoParent && done < |snapshot.entries| && !HasParent(root, snapshot.entries[done].path)
    {
      hide HasParent, Put, PutAll, RestorableUpTo;
      done := 0;
      var i := 0;
      NothingRestored(root, snapshot.entries);
      while i < |snapshot.entries|
        invariant 0 <= i <= |snapshot.entries| && done == i
        invariant root == PutAll(old(root), snapshot.entries[..i])
        invariant RestorableUpTo(old(root), snapshot.entries, i)
      {
        var e := snapshot.entries[i];
        var ok := RestoreEntry(e.path, e.node, unused);
        if !ok {
          return Err(NoParent), done;
        }
        OneMoreRestored(old(root), snapshot.entries, i);
        i, done := i + 1, done + 1;
      }
      return Ok(i), done;
    }
  }

  /** Each of the first `k` entries finds its parent directory when its turn comes. */
  predicate RestorableUpTo(t: Node, entries: seq<Entry>, k: nat) {
    k <= |entries| && forall i :: 0 <= i < k ==> HasParent(PutAll(t, entries[..i]), entries[i].path)
  }

  lemma NothingRestored(t: Node, entries: seq<Entry>)
    ensures PutAll(t, entries[..0]) == t && RestorableUpTo(t, entries, 0)
  {
  }

  lemma OneMoreRestored(t: Node, entries: seq<Entry>, i: nat)
    requires i < |entries| && RestorableUpTo(t, entries, i) && HasParent(PutAll(t, entries[..i]), entries[i].path)
    ensures RestorableUpTo(t, entries, i + 1)
    ensures PutAll(t, entries[..i + 1]) == Put(PutAll(t, entries[..i]), entries[i].path, entries[i].node)
  {
    hide HasParent, Put;
    assert entries[..i + 1] == entries[..i] + [entries[i]];
    PutAllSnoc(t, entries[..i], entries[i]);
  }

  // ----------------------------------------------------------------------- round trip

  /** Restoring one more entry leaves every captured path as captured. */
  lemma PutKeepsCaptured(captured: Node, now: Node, path: Path, other: Path)
    requires HasParent(now, path) && Lookup(captured, path).Some? && Lookup(captured, other).Some?
    requires other == path || Lookup(now, other) == Lookup(captured, other)
    ensures Lookup(Put(now, path, Lookup(captured, path).value), other) == Lookup(captured, other)
  {
    hide HasParent, Put, Lookup;
    var n := Lookup(captured, path).value;
    if path <= other {
      var rest := other[|path|..];
      assert other == path + rest;
      LookupBelow(now, path, n, rest);
      LookupThrough(captured, path, rest);
    } else if other <= path {
      var rest := path[|other|..];
      assert path == other + rest;
      LookupAbove(now, other, n, rest);
      LookupThrough(captured, other, rest);
      PutSame(Lookup(captured, other).value, rest);
    } else {
      LookupElsewhere(now, path, n, other);
    }
  }

  lemma {:induction false} LookupThrough(t: Node, path: Path, rest: Path)
    requires Lookup(t, path).Some?
    ensures Lookup(t, path + rest) == Lookup(Lookup(t, path).value, rest)
    decreases |path|
  {
    if path == [] {
      assert path + rest == rest;
    } else {
      assert (path + rest)[0] == path[0] && (path + rest)[1..] == path[1..] + rest;
      LookupThrough(t.entries[path[0]], path[1..], rest);
    }
  }

  /** Whatever happened to the tree since the capture: once restored, every captured path
      holds what it held then, even where captured paths overlap. */
  lemma {:induction false} RestoredAsCaptured(captured: Node, now: Node, paths: seq<Path>, k: nat, i: nat)
    requires Capturable(captured, paths) && i < k <= |paths| && RestorableUpTo(now, EntriesAt(captured, paths), k)
    ensures Lookup(PutAll(now, EntriesAt(captured, paths)[..k]), paths[i]) == Lookup(captured, paths[i])
    decreases k
  {
    hide HasParent, Put, Lookup, PutAll, Plain;
    var entries := EntriesAt(captured, paths);
    RestorableLess(now, entries, k);
    OneMoreRestored(now, entries, k - 1);
    if i < k - 1 {
      RestoredAsCaptured(captured, now, paths, k - 1, i);
    }
    PutKeepsCaptured(captured, PutAll(now, entries[..k - 1]), paths[k - 1], paths[i]);
  }

  lemma RestorableLess(t: Node, entries: seq<Entry>, k: nat)
    requires 0 < k && RestorableUpTo(t, entries, k)
    ensures RestorableUpTo(t, entries, k - 1) && HasParent(PutAll(t, entries[..k - 1]), entries[k - 1].path)
  {
    hide HasParent, PutAll;
  }

  /** Paths that no captured path lies on or under, and that lie under none, are left alone. */
  lemma {:induction false} ElsewhereUntouched(t: Node, entries: seq<Entry>, other: Path)
    requires forall i :: 0 <= i < |entries| ==> !(entries[i].path <= other) && !(other <= entries[i].path)
    ensures Lookup(PutAll(t, entries), other) == Lookup(t, other)
    decreases |entries|
  {
    hide Put, Lookup;
    if entries != [] {
      var most, last := entries[..|entries| - 1], entries[|entries| - 1];
      ElsewhereUntouched(t, most, other);
      LookupElsewhere(PutAll(t, most), last.path, last.node, other);
    }
  }

  // ------------------------------------------------------ when the restore succeeds

  /** The directory an entry goes to is there, or comes back with an earlier entry. */
  predicate Reachable(now: Node, paths: seq<Path>, i: nat)
    requires i < |paths|
  {
    && paths[i] != []
    && (HasParent(now, paths[i]) || exists j :: 0 <= j < i && paths[j] <= paths[i][..|paths[i]| - 1])
  }

  predicate IsDir(t: Node, path: Path) {
    Lookup(t, path).Some? && Lookup(t, path).value.Dir?
  }

  lemma {:induction false} AncestorIsDir(t: Node, path: Path, rest: Path)
    requires rest != [] && Lookup(t, path + rest).Some?
    ensures IsDir(t, path)
  {
    LookupOnTheWay(t, path, rest);
  }

  lemma {:induction false} LookupOnTheWay(t: Node, path: Path, rest: Path)
    requires Lookup(t, path + rest).Some?
    ensures Lookup(t, path).Some? && Lookup(t, path + rest) == Lookup(Lookup(t, path).value, rest)
    decreases |path|
  {
    if path == [] {
      assert path + rest == rest;
    } else {
      assert (path + rest)[0] == path[0] && (path + rest)[1..] == path[1..] + rest;
      LookupOnTheWay(t.entries[path[0]], path[1..], rest);
    }
  }

  /** Putting something at or below a place that is no directory, or beside it, makes it none;
      putting something below a directory leaves it one. */
  lemma DirStays(t: Node, path: Path, n: Node, dir: Path)
    requires HasParent(t, path) && !(path <= dir)
    ensures IsDir(Put(t, path, n), dir) <==> IsDir(t, dir)
  {
    hide Put;
    if dir <= path {
      var rest := path[|dir|..];
      assert path == dir + rest && rest != [];
      LookupAbove(t, dir, n, rest);
      var parent := path[..|path| - 1];
      assert parent == dir + rest[..|rest| - 1];
      if |rest| == 1 {
        assert parent == dir;
      } else {
        AncestorIsDir(t, dir, rest[..|rest| - 1]);
      }
      PutInDir(Lookup(t, dir).value, rest, n);
    } else {
      LookupElsewhere(t, path, n, dir);
    }
  }

  lemma PutInDir(t: Node, path: Path, n: Node)
    requires t.Dir? && path != []
    ensures Put(t, path, n).Dir?
  {
  }

  lemma {:induction false} DirsStay(t: Node, entries: seq<Entry>, k: nat, dir: Path)
    requires RestorableUpTo(t, entries, k) && forall j :: 0 <= j < k ==> !(entries[j].path <= dir)
    ensures IsDir(PutAll(t, entries[..k]), dir) <==> IsDir(t, dir)
    decreases k
  {
    hide HasParent, Put, PutAll, IsDir;
    if k == 0 {
      NothingRestored(t, entries);
    } else {
      RestorableLess(t, entries, k);
      DirsStay(t, entries, k - 1, dir);
      OneMoreRestored(t, entries, k - 1);
      DirStays(PutAll(t, entries[..k - 1]), entries[k - 1].path, entries[k - 1].node, dir);
    }
  }

  /** Every entry finds its directory if and only if that is there already or comes back with
      an earlier entry. */
  lemma {:induction false} RestorableIff(captured: Node, now: Node, paths: seq<Path>, k: nat)
    requires Capturable(captured, paths) && k <= |paths|
    ensures RestorableUpTo(now, EntriesAt(captured, paths), k) <==> forall i :: 0 <= i < k ==> Reachable(now, paths, i)
    decreases k
  {
    hide HasParent, PutAll, Plain, Lookup, Reachable, RestorableUpTo;
    var entries := EntriesAt(captured, paths);
    if k == 0 {
      NothingRestored(now, entries);
    } else {
      RestorableIff(captured, now, paths, k - 1);
      if RestorableUpTo(now, entries, k - 1) {
        NextReachable(captured, now, paths, k - 1);
        if Reachable(now, paths, k - 1) { OneMoreRestored(now, entries, k - 1); }
      }
      if RestorableUpTo(now, entries, k) { RestorableLess(now, entries, k); }
    }
  }

  lemma NextReachable(captured: Node, now: Node, paths: seq<Path>, k: nat)
    requires Capturable(captured, paths) && k < |paths| && RestorableUpTo(now, EntriesAt(captured, paths), k)
    ensures HasParent(PutAll(now, EntriesAt(captured, paths)[..k]), paths[k]) <==> Reachable(now, paths, k)
  {
    hide PutAll, Plain, Lookup, RestorableUpTo;
    var entries := EntriesAt(captured, paths);
    var cur := PutAll(now, entries[..k]);
    if paths[k] != [] {
      var dir := paths[k][..|paths[k]| - 1];
      assert paths[k] == dir + [paths[k][|paths[k]| - 1]];
      if j: nat :| j < k && paths[j] <= dir {
        RestoredAsCaptured(captured, now, paths, k, j);
        var rest := dir[|paths[j]|..];
        assert dir == paths[j] + rest;
        AncestorIsDir(captured, dir, [paths[k][|paths[k]| - 1]]);
        assert Lookup(captured, paths[j]).Some?;
        LookupThrough(captured, paths[j], rest);
        LookupThrough(cur, paths[j], rest);
      } else {
        DirsStay(now, entries, k, dir);
      }
    }
  }

  /** Capturing, any later changes, and a restore, which succeeds exactly when the paths were
      captured and every directory they go to is there or comes back first: the captured
      paths are as they were, everything apart from them is as it was just before. */
  method RoundTrip(earlier: Node, now: FileTree, paths: seq<Path>, maxBytes: int, maxNodes: int, transferLimit: int,
                   listing: set<string> -> seq<string>, unused: set<string> -> string)
    returns (ok: bool)
    requires Lists(listing) && forall names :: unused(names) !in names
    modifies now
    ensures ok <==>
              && Captures(earlier, paths, maxBytes, maxNodes, transferLimit, listing)
              && forall i :: 0 <= i < |paths| ==> Reachable(old(now.root), paths, i)
    ensures ok ==>
              && (forall i :: 0 <= i < |paths| ==>
                    Lookup(earlier, paths[i]).Some? && Lookup(now.root, paths[i]) == Lookup(earlier, paths[i]))
              && (forall other :: (forall i :: 0 <= i < |paths| ==> !(paths[i] <= other) && !(other <= paths[i])) ==>
                    Lookup(now.root, other) == Lookup(old(now.root), other))
  {
    var captured := SnapshotCreate(earlier, paths, maxBytes, maxNodes, transferLimit, listing);
    if captured.Err? {
      return false;
    }
    hide Lookup, PutAll, Plain, HasParent, Reachable, Distinct, NodesOf, BytesOf;
    ghost var was := now.root;
    var entries := captured.value.entries;
    RestorableIff(earlier, was, paths, |paths|);
    var restored, done := now.SnapshotRestore(captured.value, unused);
    if restored.Err? {
      return false;
    }
    assert entries[..done] == entries;
    forall i | 0 <= i < |paths| ensures Lookup(now.root, paths[i]) == Lookup(earlier, paths[i]) {
      RestoredAsCaptured(earlier, was, paths, done, i);
    }
    forall other: Path | forall i :: 0 <= i < |paths| ==> !(paths[i] <= other) && !(other <= paths[i])
      ensures Lookup(now.root, other) == Lookup(was, other)
    {
      ElsewhereUntouched(was, entries, other);
    }
    return true;
  }
}
