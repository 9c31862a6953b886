/** The audit log as bytes: lines, records and the events they decode to. */
module LogLines {
  import opened Octets

  /** A decoded JSON object: the text of each field, empty when its value is falsy. */
  datatype Event = Event(fields: map<string, string>)

  /** JSON decoding of one line; `None` for anything that is not an object. */
  type Parser = Bytes -> Option<Event>

  /** An event, the checkpoint that acknowledges it, and how many bytes its line takes with
      its line feed. */
  datatype Yield = Yield(offset: nat, event: Event, size: nat)

  /** What is delivered, apart from the checkpoint. */
  datatype Item = Item(event: Event, size: nat)

  // ------------------------------------------------------------------- lines

  /** The position of the first line feed of `s`, or its length. */
  function LineEnd(s: Bytes): (i: nat)
    ensures i <= |s|
    ensures forall j :: 0 <= j < i ==> s[j] != LF
    ensures i < |s| ==> s[i] == LF
  {
    if s == [] || s[0] == LF then 0 else LineEnd(s[1..]) + 1
  }

  /** The complete lines of `s`, without their line feeds. */
  function Lines(s: Bytes): seq<Bytes>
    decreases |s|
  {
    var i := LineEnd(s);
    if i == |s| then [] else [s[..i]] + Lines(s[i + 1..])
  }

  /** What follows the last line feed. */
  function Tail(s: Bytes): Bytes
    decreases |s|
  {
    var i := LineEnd(s);
    if i == |s| then s else Tail(s[i + 1..])
  }

  /** The pieces of `s` between line feeds; the last one has none behind it. */
  function Split(s: Bytes): seq<Bytes> {
    Lines(s) + [Tail(s)]
  }

  function Unlines(lines: seq<Bytes>): Bytes {
    if lines == [] then [] else lines[0] + [LF] + Unlines(lines[1..])
  }

  lemma LinesOfLine(line: Bytes, rest: Bytes)
    requires LF !in line
    ensures Lines(line + [LF] + rest) == [line] + Lines(rest)
    ensures Tail(line + [LF] + rest) == Tail(rest)
  {
    var s := line + [LF] + rest;
    var i := LineEnd(s);
    assert s[|line|] == LF && forall j :: 0 <= j < |line| ==> s[j] == line[j];
    assert s[..i] == line && s[i + 1..] == rest;
  }

  lemma LinesUnfold(s: Bytes)
    ensures var i := LineEnd(s);
            if i < |s| then Lines(s) == [s[..i]] + Lines(s[i + 1..]) && Tail(s) == Tail(s[i + 1..])
            else Lines(s) == [] && Tail(s) == s
  {
    hide LineEnd;
  }

  /** `s` is its lines, each followed by a line feed, and its tail. */
  lemma {:induction false} LinesAndTail(s: Bytes)
    ensures s == Unlines(Lines(s)) + Tail(s)
    decreases |s|
  {
    LinesUnfold(s);
    hide Lines, Tail;
    var i := LineEnd(s);
    if i < |s| {
      LinesAndTail(s[i + 1..]);
      UnlinesCons(s[..i], Lines(s[i + 1..]));
      assert s == s[..i] + [LF] + s[i + 1..];
    } else {
      assert Unlines([]) == [];
    }
  }

  lemma UnlinesCons(line: Bytes, lines: seq<Bytes>)
    ensures Unlines([line] + lines) == line + [LF] + Unlines(lines)
  {
    assert ([line] + lines)[1..] == lines;
  }

  /** Behind a line end the lines start afresh. */
  lemma {:induction false} LinesAppend(s: Bytes, t: Bytes)
    requires Tail(s) == []
    ensures Lines(s + t) == Lines(s) + Lines(t) && Tail(s + t) == Tail(t)
    decreases |s|
  {
    hide Lines, Tail, LineEnd;
    LinesUnfold(s);
    var i := LineEnd(s);
    if i < |s| {
      var line, rest := s[..i], s[i + 1..];
      NoFeedBefore(s);
      LinesAppend(rest, t);
      assert s + t == line + [LF] + (rest + t);
      LinesOfLine(line, rest + t);
      Reassociate([line], Lines(rest), Lines(t));
    } else {
      assert s + t == t;
      Reassociate([], Lines(t), []);
    }
  }

  lemma {:induction false} LinesHoldNoFeed(s: Bytes)
    ensures LF !in Tail(s)
    ensures forall k :: 0 <= k < |Lines(s)| ==> LF !in Lines(s)[k]
    decreases |s|
  {
    var i := LineEnd(s);
    if i < |s| {
      LinesHoldNoFeed(s[i + 1..]);
    }
  }

  // ------------------------------------------------------------------ events

  /** Nothing but ASCII white space. */
  predicate IsBlank(line: Bytes) {
    forall b :: b in line ==> b in [9, 10, 11, 12, 13, 32]
  }

  function Decode(parse: Parser, line: Bytes): Option<Event> {
    if IsBlank(line) then None else parse(line)
  }

  /** Some byte is neither a tab, a line feed, a vertical tab, a form feed, a carriage return nor
      a space. */
  predicate HasContent(line: Bytes) {
    exists i :: 0 <= i < |line| && !(9 <= line[i] <= 13) && line[i] != 32
  }

  /** A line is decoded by the parser if it has content, and skipped otherwise. */
  lemma DecodesIff(parse: Parser, line: Bytes)
    ensures HasContent(line) ==> Decode(parse, line) == parse(line)
    ensures !HasContent(line) ==> Decode(parse, line) == None
  {
    if HasContent(line) {
      var i :| 0 <= i < |line| && !(9 <= line[i] <= 13) && line[i] != 32;
      assert line[i] in line;
    } else {
      forall b | b in line ensures b in [9, 10, 11, 12, 13, 32] {
        var i :| 0 <= i < |line| && line[i] == b;
      }
    }
  }

  /** The events of `lines`, the first of which starts at byte `pos`, with the offset behind each. */
  function Emit(parse: Parser, lines: seq<Bytes>, pos: nat): seq<Yield> {
    if lines == [] then []
    else
      var next := pos + |lines[0]| + 1;
      var rest := Emit(parse, lines[1..], next);
      match Decode(parse, lines[0])
      case Some(e) => [Yield(next, e, |lines[0]| + 1)] + rest
      case None => rest
  }

  /** The same events with the sentinel offset of a rotated generation. */
  function Sentinels(parse: Parser, lines: seq<Bytes>): seq<Yield> {
    if lines == [] then []
    else
      (match Decode(parse, lines[0]) case Some(e) => [Yield(0, e, |lines[0]| + 1)] case None => []) +
        Sentinels(parse, lines[1..])
  }

  function ItemsOf(parse: Parser, lines: seq<Bytes>): seq<Item> {
    if lines == [] then []
    else
      (match Decode(parse, lines[0]) case Some(e) => [Item(e, |lines[0]| + 1)] case None => []) +
        ItemsOf(parse, lines[1..])
  }

  function Items(ys: seq<Yield>): seq<Item> {
    seq(|ys|, i requires 0 <= i < |ys| => Item(ys[i].event, ys[i].size))
  }

  lemma ItemsAppend(a: seq<Yield>, b: seq<Yield>)
    ensures Items(a + b) == Items(a) + Items(b)
  {
  }

  lemma {:induction false} ItemsOfAppend(parse: Parser, a: seq<Bytes>, b: seq<Bytes>)
    ensures ItemsOf(parse, a + b) == ItemsOf(parse, a) + ItemsOf(parse, b)
  {
    if a == [] {
      assert a + b == b;
    } else {
      assert (a + b)[1..] == a[1..] + b;
      ItemsOfAppend(parse, a[1..], b);
    }
  }

  /** The yield of one line, if it decodes. */
  function LineYield(parse: Parser, line: Bytes, offset: nat): seq<Yield> {
    match Decode(parse, line)
    case Some(e) => [Yield(offset, e, |line| + 1)]
    case None => []
  }

  function LineItem(parse: Parser, line: Bytes): seq<Item> {
    match Decode(parse, line)
    case Some(e) => [Item(e, |line| + 1)]
    case None => []
  }

  lemma EmitNil(parse: Parser, pos: nat)
    ensures Emit(parse, [], pos) == [] && Sentinels(parse, []) == [] && ItemsOf(parse, []) == []
  {
  }

  lemma EmitCons(parse: Parser, line: Bytes, lines: seq<Bytes>, pos: nat)
    ensures Emit(parse, [line] + lines, pos) ==
            LineYield(parse, line, pos + |line| + 1) + Emit(parse, lines, pos + |line| + 1)
    ensures Sentinels(parse, [line] + lines) == LineYield(parse, line, 0) + Sentinels(parse, lines)
    ensures ItemsOf(parse, [line] + lines) == LineItem(parse, line) + ItemsOf(parse, lines)
  {
    hide Decode;
    assert ([line] + lines)[1..] == lines;
  }

  lemma LineYieldItem(parse: Parser, line: Bytes, offset: nat)
    ensures Items(LineYield(parse, line, offset)) == LineItem(parse, line)
    ensures var l := LineYield(parse, line, offset);
            l == [] || (|l| == 1 && l[0].offset == offset && l[0].size == |line| + 1)
  {
    hide Decode;
  }

  lemma {:induction false} ItemsOfEmit(parse: Parser, lines: seq<Bytes>, pos: nat)
    ensures Items(Emit(parse, lines, pos)) == ItemsOf(parse, lines)
    ensures Items(Sentinels(parse, lines)) == ItemsOf(parse, lines)
  {
    hide Emit, Sentinels, ItemsOf, LineYield, LineItem;
    if lines == [] {
      EmitNil(parse, pos);
    } else {
      var line, rest, next := lines[0], lines[1..], pos + |lines[0]| + 1;
      assert lines == [line] + rest;
      ItemsOfEmit(parse, rest, next);
      EmitCons(parse, line, rest, pos);
      LineYieldItem(parse, line, next);
      LineYieldItem(parse, line, 0);
      hide Items;
      ItemsAppend(LineYield(parse, line, next), Emit(parse, rest, next));
      ItemsAppend(LineYield(parse, line, 0), Sentinels(parse, rest));
    }
  }

  // ------------------------------------------------------- scanning a content

  /** The complete lines of `content` from byte `pos` on. */
  function Scan(parse: Parser, content: Bytes, pos: nat): seq<Yield> {
    if pos <= |content| then Emit(parse, Lines(content[pos..]), pos) else []
  }

  /** What a consumer gets to see: checkpoints and events. */
  function Delivered(ys: seq<Yield>): seq<(nat, Event)> {
    seq(|ys|, i requires 0 <= i < |ys| => (ys[i].offset, ys[i].event))
  }

  lemma DeliveredAppend(a: seq<Yield>, b: seq<Yield>)
    ensures Delivered(a + b) == Delivered(a) + Delivered(b)
  {
  }

  /** Everything in a rotated generation from byte `pos` on, its unterminated tail included. */
  function Drain(parse: Parser, content: Bytes, pos: nat): seq<Yield> {
    if pos <= |content| then Sentinels(parse, Split(content[pos..])) else []
  }

  /** Reading one line of the piece `content[pos..end]` is reading one line of `content`. */
  lemma TakeLine(parse: Parser, content: Bytes, pos: nat, end: nat)
    requires pos <= end <= |content| && Lines(content[pos..end]) != []
    ensures var line := Lines(content[pos..end])[0]; var next := pos + |line| + 1;
            && next <= end && line == content[pos..next - 1] && content[next - 1] == LF
            && Lines(content[next..end]) == Lines(content[pos..end])[1..]
            && Tail(content[next..end]) == Tail(content[pos..end])
            && Lines(content[pos..]) == [line] + Lines(content[next..])
            && Tail(content[pos..]) == Tail(content[next..])
            && Scan(parse, content, pos) == LineYield(parse, line, next) + Scan(parse, content, next)
            && Drain(parse, content, pos) == LineYield(parse, line, 0) + Drain(parse, content, next)
  {
    hide *;
    var s := content[pos..end];
    LinesUnfold(s);
    var i := LineEnd(s);
    var line, next := s[..i], pos + i + 1;
    assert s[i + 1..] == content[next..end] && line == content[pos..next - 1];
    assert content[pos..] == line + [LF] + content[next..];
    NoFeedBefore(s);
    LinesOfLine(line, content[next..]);
    EmitCons(parse, line, Lines(content[next..]), pos);
    EmitCons(parse, line, Split(content[next..]), pos);
    ScanIs(parse, content, pos);
    ScanIs(parse, content, next);
    assert Split(content[pos..]) == [line] + Split(content[next..]) by {
      SplitIs(content[pos..]);
      SplitIs(content[next..]);
    }
  }

  lemma NoFeedBefore(s: Bytes)
    ensures LF !in s[..LineEnd(s)]
  {
  }

  lemma SplitIs(s: Bytes)
    ensures Split(s) == Lines(s) + [Tail(s)]
  {
  }

  lemma ScanIs(parse: Parser, content: Bytes, pos: nat)
    requires pos <= |content|
    ensures Scan(parse, content, pos) == Emit(parse, Lines(content[pos..]), pos)
    ensures Drain(parse, content, pos) == Sentinels(parse, Split(content[pos..]))
  {
  }

  lemma ScanInRange(parse: Parser, content: Bytes, pos: nat)
    requires Scan(parse, content, pos) != []
    ensures pos <= |content|
  {
    hide Emit, Lines;
  }

  /** A piece without a complete line is its own tail. */
  lemma NoLine(s: Bytes)
    requires Lines(s) == []
    ensures Tail(s) == s
  {
    LinesUnfold(s);
  }

  lemma NothingToScan(parse: Parser, content: Bytes, pos: nat)
    requires pos <= |content| && Lines(content[pos..]) == []
    ensures Scan(parse, content, pos) == []
    ensures Drain(parse, content, pos) == LineYield(parse, content[pos..], 0)
  {
    hide *;
    var s := content[pos..];
    NoLine(s);
    ScanIs(parse, content, pos);
    SplitIs(s);
    EmitNil(parse, pos);
    EmitCons(parse, s, [], 0);
    assert [s] + [] == [s] && [] + [s] == [s];
    assert LineYield(parse, s, 0) + [] == LineYield(parse, s, 0);
  }

  /** Scanning goes on from any line end it passed. */
  lemma {:induction false} ScanFromLineEnd(parse: Parser, content: Bytes, pos: nat, i: nat)
    requires i < |Scan(parse, content, pos)|
    ensures var y := Scan(parse, content, pos)[i];
            pos < y.offset <= |content| && Scan(parse, content, y.offset) == Scan(parse, content, pos)[i + 1..]
    decreases |content| - pos
  {
    hide *;
    var next := ScanLine(parse, content, pos);
    var head := LineYield(parse, content[pos..next - 1], next);
    var rest := Scan(parse, content, next);
    LineYieldItem(parse, content[pos..next - 1], next);
    if head == [] {
      assert head + rest == rest;
      ScanFromLineEnd(parse, content, next, i);
    } else {
      assert (head + rest)[i + 1..] == rest[i..];
      if i > 0 {
        ScanFromLineEnd(parse, content, next, i - 1);
      }
    }
  }

  /** Scanning takes one line at a time. */
  lemma ScanLine(parse: Parser, content: Bytes, pos: nat) returns (next: nat)
    requires Scan(parse, content, pos) != []
    ensures pos < next <= |content| && content[next - 1] == LF
    ensures Scan(parse, content, pos) == LineYield(parse, content[pos..next - 1], next) + Scan(parse, content, next)
  {
    hide *;
    ScanInRange(parse, content, pos);
    assert content[pos..|content|] == content[pos..];
    if Lines(content[pos..]) == [] {
      NothingToScan(parse, content, pos);
    }
    TakeLine(parse, content, pos, |content|);
    next := pos + |Lines(content[pos..])[0]| + 1;
  }

  /** What one read of at most `limit` bytes gets to see. */
  function Window(content: Bytes, pos: nat, limit: nat): Bytes
    requires pos <= |content|
  {
    content[pos..Min(|content|, pos + limit)]
  }

  // --------------------------------------------------------- reading in two pieces

  /** `next` is `pos` or a line end behind it. */
  predicate LaterLine(content: Bytes, pos: nat, next: nat) {
    pos <= next <= |content| && (next == pos || content[next - 1] == LF)
  }

  lemma LaterLineIs(content: Bytes, pos: nat, next: nat)
    ensures LaterLine(content, pos, next) <==> pos <= next <= |content| && (next == pos || content[next - 1] == LF)
  {
  }

  lemma NothingBehind(parse: Parser, content: Bytes, pos: nat)
    requires pos <= |content|
    ensures Scan(parse, content[..pos], pos) == []
  {
    hide *;
    var none := content[..pos][pos..];
    assert none == [];
    LinesUnfold(none);
    LineEndOfNothing();
    NothingToScan(parse, content[..pos], pos);
  }

  lemma LineEndOfNothing()
    ensures LineEnd([]) == 0
  {
  }

  /** A file can be read in two pieces cut at a line end. */
  lemma {:induction false} ScanJoin(parse: Parser, content: Bytes, a: nat, m: nat, b: nat)
    requires LaterLine(content, a, m) && m <= b <= |content|
    ensures Scan(parse, content[..b], a) == Scan(parse, content[..m], a) + Scan(parse, content[..b], m)
    decreases m - a
  {
    hide *;
    LaterLineIs(content, a, m);
    if a == m {
      NothingBehind(parse, content, a);
      assert [] + Scan(parse, content[..b], m) == Scan(parse, content[..b], m);
    } else {
      var piece := content[a..m];
      assert piece[|piece| - 1] == content[m - 1];
      LinesUnfold(piece);
      FeedFound(piece);
      assert content[..m][a..m] == piece && content[..b][a..m] == piece;
      TakeLine(parse, content[..m], a, m);
      TakeLine(parse, content[..b], a, m);
      var line := Lines(piece)[0];
      var next := a + |line| + 1;
      LaterLineIs(content, next, m);
      ScanJoin(parse, content, next, m, b);
      Reassociate(LineYield(parse, line, next), Scan(parse, content[..m], next), Scan(parse, content[..b], m));
    }
  }

  lemma FeedFound(s: Bytes)
    ensures s != [] && s[|s| - 1] == LF ==> LineEnd(s) < |s|
  {
  }

  /** Where the unterminated tail of `s` begins. */
  lemma {:induction false} TailBegins(s: Bytes)
    ensures var b := |s| - |Tail(s)|;
            0 <= b <= |s| && s[b..] == Tail(s) && (b == 0 || s[b - 1] == LF) && Lines(s[b..]) == []
    decreases |s|
  {
    hide Lines, Tail, LineEnd;
    LinesUnfold(s);
    var i := LineEnd(s);
    if i < |s| {
      var rest := s[i + 1..];
      TailBegins(rest);
      var b := |rest| - |Tail(rest)|;
      assert s[b + i + 1..] == rest[b..];
      assert b > 0 ==> s[b + i] == rest[b - 1];
    }
  }

  /** What reading from byte `at`, a line end or not, leaves out and what it adds. */
  lemma ScanFromAnywhere(parse: Parser, content: Bytes, at: nat)
    requires at <= |content|
    ensures var tail, rest := Tail(content[..at]), Lines(content[at..]);
            var before := Scan(parse, content[..at], 0);
            if tail == [] || rest == [] then Scan(parse, content, 0) == before + Scan(parse, content, at)
            else
              var next := at + |rest[0]| + 1;
              && Scan(parse, content, 0) ==
                (before + LineYield(parse, tail + rest[0], next)) + Scan(parse, content, next)
              && Scan(parse, content, at) == LineYield(parse, rest[0], next) + Scan(parse, content, next)
  {
    hide *;
    var tail := Tail(content[..at]);
    TailBegins(content[..at]);
    var b := at - |tail|;
    LaterLineIs(content, 0, b);
    assert content[..|content|] == content && content[b..at] == content[..at][b..] == tail;
    ScanJoin(parse, content, 0, b, |content|);
    ScanJoin(parse, content, 0, b, at);
    NothingToScan(parse, content[..at], b);
    Reassociate(Scan(parse, content[..b], 0), [], []);
    LinesHoldNoFeed(content[..at]);
    if tail != [] {
      CutLine(parse, content, b, at);
      if Lines(content[at..]) != [] {
        var line, next := Lines(content[at..])[0], at + |Lines(content[at..])[0]| + 1;
        Reassociate(Scan(parse, content[..at], 0), LineYield(parse, tail + line, next), Scan(parse, content, next));
      }
    }
  }

  /** Reading from inside a line that begins at `b`. */
  lemma CutLine(parse: Parser, content: Bytes, b: nat, at: nat)
    requires b <= at <= |content| && LF !in content[b..at]
    ensures Lines(content[at..]) == [] ==> Scan(parse, content, b) == [] && Scan(parse, content, at) == []
    ensures Lines(content[at..]) != [] ==>
              var line := Lines(content[at..])[0];
              var next := at + |line| + 1;
              && Scan(parse, content, b) == LineYield(parse, content[b..at] + line, next) + Scan(parse, content, next)
              && Scan(parse, content, at) == LineYield(parse, line, next) + Scan(parse, content, next)
  {
    hide *;
    var tail := content[b..at];
    assert content[at..|content|] == content[at..] && content[b..|content|] == content[b..] == tail + content[at..];
    LinesUnfold(content[at..]);
    LinesUnfold(content[b..]);
    FeedAfter(tail, content[at..]);
    if Lines(content[at..]) == [] {
      NothingToScan(parse, content, at);
      NothingToScan(parse, content, b);
    } else {
      TakeLine(parse, content, at, |content|);
      TakeLine(parse, content, b, |content|);
      assert content[b..][..|tail| + |Lines(content[at..])[0]|] == tail + Lines(content[at..])[0];
    }
  }

  lemma {:induction false} FeedAfter(s: Bytes, t: Bytes)
    requires LF !in s
    ensures LineEnd(s + t) == |s| + LineEnd(t)
  {
    if s == [] {
      assert s + t == t;
    } else {
      FeedAfter(s[1..], t);
      assert (s + t)[1..] == s[1..] + t;
    }
  }

  // ----------------------------------------------------------------- records

  /** One written record: a line that is not white space and that the parser accepts, with its
      line feed. */
  predicate IsRecord(parse: Parser, r: Bytes) {
    && r != [] && r[|r| - 1] == LF && LF !in r[..|r| - 1]
    && HasContent(r[..|r| - 1]) && parse(r[..|r| - 1]).Some?
  }

  lemma RecordDecodes(parse: Parser, r: Bytes)
    requires IsRecord(parse, r)
    ensures Decode(parse, r[..|r| - 1]) == parse(r[..|r| - 1])
  {
    hide HasContent;
    DecodesIff(parse, r[..|r| - 1]);
  }

  predicate AreRecords(parse: Parser, rs: seq<Bytes>) {
    forall r :: r in rs ==> IsRecord(parse, r)
  }

  function RecordItem(parse: Parser, r: Bytes): Item
    requires r != [] && parse(r[..|r| - 1]).Some?
  {
    Item(parse(r[..|r| - 1]).value, |r|)
  }

  /** The events written as `rs`, in order, each with the size of its record. */
  function RecordItems(parse: Parser, rs: seq<Bytes>): seq<Item>
    requires AreRecords(parse, rs)
  {
    seq(|rs|, i requires 0 <= i < |rs| => assert rs[i] in rs; RecordItem(parse, rs[i]))
  }

  function Bodies(rs: seq<Bytes>): seq<Bytes>
    requires forall r :: r in rs ==> r != []
  {
    seq(|rs|, i requires 0 <= i < |rs| => assert rs[i] in rs; rs[i][..|rs[i]| - 1])
  }

  /** A file of whole records reads back as exactly those records. */
  lemma {:induction false} LinesOfRecords(parse: Parser, rs: seq<Bytes>)
    requires AreRecords(parse, rs)
    ensures Lines(Flatten(rs)) == Bodies(rs) && Tail(Flatten(rs)) == []
  {
    hide Lines, Tail, HasContent;
    if rs == [] {
      LinesUnfold([]);
    } else {
      var r := rs[0];
      assert r in rs;
      LinesOfRecords(parse, rs[1..]);
      assert r == r[..|r| - 1] + [LF];
      LinesOfLine(r[..|r| - 1], Flatten(rs[1..]));
      assert Bodies(rs) == [r[..|r| - 1]] + Bodies(rs[1..]);
    }
  }

  lemma {:induction false} ItemsOfRecords(parse: Parser, rs: seq<Bytes>)
    requires AreRecords(parse, rs)
    ensures ItemsOf(parse, Bodies(rs)) == RecordItems(parse, rs)
  {
    if rs != [] {
      assert rs[0] in rs;
      RecordDecodes(parse, rs[0]);
      ItemsOfRecords(parse, rs[1..]);
      assert Bodies(rs)[1..] == Bodies(rs[1..]);
      assert RecordItems(parse, rs) == [RecordItem(parse, rs[0])] + RecordItems(parse, rs[1..]);
    }
  }
}
