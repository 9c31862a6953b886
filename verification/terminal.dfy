/** A terminal session: marker stripping on the reader's side, a bounded output
    buffer addressed by absolute cursors on the client's side. */
module Terminal {
  import opened Octets
  import opened OscMarkers

  // ------------------------------------------------- semantic command status

  datatype Pending = Pending(commandId: Bytes, completed: bool, semanticExitCode: Option<int>)

  /** The value of a run of decimal digits. */
  function Digits(ds: Bytes): int {
    if ds == [] then 0 else 10 * Digits(ds[..|ds| - 1]) + (ds[|ds| - 1] as int - 48)
  }

  function CodeValue(rc: Bytes): int {
    if rc != [] && rc[0] == MINUS then -Digits(rc[1..]) else Digits(rc)
  }

  /** The decimal text of a number, without leading zeros. */
  function Decimal(n: nat): Bytes {
    if n < 10 then [(48 + n) as Octet] else Decimal(n / 10) + [(48 + n % 10) as Octet]
  }

  function NumberText(n: int): Bytes {
    if n < 0 then [45] + Decimal(-n) else Decimal(n)
  }

  function Power10(k: nat): nat {
    if k == 0 then 1 else 10 * Power10(k - 1)
  }

  /** Digits count by place. */
  lemma {:induction false} DigitsAppend(a: Bytes, b: Bytes)
    ensures Digits(a + b) == Digits(a) * Power10(|b|) + Digits(b)
    decreases |b|
  {
    if b == [] {
      assert a + b == a;
    } else {
      var b', k := b[..|b| - 1], Power10(|b| - 1);
      assert (a + b)[..|a + b| - 1] == a + b';
      DigitsAppend(a, b');
      assert 10 * (Digits(a) * k + Digits(b')) == Digits(a) * (10 * k) + 10 * Digits(b');
    }
  }

  lemma {:induction false} DecimalIsRead(n: nat)
    ensures Digits(Decimal(n)) == n
    ensures Decimal(n) != [] && forall j :: 0 <= j < |Decimal(n)| ==> IsDigit(Decimal(n)[j])
  {
    var last := (48 + n % 10) as Octet;
    if n >= 10 {
      DecimalIsRead(n / 10);
      assert Decimal(n)[..|Decimal(n)| - 1] == Decimal(n / 10);
    } else {
      assert Digits([]) == 0 && [last][..0] == [];
    }
  }

  /** The text of an integer is a valid exit code and is read as that integer. */
  lemma CodeIsRead(n: int)
    ensures ValidCode(NumberText(n)) && CodeValue(NumberText(n)) == n
  {
    if n < 0 {
      DecimalIsRead(-n);
      assert NumberText(n)[1..] == Decimal(-n);
    } else {
      DecimalIsRead(n);
    }
  }

  /** `m` reports the end of the command `p` waits for. */
  predicate Reports(p: Pending, m: Marker) {
    m.kind == 68 && m.rc.Some? && !p.completed && p.commandId == m.id
  }

  function Consume(p: Option<Pending>, m: Marker): Option<Pending> {
    if p.Some? && Reports(p.value, m) then Some(p.value.(semanticExitCode := Some(CodeValue(m.rc.value)))) else p
  }

  function ConsumeAll(p: Option<Pending>, ms: seq<Marker>): Option<Pending>
    decreases |ms|
  {
    if ms == [] then p else ConsumeAll(Consume(p, ms[0]), ms[1..])
  }

  lemma {:induction false} ConsumeAppend(p: Option<Pending>, a: seq<Marker>, b: seq<Marker>)
    ensures ConsumeAll(p, a + b) == ConsumeAll(ConsumeAll(p, a), b)
    decreases |a|
  {
    if a == [] {
      assert a + b == b;
    } else {
      assert (a + b)[1..] == a[1..] + b;
      ConsumeAppend(Consume(p, a[0]), a[1..], b);
    }
  }

  /** A report is a `D` marker with an exit code and the name of a command still under way. */
  lemma ReportsIff(p: Pending, m: Marker)
    ensures Reports(p, m) <==> m.kind as int == 'D' as int && m.rc != None && m.id == p.commandId && !p.completed
  {
    assert m.kind as int == 68 <==> m.kind == 68;
  }

  /** The last report of the pending command decides its exit code. */
  lemma {:induction false} LastReportWins(p: Pending, ms: seq<Marker>)
    ensures ConsumeAll(Some(p), ms).Some?
    ensures var q := ConsumeAll(Some(p), ms).value;
            && q.commandId == p.commandId && q.completed == p.completed
            && ((forall i :: 0 <= i < |ms| ==> !Reports(p, ms[i])) ==> q == p)
            && (forall i :: 0 <= i < |ms| && Reports(p, ms[i]) && (forall j :: i < j < |ms| ==> !Reports(p, ms[j]))
                  ==> q.semanticExitCode == Some(CodeValue(ms[i].rc.value)))
    decreases |ms|
  {
    if ms != [] {
      var p' := Consume(Some(p), ms[0]).value;
      LastReportWins(p', ms[1..]);
      assert forall m :: Reports(p, m) <==> Reports(p', m);
      assert forall i :: 1 <= i < |ms| ==> ms[i] == ms[1..][i - 1];
      assert forall i :: 0 <= i < |ms[1..]| ==> ms[1..][i] == ms[i + 1];
    }
  }

  // ----------------------------------------------------------------- session

  datatype ReadError = NegativeCursor | CursorBeyondOutput

  datatype Slice = Slice(from: nat, next: nat, data: Bytes, truncated: bool, atEnd: bool)

  /** What a reader loop leaves in the output: everything released, then the final flush. */
  function Emission(tail: Bytes, chunks: seq<Bytes>): Bytes {
    var run := RunReads(tail, chunks);
    run.released + run.held
  }

  class TerminalSession {
    const maxBufferBytes: nat
    var buffer: Bytes
    var bufferStart: nat
    var oscTail: Bytes
    var pending: Option<Pending>
    /** Every byte ever put into the buffer. */
    ghost var emitted: Bytes

    ghost predicate Valid()
      reads this
    {
      && |buffer| == Min(|emitted|, maxBufferBytes)
      && bufferStart + |buffer| == |emitted|
      && buffer == emitted[bufferStart..]
    }

    constructor (maxBufferBytes: nat, pending: Option<Pending>)
      ensures Valid() && emitted == [] && oscTail == []
      ensures this.maxBufferBytes == maxBufferBytes && this.pending == pending
    {
      this.maxBufferBytes := maxBufferBytes;
      this.pending := pending;
      buffer, bufferStart, oscTail, emitted := [], 0, [], [];
    }

    function BufferEnd(): nat
      reads this
    {
      bufferStart + |buffer|
    }

    static method SplitLength(c: Bytes) returns (size: nat)
      ensures size == SplitPrefix(c, |PREFIX| - 1)
    {
      size := Min(|PREFIX| - 1, |c|);
      SplitPrefixCapped(c, |PREFIX| - 1);
      while size > 0 && c[|c| - size..] != PREFIX[..size]
        invariant size <= |c| && size < |PREFIX|
        invariant SplitPrefix(c, size) == SplitPrefix(c, |PREFIX| - 1)
      {
        size := size - 1;
      }
    }

    /** Deletes every marker of `combined`, left to right, recording exit codes. */
    method DeleteMarkers(combined: Bytes) returns (cleaned: Bytes)
      modifies this`pending
      ensures cleaned == Strip(combined)
      ensures pending == ConsumeAll(old(pending), Stripped(combined))
    {
      hide Match, Render, Consume, Strip, Stripped;
      cleaned := [];
      var i := 0;
      while i < |combined|
        invariant i <= |combined|
        invariant cleaned + Strip(combined[i..]) == Strip(combined)
        invariant ConsumeAll(pending, Stripped(combined[i..])) == ConsumeAll(old(pending), Stripped(combined))
      {
        var rest := combined[i..];
        StripStep(rest);
        match Match(rest) {
          case Some(m) =>
            assert rest[|Render(m)|..] == combined[i + |Render(m)|..];
            ConsumeOne(pending, m, Stripped(combined[i + |Render(m)|..]));
            pending := Consume(pending, m);
            i := i + |Render(m)|;
          case None =>
            assert rest[1..] == combined[i + 1..];
            cleaned := cleaned + [combined[i]];
            i := i + 1;
        }
      }
      StripEmpty(combined[i..]);
    }

    /** Deletes the markers of `oscTail + data`, recording their exit codes, and holds
        back a trailing incomplete one. */
    method StripOsc(data: Bytes) returns (cleaned: Bytes)
      requires data != []
      modifies this`oscTail, this`pending
      ensures cleaned == ReleaseOf(old(oscTail), data)
      ensures oscTail == HeldOf(old(oscTail), data)
      ensures pending == ConsumeAll(old(pending), ConsumedOf(old(oscTail), data))
    {
      hide Strip, Stripped, SplitPrefix, EndsInPrefix, PrefixAt;
      var combined := oscTail + data;
      oscTail := [];
      cleaned := DeleteMarkers(combined);
      ghost var whole := cleaned;

      var markerAt := LastPrefix(cleaned, |cleaned|);
      if markerAt >= 0 && BEL !in cleaned[markerAt..] {
        oscTail := cleaned[markerAt..];
        cleaned := cleaned[..markerAt];
      } else {
        var size := SplitLength(cleaned);
        oscTail := cleaned[|cleaned| - size..];
        cleaned := cleaned[..|cleaned| - size];
      }
      if |oscTail| > TAIL_MAX {
        SplitPrefixOfSuffix(whole, oscTail);
        var keep := SplitLength(oscTail);
        cleaned := cleaned + oscTail[..|oscTail| - keep];
        oscTail := oscTail[|oscTail| - keep..];
      }
      assert cleaned == whole[..|cleaned|] && oscTail == whole[|cleaned|..];
    }

    method AppendOutput(data: Bytes)
      requires Valid()
      modifies this
      ensures Valid()
      ensures emitted == old(emitted) + ReleaseOf(old(oscTail), data)
      ensures oscTail == HeldOf(old(oscTail), data)
      ensures pending == ConsumeAll(old(pending), ConsumedOf(old(oscTail), data))
    {
      if data == [] {
        return;
      }
      var cleaned := StripOsc(data);
      if cleaned == [] {
        return;
      }
      Extend(cleaned);
    }

    /** Appends to the buffer and drops its oldest bytes beyond the bound. */
    method Extend(data: Bytes)
      requires Valid()
      modifies this`buffer, this`bufferStart, this`emitted
      ensures Valid()
      ensures emitted == old(emitted) + data
    {
      buffer := buffer + data;
      var excess := |buffer| - maxBufferBytes;
      if excess > 0 {
        buffer := buffer[excess..];
        bufferStart := bufferStart + excess;
      }
      emitted := emitted + data;
    }

    /** Reads until end of file, then releases a marker the shell never completed. */
    method ReaderLoop(chunks: seq<Bytes>)
      requires Valid()
      modifies this
      ensures Valid()
      ensures emitted == old(emitted) + Emission(old(oscTail), chunks)
      ensures oscTail == []
      ensures pending == ConsumeAll(old(pending), RunReads(old(oscTail), chunks).consumed)
    {
      hide ReleaseOf, HeldOf, ConsumedOf, Consume, ConsumeAll, RunReads;
      ghost var run := RunReads(oscTail, chunks);
      assert chunks[0..] == chunks;
      var i := 0;
      while i < |chunks|
        invariant 0 <= i <= |chunks| && Valid()
        invariant emitted + RunReads(oscTail, chunks[i..]).released == old(emitted) + run.released
        invariant RunReads(oscTail, chunks[i..]).held == run.held
        invariant ConsumeAll(pending, RunReads(oscTail, chunks[i..]).consumed) == ConsumeAll(old(pending), run.consumed)
      {
        RunStep(oscTail, chunks[i..]);
        assert chunks[i..][0] == chunks[i] && chunks[i..][1..] == chunks[i + 1..];
        ghost var later := RunReads(HeldOf(oscTail, chunks[i]), chunks[i + 1..]);
        ConsumeAppend(pending, ConsumedOf(oscTail, chunks[i]), later.consumed);
        AppendOutput(chunks[i]);
        i := i + 1;
      }
      RunEnd(oscTail, pending);
      assert chunks[i..] == [];
      assert emitted + [] == emitted;
      if oscTail != [] {
        Extend(oscTail);
        oscTail := [];
      }
    }

    /** The bytes from an absolute cursor on, at most `maxBytes` of them. */
    method ReadSlice(cursor: Option<int>, maxBytes: nat) returns (r: Result<Slice, ReadError>)
      requires Valid()
      ensures r.Err? <==> cursor.Some? && (cursor.value < 0 || cursor.value > |emitted|)
      ensures r.Err? ==> r.error == if cursor.value < 0 then NegativeCursor else CursorBeyondOutput
      ensures r.Ok? ==>
                var s := r.value;
                var oldest := |emitted| - Min(|emitted|, maxBufferBytes);
                && s.from == (if cursor.None? then oldest else Max(cursor.value, oldest))
                && s.truncated == (cursor.Some? && cursor.value < oldest)
                && s.next == Min(s.from + maxBytes, |emitted|)
                && s.from <= s.next
                && s.data == emitted[s.from..s.next]
                && s.atEnd == (s.next == |emitted|)
    {
      var requested := if cursor.None? then bufferStart else cursor.value;
      if requested < 0 {
        return Err(NegativeCursor);
      }
      var truncated := requested < bufferStart;
      var effective := Max(requested, bufferStart);
      if effective > BufferEnd() {
        return Err(CursorBeyondOutput);
      }
      var relative := effective - bufferStart;
      var data := buffer[relative..Min(relative + maxBytes, |buffer|)];
      var next := effective + |data|;
      assert data == emitted[effective..next];
      return Ok(Slice(effective, next, data, truncated, next >= BufferEnd()));
    }

    /** The output between two cursors, clipped to what is retained. */
    method OutputBetween(start: int, end: Option<int>, maxBytes: nat)
      returns (from: int, next: int, data: Bytes, truncated: bool)
      requires Valid()
      ensures truncated <==> start < |emitted| - Min(|emitted|, maxBufferBytes)
      ensures var oldest := |emitted| - Min(|emitted|, maxBufferBytes);
              var upper := if end.None? then |emitted| else Min(end.value, |emitted|);
              && from == Min(Max(start, oldest), upper)
              && (oldest <= upper ==>
                    && from <= next == Min(from + maxBytes, upper)
                    && 0 <= from && data == emitted[from..next])
              && (upper < oldest ==> data == [] && next == from)
    {
      truncated := start < bufferStart;
      from := Max(start, bufferStart);
      var upper := if end.None? then BufferEnd() else Min(end.value, BufferEnd());
      if from > upper {
        from := upper;
      }
      var relative := from - bufferStart;
      var available := Max(0, upper - from);
      var take := Min(maxBytes, available);
      // With nothing available the slice is empty wherever it starts.
      data := if take == 0 then [] else buffer[relative..relative + take];
      next := from + |data|;
    }
  }

  lemma {:induction false} SplitPrefixCapped(c: Bytes, n: nat)
    requires n < |PREFIX|
    ensures SplitPrefix(c, n) == SplitPrefix(c, Min(n, |c|))
  {
    if n > |c| {
      SplitPrefixCapped(c, n - 1);
    }
  }

  lemma SplitPrefixOfSuffix(c: Bytes, t: Bytes)
    requires |PREFIX| <= |t| <= |c| && c[|c| - |t|..] == t
    ensures SplitPrefix(c, |PREFIX| - 1) == SplitPrefix(t, |PREFIX| - 1)
  {
    forall k | 1 <= k < |PREFIX| ensures EndsInPrefix(c, k) == EndsInPrefix(t, k) {
      assert c[|c| - k..] == t[|t| - k..];
    }
  }

  lemma StripEmpty(s: Bytes)
    requires s == []
    ensures Strip(s) == [] && Stripped(s) == []
  {
  }

  lemma ConsumeOne(p: Option<Pending>, m: Marker, ms: seq<Marker>)
    ensures ConsumeAll(p, [m] + ms) == ConsumeAll(Consume(p, m), ms)
  {
    assert ([m] + ms)[1..] == ms;
  }

  lemma RunStep(tail: Bytes, chunks: seq<Bytes>)
    requires chunks != []
    ensures var later := RunReads(HeldOf(tail, chunks[0]), chunks[1..]);
            RunReads(tail, chunks) == Run(ReleaseOf(tail, chunks[0]) + later.released, later.held,
                                          ConsumedOf(tail, chunks[0]) + later.consumed)
  {
  }

  lemma RunEnd(tail: Bytes, p: Option<Pending>)
    ensures RunReads(tail, []) == Run([], tail, []) && ConsumeAll(p, []) == p
  {
  }

  lemma StripStep(s: Bytes)
    requires s != []
    ensures match Match(s)
            case Some(m) =>
              && |Render(m)| <= |s| && Render(m) != []
              && Strip(s) == Strip(s[|Render(m)|..]) && Stripped(s) == [m] + Stripped(s[|Render(m)|..])
            case None => Strip(s) == [s[0]] + Strip(s[1..]) && Stripped(s) == Stripped(s[1..])
  {
    match Match(s)
    case Some(m) => MatchIsRender(s, m);
    case None =>
  }

  /** Two ways of cutting one well-formed stream into reads cannot be told apart: the
      output is the stream's text and the exit code is that of its last report. */
  lemma ReadSizesDoNotMatter(ts: seq<Token>, one: seq<Bytes>, two: seq<Bytes>, p: Option<Pending>)
    requires ValidTokens(ts) && Flatten(one) == Stream(ts) == Flatten(two)
    ensures Emission([], one) == Plain(ts) == Emission([], two)
    ensures ConsumeAll(p, RunReads([], one).consumed) == ConsumeAll(p, Marks(ts))
         == ConsumeAll(p, RunReads([], two).consumed)
  {
    ChunkInvariance([], one, ts);
    ChunkInvariance([], two, ts);
    assert Plain(ts) + [] == Plain(ts);
  }

  /** The bytes by which the shell reports that command `id` ended with exit code `n`. */
  function Report(id: Bytes, n: int): Bytes {
    Ascii("\U{001B}]133;D;id=") + id + Ascii(";rc=") + NumberText(n) + Ascii("\U{0007}")
  }

  /** A command's name: 24 lower-case hexadecimal digits. */
  predicate IsCommandId(id: Bytes) {
    |id| == 24 && forall b :: b in id ==> b in Ascii("0123456789abcdef")
  }

  lemma ReportIsMarker(id: Bytes, n: int)
    ensures Report(id, n) == Render(Marker(68, id, Some(NumberText(n))))
    ensures IsCommandId(id) ==> ValidMarker(Marker(68, id, Some(NumberText(n))))
  {
    CodeIsRead(n);
    MarkerText(Marker(68, id, Some(NumberText(n))));
    HexDigits();
    hide NumberText, Render;
    assert Ascii("\U{001B}]133;D;id=") == Ascii("\U{001B}]133;") + [68] + Ascii(";id=");
  }

  /** However the stream is cut into reads, the last report of the pending command decides
      its exit code, and that is the number written in the report. */
  lemma ExitCodeIsTold(ts: seq<Token>, chunks: seq<Bytes>, p: Pending, i: nat, n: int)
    requires ValidTokens(ts) && Flatten(chunks) == Stream(ts) && !p.completed
    requires i < |Marks(ts)| && Marks(ts)[i] == Marker('D' as int as Octet, p.commandId, Some(NumberText(n)))
    requires forall j :: i < j < |Marks(ts)| ==>
               Marks(ts)[j].kind as int != 'D' as int || Marks(ts)[j].rc.None? || Marks(ts)[j].id != p.commandId
    ensures var after := ConsumeAll(Some(p), RunReads([], chunks).consumed);
            after.Some? && after.value.semanticExitCode == Some(n)
  {
    hide RunReads, Render, NumberText, CodeValue, ConsumeAll;
    ReadSizesDoNotMatter(ts, chunks, chunks, Some(p));
    LastReportWins(p, Marks(ts));
    CodeIsRead(n);
  }

  /** A session told of the end of its command in one read shows nothing of it and knows the
      exit code. */
  method TellExitCode(session: TerminalSession, n: int)
    requires session.Valid() && session.oscTail == [] && session.pending.Some? && !session.pending.value.completed
    requires IsCommandId(session.pending.value.commandId)
    modifies session
    ensures session.Valid() && session.emitted == old(session.emitted) && session.oscTail == []
    ensures session.pending == Some(old(session.pending).value.(semanticExitCode := Some(n)))
  {
    hide Render, NumberText, CodeValue, ReleaseOf, HeldOf, ConsumedOf, ConsumeAll;
    var p := session.pending.value;
    ghost var m := Marker(68, p.commandId, Some(NumberText(n)));
    ReportIsMarker(p.commandId, n);
    CodeIsRead(n);
    OneMarkRead(m);
    OneConsumed(p, m);
    assert session.emitted + [] == session.emitted;
    session.AppendOutput(Report(p.commandId, n));
  }

  lemma OneMarkRead(m: Marker)
    requires ValidMarker(m)
    ensures ReleaseOf([], Render(m)) == [] && HeldOf([], Render(m)) == [] && ConsumedOf([], Render(m)) == [m]
  {
    StripMark(m, []);
    RenderShape(m);
    assert [] + Render(m) == Render(m) + [] == Render(m);
    hide Render;
    StripEmpty([]);
    assert [m] + [] == [m];
  }

  lemma OneConsumed(p: Pending, m: Marker)
    ensures ConsumeAll(Some(p), [m]) == Consume(Some(p), m)
  {
    var none: seq<Marker> := [m][1..];
    assert none == [];
  }

  // --------------------------------------------------------- cursor following

  /** The shell produces output, or the client reads on from its cursor. */
  datatype Event = Output(data: Bytes) | Read(maxBytes: nat)

  /** The slice of `stream`, of which the last `limit` bytes are retained, from `cursor` on. */
  function SliceAt(stream: Bytes, limit: nat, cursor: nat, maxBytes: nat): Slice
    requires cursor <= |stream|
  {
    var oldest := |stream| - Min(|stream|, limit);
    var from := Max(cursor, oldest);
    var next := Min(from + maxBytes, |stream|);
    Slice(from, next, stream[from..next], cursor < oldest, next == |stream|)
  }

  /** What a client that feeds each `next` cursor back gets to see of the stream so far,
      `stream`, with `held` held back, and of what the script brings. */
  function Slices(limit: nat, stream: Bytes, held: Bytes, cursor: nat, script: seq<Event>): seq<Slice>
    requires cursor <= |stream|
    decreases |script|
  {
    if script == [] then []
    else match script[0]
      case Output(data) => Slices(limit, stream + ReleaseOf(held, data), HeldOf(held, data), cursor, script[1..])
      case Read(maxBytes) =>
        var s := SliceAt(stream, limit, cursor, maxBytes);
        [s] + Slices(limit, stream, held, s.next, script[1..])
  }

  /** The stream once the script is over. */
  function StreamAfter(stream: Bytes, held: Bytes, script: seq<Event>): Bytes
    decreases |script|
  {
    if script == [] then stream
    else match script[0]
      case Output(data) => StreamAfter(stream + ReleaseOf(held, data), HeldOf(held, data), script[1..])
      case Read(_) => StreamAfter(stream, held, script[1..])
  }

  /** What the shell produced. */
  function Outputs(script: seq<Event>): seq<Bytes> {
    if script == [] then [] else (if script[0].Output? then [script[0].data] else []) + Outputs(script[1..])
  }

  function Reads(script: seq<Event>): nat {
    if script == [] then 0 else (if script[0].Read? then 1 else 0) + Reads(script[1..])
  }

  /** Reading changes nothing about what is emitted. */
  lemma {:induction false} StreamIsOutput(stream: Bytes, held: Bytes, script: seq<Event>)
    ensures StreamAfter(stream, held, script) == stream + RunReads(held, Outputs(script)).released
    decreases |script|
  {
    hide ReleaseOf, HeldOf, ConsumedOf;
    if script != [] {
      match script[0] {
        case Output(data) =>
          StreamIsOutput(stream + ReleaseOf(held, data), HeldOf(held, data), script[1..]);
          assert Outputs(script)[1..] == Outputs(script[1..]);
          Reassociate(stream, ReleaseOf(held, data), RunReads(HeldOf(held, data), Outputs(script[1..])).released);
        case Read(_) =>
          StreamIsOutput(stream, held, script[1..]);
          Reassociate([], Outputs(script[1..]), []);
      }
    }
  }

  predicate SliceOf(s: Slice, stream: Bytes) {
    s.from <= s.next <= |stream| && s.data == stream[s.from..s.next]
  }

  predicate Meets(before: nat, s: Slice) {
    if s.truncated then before < s.from else before == s.from
  }

  function CursorBefore(start: nat, slices: seq<Slice>, i: nat): nat
    requires i <= |slices|
  {
    if i == 0 then start else slices[i - 1].next
  }

  /** Consecutive slices meet exactly, except where one is flagged as truncated. */
  predicate Chained(start: nat, slices: seq<Slice>) {
    forall i :: 0 <= i < |slices| ==> Meets(CursorBefore(start, slices, i), slices[i])
  }

  /** Every read succeeds, every slice is a piece of the full stream, and a gap opens exactly
      where `truncated` is set. */
  lemma {:induction false} SlicesChain(limit: nat, stream: Bytes, held: Bytes, cursor: nat, script: seq<Event>)
    requires cursor <= |stream|
    ensures var slices := Slices(limit, stream, held, cursor, script);
            && Chained(cursor, slices) && |slices| == Reads(script) && stream <= StreamAfter(stream, held, script)
            && forall s :: s in slices ==> SliceOf(s, StreamAfter(stream, held, script))
    decreases |script|
  {
    hide ReleaseOf, HeldOf;
    if script != [] {
      match script[0] {
        case Output(data) =>
          SlicesChain(limit, stream + ReleaseOf(held, data), HeldOf(held, data), cursor, script[1..]);
        case Read(maxBytes) =>
          var s := SliceAt(stream, limit, cursor, maxBytes);
          SlicesChain(limit, stream, held, s.next, script[1..]);
          ChainedCons(cursor, s, Slices(limit, stream, held, s.next, script[1..]));
      }
    }
  }

  lemma ChainedCons(start: nat, s: Slice, slices: seq<Slice>)
    requires Chained(s.next, slices) && Meets(start, s)
    ensures Chained(start, [s] + slices)
  {
    forall i | 0 <= i <= |slices| ensures Meets(CursorBefore(start, [s] + slices, i), ([s] + slices)[i]) {
      assert i > 0 ==> Meets(CursorBefore(s.next, slices, i - 1), slices[i - 1]);
    }
  }

  /** A client that feeds each `next` cursor back as its next cursor, under any
      interleaving with output. */
  method Follow(session: TerminalSession, start: nat, script: seq<Event>) returns (slices: seq<Slice>)
    requires session.Valid() && start <= |session.emitted|
    modifies session
    ensures session.Valid() && session.emitted == StreamAfter(old(session.emitted), old(session.oscTail), script)
    ensures slices == Slices(session.maxBufferBytes, old(session.emitted), old(session.oscTail), start, script)
  {
    hide ReleaseOf, HeldOf, ConsumedOf, ConsumeAll;
    var cursor: nat := start;
    slices := [];
    var i := 0;
    assert script[0..] == script;
    while i < |script|
      invariant 0 <= i <= |script| && session.Valid() && cursor <= |session.emitted|
      invariant StreamAfter(old(session.emitted), old(session.oscTail), script) ==
                StreamAfter(session.emitted, session.oscTail, script[i..])
      invariant Slices(session.maxBufferBytes, old(session.emitted), old(session.oscTail), start, script) ==
                slices + Slices(session.maxBufferBytes, session.emitted, session.oscTail, cursor, script[i..])
    {
      assert script[i..][0] == script[i] && script[i..][1..] == script[i + 1..];
      match script[i] {
        case Output(data) =>
          session.AppendOutput(data);
        case Read(maxBytes) =>
          var r := session.ReadSlice(Some(cursor), maxBytes);
          Reassociate(slices, [r.value],
                      Slices(session.maxBufferBytes, session.emitted, session.oscTail, r.value.next, script[i + 1..]));
          slices := slices + [r.value];
          cursor := r.value.next;
      }
      i := i + 1;
    }
    Reassociate(slices, [], []);
  }
}
