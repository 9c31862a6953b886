/** The terminal's private OSC 133 markers: their grammar, the deletion of every
    complete marker from a byte string, and the bytes held back between chunks. */
module OscMarkers {
  import opened Octets

  const ESC: Octet := 27
  const BEL: Octet := 7
  const MINUS: Octet := 45

  /** `ESC ] 1 3 3 ;` */
  const PREFIX: Bytes := [27, 93, 49, 51, 51, 59]
  /** `;id=` */
  const ID_KEY: Bytes := [59, 105, 100, 61]
  /** `;rc=` */
  const RC_KEY: Bytes := [59, 114, 99, 61]
  const ID_LENGTH := 24
  const TAIL_MAX := 256

  // ---------------------------------------------------------------- grammar

  datatype Marker = Marker(kind: Octet, id: Bytes, rc: Option<Bytes>)

  predicate IsDigit(b: Octet) { 48 <= b <= 57 }

  predicate IsHex(b: Octet) { IsDigit(b) || 97 <= b <= 102 }

  /** The position of the first non-digit of `s` at or after `i`. */
  function DigitsEnd(s: Bytes, i: nat): (k: nat)
    requires i <= |s|
    ensures i <= k <= |s|
    ensures forall j :: i <= j < k ==> IsDigit(s[j])
    ensures k < |s| ==> !IsDigit(s[k])
    decreases |s| - i
  {
    if i < |s| && IsDigit(s[i]) then DigitsEnd(s, i + 1) else i
  }

  predicate ValidCode(rc: Bytes) {
    var from := if rc != [] && rc[0] == MINUS then 1 else 0;
    from < |rc| && forall j :: from <= j < |rc| ==> IsDigit(rc[j])
  }

  predicate ValidMarker(m: Marker) {
    && m.kind in [67, 68]
    && |m.id| == ID_LENGTH
    && (forall j :: 0 <= j < ID_LENGTH ==> IsHex(m.id[j]))
    && (m.rc.Some? ==> ValidCode(m.rc.value))
  }

  /** Everything in a marker before the optional exit code. */
  function Head(m: Marker): Bytes {
    PREFIX + [m.kind] + ID_KEY + m.id
  }

  function Render(m: Marker): Bytes {
    Head(m) + (if m.rc.Some? then RC_KEY + m.rc.value else []) + [BEL]
  }

  /** The complete marker `s` begins with, if any: the regular expression
      `ESC ]133; ([CD]) ;id= ([a-f0-9]{24}) (;rc= (-?[0-9]+))? BEL` matched at the start of `s`. */
  function Match(s: Bytes): Option<Marker> {
    if |s| < 36 || s[..6] != PREFIX || s[6] !in [67, 68] || s[7..11] != ID_KEY
       || exists j :: 11 <= j < 35 && !IsHex(s[j])
    then None
    else if s[35] == BEL then Some(Marker(s[6], s[11..35], None))
    else if |s| < 40 || s[35..39] != RC_KEY then None
    else
      var from := if s[39] == MINUS then 40 else 39;
      var to := DigitsEnd(s, from);
      if from < to < |s| && s[to] == BEL then Some(Marker(s[6], s[11..35], Some(s[39..to])))
      else None
  }

  lemma RenderShape(m: Marker)
    requires ValidMarker(m)
    ensures |Render(m)| == if m.rc.Some? then 40 + |m.rc.value| else 36
    ensures Render(m)[0] == ESC
    ensures forall i :: 1 <= i < |Render(m)| ==> Render(m)[i] != ESC
    ensures Render(m)[|Render(m)| - 1] == BEL
    ensures forall i :: 0 <= i < |Render(m)| - 1 ==> Render(m)[i] != BEL
    ensures Render(m)[..6] == PREFIX
    ensures Render(m)[..35] == Head(m)
  {
  }

  /** A marker in characters. */
  lemma MarkerText(m: Marker)
    ensures Render(m) == Ascii("\U{001B}]133;") + [m.kind] + Ascii(";id=") + m.id
                       + (if m.rc.Some? then Ascii(";rc=") + m.rc.value else []) + Ascii("\U{0007}")
  {
    assert Ascii("\U{001B}]133;") == PREFIX && Ascii(";id=") == ID_KEY && Ascii(";rc=") == RC_KEY;
    assert Ascii("\U{0007}") == [BEL];
  }

  predicate DigitText(s: Bytes) {
    s != [] && forall b :: b in s ==> b in Ascii("0123456789")
  }

  /** Its fields in characters: `C` or `D`, 24 lower-case hexadecimal digits and, if there is an
      exit code, decimal digits with or without a minus sign. */
  lemma ValidMarkerIff(m: Marker)
    ensures ValidMarker(m) <==>
              && (m.kind as int == 'C' as int || m.kind as int == 'D' as int) && |m.id| == 24
              && (forall b :: b in m.id ==> b in Ascii("0123456789abcdef"))
              && (m.rc.Some? ==>
                    DigitText(m.rc.value) || (Ascii("-") <= m.rc.value && DigitText(m.rc.value[1..])))
  {
    HexDigits();
    assert (forall j :: 0 <= j < |m.id| ==> IsHex(m.id[j])) <==> forall b :: b in m.id ==> IsHex(b);
    assert Ascii("-") == [MINUS];
    if m.rc.Some? { ValidCodeIff(m.rc.value); }
  }

  lemma ValidCodeIff(rc: Bytes)
    ensures ValidCode(rc) <==> DigitText(rc) || ([MINUS] <= rc && DigitText(rc[1..]))
  {
    HexDigits();
    var from := if rc != [] && rc[0] == MINUS then 1 else 0;
    assert rc != [] ==> ([MINUS] <= rc <==> rc[0] == MINUS);
    assert rc != [] && rc[0] == MINUS ==> MINUS in rc;
    assert forall j :: from <= j < |rc| ==> rc[j] == rc[from..][j - from];
  }

  lemma HexDigits()
    ensures forall b :: b in Ascii("0123456789abcdef") <==> IsHex(b)
    ensures forall b :: b in Ascii("0123456789") <==> IsDigit(b)
  {
    var hex, dec := Ascii("0123456789abcdef"), Ascii("0123456789");
    forall b | IsHex(b) ensures b in hex {
      assert hex[if b < 58 then b as int - 48 else b as int - 87] == b;
    }
    forall b | IsDigit(b) ensures b in dec {
      assert dec[b as int - 48] == b;
    }
    assert forall i :: 0 <= i < |hex| ==> IsHex(hex[i]);
    assert forall i :: 0 <= i < |dec| ==> IsDigit(dec[i]);
  }

  /** A match is exactly a rendered valid marker at the front. */
  lemma MatchIsRender(s: Bytes, m: Marker)
    ensures Match(s) == Some(m) <==> ValidMarker(m) && Render(m) <= s
  {
    if ValidMarker(m) && Render(m) <= s {
      RenderIsMatched(s, m);
    }
    if Match(s) == Some(m) {
      MatchRenders(s, m);
    }
  }

  lemma RenderIsMatched(s: Bytes, m: Marker)
    requires ValidMarker(m) && Render(m) <= s
    ensures Match(s) == Some(m)
  {
    RenderShape(m);
    var r := Render(m);
    assert forall i :: 0 <= i < |r| ==> s[i] == r[i];
    assert s[..6] == r[..6];
    assert s[7..11] == r[7..11] == ID_KEY;
    assert s[11..35] == r[11..35] == m.id;
    assert forall j :: 11 <= j < 35 ==> s[j] == m.id[j - 11];
    if m.rc.Some? {
      var rc := m.rc.value;
      assert s[35..39] == r[35..39] == RC_KEY;
      assert forall j :: 0 <= j < |rc| ==> s[39 + j] == r[39 + j] == rc[j];
      var from := if s[39] == MINUS then 40 else 39;
      var to := DigitsEnd(s, from);
      assert s[39 + |rc|] == BEL;
      assert to == 39 + |rc|;
      assert s[39..to] == rc;
    }
  }

  lemma MatchRenders(s: Bytes, m: Marker)
    requires Match(s) == Some(m)
    ensures ValidMarker(m) && Render(m) <= s
  {
    assert Head(m) == s[..35];
    if m.rc.Some? {
      var to := 39 + |m.rc.value|;
      assert Render(m) == s[..35] + s[35..39] + s[39..to] + [s[to]];
      assert Render(m) == s[..to + 1];
    } else {
      assert Render(m) == s[..36];
    }
  }

  // --------------------------------------------------------------- deletion

  /** `s` with its markers deleted, leftmost first and without rescanning. */
  function Strip(s: Bytes): Bytes {
    if s == [] then []
    else
      match Match(s)
      case Some(m) => MatchIsRender(s, m); Strip(s[|Render(m)|..])
      case None => [s[0]] + Strip(s[1..])
  }

  /** The markers `Strip` deletes, in order. */
  function Stripped(s: Bytes): seq<Marker> {
    if s == [] then []
    else
      match Match(s)
      case Some(m) => MatchIsRender(s, m); [m] + Stripped(s[|Render(m)|..])
      case None => Stripped(s[1..])
  }

  lemma {:induction false} StripNoEscape(s: Bytes)
    requires ESC !in s
    ensures Strip(s) == s && Stripped(s) == []
  {
    if s != [] {
      assert s[0] != ESC;
      assert |s| >= 6 ==> s[..6][0] != PREFIX[0];
      StripNoEscape(s[1..]);
    }
  }

  // --------------------------------------------------- bytes held for later

  /** `c` ends with the first `n` bytes of the prefix. */
  predicate EndsInPrefix(c: Bytes, n: nat) {
    1 <= n < |PREFIX| && n <= |c| && c[|c| - n..] == PREFIX[..n]
  }

  /** The longest proper, non-empty piece of the prefix, of at most `n` bytes, that
      ends `c`; 0 if none does. */
  function SplitPrefix(c: Bytes, n: nat): (k: nat)
    requires n < |PREFIX|
    ensures k <= |c| && k <= n
    ensures k > 0 ==> EndsInPrefix(c, k)
    ensures forall j :: k < j <= n ==> !EndsInPrefix(c, j)
  {
    if n == 0 then 0
    else if EndsInPrefix(c, n) then n
    else SplitPrefix(c, n - 1)
  }

  predicate PrefixAt(c: Bytes, i: int) {
    0 <= i <= |c| - |PREFIX| && c[i..i + |PREFIX|] == PREFIX
  }

  /** The last position below `n` where the prefix starts, or -1. */
  function LastPrefix(c: Bytes, n: nat): (at: int)
    requires n <= |c| + 1
    ensures -1 <= at < n
    ensures at >= 0 ==> PrefixAt(c, at)
    ensures forall i :: at < i < n ==> !PrefixAt(c, i)
  {
    if n == 0 then -1
    else if PrefixAt(c, n - 1) then n - 1
    else LastPrefix(c, n - 1)
  }

  /** How many trailing bytes of `c` are kept back: an unterminated marker that
      still fits the bound, or else a split piece of the prefix. */
  function HeldLength(c: Bytes): (n: nat)
    ensures n <= |c| && n <= TAIL_MAX
  {
    var at := LastPrefix(c, |c|);
    if at >= 0 && BEL !in c[at..] && |c| - at <= TAIL_MAX then |c| - at
    else SplitPrefix(c, |PREFIX| - 1)
  }

  /** One read: what is released and what is held. */
  function ReleaseOf(tail: Bytes, data: Bytes): Bytes {
    if data == [] then [] else var c := Strip(tail + data); c[..|c| - HeldLength(c)]
  }

  function HeldOf(tail: Bytes, data: Bytes): Bytes {
    if data == [] then tail else var c := Strip(tail + data); c[|c| - HeldLength(c)..]
  }

  function ConsumedOf(tail: Bytes, data: Bytes): seq<Marker> {
    if data == [] then [] else Stripped(tail + data)
  }

  /** A run of reads: everything released, what is still held, and the markers consumed. */
  datatype Run = Run(released: Bytes, held: Bytes, consumed: seq<Marker>)

  function RunReads(tail: Bytes, chunks: seq<Bytes>): Run
    decreases |chunks|
  {
    if chunks == [] then Run([], tail, [])
    else
      var rest := RunReads(HeldOf(tail, chunks[0]), chunks[1..]);
      Run(ReleaseOf(tail, chunks[0]) + rest.released, rest.held, ConsumedOf(tail, chunks[0]) + rest.consumed)
  }

  // ------------------------------------------------------- chunk invariance

  /** A well-formed stream is made of ESC-free bytes and complete markers. */
  datatype Token = Text(b: Octet) | Mark(m: Marker)

  /** The longest marker the held tail can always bridge. */
  const MARKER_MAX := TAIL_MAX + 1

  predicate ValidToken(t: Token) {
    match t
    case Text(b) => b != ESC
    case Mark(m) => ValidMarker(m) && |Render(m)| <= MARKER_MAX
  }

  predicate ValidTokens(ts: seq<Token>) {
    forall t :: t in ts ==> ValidToken(t)
  }

  function Encoded(t: Token): Bytes {
    match t
    case Text(b) => [b]
    case Mark(m) => Render(m)
  }

  function Stream(ts: seq<Token>): Bytes {
    if ts == [] then [] else Encoded(ts[0]) + Stream(ts[1..])
  }

  /** The stream's ordinary text. */
  function Plain(ts: seq<Token>): Bytes {
    if ts == [] then [] else (if ts[0].Text? then [ts[0].b] else []) + Plain(ts[1..])
  }

  function Marks(ts: seq<Token>): seq<Marker> {
    if ts == [] then [] else (if ts[0].Mark? then [ts[0].m] else []) + Marks(ts[1..])
  }

  /** `p` is empty or the cut-off beginning of the stream's first token. */
  predicate PartialOf(p: Bytes, ts: seq<Token>) {
    p == [] || (ts != [] && ts[0].Mark? && p < Render(ts[0].m))
  }

  lemma {:induction false} PlainNoEscape(ts: seq<Token>)
    requires ValidTokens(ts)
    ensures ESC !in Plain(ts)
  {
    if ts != [] {
      assert ts[0] in ts;
      PlainNoEscape(ts[1..]);
    }
  }

  lemma TokenCons(t: Token, ts: seq<Token>)
    ensures Stream([t] + ts) == Encoded(t) + Stream(ts)
    ensures Plain([t] + ts) == (if t.Text? then [t.b] else []) + Plain(ts)
    ensures Marks([t] + ts) == (if t.Mark? then [t.m] else []) + Marks(ts)
  {
    assert ([t] + ts)[1..] == ts;
  }

  lemma NoTokens()
    ensures Stream([]) == [] && Plain([]) == [] && Marks([]) == []
  {
  }

  lemma {:induction false} TokensAppend(a: seq<Token>, b: seq<Token>)
    ensures Stream(a + b) == Stream(a) + Stream(b)
    ensures Plain(a + b) == Plain(a) + Plain(b)
    ensures Marks(a + b) == Marks(a) + Marks(b)
  {
    hide *;
    if a == [] {
      assert a + b == b;
      NoTokens();
    } else {
      assert a == [a[0]] + a[1..];
      assert a + b == [a[0]] + (a[1..] + b);
      TokenCons(a[0], a[1..]);
      TokenCons(a[0], a[1..] + b);
      TokensAppend(a[1..], b);
    }
  }

  /** A cut-off marker holds its ESC at the front, no BEL, and is not a marker. */
  lemma PartialIsPlain(p: Bytes, m: Marker)
    requires ValidMarker(m) && p != [] && p < Render(m)
    ensures p[0] == ESC && ESC !in p[1..] && BEL !in p
    ensures Strip(p) == p && Stripped(p) == []
  {
    hide *;
    RenderShape(m);
    assert forall i :: 0 <= i < |p| ==> p[i] == Render(m)[i];
    PartialUnmatched(p, m);
    StripNoEscape(p[1..]);
    StripUnmatched(p);
    assert p == [p[0]] + p[1..];
  }

  lemma PartialUnmatched(p: Bytes, m: Marker)
    requires ValidMarker(m) && p < Render(m)
    ensures Match(p) == None
  {
    hide *;
    match Match(p)
    case None =>
    case Some(k) =>
      MatchIsRender(p, k);
      MatchIsRender(Render(m), k);
      MatchIsRender(Render(m), m);
  }

  lemma StripUnmatched(s: Bytes)
    requires s != [] && Match(s) == None
    ensures Strip(s) == [s[0]] + Strip(s[1..]) && Stripped(s) == Stripped(s[1..])
  {
    hide Match;
  }

  lemma StripText(b: Octet, rest: Bytes)
    requires b != ESC
    ensures Strip([b] + rest) == [b] + Strip(rest)
    ensures Stripped([b] + rest) == Stripped(rest)
  {
    var s := [b] + rest;
    assert s[0] == b && s[1..] == rest;
    assert |s| >= 6 ==> s[..6][0] == b;
    assert Match(s) == None;
    hide *;
    StripUnmatched(s);
  }

  lemma StripMark(m: Marker, rest: Bytes)
    requires ValidMarker(m)
    ensures Strip(Render(m) + rest) == Strip(rest)
    ensures Stripped(Render(m) + rest) == [m] + Stripped(rest)
  {
    MatchIsRender(Render(m) + rest, m);
    RenderShape(m);
    hide Match, Render;
    var s := Render(m) + rest;
    assert s[|Render(m)|..] == rest;
    assert Stripped(s) == [m] + Stripped(s[|Render(m)|..]);
  }

  /** Deleting markers from whole tokens followed by a cut-off one. */
  lemma {:induction false} StripTokens(ts: seq<Token>, p: Bytes, next: seq<Token>)
    requires ValidTokens(ts) && ValidTokens(next) && PartialOf(p, next)
    ensures Strip(Stream(ts) + p) == Plain(ts) + p
    ensures Stripped(Stream(ts) + p) == Marks(ts)
  {
    hide *;
    NoTokens();
    if ts == [] {
      assert Stream(ts) + p == p == Plain(ts) + p;
      StripPartial(p, next);
    } else {
      var t, rest := ts[0], Stream(ts[1..]) + p;
      assert ts == [t] + ts[1..];
      TokenCons(t, ts[1..]);
      assert Stream(ts) + p == Encoded(t) + rest;
      TokensValid(ts);
      StripTokens(ts[1..], p, next);
      StripToken(t, rest);
      assert Plain(ts) + p == (if t.Text? then [t.b] else []) + (Plain(ts[1..]) + p);
    }
  }

  lemma TokensValid(ts: seq<Token>)
    requires ValidTokens(ts) && ts != []
    ensures ValidToken(ts[0]) && ValidTokens(ts[1..])
  {
    assert ts[0] in ts;
  }

  lemma StripToken(t: Token, rest: Bytes)
    requires ValidToken(t)
    ensures Strip(Encoded(t) + rest) == (if t.Text? then [t.b] else []) + Strip(rest)
    ensures Stripped(Encoded(t) + rest) == (if t.Mark? then [t.m] else []) + Stripped(rest)
  {
    hide Render, Strip, Stripped, ValidMarker;
    match t
    case Text(b) => StripText(b, rest);
    case Mark(m) => StripMark(m, rest);
  }

  lemma StripPartial(p: Bytes, next: seq<Token>)
    requires ValidTokens(next) && PartialOf(p, next)
    ensures Strip(p) == p && Stripped(p) == []
  {
    if p == [] {
      StripNoEscape(p);
    } else {
      TokensValid(next);
      PartialIsPlain(p, next[0].m);
    }
  }

  /** An ESC in `t + p` can only be the first byte of `p`. */
  lemma OnlyEscape(t: Bytes, p: Bytes)
    requires ESC !in t && (p != [] ==> ESC !in p[1..])
    ensures forall i :: 0 <= i < |t + p| && (t + p)[i] == ESC ==> p != [] && i == |t|
  {
    if p != [] {
      assert t + p == t + [p[0]] + p[1..];
    }
  }

  /** Exactly the cut-off marker is held. */
  lemma HeldIsPartial(t: Bytes, p: Bytes, next: seq<Token>)
    requires ESC !in t && ValidTokens(next) && PartialOf(p, next)
    ensures HeldLength(t + p) == |p|
  {
    if p == [] {
      assert t + p == t;
      assert forall i :: 0 <= i < |t| ==> t[i] in t;
      hide SplitPrefix, PrefixAt, EndsInPrefix, LastPrefix;
      NothingHeld(t, 0);
    } else {
      TokensValid(next);
      hide Render, ValidMarker;
      HeldMarker(t, p, next[0].m);
    }
  }

  lemma HeldMarker(t: Bytes, p: Bytes, m: Marker)
    requires ESC !in t && ValidMarker(m) && p != [] && p < Render(m) && |p| <= TAIL_MAX
    ensures HeldLength(t + p) == |p|
  {
    hide Render, ValidMarker, SplitPrefix, LastPrefix;
    var c := t + p;
    PartialIsPlain(p, m);
    RenderShape(m);
    OnlyEscape(t, p);
    assert c[|t|..] == p;
    PrefixesBeginWithEscape(c);
    if |p| >= |PREFIX| {
      assert c[|t|..|t| + 6] == p[..6] == Render(m)[..6];
      assert PrefixAt(c, |t|);
    } else {
      assert p == Render(m)[..6][..|p|];
      assert EndsInPrefix(c, |p|);
    }
  }

  lemma PrefixesBeginWithEscape(c: Bytes)
    ensures forall i :: PrefixAt(c, i) ==> c[i] == ESC
    ensures forall n :: EndsInPrefix(c, n) ==> c[|c| - n] == ESC
  {
    assert forall i :: PrefixAt(c, i) ==> c[i] == c[i..i + 6][0];
    assert forall n :: EndsInPrefix(c, n) ==> c[|c| - n] == c[|c| - n..][0];
  }

  /** Any prefix of a stream is whole tokens followed by a cut-off one. */
  lemma {:induction false} SplitStream(q: Bytes, ts: seq<Token>) returns (k: nat, p: Bytes)
    requires ValidTokens(ts) && q <= Stream(ts)
    ensures k <= |ts| && q == Stream(ts[..k]) + p && PartialOf(p, ts[k..])
  {
    hide Render, ValidMarker;
    if q == [] {
      k, p := 0, [];
      assert ts[..0] == [];
    } else {
      assert ts[0] in ts;
      var e := Encoded(ts[0]);
      if |q| < |e| {
        k, p := 0, q;
        assert ts[..0] == [];
        assert q == Stream(ts)[..|q|] == e[..|q|];
      } else {
        assert q[..|e|] == Stream(ts)[..|e|] == e;
        assert q[|e|..] == Stream(ts)[|e|..][..|q| - |e|];
        var k', p' := SplitStream(q[|e|..], ts[1..]);
        k, p := k' + 1, p';
        assert ts[..k] == [ts[0]] + ts[1..][..k'];
        assert ts[k..] == ts[1..][k'..];
        assert q == e + q[|e|..];
      }
    }
  }

  /** One read of a well-formed stream releases the text of the tokens it completes. */
  lemma ReadTokens(tail: Bytes, data: Bytes, ts: seq<Token>) returns (k: nat, p: Bytes)
    requires ValidTokens(ts) && PartialOf(tail, ts) && tail + data <= Stream(ts)
    ensures k <= |ts| && PartialOf(p, ts[k..]) && tail + data == Stream(ts[..k]) + p
    ensures ReleaseOf(tail, data) == Plain(ts[..k])
    ensures HeldOf(tail, data) == p
    ensures ConsumedOf(tail, data) == Marks(ts[..k])
  {
    hide Render, Strip, Stripped, HeldLength, Stream;
    if data == [] {
      k, p := 0, tail;
      assert ts[..0] == [] && ts[0..] == ts;
      NoTokens();
    } else {
      k, p := SplitStream(tail + data, ts);
      StripTokens(ts[..k], p, ts[k..]);
      PlainNoEscape(ts[..k]);
      HeldIsPartial(Plain(ts[..k]), p, ts[k..]);
    }
  }

  /** However a well-formed stream is cut into reads, the released bytes are its
      text, nothing stays held, and every marker is consumed once, in order. */
  lemma {:induction false} ChunkInvariance(tail: Bytes, chunks: seq<Bytes>, ts: seq<Token>)
    requires ValidTokens(ts) && PartialOf(tail, ts)
    requires tail + Flatten(chunks) == Stream(ts)
    ensures RunReads(tail, chunks) == Run(Plain(ts), [], Marks(ts))
    decreases |chunks|
  {
    hide ReleaseOf, HeldOf, ConsumedOf, Stream, Plain, Marks, PartialOf, ValidToken;
    if chunks == [] {
      WholeStream(tail, ts);
    } else {
      var rest := Flatten(chunks[1..]);
      assert Stream(ts) == (tail + chunks[0]) + rest;
      var k, p := ReadTokens(tail, chunks[0], ts);
      assert ts == ts[..k] + ts[k..];
      TokensAppend(ts[..k], ts[k..]);
      var before := Stream(ts[..k]);
      assert before + (p + rest) == before + Stream(ts[k..]);
      CancelLeft(before, p + rest, Stream(ts[k..]));
      ChunkInvariance(p, chunks[1..], ts[k..]);
    }
  }

  lemma StreamHead(ts: seq<Token>)
    ensures ts != [] ==> Encoded(ts[0]) <= Stream(ts)
    ensures ts != [] ==> ts[0] in ts
  {
  }

  lemma WholeStream(tail: Bytes, ts: seq<Token>)
    requires ValidTokens(ts) && PartialOf(tail, ts) && tail == Stream(ts)
    ensures tail == [] && Plain(ts) == [] && Marks(ts) == []
  {
    StreamHead(ts);
    hide Stream;
  }

  /** The bound is exact: a marker survives every way of cutting it into reads if
      and only if it is at most 257 bytes long. */
  lemma MarkerLimitIsExact(m: Marker)
    requires ValidMarker(m)
    ensures |Render(m)| <= 257
       <==> forall chunks: seq<Bytes> :: Flatten(chunks) == Render(m) ==> RunReads([], chunks) == Run([], [], [m])
  {
    if |Render(m)| <= MARKER_MAX {
      forall chunks: seq<Bytes> | Flatten(chunks) == Render(m) ensures RunReads([], chunks) == Run([], [], [m]) {
        var ts := [Mark(m)];
        assert Stream(ts) == Render(m) + Stream(ts[1..]) == Render(m);
        assert Marks(ts) == [m] + Marks(ts[1..]);
        ChunkInvariance([], chunks, ts);
      }
    } else {
      var chunks := [Render(m)[..MARKER_MAX], Render(m)[MARKER_MAX..]];
      assert Flatten(chunks) == chunks[0] + (chunks[1] + Flatten(chunks[1..][1..])) == Render(m);
      LongMarkerLeaks(m);
    }
  }

  /** A longer marker cut after `MARKER_MAX` bytes is released as ordinary output. */
  lemma LongMarkerLeaks(m: Marker)
    requires ValidMarker(m) && |Render(m)| > MARKER_MAX
    ensures RunReads([], [Render(m)[..MARKER_MAX], Render(m)[MARKER_MAX..]]) == Run(Render(m), [], [])
  {
    var a, b := Render(m)[..MARKER_MAX], Render(m)[MARKER_MAX..];
    LongPieceReleased(m, a);
    assert ESC !in b by { RenderShape(m); }
    hide ReleaseOf, HeldOf, ConsumedOf, Render;
    PlainPieceReleased(b);
    var one: seq<Bytes> := [b];
    var both: seq<Bytes> := [a, b];
    assert |one[1..]| == 0 && both[1..] == one;
    assert RunReads([], one) == Run(b + [], [], []);
    assert RunReads([], both) == Run(a + b, [], []);
  }

  lemma PlainPieceReleased(b: Bytes)
    requires ESC !in b
    ensures ReleaseOf([], b) == b && HeldOf([], b) == [] && ConsumedOf([], b) == []
  {
    StripNoEscape(b);
    NothingHeld(b, 0);
    assert [] + b == b;
    hide Strip, Stripped, SplitPrefix, PrefixAt, EndsInPrefix, LastPrefix;
  }

  lemma LongPieceReleased(m: Marker, a: Bytes)
    requires ValidMarker(m) && a < Render(m) && |a| == MARKER_MAX
    ensures ReleaseOf([], a) == a && HeldOf([], a) == [] && ConsumedOf([], a) == []
  {
    hide Render, Strip, Stripped, ValidMarker, SplitPrefix, PrefixAt, EndsInPrefix, LastPrefix;
    PartialIsPlain(a, m);
    assert [] + a == a;
    assert forall i :: 1 <= i < |a| ==> a[i] == a[1..][i - 1];
    NothingHeld(a, 1);
    assert HeldLength(a) == 0;
  }

  /** Without an ESC after position `from`, nothing that starts there or later is held. */
  lemma NothingHeld(c: Bytes, from: nat)
    requires forall i :: from <= i < |c| ==> c[i] != ESC
    requires from + |PREFIX| <= |c| || from == 0
    ensures forall i :: from <= i ==> !PrefixAt(c, i)
    ensures SplitPrefix(c, |PREFIX| - 1) == 0
  {
    forall i | PrefixAt(c, i) ensures i < from { assert c[i] == c[i..i + 6][0]; }
    forall n | EndsInPrefix(c, n) ensures c[|c| - n] == ESC { assert c[|c| - n] == c[|c| - n..][0]; }
  }

  // ------------------------------------------------------ byte conservation

  /** Deleting one complete marker that stands at position `at`. */
  datatype Cut = Cut(at: nat, m: Marker)

  predicate CanCut(s: Bytes, c: Cut) {
    ValidMarker(c.m) && c.at + |Render(c.m)| <= |s| && s[c.at..c.at + |Render(c.m)|] == Render(c.m)
  }

  function AfterCut(s: Bytes, c: Cut): Bytes
    requires CanCut(s, c)
  {
    s[..c.at] + s[c.at + |Render(c.m)|..]
  }

  /** `t` is `s` after the deletions `cuts`, each of a complete marker. */
  predicate Reduces(s: Bytes, cuts: seq<Cut>, t: Bytes)
    decreases |cuts|
  {
    if cuts == [] then s == t
    else CanCut(s, cuts[0]) && Reduces(AfterCut(s, cuts[0]), cuts[1..], t)
  }

  function MarkersOf(cuts: seq<Cut>): seq<Marker> {
    seq(|cuts|, i requires 0 <= i < |cuts| => cuts[i].m)
  }

  function Shifted(cuts: seq<Cut>, n: nat): seq<Cut> {
    seq(|cuts|, i requires 0 <= i < |cuts| => Cut(cuts[i].at + n, cuts[i].m))
  }

  lemma {:induction false} ReducesChain(s: Bytes, a: seq<Cut>, t: Bytes, b: seq<Cut>, u: Bytes)
    requires Reduces(s, a, t) && Reduces(t, b, u)
    ensures Reduces(s, a + b, u)
    decreases |a|
  {
    if a == [] {
      assert a + b == b;
    } else {
      assert (a + b)[1..] == a[1..] + b;
      ReducesChain(AfterCut(s, a[0]), a[1..], t, b, u);
    }
  }

  lemma CutInContext(l: Bytes, s: Bytes, r: Bytes, c: Cut)
    requires CanCut(s, c)
    ensures CanCut(l + s + r, Cut(c.at + |l|, c.m))
    ensures AfterCut(l + s + r, Cut(c.at + |l|, c.m)) == l + AfterCut(s, c) + r
  {
    hide Render, ValidMarker;
    var n := |Render(c.m)|;
    var x := l + s + r;
    assert x[c.at + |l|..c.at + |l| + n] == s[c.at..c.at + n];
    assert x[..c.at + |l|] == l + s[..c.at];
    assert x[c.at + |l| + n..] == s[c.at + n..] + r;
  }

  lemma {:induction false} ReducesInContext(l: Bytes, s: Bytes, r: Bytes, cuts: seq<Cut>, t: Bytes)
    requires Reduces(s, cuts, t)
    ensures Reduces(l + s + r, Shifted(cuts, |l|), l + t + r)
    decreases |cuts|
  {
    hide CanCut, AfterCut;
    if cuts != [] {
      CutInContext(l, s, r, cuts[0]);
      ReducesInContext(l, AfterCut(s, cuts[0]), r, cuts[1..], t);
      assert Shifted(cuts, |l|)[1..] == Shifted(cuts[1..], |l|);
    }
  }

  lemma {:induction false} StripReduces(s: Bytes) returns (cuts: seq<Cut>)
    ensures Reduces(s, cuts, Strip(s)) && MarkersOf(cuts) == Stripped(s)
  {
    hide *;
    if s == [] {
      cuts := [];
      StripNoEscape(s);
      ReducesNil(s);
    } else {
      match Match(s) {
        case Some(m) =>
          MatchIsRender(s, m);
          var rest := s[|Render(m)|..];
          assert s == Render(m) + rest;
          StripMark(m, rest);
          var more := StripReduces(rest);
          cuts := [Cut(0, m)] + more;
          CutFront(m, rest, more, Strip(rest));
        case None =>
          StripUnmatched(s);
          var more := StripReduces(s[1..]);
          cuts := Shifted(more, 1);
          ReducesInContext([s[0]], s[1..], [], more, Strip(s[1..]));
          assert s == [s[0]] + s[1..] + [];
          assert Strip(s) == [s[0]] + Strip(s[1..]) + [];
          ShiftedMarkers(more, 1);
      }
    }
  }

  lemma ReducesNil(s: Bytes)
    ensures Reduces(s, [], s) && MarkersOf([]) == []
  {
  }

  lemma ShiftedMarkers(cuts: seq<Cut>, n: nat)
    ensures MarkersOf(Shifted(cuts, n)) == MarkersOf(cuts)
  {
  }

  lemma CutFront(m: Marker, rest: Bytes, more: seq<Cut>, t: Bytes)
    requires ValidMarker(m) && Reduces(rest, more, t)
    ensures Reduces(Render(m) + rest, [Cut(0, m)] + more, t)
    ensures MarkersOf([Cut(0, m)] + more) == [m] + MarkersOf(more)
  {
    hide Render, ValidMarker;
    var s := Render(m) + rest;
    assert s[..0] + s[|Render(m)|..] == rest;
    assert ([Cut(0, m)] + more)[1..] == more;
  }

  /** For arbitrary input, a run of reads loses and reorders nothing: what was held
      and read becomes what was released and is held by deleting complete markers,
      exactly those the reads consumed. */
  lemma {:induction false} ByteConservation(tail: Bytes, chunks: seq<Bytes>) returns (cuts: seq<Cut>)
    ensures var run := RunReads(tail, chunks);
            Reduces(tail + Flatten(chunks), cuts, run.released + run.held) && MarkersOf(cuts) == run.consumed
    decreases |chunks|
  {
    if chunks == [] {
      cuts := [];
      assert tail + Flatten(chunks) == tail == [] + tail;
    } else {
      var first := ReadReduces(tail, chunks[0]);
      var more := ByteConservation(HeldOf(tail, chunks[0]), chunks[1..]);
      cuts := ReducesNext(tail, chunks, first, more);
    }
  }

  lemma ReducesNext(tail: Bytes, chunks: seq<Bytes>, first: seq<Cut>, more: seq<Cut>) returns (cuts: seq<Cut>)
    requires chunks != []
    requires Reduces(tail + chunks[0], first, ReleaseOf(tail, chunks[0]) + HeldOf(tail, chunks[0]))
    requires var later := RunReads(HeldOf(tail, chunks[0]), chunks[1..]);
             Reduces(HeldOf(tail, chunks[0]) + Flatten(chunks[1..]), more, later.released + later.held)
    ensures var run := RunReads(tail, chunks);
            Reduces(tail + Flatten(chunks), cuts, run.released + run.held)
    ensures MarkersOf(cuts) == MarkersOf(first) + MarkersOf(more)
  {
    hide ReleaseOf, HeldOf, ConsumedOf, Reduces;
    var data, rest := chunks[0], Flatten(chunks[1..]);
    var out, held := ReleaseOf(tail, data), HeldOf(tail, data);
    var later := RunReads(held, chunks[1..]);
    ReducesInContext([], tail + data, rest, first, out + held);
    ReducesInContext(out, held + rest, [], more, later.released + later.held);
    cuts := Shifted(first, 0) + Shifted(more, |out|);
    assert [] + (tail + data) + rest == tail + Flatten(chunks);
    assert [] + (out + held) + rest == out + (held + rest) + [];
    ReducesChain(tail + Flatten(chunks), Shifted(first, 0), out + (held + rest) + [], Shifted(more, |out|),
                 out + (later.released + later.held) + []);
    assert out + (later.released + later.held) + [] == (out + later.released) + later.held;
  }

  lemma ReadReduces(tail: Bytes, data: Bytes) returns (cuts: seq<Cut>)
    ensures Reduces(tail + data, cuts, ReleaseOf(tail, data) + HeldOf(tail, data))
    ensures MarkersOf(cuts) == ConsumedOf(tail, data)
  {
    if data == [] {
      cuts := [];
      assert tail + data == [] + tail;
    } else {
      cuts := StripReduces(tail + data);
      assert ReleaseOf(tail, data) + HeldOf(tail, data) == Strip(tail + data);
    }
  }
}
