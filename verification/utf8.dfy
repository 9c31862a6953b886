/** Truncating text to a number of UTF-8 bytes without splitting a character. */
module Utf8 {
  import opened Octets

  /** A Unicode scalar value; surrogates are not text. */
  newtype Scalar = c: int | 0 <= c < 0xD800 || 0xE000 <= c < 0x11_0000 witness 0

  type Text = seq<Scalar>

  // ------------------------------------------------- section 3 of RFC 3629, encoding

  function EncodeChar(c: Scalar): (e: Bytes)
    ensures 1 <= |e| <= 4
  {
    var n := c as int;
    if n < 0x80 then [n as Octet]
    else if n < 0x800 then [(0xC0 + n / 0x40) as Octet, (0x80 + n % 0x40) as Octet]
    else if n < 0x1_0000 then [(0xE0 + n / 0x1000) as Octet, (0x80 + n / 0x40 % 0x40) as Octet,
                               (0x80 + n % 0x40) as Octet]
    else [(0xF0 + n / 0x4_0000) as Octet, (0x80 + n / 0x1000 % 0x40) as Octet, (0x80 + n / 0x40 % 0x40) as Octet,
          (0x80 + n % 0x40) as Octet]
  }

  function Encode(text: Text): Bytes {
    if text == [] then [] else EncodeChar(text[0]) + Encode(text[1..])
  }

  // --------------------------------------- section 4 of RFC 3629, and what is skipped

  /** How many octets a sequence that begins with `b` has; 0 if none does. */
  function SequenceLength(b: Octet): nat {
    if b < 0x80 then 1
    else if 0xC2 <= b <= 0xDF then 2
    else if 0xE0 <= b <= 0xEF then 3
    else if 0xF0 <= b <= 0xF4 then 4
    else 0
  }

  predicate IsTail(b: Octet) {
    0x80 <= b <= 0xBF
  }

  /** The second octet excludes overlong forms, surrogates and what lies beyond Unicode. */
  predicate IsSecond(first: Octet, b: Octet) {
    && IsTail(b)
    && (first == 0xE0 ==> b >= 0xA0) && (first == 0xED ==> b <= 0x9F)
    && (first == 0xF0 ==> b >= 0x90) && (first == 0xF4 ==> b <= 0x8F)
  }

  /** How many octets at the front of `s` begin a valid sequence, up to its length. */
  function WellFormed(s: Bytes): (n: nat)
    requires s != []
    ensures n <= |s| && n <= SequenceLength(s[0])
  {
    var length := SequenceLength(s[0]);
    if length < 2 || |s| < 2 || !IsSecond(s[0], s[1]) then Min(1, length)
    else if length < 3 || |s| < 3 || !IsTail(s[2]) then 2
    else if length < 4 || |s| < 4 || !IsTail(s[3]) then 3
    else 4
  }

  /** The value of a complete sequence. */
  function Assemble(s: Bytes): Scalar
    requires s != [] && SequenceLength(s[0]) > 0 && WellFormed(s) == SequenceLength(s[0])
  {
    var a := s[0] as int;
    if SequenceLength(s[0]) == 1 then a as Scalar
    else if SequenceLength(s[0]) == 2 then ((a - 0xC0) * 0x40 + (s[1] as int - 0x80)) as Scalar
    else if SequenceLength(s[0]) == 3 then
      ((a - 0xE0) * 0x1000 + (s[1] as int - 0x80) * 0x40 + (s[2] as int - 0x80)) as Scalar
    else
      var low := (s[2] as int - 0x80) * 0x40 + (s[3] as int - 0x80);
      ((a - 0xF0) * 0x4_0000 + (s[1] as int - 0x80) * 0x1000 + low) as Scalar
  }

  /** Decoding that drops what is malformed, a maximal piece at a time. */
  function DecodeIgnoring(s: Bytes): Text
    decreases |s|
  {
    if s == [] then []
    else
      var n := WellFormed(s);
      if n > 0 && n == SequenceLength(s[0]) then [Assemble(s)] + DecodeIgnoring(s[n..])
      else DecodeIgnoring(s[Max(1, n)..])
  }

  // -------------------------------------------------------------------- round trips

  /** The bits of a character in its octets, as the table in section 3 of RFC 3629 has them. */
  lemma EncodedBits(c: Scalar)
    ensures var n, e := c as int, EncodeChar(c);
            && (n <= 0x7F ==> |e| == 1 && e[0] as int == n)
            && (0x80 <= n <= 0x7FF ==>
                  && |e| == 2 && 0xC0 <= e[0] < 0xE0 && 0x80 <= e[1] < 0xC0
                  && n == 64 * (e[0] as int - 0xC0) + (e[1] as int - 0x80))
            && (0x800 <= n <= 0xFFFF ==>
                  && |e| == 3 && 0xE0 <= e[0] < 0xF0 && 0x80 <= e[1] < 0xC0 && 0x80 <= e[2] < 0xC0
                  && n == 4096 * (e[0] as int - 0xE0) + 64 * (e[1] as int - 0x80) + (e[2] as int - 0x80))
            && (0x1_0000 <= n <= 0x10_FFFF ==>
                  && |e| == 4 && 0xF0 <= e[0] < 0xF8 && 0x80 <= e[1] < 0xC0 && 0x80 <= e[2] < 0xC0
                  && 0x80 <= e[3] < 0xC0
                  && n == 262144 * (e[0] as int - 0xF0) + 4096 * (e[1] as int - 0x80)
                          + 64 * (e[2] as int - 0x80) + (e[3] as int - 0x80))
  {
    var n := c as int;
    assert n / 0x40 / 0x40 == n / 0x1000 && n / 0x1000 / 0x40 == n / 0x4_0000;
  }

  /** An encoded character is one complete sequence, and decodes to itself. */
  lemma CharRoundTrip(c: Scalar, rest: Bytes)
    ensures var s := EncodeChar(c) + rest;
            && SequenceLength(s[0]) == |EncodeChar(c)| == WellFormed(s) && Assemble(s) == c
  {
    var n, e, s := c as int, EncodeChar(c), EncodeChar(c) + rest;
    assert forall i :: 0 <= i < |e| ==> s[i] == e[i];
    if n < 0x80 {
    } else if n < 0x800 {
    } else if n < 0x1_0000 {
      assert n / 0x40 / 0x40 == n / 0x1000;
      assert s[0] == 0xE0 ==> n / 0x40 % 0x40 >= 0x20;
      assert s[0] == 0xED ==> n / 0x40 % 0x40 <= 0x1F;
    } else {
      assert n / 0x40 / 0x40 == n / 0x1000 && n / 0x1000 / 0x40 == n / 0x4_0000;
      assert s[0] == 0xF0 ==> n / 0x1000 % 0x40 >= 0x10;
      assert s[0] == 0xF4 ==> n / 0x1000 % 0x40 <= 0x0F;
    }
  }

  /** A proper piece of an encoded character decodes to nothing. */
  lemma PieceIgnored(c: Scalar, n: nat)
    requires n < |EncodeChar(c)|
    ensures DecodeIgnoring(EncodeChar(c)[..n]) == []
  {
    var e := EncodeChar(c);
    var piece := e[..n];
    CharRoundTrip(c, []);
    assert e + [] == e;
    hide EncodeChar;
    if n > 0 {
      assert forall i :: 0 <= i < n ==> piece[i] == e[i];
      assert WellFormed(piece) == n;
      assert piece[n..] == [];
    }
  }

  /** Decoding an encoding gives the text back, whatever incomplete piece follows. */
  lemma {:induction false} DecodeEncode(text: Text, c: Scalar, n: nat)
    requires n < |EncodeChar(c)|
    ensures DecodeIgnoring(Encode(text) + EncodeChar(c)[..n]) == text
  {
    hide EncodeChar, WellFormed, Assemble;
    var piece := EncodeChar(c)[..n];
    if text == [] {
      PieceIgnored(c, n);
      assert Encode(text) + piece == piece;
    } else {
      var first, rest := EncodeChar(text[0]), Encode(text[1..]) + piece;
      DecodeEncode(text[1..], c, n);
      CharRoundTrip(text[0], rest);
      assert Encode(text) + piece == first + rest;
      assert (first + rest)[|first|..] == rest;
      assert [text[0]] + text[1..] == text;
    }
  }

  // --------------------------------------------------------------------- truncation

  /** Where a slice up to `limit` ends in `size` octets: negative limits count from the end. */
  function SliceEnd(size: nat, limit: int): (n: nat)
    ensures n <= size
  {
    if limit >= 0 then Min(limit, size) else Max(0, size + limit)
  }

  function TruncateUtf8(text: Text, limit: int): Text {
    var encoded := Encode(text);
    if |encoded| <= limit then text else DecodeIgnoring(encoded[..SliceEnd(|encoded|, limit)])
  }

  /** `prefix` is the longest beginning of `text` whose encoding has at most `size` octets. */
  predicate LongestFitting(prefix: Text, text: Text, size: int) {
    && prefix <= text && |Encode(prefix)| <= size
    && forall k :: |prefix| < k <= |text| ==> |Encode(text[..k])| > size
  }

  lemma {:induction false} EncodeAppend(a: Text, b: Text)
    ensures Encode(a + b) == Encode(a) + Encode(b)
  {
    hide EncodeChar;
    if a == [] {
      assert a + b == b;
    } else {
      assert (a + b)[1..] == a[1..] + b;
      EncodeAppend(a[1..], b);
    }
  }

  /** Every slice of an encoding is a shorter text's encoding and a piece of one character. */
  lemma {:induction false} CutBetween(text: Text, n: nat) returns (k: nat, c: Scalar, m: nat)
    requires n < |Encode(text)|
    ensures k < |text| && c == text[k] && m < |EncodeChar(c)|
    ensures Encode(text)[..n] == Encode(text[..k]) + EncodeChar(c)[..m] && |Encode(text[..k])| <= n
  {
    hide EncodeChar;
    var first, rest := EncodeChar(text[0]), Encode(text[1..]);
    if n < |first| {
      k, c, m := 0, text[0], n;
      assert text[..0] == [];
      assert Encode(text)[..n] == first[..n] == [] + first[..n];
    } else {
      k, c, m := CutBetween(text[1..], n - |first|);
      assert text[..k + 1] == [text[0]] + text[1..][..k];
      assert text[..k + 1][1..] == text[1..][..k];
      assert Encode(text)[..n] == first + rest[..n - |first|];
      assert (first + Encode(text[1..][..k])) + EncodeChar(c)[..m] ==
        first + (Encode(text[1..][..k]) + EncodeChar(c)[..m]);
      k := k + 1;
    }
  }

  lemma {:induction false} LongerIsLarger(text: Text, j: nat, k: nat)
    requires j <= k <= |text|
    ensures |Encode(text[..j])| <= |Encode(text[..k])|
  {
    EncodeAppend(text[..j], text[j..k]);
    assert text[..k] == text[..j] + text[j..k];
  }

  /** The result is the longest prefix that fits; within the limit itself exactly when
      the limit is not negative, for then the slice is taken from the end. */
  lemma TruncatesToLongest(text: Text, limit: int)
    ensures limit >= 0 ==> LongestFitting(TruncateUtf8(text, limit), text, limit)
    ensures limit < 0 ==> LongestFitting(TruncateUtf8(text, limit), text, Max(0, |Encode(text)| + limit))
    ensures |Encode(TruncateUtf8(text, limit))| <= limit <==> limit >= 0
  {
    hide EncodeChar, DecodeIgnoring;
    var encoded := Encode(text);
    var n := SliceEnd(|encoded|, limit);
    if |encoded| > limit {
      hide Encode;
      if n < |encoded| {
        var k, c, m := CutBetween(text, n);
        DecodeEncode(text[..k], c, m);
        assert TruncateUtf8(text, limit) == text[..k];
        NextCharOverflows(text, k, n, m);
        forall j | k < j <= |text| ensures |Encode(text[..j])| > n { LongerIsLarger(text, k + 1, j); }
      } else {
        NothingEncoded(text);
      }
    } else {
      assert text[..|text|] == text;
    }
  }

  lemma NothingEncoded(text: Text)
    requires Encode(text) == []
    ensures text == [] && DecodeIgnoring(Encode(text)[..0]) == []
  {
  }

  lemma NextCharOverflows(text: Text, k: nat, n: nat, m: nat)
    requires k < |text| && m < |EncodeChar(text[k])| && n <= |Encode(text)|
    requires |Encode(text)[..n]| == |Encode(text[..k])| + m
    ensures |Encode(text[..k + 1])| > n
  {
    hide EncodeChar;
    var one: Text := [text[k]];
    EncodeAppend(text[..k], one);
    assert text[..k + 1] == text[..k] + one;
    var none: Text := one[1..];
    assert none == [] && Encode(one) == EncodeChar(text[k]) + Encode(none);
  }
}
