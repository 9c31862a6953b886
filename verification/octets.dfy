/** Octet strings and the small helpers every component of the model shares. */
module Octets {

  datatype Option<+T> = None | Some(value: T)

  datatype Result<+T, +E> = Ok(value: T) | Err(error: E)

  /** One byte. */
  newtype Octet = b: int | 0 <= b < 256

  type Bytes = seq<Octet>

  /** The line feed. */
  const LF: Octet := 10

  /** The bytes of an ASCII text. */
  function Ascii(s: string): (r: Bytes)
    requires forall c :: c in s ==> c as int < 128
    ensures |r| == |s| && forall i :: 0 <= i < |s| ==> r[i] as int == s[i] as int
  {
    seq(|s|, i requires 0 <= i < |s| => assert s[i] in s; (s[i] as int) as Octet)
  }

  function LowerChar(c: char): char {
    if 'A' <= c <= 'Z' then ((c as int) + 32) as char else c
  }

  function Lower(s: string): (r: string)
    ensures |r| == |s| && forall i :: 0 <= i < |s| ==> r[i] == LowerChar(s[i])
  {
    seq(|s|, i requires 0 <= i < |s| => LowerChar(s[i]))
  }

  /** A lower-case hexadecimal SHA-256. */
  predicate IsDigest(s: string) {
    |s| == 64 && forall c :: c in s ==> '0' <= c <= '9' || 'a' <= c <= 'f'
  }

  function Min(a: int, b: int): int {
    if a <= b then a else b
  }

  function Max(a: int, b: int): int {
    if a >= b then a else b
  }

  /** The concatenation of a sequence of sequences. */
  function Flatten<T>(parts: seq<seq<T>>): seq<T> {
    if parts == [] then [] else parts[0] + Flatten(parts[1..])
  }

  lemma FlattenNil<T>()
    ensures Flatten<T>([]) == []
  {
  }

  lemma {:induction false} FlattenAppend<T>(a: seq<seq<T>>, b: seq<seq<T>>)
    ensures Flatten(a + b) == Flatten(a) + Flatten(b)
  {
    if a == [] {
      assert a + b == b;
    } else {
      assert (a + b)[1..] == a[1..] + b;
      FlattenAppend(a[1..], b);
    }
  }

  lemma FlattenSnoc<T>(a: seq<seq<T>>, x: seq<T>)
    ensures Flatten(a + [x]) == Flatten(a) + x
  {
    FlattenAppend(a, [x]);
    assert Flatten([x]) == x + Flatten([][..]);
  }

  lemma CancelLeft<T>(a: seq<T>, b: seq<T>, c: seq<T>)
    requires a + b == a + c
    ensures b == c
  {
    assert b == (a + b)[|a|..];
    assert c == (a + c)[|a|..];
  }

  lemma CancelRight<T>(a: seq<T>, b: seq<T>, c: seq<T>)
    requires a + c == b + c
    ensures a == b
  {
    assert |a| == |b|;
    assert a == (a + c)[..|a|] && b == (b + c)[..|a|];
  }

  lemma Leading<T>(a: seq<T>, b: seq<T>)
    ensures if a != [] then (a + b) != [] && (a + b)[0] == a[0] else a + b == b
  {
  }

  /** Concatenation regrouped. */
  lemma Reassociate<T>(a: seq<T>, b: seq<T>, c: seq<T>)
    ensures (a + b) + c == a + (b + c)
    ensures a == [] ==> a + b == b
    ensures b == [] ==> a + b == a && a + [] == a
  {
  }

  // ------------------------------------------------------------- rows of write calls

  function Sum(sizes: seq<nat>): nat {
    if sizes == [] then 0 else Sum(sizes[..|sizes| - 1]) + sizes[|sizes| - 1]
  }

  lemma {:induction false} SumGrows(sizes: seq<nat>, i: nat, j: nat)
    requires i <= j <= |sizes|
    ensures Sum(sizes[..i]) <= Sum(sizes[..j])
    ensures i < j ==> Sum(sizes[..i + 1]) == Sum(sizes[..i]) + sizes[i]
    decreases j
  {
    if i < j {
      assert sizes[..j][..j - 1] == sizes[..j - 1] && sizes[..i + 1][..i] == sizes[..i];
      SumGrows(sizes, i, j - 1);
    }
  }

  /** A write call takes nothing before all `n` bytes are taken. */
  predicate Stalls(accepted: seq<nat>, n: nat) {
    exists i :: 0 <= i < |accepted| && accepted[i] == 0 && Sum(accepted[..i]) < n
  }

  lemma NeverStalls(accepted: seq<nat>, n: nat, i: nat)
    requires forall j :: 0 <= j < i && j < |accepted| ==> accepted[j] > 0
    requires i <= |accepted| ==> Sum(accepted[..i]) >= n
    ensures !Stalls(accepted, n)
  {
    forall j | 0 <= j < |accepted| && accepted[j] == 0 ensures Sum(accepted[..j]) >= n {
      SumGrows(accepted, i, j);
    }
  }

  lemma NothingTaken(accepted: seq<nat>)
    ensures Sum(accepted[..0]) == 0
  {
  }

  lemma StallsAt(accepted: seq<nat>, n: nat, i: nat)
    requires i < |accepted| && accepted[i] == 0 && Sum(accepted[..i]) < n
    ensures Stalls(accepted, n)
  {
  }
}
