/** Bytes, frames and the little sequence vocabulary shared by every module. */
module Bytes {

  type byte = x: int | 0 <= x < 256

  /** The payload of one companion-protocol frame. */
  type Frame = seq<byte>

  /** A frame with at least its code byte: what handlers work on once the empty payload is refused. */
  type Command = p: Frame | p != [] witness [0]

  /** Four bytes of a frame. */
  type Word = b: Frame | |b| == 4 witness [0, 0, 0, 0]

  datatype Option<+T> = None | Some(value: T)

  /** Little-endian unsigned 16-bit value at offset `i`. */
  function U16(b: Frame, i: nat): (n: nat)
    requires i + 2 <= |b|
    ensures n < 0x1_0000
  {
    (b[i] as int) + 0x100 * (b[i + 1] as int)
  }

  /** Little-endian unsigned 32-bit value at offset `i`. */
  function U32(b: Frame, i: nat): (n: nat)
    requires i + 4 <= |b|
    ensures n < 0x1_0000_0000
  {
    (b[i] as int) + 0x100 * (b[i + 1] as int) + 0x1_0000 * (b[i + 2] as int) + 0x100_0000 * (b[i + 3] as int)
  }

  /** `n as u16`, written little-endian. */
  function LE16(n: nat): (b: Frame)
    ensures |b| == 2
  {
    [n % 0x100, n / 0x100 % 0x100]
  }

  /** `n as u32`, written little-endian. */
  function LE32(n: nat): (b: Frame)
    ensures |b| == 4
  {
    [n % 0x100, n / 0x100 % 0x100, n / 0x1_0000 % 0x100, n / 0x100_0000 % 0x100]
  }

  /** Writing then reading keeps the value modulo the width, and nothing else. */
  lemma LittleEndianRoundTrip(n: nat)
    ensures U16(LE16(n), 0) == n % 0x1_0000
    ensures U32(LE32(n), 0) == n % 0x1_0000_0000
  {
    var a, b, c, d := n % 0x100, n / 0x100 % 0x100, n / 0x1_0000 % 0x100, n / 0x100_0000 % 0x100;
    var q1, q2, q3, q4 := n / 0x100, n / 0x1_0000, n / 0x100_0000, n / 0x1_0000_0000;
    assert q2 == q1 / 0x100 && q3 == q2 / 0x100 && q4 == q3 / 0x100;
    assert n == a + 0x100 * (b + 0x100 * q2);
    assert n == a + 0x100 * (b + 0x100 * (c + 0x100 * (d + 0x100 * q4)));
  }

  /** Index of the first NUL, or the length when there is none. */
  function FirstNul(b: Frame): (n: nat)
    ensures n <= |b|
    ensures forall i :: 0 <= i < n ==> b[i] != 0
    ensures n < |b| ==> b[n] == 0
  {
    if b == [] || b[0] == 0 then 0
    else
      var m := FirstNul(b[1..]);
      assert forall i :: 1 <= i <= m ==> b[i] == b[1..][i - 1];
      m + 1
  }

  /** `trim_end_matches('\0')`. */
  function TrimNuls(b: Frame): (t: Frame)
    ensures t <= b
    ensures t != [] ==> t[|t| - 1] != 0
    ensures forall i :: |t| <= i < |b| ==> b[i] == 0
  {
    if b != [] && b[|b| - 1] == 0 then TrimNuls(b[..|b| - 1]) else b
  }

  /** `b` cut or zero-padded to exactly `n` bytes. */
  function PadTo(b: Frame, n: nat): (p: Frame)
    ensures |p| == n
    ensures forall i :: 0 <= i < n ==> p[i] == if i < |b| then b[i] else 0
  {
    if |b| >= n then b[..n] else b + seq(n - |b|, _ => 0)
  }

  function Min(a: int, b: int): int {
    if a <= b then a else b
  }

  function Max(a: int, b: int): int {
    if a <= b then b else a
  }

  lemma ShiftOne<T>(a: seq<T>, x: T, b: seq<T>)
    ensures a + ([x] + b) == (a + [x]) + b
  {
  }

  /** `a` is obtained from `b` by leaving elements out. */
  predicate IsSubsequence<T(==)>(a: seq<T>, b: seq<T>) {
    if a == [] then true
    else if b == [] then false
    else if a[|a| - 1] == b[|b| - 1] then IsSubsequence(a[..|a| - 1], b[..|b| - 1])
    else IsSubsequence(a, b[..|b| - 1])
  }

  lemma {:induction false} SubsequenceSkip<T>(a: seq<T>, b: seq<T>, x: T)
    requires IsSubsequence(a, b)
    ensures IsSubsequence(a, b + [x])
    decreases |b|, 1
  {
    assert (b + [x])[..|b|] == b;
    if a != [] && a[|a| - 1] == x {
      SubsequenceDropLast(a, b);
    }
  }

  lemma {:induction false} SubsequenceDropLast<T>(a: seq<T>, b: seq<T>)
    requires a != [] && IsSubsequence(a, b)
    ensures IsSubsequence(a[..|a| - 1], b)
    decreases |b|, 0
  {
    var front := b[..|b| - 1];
    assert b == front + [b[|b| - 1]];
    if a[|a| - 1] == b[|b| - 1] {
      SubsequenceSkip(a[..|a| - 1], front, b[|b| - 1]);
    } else {
      SubsequenceDropLast(a, front);
      SubsequenceSkip(a[..|a| - 1], front, b[|b| - 1]);
    }
  }

  lemma SubsequenceTake<T>(a: seq<T>, b: seq<T>, x: T)
    requires IsSubsequence(a, b)
    ensures IsSubsequence(a + [x], b + [x])
  {
    assert (a + [x])[..|a|] == a && (b + [x])[..|b|] == b;
  }

  /** Leaving one more element out. */
  lemma {:induction false} SubsequenceDrop<T>(a: seq<T>, x: T, b: seq<T>, s: seq<T>)
    requires IsSubsequence(a + [x] + b, s)
    ensures IsSubsequence(a + b, s)
    decreases |s|
  {
    var long := a + [x] + b;
    if b == [] {
      SubsequenceDropLast(long, s);
      assert long[..|long| - 1] == a && a + b == a;
    } else {
      var init := b[..|b| - 1];
      assert long[..|long| - 1] == a + [x] + init && (a + b)[..|a + b| - 1] == a + init;
      assert long[|long| - 1] == b[|b| - 1] == (a + b)[|a + b| - 1];
      if b[|b| - 1] == s[|s| - 1] {
        SubsequenceDrop(a, x, init, s[..|s| - 1]);
      } else {
        SubsequenceDrop(a, x, b, s[..|s| - 1]);
      }
    }
  }

  lemma {:induction false} SubsequenceSuffix<T>(a: seq<T>, b: seq<T>, s: seq<T>)
    requires IsSubsequence(a + b, s)
    ensures IsSubsequence(b, s)
    decreases |a|
  {
    if a == [] {
      assert a + b == b;
    } else {
      assert a + b == [] + [a[0]] + (a[1..] + b);
      SubsequenceDrop([], a[0], a[1..] + b, s);
      assert [] + (a[1..] + b) == a[1..] + b;
      SubsequenceSuffix(a[1..], b, s);
    }
  }
}
