/** The input an id is the hash of: parts, each after its length in eight
    little-endian bytes, so that no two lists of parts share one. */
module Framing {

  function Power256(k: nat): (p: nat)
    ensures p > 0
  {
    if k == 0 then 1 else 256 * Power256(k - 1)
  }

  /** The `k` low bytes of a number, lowest first. */
  function LittleEndian(n: nat, k: nat): (s: string)
    ensures |s| == k
  {
    if k == 0 then "" else [(n % 256) as char] + LittleEndian(n / 256, k - 1)
  }

  const WIDTH: nat := 8

  function Framed(part: string): string {
    LittleEndian(|part|, WIDTH) + part
  }

  function Frame(parts: seq<string>): string {
    if parts == [] then "" else Framed(parts[0]) + Frame(parts[1..])
  }

  /** No part is longer than a 64-bit length can say. */
  predicate Sayable(parts: seq<string>) {
    forall i :: 0 <= i < |parts| ==> |parts[i]| < Power256(WIDTH)
  }

  lemma {:induction false} LengthRead(m: nat, n: nat, k: nat)
    requires m < Power256(k) && n < Power256(k) && LittleEndian(m, k) == LittleEndian(n, k)
    ensures m == n
  {
    if k > 0 {
      var a, b := LittleEndian(m, k), LittleEndian(n, k);
      assert a[0] == b[0] && a[1..] == LittleEndian(m / 256, k - 1) && b[1..] == LittleEndian(n / 256, k - 1);
      assert m % 256 == n % 256;
      LengthRead(m / 256, n / 256, k - 1);
    }
  }

  /** A framed part ends where its length says. */
  lemma FramedFirst(a: string, b: string, s: string, t: string)
    requires |a| < Power256(WIDTH) && |b| < Power256(WIDTH) && Framed(a) + s == Framed(b) + t
    ensures a == b && s == t
  {
    var x, y := Framed(a) + s, Framed(b) + t;
    assert x[..WIDTH] == LittleEndian(|a|, WIDTH) && y[..WIDTH] == LittleEndian(|b|, WIDTH);
    LengthRead(|a|, |b|, WIDTH);
    assert x[WIDTH..WIDTH + |a|] == a && y[WIDTH..WIDTH + |b|] == b;
    assert x[WIDTH + |a|..] == s && y[WIDTH + |b|..] == t;
  }

  /** Two lists of parts with one input are one list: an entry's own parts never
      share an input with one declared by another, which has a part more. */
  lemma {:induction false} FrameInjective(a: seq<string>, b: seq<string>)
    requires Sayable(a) && Sayable(b) && Frame(a) == Frame(b)
    ensures a == b
    decreases |a|
  {
    hide LittleEndian, Power256;
    if a != [] && b != [] {
      FramedFirst(a[0], b[0], Frame(a[1..]), Frame(b[1..]));
      FrameInjective(a[1..], b[1..]);
      assert a == [a[0]] + a[1..] && b == [b[0]] + b[1..];
    } else {
      assert (a == [] <==> |Frame(a)| == 0) && (b == [] <==> |Frame(b)| == 0);
    }
  }

  // --- numbers in names

  function Decimal(n: nat): (s: string)
    ensures s != "" && forall i :: 0 <= i < |s| ==> '0' <= s[i] <= '9'
  {
    if n < 10 then [('0' as int + n) as char] else Decimal(n / 10) + [('0' as int + n % 10) as char]
  }

  lemma {:induction false} DecimalInjective(m: nat, n: nat)
    requires Decimal(m) == Decimal(n)
    ensures m == n
  {
    var a, b := Decimal(m), Decimal(n);
    assert a[|a| - 1] == b[|b| - 1];
    assert (m < 10 <==> |a| == 1) && (n < 10 <==> |b| == 1);
    if m >= 10 {
      assert a[..|a| - 1] == Decimal(m / 10) && b[..|b| - 1] == Decimal(n / 10);
      DecimalInjective(m / 10, n / 10);
    }
  }
}
