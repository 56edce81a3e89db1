/**
 The device fingerprint hash (wallet-app, device.utils.ts): a loop over UTF-16
 code units in JavaScript numbers, with 32-bit operators. ToInt32 is section
 7.1.6 of ECMA-262 (ES2023).
 */
module DeviceHash {

  const TWO32: int := 0x1_0000_0000
  const TWO31: int := 0x8000_0000

  type CodeUnit = c: int | 0 <= c < 0x1_0000

  function ToInt32(x: int): int {
    var m := x % TWO32;
    if m >= TWO31 then m - TWO32 else m
  }

  function Pow31(k: nat): int {
    if k == 0 then 1 else 31 * Pow31(k - 1)
  }

  /** The sum of s[i] * 31^(n-1-i). */
  function Polynomial(s: seq<CodeUnit>): int {
    if s == [] then 0 else s[0] * Pow31(|s| - 1) + Polynomial(s[1..])
  }

  lemma Distribute(c: int, p: int, x: int, q: int)
    ensures (c * p + x) * q == c * (p * q) + x * q
  {
    assert (c * p) * q == c * (p * q);
  }

  lemma {:induction false} PolynomialConcat(a: seq<CodeUnit>, b: seq<CodeUnit>)
    ensures Polynomial(a + b) == Polynomial(a) * Pow31(|b|) + Polynomial(b)
  {
    if a == [] {
      assert a + b == b;
    } else {
      var p, q, x := Pow31(|a| - 1), Pow31(|b|), Polynomial(a[1..]);
      assert Polynomial(a) == a[0] * p + x;
      assert Polynomial(a + b) == a[0] * (p * q) + (x * q + Polynomial(b)) by {
        assert (a + b)[1..] == a[1..] + b;
        PolynomialConcat(a[1..], b);
        PowSum(|a| - 1, |b|);
      }
      Distribute(a[0], p, x, q);
    }
  }

  lemma {:induction false} PowSum(j: nat, k: nat)
    ensures Pow31(j + k) == Pow31(j) * Pow31(k)
  {
    if j > 0 {
      PowSum(j - 1, k);
    }
  }

  lemma PolynomialSnoc(s: seq<CodeUnit>, c: CodeUnit)
    ensures Polynomial(s + [c]) == 31 * Polynomial(s) + c
  {
    PolynomialConcat(s, [c]);
    assert Polynomial([c]) == c && Pow31(1) == 31;
  }

  // ---- 32-bit reduction ----

  lemma Wraps(x: int) returns (k: int)
    ensures ToInt32(x) == x + k * TWO32 && -TWO31 <= ToInt32(x) < TWO31
  {
    k := if x % TWO32 >= TWO31 then -(x / TWO32) - 1 else -(x / TWO32);
  }

  lemma WrapsAway(x: int, k: int)
    ensures ToInt32(x + k * TWO32) == ToInt32(x)
  {
    var m := x % TWO32;
    var d := x / TWO32;
    assert x + k * TWO32 == (d + k) * TWO32 + m;
    assert (x + k * TWO32) % TWO32 == m;
  }

  /** The step of the loop: shift, subtract, add, wrap. */
  function Step(h: int, c: CodeUnit): int {
    ToInt32(ToInt32(h * 32) - h + c)
  }

  lemma StepIsHorner(p: int, c: CodeUnit)
    ensures Step(ToInt32(p), c) == ToInt32(31 * p + c)
  {
    var h := ToInt32(p);
    var k1 := Wraps(p);
    var k2 := Wraps(h * 32);
    WrapsAway(31 * p + c, 31 * k1 + k2);
    assert ToInt32(h * 32) - h + c == 31 * p + c + (31 * k1 + k2) * TWO32;
  }

  /** No number the loop computes reaches 2^33 in magnitude, so doubles hold all of them exactly. */
  lemma StepStaysExact(h: int, c: CodeUnit)
    requires -TWO31 <= h < TWO31
    ensures -2 * TWO32 < ToInt32(h * 32) - h < 2 * TWO32
    ensures -2 * TWO32 < ToInt32(h * 32) - h + c < 2 * TWO32
    ensures -TWO31 <= Step(h, c) < TWO31
  {
    var _ := Wraps(h * 32);
    var _ := Wraps(ToInt32(h * 32) - h + c);
  }

  /** The loop computes the signed 32-bit reduction of the polynomial. */
  method Hash(raw: seq<CodeUnit>) returns (hash: int)
    ensures hash == ToInt32(Polynomial(raw)) && -TWO31 <= hash < TWO31
  {
    hash := 0;
    for i := 0 to |raw|
      invariant hash == ToInt32(Polynomial(raw[..i])) && -TWO31 <= hash < TWO31
    {
      var unit := raw[i];
      StepStaysExact(hash, unit);
      StepIsHorner(Polynomial(raw[..i]), unit);
      PolynomialSnoc(raw[..i], unit);
      assert raw[..i + 1] == raw[..i] + [unit];
      hash := ToInt32(hash * 32) - hash + unit;
      hash := ToInt32(hash);
    }
    assert raw[..|raw|] == raw;
  }

  lemma ConcatAlgebra(pa: int, pb: int, q: int, k1: int, k2: int)
    ensures (pa + k1 * TWO32) * q + (pb + k2 * TWO32) == pa * q + pb + (k1 * q + k2) * TWO32
  {
    assert (k1 * TWO32) * q == (k1 * q) * TWO32;
    assert (pa + k1 * TWO32) * q == pa * q + (k1 * TWO32) * q;
  }

  /** The hash of a concatenation follows from the hashes of its parts. */
  lemma HashConcat(a: seq<CodeUnit>, b: seq<CodeUnit>)
    ensures ToInt32(Polynomial(a + b)) == ToInt32(ToInt32(Polynomial(a)) * Pow31(|b|) + ToInt32(Polynomial(b)))
  {
    var pa, pb, q := Polynomial(a), Polynomial(b), Pow31(|b|);
    var k1 := Wraps(pa);
    var k2 := Wraps(pb);
    calc {
      ToInt32(ToInt32(pa) * q + ToInt32(pb));
      ToInt32((pa + k1 * TWO32) * q + (pb + k2 * TWO32));
      { ConcatAlgebra(pa, pb, q, k1, k2); }
      ToInt32(pa * q + pb + (k1 * q + k2) * TWO32);
      { WrapsAway(pa * q + pb, k1 * q + k2); }
      ToInt32(pa * q + pb);
      { PolynomialConcat(a, b); }
      ToInt32(Polynomial(a + b));
    }
  }
}
