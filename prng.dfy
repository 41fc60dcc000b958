/**
 * The seedable generator `mulberry32` (src/App.tsx:12-19).
 *
 * JavaScript keeps the captured seed as a double and converts to 32 bits in
 * every bit operation (`Math.imul`, `^`, `|`, `>>>` all work modulo 2^32), so
 * the computation is 32-bit wrap-around arithmetic on the seed modulo 2^32.
 * The model writes that arithmetic out on naturals below 2^32: `Imul` and
 * `Add32` reduce modulo 2^32, `ShiftRight` is the unsigned `>>>`, and `Xor`
 * and `Or` work bit by bit. A signed `Math.imul` result and its unsigned
 * counterpart have the same 32 bits, so unsigned values suffice throughout.
 */
module Prng {

  const TwoTo32: nat := 0x1_0000_0000
  const Increment: nat := 0x6D2B79F5

  /** A uint32. */
  type U32 = x: int | 0 <= x < TwoTo32

  function Pow2(k: nat): (p: nat)
    ensures p >= 1
  {
    if k == 0 then 1 else 2 * Pow2(k - 1)
  }

  lemma Pow2Of32()
    ensures Pow2(32) == TwoTo32
  {
    assert Pow2(8) == 256;
    assert Pow2(16) == 65536;
    assert Pow2(24) == 16777216;
  }

  /** The low `width` bits of `a ^ b`. */
  function XorBits(a: nat, b: nat, width: nat): (r: nat)
    ensures r < Pow2(width)
  {
    if width == 0 then 0
    else (if a % 2 != b % 2 then 1 else 0) + 2 * XorBits(a / 2, b / 2, width - 1)
  }

  /** The low `width` bits of `a | b`. */
  function OrBits(a: nat, b: nat, width: nat): (r: nat)
    ensures r < Pow2(width)
  {
    if width == 0 then 0
    else (if a % 2 == 1 || b % 2 == 1 then 1 else 0) + 2 * OrBits(a / 2, b / 2, width - 1)
  }

  /** `a ^ b` on 32-bit values (lines 15-17). */
  function Xor(a: U32, b: U32): U32 {
    Pow2Of32();
    XorBits(a, b, 32)
  }

  /** `a | b` on 32-bit values (lines 15-16). */
  function Or(a: U32, b: U32): U32 {
    Pow2Of32();
    OrBits(a, b, 32)
  }

  /** `a >>> s`: the bits of `a` moved `s` places down, one place at a time. */
  function ShiftRight(a: U32, s: nat): (r: U32)
    ensures r <= a
  {
    if s == 0 then a else ShiftRight(a / 2, s - 1)
  }

  /** `a >>> s` is `a` divided by 2^s, rounded down. */
  lemma {:induction false} ShiftRightValue(a: U32, s: nat)
    ensures ShiftRight(a, s) == a / Pow2(s)
  {
    if s > 0 {
      ShiftRightValue(a / 2, s - 1);
      var p := Pow2(s - 1);
      var q, r := (a / 2) / p, (a / 2) % p;
      assert a == q * (2 * p) + (2 * r + a % 2);
      DivUnique(a, q, 2 * r + a % 2, 2 * p);
    }
  }

  /** `Math.imul(a, b)`, read as unsigned. */
  function Imul(a: U32, b: U32): U32 {
    (a * b) % TwoTo32
  }

  /** `a + b` followed by a 32-bit conversion. */
  function Add32(a: U32, b: U32): U32 {
    (a + b) % TwoTo32
  }

  /** The output mixing of lines 15-17, applied to the already advanced state. */
  function Mix(t: U32): U32 {
    var t1 := Imul(Xor(t, ShiftRight(t, 15)), Or(t, 1));
    var t2 := Xor(t1, Add32(t1, Imul(Xor(t1, ShiftRight(t1, 7)), Or(t1, 61))));
    Xor(t2, ShiftRight(t2, 14))
  }

  /** The 32-bit state a JavaScript integer seed stands for (ToUint32: the seed modulo 2^32). */
  function SeedState(seed: int): U32 {
    seed % TwoTo32
  }

  /** The state after `k` calls: each call adds the odd constant modulo 2^32. */
  function Advance(s: U32, k: nat): U32 {
    (s + k * Increment) % TwoTo32
  }

  lemma AdvanceAdd(s: U32, a: nat, b: nat)
    ensures Advance(Advance(s, a), b) == Advance(s, a + b)
  {
    var x := s + a * Increment;
    assert (x % TwoTo32 + b * Increment) % TwoTo32 == (x + b * Increment) % TwoTo32 by {
      ModAddLeft(x, b * Increment, TwoTo32);
    }
    assert x + b * Increment == s + (a + b) * Increment;
  }

  lemma ModAddLeft(x: int, y: int, m: int)
    requires m > 0
    ensures (x % m + y) % m == (x + y) % m
  {
    var q := x / m;
    assert x == q * m + x % m;
    assert x + y == (x % m + y) + q * m;
    ModMultiple(x % m + y, q, m);
  }

  lemma ModMultiple(z: int, q: int, m: int)
    requires m > 0
    ensures (z + q * m) % m == z % m
  {
    assert z == (z / m) * m + z % m;
    assert z + q * m == (z / m + q) * m + z % m;
    DivUnique(z + q * m, z / m + q, z % m, m);
  }

  /** Euclidean division is unique. */
  lemma DivUnique(x: int, a: int, r: int, m: int)
    requires m > 0 && 0 <= r < m && x == a * m + r
    ensures x / m == a && x % m == r
  {
    var q, s := x / m, x % m;
    assert x == q * m + s;
    assert (q - a) * m == r - s by {
      assert (q - a) * m == q * m - a * m;
    }
    if q > a {
      MulAtLeast(q - a, m);
    } else if q < a {
      MulAtLeast(a - q, m);
    }
  }

  lemma MulAtLeast(k: int, m: int)
    requires k >= 1 && m > 0
    ensures k * m >= m
  {
  }

  /** The state cycles with period 2^32. */
  lemma AdvancePeriod(s: U32)
    ensures Advance(s, TwoTo32) == s
  {
    ModMultiple(s, Increment, TwoTo32);
    assert s + TwoTo32 * Increment == s + Increment * TwoTo32;
  }

  /** The float a call returns, `u / 4294967296`, which lies in [0, 1). */
  function Fraction(u: U32): (r: real)
    ensures 0.0 <= r < 1.0
  {
    (u as real) / (TwoTo32 as real)
  }

  /**
   * `Math.floor(r * n)` for the float `r = Fraction(u)`: the integer part of
   * `u * n / 2^32`, an index below `n` whenever `n > 0`. (Exact in floating
   * point while `u * n < 2^53`, which holds for `n < 2^21`.)
   */
  function FloorScaled(u: U32, n: nat): (k: nat)
    ensures n > 0 ==> k < n
  {
    var k := (u * n) / TwoTo32;
    assert n > 0 ==> k < n by {
      if n > 0 {
        assert k * TwoTo32 <= u * n;
        MulStrictMono(u, TwoTo32, n);
      }
    }
    k
  }

  /** `FloorScaled(u, n)` is the integer part of `Fraction(u) * n`, that is `Math.floor(r * n)`. */
  lemma FloorScaledIsFloor(u: U32, n: nat)
    ensures var k := FloorScaled(u, n);
      (k as real) <= Fraction(u) * (n as real) < ((k + 1) as real)
  {
    var k := FloorScaled(u, n);
    assert k * TwoTo32 <= u * n < (k + 1) * TwoTo32;
    FractionScaled(u, n, k);
  }

  lemma MulStrictMono(a: nat, b: nat, n: nat)
    requires a < b && n > 0
    ensures a * n < b * n
  {
  }

  lemma FractionScaled(x: U32, n: nat, k: nat)
    requires k * TwoTo32 <= x * n < (k + 1) * TwoTo32
    ensures (k as real) <= Fraction(x) * (n as real) < ((k + 1) as real)
  {
    var P := TwoTo32 as real;
    var y := (x * n) as real;
    assert Fraction(x) * (n as real) == y / P;
    assert (k as real) * P <= y < ((k + 1) as real) * P;
  }

  /** The generator object: `mulberry32(seed)` returns a closure over the mutable `seed`. */
  class Mulberry32 {
    var state: U32

    constructor (seed: int)
      ensures state == SeedState(seed)
    {
      state := SeedState(seed);
    }

    /** One call of the returned closure: advance by the odd constant, then mix. */
    method Next() returns (u: U32)
      modifies this
      ensures state == Advance(old(state), 1)
      ensures u == Mix(state)
    {
      state := (state + Increment) % TwoTo32;
      var t: U32 := state;
      t := Imul(Xor(t, ShiftRight(t, 15)), Or(t, 1));
      t := Xor(t, Add32(t, Imul(Xor(t, ShiftRight(t, 7)), Or(t, 61))));
      u := Xor(t, ShiftRight(t, 14));
    }
  }
}
