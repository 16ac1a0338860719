/**
 * Small numeric helpers of the runtime: the power-of-two test used to size
 * FFT collection rings, linear interpolation, and the bitwise operations they
 * rely on. Bitwise `&` and `^` on unsigned integers are defined here on `nat`
 * bit by bit, so that masks and folds can be reasoned about without
 * bit-vector arithmetic.
 */
module MathUtils {

  /** 2^k */
  function Pow2(k: nat): (r: nat)
    ensures r >= 1
  {
    if k == 0 then 1 else 2 * Pow2(k - 1)
  }

  /** Bitwise AND of two unsigned integers, lowest bit first. */
  function BitAnd(a: nat, b: nat): nat
    decreases a
  {
    if a == 0 || b == 0 then 0
    else 2 * BitAnd(a / 2, b / 2) + (if a % 2 == 1 && b % 2 == 1 then 1 else 0)
  }

  /** Bitwise XOR of two unsigned integers, lowest bit first. */
  function BitXor(a: nat, b: nat): nat
    decreases a + b
  {
    if a == 0 then b
    else if b == 0 then a
    else 2 * BitXor(a / 2, b / 2) + (if a % 2 != b % 2 then 1 else 0)
  }

  lemma {:induction false} BitAndSelf(x: nat)
    ensures BitAnd(x, x) == x
  {
    if x != 0 {
      BitAndSelf(x / 2);
    }
  }

  /** `v & (v - 1) == 0` exactly for the powers of two, once zero is excluded. */
  function IsPowerOf2(v: nat): (r: bool)
    ensures r ==> v >= 1
  {
    if v == 0 then false else BitAnd(v, v - 1) == 0
  }

  lemma {:induction false} PowerOf2OfPow2(k: nat)
    ensures IsPowerOf2(Pow2(k))
  {
    if k > 0 {
      var v := Pow2(k);
      var h := Pow2(k - 1);
      PowerOf2OfPow2(k - 1);
      assert v % 2 == 0 && v / 2 == h && (v - 1) / 2 == h - 1 && (v - 1) % 2 == 1;
      assert BitAnd(v, v - 1) == 2 * BitAnd(h, h - 1);
    }
  }

  lemma {:induction false} Pow2OfPowerOf2(v: nat) returns (k: nat)
    requires IsPowerOf2(v)
    ensures Pow2(k) == v
    decreases v
  {
    if v == 1 {
      k := 0;
    } else if v % 2 == 1 {
      var h := v / 2;
      assert v == 2 * h + 1;
      OddHalves(h);
      BitAndSelf(h);
      assert false;
    } else {
      var h := v / 2;
      assert v == 2 * h;
      EvenHalves(h);
      var k' := Pow2OfPowerOf2(h);
      k := k' + 1;
    }
  }

  /** For h >= 1, `(2h + 1) & 2h` is twice `h & h`. */
  lemma OddHalves(h: nat)
    requires h >= 1
    ensures BitAnd(2 * h + 1, 2 * h) == 2 * BitAnd(h, h)
  {
    ModUnique(2 * h + 1, 2, h, 1);
    ModUnique(2 * h, 2, h, 0);
    BitAndStep(2 * h + 1, 2 * h);
  }

  /** For h >= 1, `2h & (2h - 1)` is twice `h & (h - 1)`. */
  lemma EvenHalves(h: nat)
    requires h >= 1
    ensures BitAnd(2 * h, 2 * h - 1) == 2 * BitAnd(h, h - 1)
  {
    ModUnique(2 * h, 2, h, 0);
    ModUnique(2 * h - 1, 2, h - 1, 1);
    BitAndStep(2 * h, 2 * h - 1);
  }

  /** The defining step of AND for nonzero operands. */
  lemma BitAndStep(a: nat, b: nat)
    requires a > 0 && b > 0
    ensures BitAnd(a, b) == 2 * BitAnd(a / 2, b / 2) + (if a % 2 == 1 && b % 2 == 1 then 1 else 0)
  {
  }

  /** The bit trick of `is_power_of_2` decides "v is 2^k for some k". */
  lemma IsPowerOf2Iff(v: nat)
    ensures IsPowerOf2(v) <==> exists k: nat :: Pow2(k) == v
  {
    if IsPowerOf2(v) {
      var k := Pow2OfPowerOf2(v);
    }
    if exists k: nat :: Pow2(k) == v {
      var k: nat :| Pow2(k) == v;
      PowerOf2OfPow2(k);
    }
  }

  lemma MulPos(a: int, b: int)
    requires a >= 0 && b >= 0
    ensures a * b >= 0
  {
  }

  /** Division with remainder is unique. */
  lemma ModUnique(x: int, d: nat, q: int, r: int)
    requires d >= 1 && x == d * q + r && 0 <= r < d
    ensures x % d == r && x / d == q
  {
    var q0, r0 := x / d, x % d;
    if q0 > q {
      MulPos(d, q0 - q - 1);
      assert false;
    } else if q0 < q {
      MulPos(d, q - q0 - 1);
      assert false;
    }
  }

  lemma ModSmall(x: int, m: nat)
    requires 0 <= x < m
    ensures x % m == x
  {
    ModUnique(x, m, 0, x);
  }

  /** A value in [m, 2m) wraps once. */
  lemma ModWrapOnce(x: int, m: nat)
    requires m <= x < 2 * m
    ensures x % m == x - m
  {
    ModUnique(x, m, 1, x - m);
  }

  /** A value in [-m, 0) wraps once from below. */
  lemma ModWrapBelow(x: int, m: nat)
    requires -(m as int) <= x < 0
    ensures x % m == x + m
  {
    ModUnique(x, m, -1, x + m);
  }

  lemma ModShift(x: int, q: int, m: nat)
    requires m >= 1
    ensures (x + q * m) % m == x % m
  {
    var d := x / m;
    assert x + q * m == m * (d + q) + x % m;
    ModUnique(x + q * m, m, d + q, x % m);
  }

  lemma ModAddLeft(a: int, b: int, m: nat)
    requires m >= 1
    ensures (a % m + b) % m == (a + b) % m
  {
    ModShift(a % m + b, a / m, m);
    assert a % m + b + (a / m) * m == a + b;
  }

  lemma ModDouble(x: nat, p: nat)
    requires p >= 1
    ensures x % (2 * p) == 2 * ((x / 2) % p) + x % 2
  {
    var q := x / 2;
    var s := q / p;
    var t := q % p;
    assert q == p * s + t;
    assert x == 2 * q + x % 2;
    assert 2 * (p * s) == (2 * p) * s;
    assert x == (2 * p) * s + (2 * t + x % 2);
    ModUnique(x, 2 * p, s, 2 * t + x % 2);
  }

  /** Masking with 2^k - 1 keeps the residue modulo 2^k (the ring index wrap). */
  lemma {:induction false} BitAndLowMask(x: nat, k: nat)
    ensures BitAnd(x, Pow2(k) - 1) == x % Pow2(k)
    decreases k
  {
    if k > 0 && x != 0 {
      var h := Pow2(k - 1);
      var m := Pow2(k) - 1;
      assert m == 2 * (h - 1) + 1;
      ModUnique(m, 2, h - 1, 1);
      BitAndStep(x, m);
      BitAndLowMask(x / 2, k - 1);
      ModDouble(x, h);
    }
  }

  /** The defining step of XOR holds for zero operands too. */
  lemma BitXorSplit(a: nat, b: nat)
    ensures BitXor(a, b) == 2 * BitXor(a / 2, b / 2) + (if a % 2 != b % 2 then 1 else 0)
  {
    if a == 0 {
      assert BitXor(0, b / 2) == b / 2;
    } else if b == 0 {
      assert BitXor(a / 2, 0) == a / 2;
    }
  }

  /** Truncating to the low k bits commutes with XOR. */
  lemma {:induction false} BitXorLow(a: nat, b: nat, k: nat)
    ensures BitXor(a, b) % Pow2(k) == BitXor(a % Pow2(k), b % Pow2(k))
    decreases k
  {
    if k == 0 {
      return;
    }
    var p := Pow2(k);
    var h := Pow2(k - 1);
    assert p == 2 * h;
    var a', b' := a % p, b % p;
    var ua, ub := (a / 2) % h, (b / 2) % h;
    ModDouble(a, h);
    ModDouble(b, h);
    assert a' / 2 == ua && a' % 2 == a % 2;
    assert b' / 2 == ub && b' % 2 == b % 2;
    var x := BitXor(a / 2, b / 2);
    var e := if a % 2 != b % 2 then 1 else 0;
    BitXorSplit(a, b);
    ModDouble(BitXor(a, b), h);
    assert BitXor(a, b) / 2 == x && BitXor(a, b) % 2 == e;
    BitXorLow(a / 2, b / 2, k - 1);
    BitXorSplit(a', b');
  }

  /** XOR of two values below 2^k stays below 2^k. */
  lemma {:induction false} BitXorBound(a: nat, b: nat, k: nat)
    requires a < Pow2(k) && b < Pow2(k)
    ensures BitXor(a, b) < Pow2(k)
    decreases k
  {
    if k > 0 && a != 0 && b != 0 {
      BitXorBound(a / 2, b / 2, k - 1);
    }
  }

  lemma MulNonNeg(a: real, b: real)
    ensures a >= 0.0 && b >= 0.0 ==> a * b >= 0.0
  {
  }

  /** Linear interpolation from x (t = 0) to y (t = 1). */
  function Lerp(x: real, y: real, t: real): (r: real)
    ensures t == 0.0 ==> r == x
    ensures t == 1.0 ==> r == y
    ensures x == y ==> r == x
    ensures 0.0 <= t <= 1.0 && x <= y ==> x <= r <= y
    ensures 0.0 <= t <= 1.0 && y <= x ==> y <= r <= x
  {
    MulNonNeg(t, y - x);
    MulNonNeg(1.0 - t, y - x);
    MulNonNeg(t, x - y);
    MulNonNeg(1.0 - t, x - y);
    x + t * (y - x)
  }

  /** Interpolation over t in [-1, 1]: x at -1, the midpoint at 0, y at 1. */
  function BipolarLerp(x: real, y: real, t: real): (r: real)
    ensures t == -1.0 ==> r == x
    ensures t == 1.0 ==> r == y
    ensures t == 0.0 ==> r == (x + y) / 2.0
    ensures r == Lerp(x, y, (t + 1.0) / 2.0)
  {
    var half := (y - x) / 2.0;
    var mid := x + half;
    t * half + mid
  }
}
