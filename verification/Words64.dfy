/**
 Arithmetic on 64-bit words as integers: wrapping multiplication and addition,
 rotation and exclusive or, each with what undoes it.
 */
module Words64 {
  import opened Numbers

  const TWO64: int := 0x1_0000_0000_0000_0000

  type u64 = x: int | 0 <= x < 0x1_0000_0000_0000_0000

  // ---------------------------------------------------------------------------
  // Exclusive or
  // ---------------------------------------------------------------------------

  /** Bit by bit. */
  function Xor(a: nat, b: nat): nat
    decreases a + b
  {
    if a == 0 && b == 0 then 0 else 2 * Xor(a / 2, b / 2) + (a + b) % 2
  }

  lemma {:induction false} XorFits(a: nat, b: nat, k: nat)
    requires a < Pow2(k) && b < Pow2(k)
    ensures Xor(a, b) < Pow2(k)
    decreases k
  {
    if k > 0 { XorFits(a / 2, b / 2, k - 1); }
  }

  lemma {:induction false} XorCommutes(a: nat, b: nat)
    ensures Xor(a, b) == Xor(b, a)
    decreases a + b
  {
    if a != 0 || b != 0 { XorCommutes(a / 2, b / 2); }
  }

  /** The same word twice cancels out. */
  lemma {:induction false} XorUndoes(a: nat, b: nat)
    ensures Xor(Xor(a, b), b) == a
    decreases a + b
  {
    if a != 0 || b != 0 {
      XorUndoes(a / 2, b / 2);
      var x := Xor(a, b);
      XorStep(a, b);
      XorStep(x, b);
      Recompose(a, b, x, Xor(x, b));
    }
  }

  lemma Recompose(a: nat, b: nat, x: nat, y: nat)
    requires x % 2 == (a + b) % 2 && y % 2 == (x + b) % 2 && y / 2 == a / 2
    ensures y == a
  {
    assert (x + b) % 2 == a % 2;
  }

  lemma XorStep(a: nat, b: nat)
    ensures Xor(a, b) / 2 == Xor(a / 2, b / 2) && Xor(a, b) % 2 == (a + b) % 2
  {
  }

  lemma {:induction false} XorZero(a: nat)
    ensures Xor(a, 0) == a
  {
    if a != 0 { XorZero(a / 2); }
  }

  /** Bits below `k` do not change those above. */
  lemma {:induction false} XorHigh(a: nat, b: nat, k: nat)
    requires b < Pow2(k)
    ensures Xor(a, b) / Pow2(k) == a / Pow2(k)
    decreases k
  {
    if k == 0 {
      XorZero(a);
    } else {
      XorHigh(a / 2, b / 2, k - 1);
      assert Xor(a, b) / 2 == Xor(a / 2, b / 2);
      HalfThenRest(Xor(a, b), k);
      HalfThenRest(a, k);
    }
  }

  lemma HalfThenRest(a: nat, k: nat)
    requires k > 0
    ensures a / Pow2(k) == (a / 2) / Pow2(k - 1)
  {
    var p := Pow2(k - 1);
    var q, r := (a / 2) / p, (a / 2) % p;
    assert a / 2 == q * p + r;
    assert a == q * (2 * p) + (2 * r + a % 2);
    Quotient(a, 2 * p, q, 2 * r + a % 2);
  }

  function XorWords(a: u64, b: u64): u64 {
    Pow2Of64();
    XorFits(a, b, 64);
    Xor(a, b)
  }

  /** h ^ (h >> 33). */
  function XorShift(h: u64): u64 {
    XorWords(h, h / 0x2_0000_0000)
  }

  /** Doing it twice undoes it: the upper 31 bits stay, and they are all it uses. */
  lemma XorShiftUndoes(h: u64)
    ensures XorShift(XorShift(h)) == h
  {
    var high := h / 0x2_0000_0000;
    Pow2Of64();
    XorHigh(h, high, 33);
    XorUndoes(h, high);
  }

  // ---------------------------------------------------------------------------
  // Multiplication, addition and rotation
  // ---------------------------------------------------------------------------

  function WrappingMul(a: u64, b: u64): u64 {
    (a * b) % TWO64
  }

  function WrappingAdd(a: u64, b: u64): u64 {
    (a + b) % TWO64
  }

  function WrappingSub(a: u64, b: u64): u64 {
    (a - b) % TWO64
  }

  lemma ModUnique(a: u64, t: int)
    ensures (a + TWO64 * t) % TWO64 == a
  {
  }

  /** Multiplying by numbers inverse to each other modulo 2^64. */
  lemma MulUndoes(a: u64, m: u64, n: u64, c: int)
    requires m * n == 1 + TWO64 * c
    ensures WrappingMul(WrappingMul(a, m), n) == a
  {
    var k := (a * m) / TWO64;
    assert WrappingMul(a, m) == a * m - TWO64 * k;
    assert WrappingMul(a, m) * n == a + TWO64 * (a * c - k * n) by {
      calc {
        (a * m - TWO64 * k) * n;
        a * (m * n) - TWO64 * (k * n);
        a * (1 + TWO64 * c) - TWO64 * (k * n);
        a + TWO64 * (a * c - k * n);
      }
    }
    ModUnique(a, a * c - k * n);
  }

  lemma AddUndoes(a: u64, b: u64)
    ensures WrappingSub(WrappingAdd(a, b), b) == a && WrappingAdd(WrappingSub(a, b), b) == a
  {
  }

  function RotateLeft29(x: u64): u64 {
    x % 0x8_0000_0000 * 0x2000_0000 + x / 0x8_0000_0000
  }

  function RotateRight29(x: u64): u64 {
    x % 0x2000_0000 * 0x8_0000_0000 + x / 0x2000_0000
  }

  lemma RotateUndoes(x: u64)
    ensures RotateRight29(RotateLeft29(x)) == x && RotateLeft29(RotateRight29(x)) == x
  {
    Halves29(x % 0x8_0000_0000, x / 0x8_0000_0000);
    Halves35(x % 0x2000_0000, x / 0x2000_0000);
  }

  lemma Halves29(high: int, low: int)
    requires 0 <= low < 0x2000_0000
    ensures (high * 0x2000_0000 + low) / 0x2000_0000 == high && (high * 0x2000_0000 + low) % 0x2000_0000 == low
  {
  }

  lemma Halves35(high: int, low: int)
    requires 0 <= low < 0x8_0000_0000
    ensures (high * 0x8_0000_0000 + low) / 0x8_0000_0000 == high && (high * 0x8_0000_0000 + low) % 0x8_0000_0000 == low
  {
  }
}
