/**
 Exclusive or of words byte by byte, so that the values of particular words can be
 found.
 */
module WordBytes {
  import opened Numbers
  import opened Words64

  type Op = (nat, nat) -> nat

  // ---------------------------------------------------------------------------
  // Splitting words
  // ---------------------------------------------------------------------------

  /** `f` does to the last bits what exclusive or does, and the rest by itself. */
  predicate BitAt(f: Op, a: nat, x: nat, b: nat, y: nat) {
    x < 2 && y < 2 ==> f(2 * a + x, 2 * b + y) == 2 * f(a, b) + if x == y then 0 else 1
  }

  ghost predicate BitByBit(f: Op) {
    f(0, 0) == 0 && forall a, x, b, y :: BitAt(f, a, x, b, y)
  }

  lemma Halves(a: nat, x: nat)
    requires x < 2
    ensures (2 * a + x) / 2 == a && (2 * a + x) % 2 == x
  {
  }

  lemma XorIsBitByBit()
    ensures BitByBit(Xor)
  {
    forall a: nat, x: nat, b: nat, y: nat ensures BitAt(Xor, a, x, b, y) {
      if x < 2 && y < 2 { XorOfBit(a, x, b, y); }
    }
  }

  lemma XorOfBit(a: nat, x: nat, b: nat, y: nat)
    requires x < 2 && y < 2
    ensures Xor(2 * a + x, 2 * b + y) == 2 * Xor(a, b) + if x == y then 0 else 1
  {
    Halves(a, x);
    Halves(b, y);
    XorStep(2 * a + x, 2 * b + y);
    LastBit(a, x, b, y);
    FromHalf(Xor(2 * a + x, 2 * b + y), Xor(a, b), if x == y then 0 else 1);
  }

  lemma LastBit(a: nat, x: nat, b: nat, y: nat)
    requires x < 2 && y < 2
    ensures (2 * a + x + (2 * b + y)) % 2 == if x == y then 0 else 1
  {
    Halves(a + b, if x == y then 0 else 1);
    if x == 1 && y == 1 { Halves(a + b + 1, 0); }
  }

  lemma FromHalf(v: nat, half: nat, bit: nat)
    requires v / 2 == half && v % 2 == bit
    ensures v == 2 * half + bit
  {
  }

  /** Words may be split at any bit. */
  lemma {:induction false} Splits(f: Op, a: nat, x: nat, b: nat, y: nat, k: nat)
    requires BitByBit(f) && x < Pow2(k) && y < Pow2(k)
    ensures f(a * Pow2(k) + x, b * Pow2(k) + y) == f(a, b) * Pow2(k) + f(x, y)
    decreases k
  {
    if k > 0 {
      var p := Pow2(k - 1);
      Splits(f, a, x / 2, b, y / 2, k - 1);
      BothDouble(f, a * p, x, b * p, y, f(a, b) * p);
      Doubled(a, p, x);
      Doubled(b, p, y);
      Doubled(f(a, b), p, 0);
    }
  }

  lemma BothDouble(f: Op, u: nat, x: nat, v: nat, y: nat, w: nat)
    requires BitByBit(f) && f(u + x / 2, v + y / 2) == w + f(x / 2, y / 2)
    ensures f(2 * (u + x / 2) + x % 2, 2 * (v + y / 2) + y % 2) == 2 * w + f(x, y)
  {
    assert BitAt(f, u + x / 2, x % 2, v + y / 2, y % 2);
    assert BitAt(f, x / 2, x % 2, y / 2, y % 2);
  }

  lemma Doubled(a: nat, p: nat, x: nat)
    ensures a * (2 * p) + x == 2 * (a * p + x / 2) + x % 2
  {
    assert a * (2 * p) == 2 * (a * p);
  }

  // ---------------------------------------------------------------------------
  // Digits and bytes
  // ---------------------------------------------------------------------------

  lemma DigitHalves(x: bv4)
    ensures x as nat == 2 * ((x >> 1) as nat) + (x & 1) as nat && (x & 1) as nat < 2
  {
  }

  lemma LastBits(x: bv4, y: bv4)
    ensures (x ^ y) >> 1 == (x >> 1) ^ (y >> 1)
    ensures ((x ^ y) & 1) as nat == if (x & 1) as nat == (y & 1) as nat then 0 else 1
  {
  }

  lemma OneBitMore(f: Op, a: nat, x: nat, b: nat, y: nat, c: nat, z: nat)
    requires BitByBit(f) && x < 2 && y < 2 && f(a, b) == c && z == if x == y then 0 else 1
    ensures f(2 * a + x, 2 * b + y) == 2 * c + z
  {
    assert BitAt(f, a, x, b, y);
  }

  lemma DigitStep(f: Op, x: bv4, y: bv4)
    requires BitByBit(f) && f((x >> 1) as nat, (y >> 1) as nat) == ((x >> 1) ^ (y >> 1)) as nat
    ensures f(x as nat, y as nat) == (x ^ y) as nat
  {
    DigitHalves(x);
    DigitHalves(y);
    DigitHalves(x ^ y);
    LastBits(x, y);
    OneBitMore(f, (x >> 1) as nat, (x & 1) as nat, (y >> 1) as nat, (y & 1) as nat,
               ((x >> 1) ^ (y >> 1)) as nat, ((x ^ y) & 1) as nat);
  }

  lemma DigitShrinks(x: bv4)
    ensures if x == 0 then x as nat == 0 && x >> 1 == 0 else (x >> 1) as nat < x as nat
  {
  }

  /** On hexadecimal digits, `f` is exclusive or of bit-vectors. */
  lemma {:induction false} DigitIs(f: Op, x: bv4, y: bv4)
    requires BitByBit(f)
    ensures f(x as nat, y as nat) == (x ^ y) as nat
    decreases x as nat + y as nat
  {
    DigitShrinks(x);
    DigitShrinks(y);
    if x != 0 || y != 0 {
      DigitIs(f, x >> 1, y >> 1);
      DigitStep(f, x, y);
    }
  }

  function High(x: bv8): bv4 { (x >> 4) as bv4 }

  function Low(x: bv8): bv4 { (x & 15) as bv4 }

  lemma ByteIsTwoDigits(x: bv8)
    ensures x as nat == 16 * (High(x) as nat) + Low(x) as nat
  {
  }

  lemma XorOfDigits(x: bv8, y: bv8)
    ensures High(x ^ y) == High(x) ^ High(y) && Low(x ^ y) == Low(x) ^ Low(y)
  {
  }

  lemma OneDigitMore(f: Op, a: nat, x: bv4, b: nat, y: bv4)
    requires BitByBit(f)
    ensures f(16 * a + x as nat, 16 * b + y as nat) == 16 * f(a, b) + (x ^ y) as nat
  {
    assert Pow2(4) == 16;
    Splits(f, a, x as nat, b, y as nat, 4);
    DigitIs(f, x, y);
  }

  /** `a` with one more byte. */
  function Extended(a: nat, x: bv8): nat {
    256 * a + x as nat
  }

  predicate ByteAt(f: Op, a: nat, x: bv8, b: nat, y: bv8) {
    f(Extended(a, x), Extended(b, y)) == Extended(f(a, b), x ^ y)
  }

  lemma ByteByByte(f: Op, a: nat, x: bv8, b: nat, y: bv8)
    requires BitByBit(f)
    ensures ByteAt(f, a, x, b, y)
  {
    ByteIsTwoDigits(x);
    ByteIsTwoDigits(y);
    ByteIsTwoDigits(x ^ y);
    XorOfDigits(x, y);
    OneDigitMore(f, a, High(x), b, High(y));
    OneDigitMore(f, 16 * a + High(x) as nat, Low(x), 16 * b + High(y) as nat, Low(y));
  }

  // ---------------------------------------------------------------------------
  // Words
  // ---------------------------------------------------------------------------

  /** The word whose lower half is these four bytes. */
  function Word(high: nat, x3: bv8, x2: bv8, x1: bv8, x0: bv8): nat {
    Extended(Extended(Extended(Extended(high, x3), x2), x1), x0)
  }

  lemma FourBytes(f: Op, a: nat, x3: bv8, x2: bv8, x1: bv8, x0: bv8, b: nat, y3: bv8, y2: bv8, y1: bv8, y0: bv8)
    requires BitByBit(f)
    ensures f(Word(a, x3, x2, x1, x0), Word(b, y3, y2, y1, y0)) ==
            Word(f(a, b), x3 ^ y3, x2 ^ y2, x1 ^ y1, x0 ^ y0)
  {
    var a3, b3 := Extended(a, x3), Extended(b, y3);
    var a2, b2 := Extended(a3, x2), Extended(b3, y2);
    ByteByByte(f, a, x3, b, y3);
    ByteByByte(f, a3, x2, b3, y2);
    ByteByByte(f, a2, x1, b2, y1);
    ByteByByte(f, Extended(a2, x1), x0, Extended(b2, y1), y0);
  }

  lemma {:induction false} UnchangedByZero(f: Op, a: nat)
    requires BitByBit(f)
    ensures f(a, 0) == a
  {
    if a > 0 {
      UnchangedByZero(f, a / 2);
      assert BitAt(f, a / 2, a % 2, 0, 0);
    }
  }
}
