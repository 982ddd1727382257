/** The field GF(256) as bench/gfbench/main.go computes it: polynomials over
    GF(2) of degree below 8, reduced by x^8 + x^4 + x^3 + x^2 + 1. */
module Gf256 {
  import opened Bytes

  /** Addition (and subtraction) of field elements. */
  function Add(a: byte, b: byte): byte {
    a ^ b
  }

  /** Multiplication by x: shift left, and reduce by 0x1D when the top bit falls out. */
  function XTimes(a: byte): byte {
    (a << 1) ^ ((a >> 7) * 0x1D)
  }

  function Odd(b: byte): bool {
    b & 1 == 1
  }

  function Half(b: byte): byte {
    b >> 1
  }

  function Pick(c: bool, v: byte): byte {
    if c then v else 0
  }

  /** The product of a with the polynomial given by the lowest n bits of b. */
  function MulBits(a: byte, b: byte, n: nat): byte
    decreases n
  {
    if n == 0 then 0 else Add(Pick(Odd(b), a), MulBits(XTimes(a), Half(b), n - 1))
  }

  function Mul(a: byte, b: byte): byte {
    MulBits(a, b, 8)
  }

  /** The n-fold product of a with itself. */
  function Pow(a: byte, n: nat): byte {
    if n == 0 then 1 else Mul(Pow(a, n - 1), a)
  }

  /** main.go raises to this power to invert. */
  const INVERSE_EXPONENT: nat := 254

  function Inv(a: byte): byte {
    Pow(a, INVERSE_EXPONENT)
  }

  // ---------- addition ----------

  lemma AddLaws(a: byte, b: byte)
    ensures Add(a, b) == Add(b, a)
    ensures Add(a, 0) == a == Add(0, a)
    ensures Add(a, a) == 0
    ensures Add(a, b) == 0 ==> a == b
    ensures Add(Add(a, b), b) == a
  {}

  lemma AddAssoc(a: byte, b: byte, c: byte)
    ensures Add(Add(a, b), c) == Add(a, Add(b, c))
  {}

  lemma AddSwap(a: byte, b: byte, c: byte, d: byte)
    ensures Add(Add(a, b), Add(c, d)) == Add(Add(a, c), Add(b, d))
  {
    calc {
      Add(Add(a, b), Add(c, d));
      { AddAssoc(Add(a, b), c, d); AddAssoc(a, b, c); }
      Add(Add(a, Add(b, c)), d);
      { AddLaws(b, c); AddAssoc(a, c, b); }
      Add(Add(Add(a, c), b), d);
      { AddAssoc(Add(a, c), b, d); }
      Add(Add(a, c), Add(b, d));
    }
  }

  lemma AddThrough(a: byte, b: byte, c: byte)
    ensures Add(Add(a, b), Add(b, c)) == Add(a, c)
  {
    AddSwap(a, b, c, b);
    AddLaws(b, c);
    AddLaws(b, b);
    AddLaws(Add(a, c), 0);
  }

  // ---------- bit-level facts ----------

  lemma XTimesAdd(a: byte, b: byte)
    ensures XTimes(Add(a, b)) == Add(XTimes(a), XTimes(b))
  {}

  lemma PickAdd(c: bool, v: byte, w: byte)
    ensures Pick(c, Add(v, w)) == Add(Pick(c, v), Pick(c, w))
  {}

  lemma OddAdd(b: byte, c: byte)
    ensures Odd(Add(b, c)) == (Odd(b) != Odd(c))
    ensures Half(Add(b, c)) == Add(Half(b), Half(c))
  {}

  lemma PickXor(b: bool, c: bool, v: byte)
    ensures Pick(b != c, v) == Add(Pick(b, v), Pick(c, v))
  {}

  lemma XTimesPick(c: bool, v: byte)
    ensures XTimes(Pick(c, v)) == Pick(c, XTimes(v))
  {}

  /** b splits into its lowest bit and x times the rest. */
  lemma SplitLow(b: byte)
    ensures b == Add(Pick(Odd(b), 1), XTimes(Half(b)))
  {}

  // ---------- the product is bilinear and commutes with XTimes ----------

  lemma {:induction false} MulBitsAddLeft(a: byte, c: byte, b: byte, n: nat)
    ensures MulBits(Add(a, c), b, n) == Add(MulBits(a, b, n), MulBits(c, b, n))
    decreases n
  {
    if n == 0 {
    } else {
      XTimesAdd(a, c);
      MulBitsAddLeft(XTimes(a), XTimes(c), Half(b), n - 1);
      PickAdd(Odd(b), a, c);
      AddSwap(Pick(Odd(b), a), MulBits(XTimes(a), Half(b), n - 1),
              Pick(Odd(b), c), MulBits(XTimes(c), Half(b), n - 1));
    }
  }

  lemma {:induction false} MulBitsAddRight(a: byte, b: byte, c: byte, n: nat)
    ensures MulBits(a, Add(b, c), n) == Add(MulBits(a, b, n), MulBits(a, c, n))
    decreases n
  {
    if n == 0 {
    } else {
      OddAdd(b, c);
      MulBitsAddRight(XTimes(a), Half(b), Half(c), n - 1);
      PickXor(Odd(b), Odd(c), a);
      AddSwap(Pick(Odd(b), a), MulBits(XTimes(a), Half(b), n - 1),
              Pick(Odd(c), a), MulBits(XTimes(a), Half(c), n - 1));
    }
  }

  lemma {:induction false} MulBitsXTimesLeft(a: byte, b: byte, n: nat)
    ensures MulBits(XTimes(a), b, n) == XTimes(MulBits(a, b, n))
    decreases n
  {
    if n == 0 {
    } else {
      MulBitsXTimesLeft(XTimes(a), Half(b), n - 1);
      XTimesPick(Odd(b), a);
      XTimesAdd(Pick(Odd(b), a), MulBits(XTimes(a), Half(b), n - 1));
    }
  }

  lemma {:induction false} MulBitsZeroRight(a: byte, n: nat)
    ensures MulBits(a, 0, n) == 0
    decreases n
  {
    if n == 0 {
    } else {
      MulBitsZeroRight(XTimes(a), n - 1);
    }
  }

  lemma HalfZero()
    ensures Half(0) == 0 && !Odd(0)
    ensures Half(1) == 0 && Odd(1)
  {}

  /** The part of b below bit n. */
  function Below(b: byte, n: nat): bool
    requires n <= 8
  {
    n == 8 || b < [1, 2, 4, 8, 16, 32, 64, 128][n]
  }

  /** Bits that are not set add nothing: one more round changes nothing. */
  lemma {:induction false} MulBitsShort(a: byte, b: byte, n: nat)
    requires n <= 7 && Below(b, n)
    ensures MulBits(a, b, n + 1) == MulBits(a, b, n)
    decreases n
  {
    if n == 0 {
      assert b == 0;
      MulBitsZeroRight(a, 1);
    } else {
      assert Below(Half(b), n - 1);
      MulBitsShort(XTimes(a), Half(b), n - 1);
    }
  }

  lemma MulByReduction(a: byte)
    ensures Mul(a, 0x1D) == Mul(XTimes(a), 0x80)
  {
    var a1 := XTimes(a);
    var a2 := XTimes(a1);
    var a3 := XTimes(a2);
    var a4 := XTimes(a3);
    var a5 := XTimes(a4);
    var a6 := XTimes(a5);
    var a7 := XTimes(a6);
    var a8 := XTimes(a7);
    MulBitsZeroRight(a5, 3);
    assert MulBits(a4, 1, 4) == Add(a4, 0);
    assert MulBits(a3, 3, 5) == Add(a3, MulBits(a4, 1, 4));
    assert MulBits(a2, 7, 6) == Add(a2, MulBits(a3, 3, 5));
    assert MulBits(a1, 0xE, 7) == Add(0, MulBits(a2, 7, 6));
    assert MulBits(a, 0x1D, 8) == Add(a, MulBits(a1, 0xE, 7));
    assert MulBits(a8, 1, 1) == Add(a8, 0);
    assert MulBits(a7, 2, 2) == Add(0, MulBits(a8, 1, 1));
    assert MulBits(a6, 4, 3) == Add(0, MulBits(a7, 2, 2));
    assert MulBits(a5, 8, 4) == Add(0, MulBits(a6, 4, 3));
    assert MulBits(a4, 0x10, 5) == Add(0, MulBits(a5, 8, 4));
    assert MulBits(a3, 0x20, 6) == Add(0, MulBits(a4, 0x10, 5));
    assert MulBits(a2, 0x40, 7) == Add(0, MulBits(a3, 0x20, 6));
    assert MulBits(a1, 0x80, 8) == Add(0, MulBits(a2, 0x40, 7));
    XTimesEight(a);
  }

  lemma XTimesEight(a: byte)
    ensures
      var a1 := XTimes(a); var a2 := XTimes(a1); var a3 := XTimes(a2); var a4 := XTimes(a3);
      XTimes(XTimes(XTimes(XTimes(a4)))) == Add(a, Add(a2, Add(a3, a4)))
  {}

  // ---------- the commutative ring ----------

  lemma MulAddLeft(a: byte, b: byte, c: byte)
    ensures Mul(Add(a, b), c) == Add(Mul(a, c), Mul(b, c))
  {
    MulBitsAddLeft(a, b, c, 8);
  }

  lemma MulAddRight(a: byte, b: byte, c: byte)
    ensures Mul(a, Add(b, c)) == Add(Mul(a, b), Mul(a, c))
  {
    MulBitsAddRight(a, b, c, 8);
  }

  lemma MulOne(a: byte)
    ensures Mul(a, 1) == a
  {
    HalfZero();
    MulBitsZeroRight(XTimes(a), 7);
    assert MulBits(a, 1, 8) == Add(Pick(Odd(1), a), MulBits(XTimes(a), Half(1), 7));
    AddLaws(a, 0);
  }

  lemma MulZero(a: byte)
    ensures Mul(a, 0) == 0 == Mul(0, a)
  {
    MulBitsZeroRight(a, 8);
    MulAddLeft(0, 0, a);
    AddLaws(0, 0);
    AddLaws(Mul(0, a), Mul(0, a));
  }

  lemma MulXTimesLeft(a: byte, b: byte)
    ensures Mul(XTimes(a), b) == XTimes(Mul(a, b))
  {
    MulBitsXTimesLeft(a, b, 8);
  }

  /** Below degree 7, multiplying the right factor by x is a plain shift. */
  lemma MulXTimesLow(a: byte, b: byte)
    requires Below(b, 7)
    ensures Mul(a, XTimes(b)) == XTimes(Mul(a, b))
  {
    ShiftOfLow(b);
    MulBitsShort(a, b, 7);
    MulBitsXTimesLeft(a, b, 7);
    assert MulBits(a, XTimes(b), 8) == Add(Pick(false, a), MulBits(XTimes(a), b, 7));
    AddLaws(MulBits(XTimes(a), b, 7), 0);
  }

  lemma ShiftOfLow(b: byte)
    requires Below(b, 7)
    ensures !Odd(XTimes(b)) && Half(XTimes(b)) == b
  {}

  lemma SplitHigh(b: byte)
    requires !Below(b, 7)
    ensures b == Add(0x80, Add(b, 0x80)) && Below(Add(b, 0x80), 7)
    ensures XTimes(0x80) == 0x1D
  {}

  lemma MulXTimesRight(a: byte, b: byte)
    ensures Mul(a, XTimes(b)) == XTimes(Mul(a, b))
  {
    if Below(b, 7) {
      MulXTimesLow(a, b);
    } else {
      var r := Add(b, 0x80);
      SplitHigh(b);
      calc {
        Mul(a, XTimes(b));
        { XTimesAdd(0x80, r); MulAddRight(a, XTimes(0x80), XTimes(r)); }
        Add(Mul(a, 0x1D), Mul(a, XTimes(r)));
        { MulByReduction(a); MulXTimesLeft(a, 0x80); MulXTimesLow(a, r); }
        Add(XTimes(Mul(a, 0x80)), XTimes(Mul(a, r)));
        { XTimesAdd(Mul(a, 0x80), Mul(a, r)); MulAddRight(a, 0x80, r); }
        XTimes(Mul(a, b));
      }
    }
  }

  lemma MulPick(a: byte, c: bool)
    ensures Mul(a, Pick(c, 1)) == Pick(c, a)
    ensures Mul(Pick(c, 1), a) == Pick(c, Mul(1, a))
  {
    MulOne(a);
    MulZero(a);
  }

  lemma {:induction false} OneMul(b: byte, n: nat)
    requires n <= 8 && Below(b, n)
    ensures Mul(1, b) == b
    decreases n
  {
    if n == 0 {
      MulZero(1);
    } else {
      assert Below(Half(b), n - 1);
      OneMul(Half(b), n - 1);
      SplitLow(b);
      MulAddRight(1, Pick(Odd(b), 1), XTimes(Half(b)));
      MulPick(1, Odd(b));
      MulXTimesRight(1, Half(b));
    }
  }

  lemma {:induction false} MulCommBits(a: byte, b: byte, n: nat)
    requires n <= 8 && Below(a, n)
    ensures Mul(a, b) == Mul(b, a)
    decreases n
  {
    if n == 0 {
      MulZero(b);
    } else {
      var h := Half(a);
      assert Below(h, n - 1);
      MulCommBits(h, b, n - 1);
      SplitLow(a);
      MulAddLeft(Pick(Odd(a), 1), XTimes(h), b);
      MulAddRight(b, Pick(Odd(a), 1), XTimes(h));
      MulPick(b, Odd(a));
      OneMul(b, 8);
      MulXTimesLeft(h, b);
      MulXTimesRight(b, h);
    }
  }

  lemma MulComm(a: byte, b: byte)
    ensures Mul(a, b) == Mul(b, a)
  {
    MulCommBits(a, b, 8);
  }

  lemma MulAssocLow(l: bool, b: byte, c: byte)
    ensures Mul(Mul(Pick(l, 1), b), c) == Mul(Pick(l, 1), Mul(b, c))
  {
    MulPick(b, l);
    MulPick(Mul(b, c), l);
    OneMul(b, 8);
    OneMul(Mul(b, c), 8);
    MulZero(c);
  }

  lemma {:induction false} MulAssocBits(a: byte, b: byte, c: byte, n: nat)
    requires n <= 8 && Below(a, n)
    ensures Mul(Mul(a, b), c) == Mul(a, Mul(b, c))
    decreases n
  {
    if n == 0 {
      MulZero(b);
      MulZero(c);
      MulZero(Mul(b, c));
    } else {
      var h := Half(a);
      assert Below(h, n - 1);
      MulAssocBits(h, b, c, n - 1);
      MulAssocStep(a, Odd(a), h, b, c) by { SplitLow(a); }
    }
  }

  lemma MulAssocStep(a: byte, l: bool, h: byte, b: byte, c: byte)
    requires a == Add(Pick(l, 1), XTimes(h))
    requires Mul(Mul(h, b), c) == Mul(h, Mul(b, c))
    ensures Mul(Mul(a, b), c) == Mul(a, Mul(b, c))
  {
    var p := Pick(l, 1);
    calc {
      Mul(Mul(a, b), c);
      { MulAddLeft(p, XTimes(h), b); MulAddLeft(Mul(p, b), Mul(XTimes(h), b), c); }
      Add(Mul(Mul(p, b), c), Mul(Mul(XTimes(h), b), c));
      { MulAssocLow(l, b, c); MulXTimesLeft(h, b); MulXTimesLeft(Mul(h, b), c); }
      Add(Mul(p, Mul(b, c)), XTimes(Mul(Mul(h, b), c)));
      { MulXTimesLeft(h, Mul(b, c)); MulAddLeft(p, XTimes(h), Mul(b, c)); }
      Mul(a, Mul(b, c));
    }
  }

  lemma MulAssoc(a: byte, b: byte, c: byte)
    ensures Mul(Mul(a, b), c) == Mul(a, Mul(b, c))
  {
    MulAssocBits(a, b, c, 8);
  }

  // ---------- inverses ----------

  function Square(a: byte): byte {
    Mul(a, a)
  }

  lemma SquareAdd(a: byte, b: byte)
    ensures Square(Add(a, b)) == Add(Square(a), Square(b))
  {
    var c := Mul(a, b);
    MulAddLeft(a, b, Add(a, b));
    MulAddRight(a, a, b);
    MulAddRight(b, a, b);
    MulComm(a, b);
    AddSwap(Square(a), c, c, Square(b));
    AddLaws(c, c);
    AddSwap(Square(a), Square(b), c, c);
    AddLaws(Add(Square(a), Square(b)), 0);
    AddLaws(c, Square(b));
  }

  /** Squaring as a linear map on the bits: bit i contributes x^(2i). */
  function SquareMap(a: byte): byte {
    Add(Add(Add(Pick(Odd(a), 1), Pick(Odd(a >> 1), 4)), Add(Pick(Odd(a >> 2), 16), Pick(Odd(a >> 3), 64))),
        Add(Add(Pick(Odd(a >> 4), 29), Pick(Odd(a >> 5), 116)), Add(Pick(Odd(a >> 6), 205), Pick(Odd(a >> 7), 19))))
  }

  lemma SquareMapStep(a: byte)
    ensures SquareMap(a) == Add(Pick(Odd(a), 1), XTimes(XTimes(SquareMap(Half(a)))))
  {}

  lemma {:induction false} SquareIsMap(a: byte, n: nat)
    requires n <= 8 && Below(a, n)
    ensures Square(a) == SquareMap(a)
    decreases n
  {
    if n == 0 {
      MulZero(0);
      SquareMapZero();
    } else {
      assert Below(Half(a), n - 1);
      SquareIsMap(Half(a), n - 1);
      SquareMapStep(a);
      SquareStep(a, Odd(a), Half(a)) by { SplitLow(a); }
    }
  }

  lemma SquareMapZero()
    ensures SquareMap(0) == 0
  {}

  lemma SquareStep(a: byte, l: bool, h: byte)
    requires a == Add(Pick(l, 1), XTimes(h))
    ensures Square(a) == Add(Pick(l, 1), XTimes(XTimes(Square(h))))
  {
    SquareAdd(Pick(l, 1), XTimes(h));
    MulPick(Pick(l, 1), l);
    MulXTimesLeft(h, XTimes(h));
    MulXTimesRight(h, h);
  }

  /** The only idempotents are 0 and 1: the ring has no proper factors. */
  lemma Idempotent(e: byte)
    requires Square(e) == e
    ensures e == 0 || e == 1
  {
    SquareIsMap(e, 8);
    IdempotentMap(e);
  }

  lemma IdempotentMap(e: byte)
    requires SquareMap(e) == e
    ensures e == 0 || e == 1
  {}

  /** Eight squarings are the identity: every element is its own 256th power. */
  lemma FrobeniusOrder(a: byte)
    ensures Square(Square(Square(Square(Square(Square(Square(Square(a)))))))) == a
  {
    var a1 := SquareMap(a);
    var a2 := SquareMap(a1);
    var a3 := SquareMap(a2);
    var a4 := SquareMap(a3);
    var a5 := SquareMap(a4);
    var a6 := SquareMap(a5);
    var a7 := SquareMap(a6);
    SquareIsMap(a, 8);
    SquareIsMap(a1, 8);
    SquareIsMap(a2, 8);
    SquareIsMap(a3, 8);
    SquareIsMap(a4, 8);
    SquareIsMap(a5, 8);
    SquareIsMap(a6, 8);
    SquareIsMap(a7, 8);
    FrobeniusMap(a);
  }

  /** Two squarings as a map on the bits. */
  function FourthMap(a: byte): byte {
    Add(Add(Add(Pick(Odd(a), 1), Pick(Odd(a >> 1), 16)), Add(Pick(Odd(a >> 2), 29), Pick(Odd(a >> 3), 205))),
        Add(Add(Pick(Odd(a >> 4), 76), Pick(Odd(a >> 5), 180)), Add(Pick(Odd(a >> 6), 143), Pick(Odd(a >> 7), 24))))
  }

  /** Four squarings as a map on the bits. */
  function SixteenthMap(a: byte): byte {
    Add(Add(Add(Pick(Odd(a), 1), Pick(Odd(a >> 1), 76)), Add(Pick(Odd(a >> 2), 157), Pick(Odd(a >> 3), 70))),
        Add(Add(Pick(Odd(a >> 4), 95), Pick(Odd(a >> 5), 253)), Add(Pick(Odd(a >> 6), 217), Pick(Odd(a >> 7), 129))))
  }

  lemma FourthIsMap(a: byte)
    ensures SquareMap(SquareMap(a)) == FourthMap(a)
  {}

  lemma SixteenthIsMap(a: byte)
    ensures FourthMap(FourthMap(a)) == SixteenthMap(a)
  {}

  lemma SixteenthTwice(a: byte)
    ensures SixteenthMap(SixteenthMap(a)) == a
  {}

  lemma FrobeniusMap(a: byte)
    ensures SquareMap(SquareMap(SquareMap(SquareMap(SquareMap(SquareMap(SquareMap(SquareMap(a)))))))) == a
  {
    var b := FourthMap(a);
    var c := FourthMap(b);
    var d := FourthMap(c);
    FourthIsMap(a);
    FourthIsMap(b);
    FourthIsMap(c);
    FourthIsMap(d);
    SixteenthIsMap(a);
    SixteenthIsMap(c);
    SixteenthTwice(a);
  }

  lemma {:induction false} PowAdd(a: byte, m: nat, n: nat)
    ensures Pow(a, m + n) == Mul(Pow(a, m), Pow(a, n))
    decreases n
  {
    hide Mul;
    if n == 0 {
      MulOne(Pow(a, m));
    } else {
      PowAdd(a, m, n - 1);
      assert Pow(a, m + n) == Mul(Pow(a, m + n - 1), a);
      MulAssoc(Pow(a, m), Pow(a, n - 1), a);
    }
  }

  lemma PowDouble(a: byte, n: nat)
    ensures Pow(a, 2 * n) == Square(Pow(a, n))
  {
    hide Pow, Mul;
    PowAdd(a, n, n);
  }

  lemma PowOne(a: byte)
    ensures Pow(a, 1) == a
  {
    OneMul(a, 8);
    assert Pow(a, 1) == Mul(Pow(a, 0), a);
  }

  lemma PowSixteen(a: byte, n: nat)
    ensures Pow(a, 16 * n) == Square(Square(Square(Square(Pow(a, n)))))
  {
    hide *;
    PowDouble(a, n);
    PowDouble(a, 2 * n);
    PowDouble(a, 4 * n);
    PowDouble(a, 8 * n);
  }

  lemma Pow256(a: byte, n: nat)
    requires n == 256
    ensures Pow(a, n) == a
  {
    hide *;
    PowOne(a);
    PowSixteen(a, n / 256);
    PowSixteen(a, n / 16);
    FrobeniusOrder(a);
  }

  /** Every nonzero element has Inv as its multiplicative inverse. */
  lemma MulInv(a: byte)
    requires a != 0
    ensures Mul(a, Inv(a)) == 1
    ensures Inv(a) != 0
  {
    var n := INVERSE_EXPONENT;
    var e := Pow(a, n + 1);
    PowAdd(a, n, 1);
    PowOne(a);
    MulComm(a, Pow(a, n));
    Pow256(a, n + 2);
    PowAdd(a, n + 1, 1);
    assert Mul(e, a) == a;
    // e is idempotent: e * e = a^510 = a^256 * a^254 = a * a^254 = e
    PowAdd(a, n + 1, n + 1);
    PowAdd(a, n + 2, n);
    Idempotent(e);
    MulZero(a);
  }

  /** The field has no zero divisors. */
  lemma NoZeroDivisors(a: byte, b: byte)
    requires Mul(a, b) == 0
    ensures a == 0 || b == 0
  {
    if a != 0 {
      MulInv(a);
      MulComm(a, Inv(a));
      MulAssoc(Inv(a), a, b);
      OneMul(b, 8);
      MulZero(Inv(a));
    }
  }

  // ---------- the loops of main.go ----------

  /** The shift-and-add loop of gfMul (also gfMulGo and gf_mul_byte). */
  method GfMul(a0: byte, b0: byte) returns (acc: byte)
    ensures acc == Mul(a0, b0)
  {
    var a, b := a0, b0;
    acc := 0;
    ghost var n := 8;
    AddLaws(Mul(a, b), 0);
    while b != 0
      invariant 0 <= n <= 8 && Below(b, n)
      invariant Add(acc, MulBits(a, b, n)) == Mul(a0, b0)
      decreases b
    {
      ghost var acc0, a1, b1 := acc, a, b;
      if b & 1 != 0 {
        acc := acc ^ a;
      }
      var hi := a & 0x80;
      a := a << 1;
      if hi != 0 {
        a := a ^ 0x1D;
      }
      b := b >> 1;
      LoopStep(acc0, a1, b1, n, acc, a, b);
      n := n - 1;
    }
    MulBitsZeroRight(a, n);
    AddLaws(acc, 0);
  }

  lemma LoopStep(acc: byte, a: byte, b: byte, n: nat, acc': byte, a': byte, b': byte)
    requires b != 0 && n <= 8 && Below(b, n)
    requires acc' == if b & 1 != 0 then acc ^ a else acc
    requires a' == if a & 0x80 != 0 then (a << 1) ^ 0x1D else a << 1
    requires b' == b >> 1
    ensures n > 0 && Below(b', n - 1) && b' < b
    ensures Add(acc', MulBits(a', b', n - 1)) == Add(acc, MulBits(a, b, n))
  {
    BranchFree(acc, a, b);
    assert a' == XTimes(a) && b' == Half(b);
    assert acc' == Add(acc, Pick(Odd(b), a));
    HalfBelow(b, n);
    AddAssoc(acc, Pick(Odd(b), a), MulBits(a', b', n - 1));
  }

  lemma BranchFree(acc: byte, a: byte, b: byte)
    ensures (if b & 1 != 0 then acc ^ a else acc) == Add(acc, Pick(Odd(b), a))
    ensures (if a & 0x80 != 0 then (a << 1) ^ 0x1D else a << 1) == XTimes(a)
  {
    assert b & 1 == 0 || b & 1 == 1;
  }

  lemma HalfBelow(b: byte, n: nat)
    requires b != 0 && n <= 8 && Below(b, n)
    ensures n > 0 && Below(Half(b), n - 1) && Half(b) < b
  {}

  /** The square-and-multiply loop of gfPow; a negative exponent yields 1. */
  method GfPow(a0: byte, n0: int) returns (r: byte)
    ensures r == Pow(a0, if n0 < 0 then 0 else n0)
  {
    r := 1;
    var a, n := a0, n0;
    ghost var e: nat := 1;   // a == Pow(a0, e)
    ghost var d: nat := 0;   // r == Pow(a0, d)
    PowOne(a0);
    while n > 0
      invariant a == Pow(a0, e) && r == Pow(a0, d)
      invariant n0 >= 0 ==> n >= 0 && d + e * n == n0
      invariant n0 < 0 ==> n == n0 && d == 0
      decreases n
    {
      ghost var half := n / 2;
      assert n == 2 * half + n % 2;
      assert e * n == (e + e) * half + e * (n % 2);
      if n % 2 != 0 {
        PowAdd(a0, d, e);
        r := GfMul(r, a);
        d := d + e;
      }
      PowAdd(a0, e, e);
      a := GfMul(a, a);
      e := e + e;
      n := n / 2;
    }
  }
}
