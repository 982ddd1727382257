/** What the product of bench/gfbench is, without its shift-and-reduce step: the
    product of two polynomials divided by x^8 + x^4 + x^3 + x^2 + 1. */
module FieldProduct {
  import opened Bytes
  import opened Gf256
  import opened PolynomialDivision

  function Mask(k: nat): byte
    requires k < 8
  {
    if k == 0 then 1 else if k == 1 then 2 else if k == 2 then 4 else if k == 3 then 8
    else if k == 4 then 16 else if k == 5 then 32 else if k == 6 then 64 else 128
  }

  /** Coefficient k: bit k of the byte. */
  predicate Has(b: byte, k: nat)
    requires k < 8
  {
    b & Mask(k) != 0
  }

  /** The coefficients of a field element, highest first. */
  function Coefficients(b: byte): (p: Poly)
    ensures |p| == 8
  {
    seq(8, i requires 0 <= i < 8 => Has(b, 7 - i))
  }

  /** x^8 + x^4 + x^3 + x^2 + 1. */
  function FieldDivisor(): (p: Poly)
    ensures |p| == 9
  {
    Digits(0x11D, 9)
  }

  lemma FieldDivisorDigits()
    ensures FieldDivisor() == [true, false, false, false, true, true, true, false, true]
  {
    hide Digits;
    FirstDigit();
    HexDigit(0x1, 1, false, false, false, true);
    HexDigit(0x11, 5, true, true, false, true);
  }

  /** The product of a polynomial with one of 8 coefficients, with room for 8 + |q|. */
  function Times(p: Poly, q: Poly): (r: Poly)
    requires |p| == 8
    ensures |r| == 8 + |q|
  {
    if q == [] then All(8, false)
    else
      var n := |q| - 1;
      var shifted := Times(p, q[..n]) + [false];
      if q[n] then Plus(All(n + 1, false) + p, shifted) else shifted
  }

  // ---------- division one coefficient at a time ----------

  function Reduce(p: Poly): (r: Poly)
    requires |p| == 9
    ensures |r| == 8
  {
    if p[0] then Plus(FieldDivisor(), p)[1..] else p[1..]
  }

  /** One more coefficient at the low end is one more step of the division. */
  lemma {:induction false} OneMore(p: Poly, d: bool)
    requires |p| >= 8
    ensures Modulo(FieldDivisor(), p + [d]) == Reduce(Modulo(FieldDivisor(), p) + [d])
    decreases |p|
  {
    hide FieldDivisor;
    if |p| == 8 {
      var r := p + [d];
      assert |Plus(FieldDivisor(), r)[1..]| == 8;
    } else {
      var next := if p[0] then Plus(FieldDivisor(), p)[1..] else p[1..];
      OneMore(next, d);
      assert (p + [d])[1..] == p[1..] + [d];
      assert Plus(FieldDivisor(), p + [d])[1..] == Plus(FieldDivisor(), p)[1..] + [d];
    }
  }

  /** What is added at the low end stays in the remainder. */
  lemma {:induction false} AddLow(p: Poly, r: Poly)
    requires |p| >= 8 && |r| == 8
    ensures Modulo(FieldDivisor(), Plus(All(|p| - 8, false) + r, p)) == Plus(r, Modulo(FieldDivisor(), p))
    decreases |p|
  {
    hide FieldDivisor;
    var low := All(|p| - 8, false) + r;
    var sum := Plus(low, p);
    if |p| == 8 {
      assert low == r;
    } else {
      var next := if p[0] then Plus(FieldDivisor(), p)[1..] else p[1..];
      AddLow(next, r);
      assert sum[0] == p[0];
      assert low[1..] == All(|p| - 9, false) + r;
      if p[0] {
        assert Plus(FieldDivisor(), sum)[1..] == Plus(low[1..], next);
      } else {
        assert sum[1..] == Plus(low[1..], next);
      }
    }
  }

  // ---------- bytes ----------

  predicate OneBit(m: byte) {
    m == 1 || m == 2 || m == 4 || m == 8 || m == 16 || m == 32 || m == 64 || m == 128
  }

  lemma MaskIsBit(k: nat)
    requires k < 8
    ensures OneBit(Mask(k))
  {}

  lemma XorMeets(a: byte, b: byte, m: byte)
    requires OneBit(m)
    ensures Add(a, b) & m != 0 <==> (a & m != 0) != (b & m != 0)
  {}

  lemma SumHas(a: byte, b: byte, k: nat)
    requires k < 8
    ensures Has(Add(a, b), k) <==> Has(a, k) != Has(b, k)
  {
    hide Mask, OneBit, Add;
    MaskIsBit(k);
    XorMeets(a, b, Mask(k));
  }

  lemma SumCoefficients(a: byte, b: byte)
    ensures Coefficients(Add(a, b)) == Plus(Coefficients(a), Coefficients(b))
  {
    hide Has, Add;
    forall i: nat | i < 8
      ensures Coefficients(Add(a, b))[i] == (Coefficients(a)[i] != Coefficients(b)[i])
    {
      SumHas(a, b, 7 - i);
    }
  }

  /** A shift moves the coefficients up; where the top one falls out, four change. */
  lemma ShiftHas(a: byte, k: nat)
    requires k < 8
    ensures Has(XTimes(a), k) <==> (k > 0 && Has(a, k - 1)) != (Has(a, 7) && k in [0, 2, 3, 4])
  {}

  lemma ShiftCoefficients(a: byte)
    ensures Coefficients(XTimes(a)) == Reduce(Coefficients(a) + [false])
  {
    hide Has, XTimes, FieldDivisor;
    FieldDivisorDigits();
    forall i: nat | i < 8
      ensures Coefficients(XTimes(a))[i] == Reduce(Coefficients(a) + [false])[i]
    {
      ShiftHas(a, 7 - i);
    }
  }

  lemma HalfHas(b: byte, k: nat)
    requires k < 8
    ensures Has(Half(b), k) <==> k < 7 && Has(b, k + 1)
    ensures Has(b, 0) == Odd(b)
  {}

  lemma HalfCoefficients(b: byte)
    ensures Coefficients(Half(b)) == [false] + Coefficients(b)[..7]
    ensures Coefficients(b)[7] == Odd(b)
  {
    hide Has, Half, Odd;
    forall i: nat | i < 8
      ensures Coefficients(Half(b))[i] == ([false] + Coefficients(b)[..7])[i]
    {
      HalfHas(b, 7 - i);
    }
    HalfHas(b, 0);
  }

  /** The recursion of Mul multiplies by the lowest n coefficients of b. */
  lemma {:induction false} BitsMultiply(a: byte, b: byte, n: nat)
    requires n <= 8
    ensures
      Coefficients(MulBits(a, b, n)) ==
      Modulo(FieldDivisor(), Times(Coefficients(a), Coefficients(b)[8 - n..]))
    decreases n
  {
    hide Coefficients, FieldDivisor, XTimes, Half, Odd, Add, Reduce;
    var p := Coefficients(a);
    if n == 0 {
      ZeroCoefficients();
    } else {
      var q, h := Coefficients(b)[8 - n..], Half(b);
      var m := MulBits(a, h, n - 1);
      BitsMultiply(a, h, n - 1);
      HalfCoefficients(b);
      assert q[..n - 1] == Coefficients(h)[9 - n..] && q[n - 1] == Odd(b);
      var t := Times(p, q[..n - 1]);
      MulBitsXTimesLeft(a, h, n - 1);
      ShiftCoefficients(m);
      OneMore(t, false);
      if Odd(b) {
        AddLow(t + [false], p);
        SumCoefficients(a, XTimes(m));
      } else {
        ZeroAdd(XTimes(m));
      }
    }
  }

  lemma ZeroCoefficients()
    ensures Coefficients(0) == All(8, false)
  {}

  lemma ZeroAdd(a: byte)
    ensures Add(0, a) == a
  {}

  /** The field product of two bytes is the remainder of the product of their polynomials. */
  lemma ProductIsRemainder(a: byte, b: byte)
    ensures Coefficients(Mul(a, b)) == Modulo(FieldDivisor(), Times(Coefficients(a), Coefficients(b)))
  {
    hide Coefficients, FieldDivisor, Times;
    BitsMultiply(a, b, 8);
    assert Coefficients(b)[0..] == Coefficients(b);
  }
}
