/** Polynomials over the two-element field, by their coefficients from the highest
    power down; their long division; and CRC-32C as section 12.1 of RFC 3720 defines
    it: the remainder of the message, each byte lowest bit first. */
module PolynomialDivision {
  import opened Bytes

  type Poly = seq<bool>

  /** The n lowest binary digits of v, highest first. */
  function Digits(v: nat, n: nat): (p: Poly)
    ensures |p| == n
  {
    if n == 0 then [] else Digits(v / 2, n - 1) + [v % 2 == 1]
  }

  lemma NextDigit(v: nat, n: nat, d: bool)
    ensures Digits(2 * v + (if d then 1 else 0), n + 1) == Digits(v, n) + [d]
  {}

  /** Four digits at a time, as the number is written. */
  lemma HexDigit(v: nat, n: nat, a: bool, b: bool, c: bool, d: bool)
    ensures
      var w := 16 * v + (if a then 8 else 0) + (if b then 4 else 0) + (if c then 2 else 0) + (if d then 1 else 0);
      Digits(w, n + 4) == Digits(v, n) + [a, b, c, d]
  {
    hide Digits;
    var v1 := 2 * v + (if a then 1 else 0);
    var v2 := 2 * v1 + (if b then 1 else 0);
    var v3 := 2 * v2 + (if c then 1 else 0);
    NextDigit(v, n, a);
    NextDigit(v1, n + 1, b);
    NextDigit(v2, n + 2, c);
    NextDigit(v3, n + 3, d);
  }

  /** x^32 + x^28 + x^27 + x^26 + x^25 + x^23 + x^22 + x^20 + x^19 + x^18 + x^14 + x^13
      + x^11 + x^10 + x^9 + x^8 + x^6 + 1. */
  function Divisor(): (p: Poly)
    ensures |p| == 33
  {
    Digits(0x1_1EDC_6F41, 33)
  }

  lemma FirstDigit()
    ensures Digits(1, 1) == [true]
  {}

  lemma DivisorDigits()
    ensures Divisor() ==
      [true, false, false, false, true, true, true, true, false, true, true, false, true, true, true, false, false,
       false, true, true, false, true, true, true, true, false, true, false, false, false, false, false, true]
  {
    hide Digits;
    FirstDigit();
    HexDigit(0x1, 1, false, false, false, true);
    HexDigit(0x11, 5, true, true, true, false);
    HexDigit(0x11E, 9, true, true, false, true);
    HexDigit(0x11ED, 13, true, true, false, false);
    HexDigit(0x11EDC, 17, false, true, true, false);
    HexDigit(0x11EDC6, 21, true, true, true, true);
    HexDigit(0x11EDC6F, 25, false, true, false, false);
    HexDigit(0x11EDC6F4, 29, false, false, false, true);
  }

  /** The sum of two polynomials whose highest powers are aligned. */
  function Plus(a: Poly, b: Poly): (s: Poly)
    requires |a| <= |b|
    ensures |s| == |b|
  {
    seq(|b|, i requires 0 <= i < |b| => if i < |a| then a[i] != b[i] else b[i])
  }

  /** Long division: subtract the divisor where the leading coefficient is one. */
  function Modulo(d: Poly, p: Poly): (r: Poly)
    requires 1 <= |d| <= |p| + 1
    ensures |r| == |d| - 1
    decreases |p|
  {
    if |p| == |d| - 1 then p
    else if p[0] then Modulo(d, Plus(d, p)[1..])
    else Modulo(d, p[1..])
  }

  function All(n: nat, b: bool): (p: Poly)
    ensures |p| == n
  {
    seq(n, _ => b)
  }

  /** The bits of a byte, lowest first. */
  function ByteBits(b: byte): (p: Poly)
    ensures |p| == 8
  {
    [b & 1 != 0, b & 2 != 0, b & 4 != 0, b & 8 != 0, b & 16 != 0, b & 32 != 0, b & 64 != 0, b & 128 != 0]
  }

  function Message(data: Bytes): (p: Poly) {
    if data == [] then [] else ByteBits(data[0]) + Message(data[1..])
  }

  /** The message times x^32 with its first 32 coefficients complemented, divided; and
      the remainder complemented. */
  function Crc(data: Bytes): (p: Poly)
    ensures |p| == 32
  {
    Plus(All(32, true), Modulo(Divisor(), Plus(All(32, true), Message(data) + All(32, false))))
  }

  // ---------- the same sums, written differently ----------

  lemma AddTwice(r: Poly, low: Poly, d: Poly)
    requires |r| == 32 && |low| == 8 && |d| >= 32
    ensures Plus(r, low + d) == Plus(Plus(r, low + All(24, false)), All(8, false) + d)
  {
    var a, b := Plus(r, low + d), Plus(Plus(r, low + All(24, false)), All(8, false) + d);
    forall i: nat | i < |a|
      ensures a[i] == b[i]
    {
      if i < 8 {
        assert a[i] == (r[i] != low[i]);
      } else if i < 32 {
        assert a[i] == (r[i] != d[i - 8]) && Plus(r, low + All(24, false))[i] == r[i];
      }
    }
  }

  /** Subtracting the divisor and dropping the leading coefficient, with the first 32
      coefficients kept apart. */
  lemma SubtractFront(r: Poly, tail: Poly, d: Poly)
    requires |r| == 32 && |tail| == 32 && |d| >= 32
    ensures Plus([true] + tail, Plus(r, [false] + d))[1..] == Plus(Plus(r[1..] + [false], tail), d)
  {
    var a, b := Plus([true] + tail, Plus(r, [false] + d))[1..], Plus(Plus(r[1..] + [false], tail), d);
    forall i: nat | i < |d|
      ensures a[i] == b[i]
    {
      if i < 31 {
        assert a[i] == (tail[i] != (r[i + 1] != d[i]));
      } else if i == 31 {
        assert a[i] == (tail[i] != d[i]);
      }
    }
  }

  lemma DropFront(r: Poly, d: Poly)
    requires |r| == 32 && |d| >= 32
    ensures Plus(r, [false] + d)[1..] == Plus(r[1..] + [false], d)
  {}
}
