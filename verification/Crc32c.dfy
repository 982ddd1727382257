/** CRC-32C (section 12.1 of RFC 3720), reflected, as hash/crc32 computes it
    with the Castagnoli table. */
module Crc32c {
  import opened Bytes
  import opened PolynomialDivision

  type word = bv32

  function BitStep(c: word): word {
    if c & 1 == 1 then (c >> 1) ^ 0x82F63B78 else c >> 1
  }

  /** XOR the byte into the low end of the register. */
  function Mix(c: word, b: byte): word {
    c ^ (b as word)
  }

  function EightSteps(c: word): word {
    BitStep(BitStep(BitStep(BitStep(BitStep(BitStep(BitStep(BitStep(c))))))))
  }

  /** The register after one byte. */
  function ByteStep(c: word, b: byte): word {
    EightSteps(Mix(c, b))
  }

  /** The register after all bytes. */
  function Register(c: word, data: Bytes): word
    decreases |data|
  {
    if data == [] then c else Register(ByteStep(c, data[0]), data[1..])
  }

  function Flip(c: word): word {
    c ^ 0xFFFFFFFF
  }

  function Word(c: word): (n: nat) {
    c as int
  }

  function Checksum(data: Bytes): word {
    Flip(Register(0xFFFFFFFF, data))
  }

  // ---------- the register as a polynomial ----------

  /** The register with bit k alone. */
  function Mask(k: nat): word {
    if k == 0 then 1 else Twice(Mask(k - 1))
  }

  function Twice(m: word): word {
    m << 1
  }

  function Half(c: word): word {
    c >> 1
  }

  predicate Meets(c: word, m: word) {
    c & m != 0
  }

  /** One bit, and not of the lowest eight from k = 8 on. */
  predicate Single(m: word, k: nat) {
    m & (m - 1) == 0 && m != 0 && (k >= 8 ==> m & 0xFF == 0)
  }

  /** The coefficients a register stands for: its lowest bit is that of x^31. */
  function Reflected(c: word): (p: Poly)
    ensures |p| == 32
  {
    seq(32, k requires 0 <= k < 32 => Meets(c, Mask(k)))
  }

  lemma HalfMeets(c: word, m: word)
    ensures Meets(Half(c), m) <==> Meets(c, Twice(m))
    ensures !Meets(Half(c), 0x8000_0000)
  {}

  lemma XorMeets(c: word, d: word, m: word, k: nat)
    requires Single(m, k)
    ensures Meets(c ^ d, m) <==> (Meets(c, m) != Meets(d, m))
  {}

  lemma MaskFacts(k: nat)
    requires k < 32
    ensures Single(Mask(k), k)
  {
    MaskValues();
  }

  /** The divisor's coefficients below x^32 are the constant of BitStep, reflected. */
  lemma DivisorReflected()
    ensures Divisor() == [true] + Reflected(0x82F63B78)
  {
    hide Mask, Divisor;
    DivisorDigits();
    MaskValues();
  }

  lemma MaskValues()
    ensures Mask(0) == 0x1
    ensures Mask(1) == 0x2
    ensures Mask(2) == 0x4
    ensures Mask(3) == 0x8
    ensures Mask(4) == 0x10
    ensures Mask(5) == 0x20
    ensures Mask(6) == 0x40
    ensures Mask(7) == 0x80
    ensures Mask(8) == 0x100
    ensures Mask(9) == 0x200
    ensures Mask(10) == 0x400
    ensures Mask(11) == 0x800
    ensures Mask(12) == 0x1000
    ensures Mask(13) == 0x2000
    ensures Mask(14) == 0x4000
    ensures Mask(15) == 0x8000
    ensures Mask(16) == 0x10000
    ensures Mask(17) == 0x20000
    ensures Mask(18) == 0x40000
    ensures Mask(19) == 0x80000
    ensures Mask(20) == 0x100000
    ensures Mask(21) == 0x200000
    ensures Mask(22) == 0x400000
    ensures Mask(23) == 0x800000
    ensures Mask(24) == 0x1000000
    ensures Mask(25) == 0x2000000
    ensures Mask(26) == 0x4000000
    ensures Mask(27) == 0x8000000
    ensures Mask(28) == 0x10000000
    ensures Mask(29) == 0x20000000
    ensures Mask(30) == 0x40000000
    ensures Mask(31) == 0x80000000
  {
    assert Mask(4) == 0x10;
    assert Mask(5) == 0x20;
    assert Mask(6) == 0x40;
    assert Mask(7) == 0x80;
    assert Mask(8) == 0x100;
    assert Mask(9) == 0x200;
    assert Mask(10) == 0x400;
    assert Mask(11) == 0x800;
    assert Mask(12) == 0x1000;
    assert Mask(13) == 0x2000;
    assert Mask(14) == 0x4000;
    assert Mask(15) == 0x8000;
    assert Mask(16) == 0x10000;
    assert Mask(17) == 0x20000;
    assert Mask(18) == 0x40000;
    assert Mask(19) == 0x80000;
    assert Mask(20) == 0x100000;
    assert Mask(21) == 0x200000;
    assert Mask(22) == 0x400000;
    assert Mask(23) == 0x800000;
    assert Mask(24) == 0x1000000;
    assert Mask(25) == 0x2000000;
    assert Mask(26) == 0x4000000;
    assert Mask(27) == 0x8000000;
    assert Mask(28) == 0x10000000;
    assert Mask(29) == 0x20000000;
    assert Mask(30) == 0x40000000;
    assert Mask(31) == 0x80000000;
  }

  lemma ReflectedXor(c: word, d: word)
    ensures Reflected(c ^ d) == Plus(Reflected(c), Reflected(d))
  {
    hide Meets, Mask, Single;
    forall k: nat | k < 32
      ensures Reflected(c ^ d)[k] == (Reflected(c)[k] != Reflected(d)[k])
    {
      MaskFacts(k);
      XorMeets(c, d, Mask(k), k);
    }
  }

  lemma MaskNext(k: nat)
    ensures Mask(k + 1) == Twice(Mask(k))
    ensures k == 31 ==> Mask(k) == 0x8000_0000
  {
    MaskValues();
  }

  lemma ReflectedHalf(c: word)
    ensures Reflected(Half(c)) == Reflected(c)[1..] + [false]
  {
    hide Meets, Mask, Twice, Half;
    forall k: nat | k < 32
      ensures Reflected(Half(c))[k] == (Reflected(c)[1..] + [false])[k]
    {
      MaskNext(k);
      HalfMeets(c, Mask(k));
    }
  }

  lemma LowBits(b: byte, m: word, k: nat)
    ensures Single(m, k) && k >= 8 ==> !Meets(b as word, m)
    ensures ByteBits(b) == [Meets(b as word, 0x1), Meets(b as word, 0x2), Meets(b as word, 0x4), Meets(b as word, 0x8),
                            Meets(b as word, 0x10), Meets(b as word, 0x20), Meets(b as word, 0x40), Meets(b as word, 0x80)]
  {}

  lemma LowMasks()
    ensures Mask(0) == 0x1 && Mask(1) == 0x2 && Mask(2) == 0x4 && Mask(3) == 0x8
    ensures Mask(4) == 0x10 && Mask(5) == 0x20 && Mask(6) == 0x40 && Mask(7) == 0x80
  {
    MaskValues();
  }

  lemma ReflectedByte(b: byte)
    ensures Reflected(b as word) == ByteBits(b) + All(24, false)
  {
    LowMasks();
    hide Meets, Mask, Single, ByteBits;
    forall k: nat | k < 32
      ensures Reflected(b as word)[k] == (ByteBits(b) + All(24, false))[k]
    {
      MaskFacts(k);
      LowBits(b, Mask(k), k);
    }
  }

  lemma OnesMeet(m: word, k: nat)
    requires Single(m, k)
    ensures Meets(0xFFFFFFFF, m)
  {}

  lemma ReflectedOnes()
    ensures Reflected(0xFFFFFFFF) == All(32, true)
  {
    hide Meets, Mask, Single;
    forall k: nat | k < 32
      ensures Reflected(0xFFFFFFFF)[k]
    {
      MaskFacts(k);
      OnesMeet(Mask(k), k);
    }
  }

  // ---------- the checksum is the remainder ----------

  lemma BitStepIs(c: word)
    ensures BitStep(c) == if Meets(c, 1) then Half(c) ^ 0x82F63B78 else Half(c)
  {}

  /** One step of the register is one step of the division. */
  lemma StepDivides(c: word, d: Poly)
    requires |d| >= 32
    ensures Modulo(Divisor(), Plus(Reflected(c), [false] + d)) == Modulo(Divisor(), Plus(Reflected(BitStep(c)), d))
  {
    hide Meets, Half, BitStep, Divisor, Modulo;
    BitStepIs(c);
    ReflectedHalf(c);
    DivisorReflected();
    ReflectedXor(Half(c), 0x82F63B78);
    var p := Plus(Reflected(c), [false] + d);
    LongDivision(p);
    assert p[0] == Reflected(c)[0] == Meets(c, Mask(0));
    hide Plus, Reflected;
    if p[0] {
      SubtractFront(Reflected(c), Reflected(0x82F63B78), d);
    } else {
      DropFront(Reflected(c), d);
    }
  }

  lemma LongDivision(p: Poly)
    requires |p| > 32
    ensures Modulo(Divisor(), p) == if p[0] then Modulo(Divisor(), Plus(Divisor(), p)[1..]) else Modulo(Divisor(), p[1..])
  {
    hide Divisor;
  }

  lemma EightDivide(c: word, d: Poly)
    requires |d| >= 32
    ensures Modulo(Divisor(), Plus(Reflected(c), All(8, false) + d)) == Modulo(Divisor(), Plus(Reflected(EightSteps(c)), d))
  {
    hide BitStep, Modulo, Reflected, Plus;
    var c1 := BitStep(c);
    var c2 := BitStep(c1);
    var c3 := BitStep(c2);
    var c4 := BitStep(c3);
    var c5 := BitStep(c4);
    var c6 := BitStep(c5);
    var c7 := BitStep(c6);
    forall n: nat | n < 8
      ensures All(n + 1, false) + d == [false] + (All(n, false) + d)
    {
    }
    StepDivides(c, All(7, false) + d);
    StepDivides(c1, All(6, false) + d);
    StepDivides(c2, All(5, false) + d);
    StepDivides(c3, All(4, false) + d);
    StepDivides(c4, All(3, false) + d);
    StepDivides(c5, All(2, false) + d);
    StepDivides(c6, All(1, false) + d);
    StepDivides(c7, All(0, false) + d);
    assert All(0, false) + d == d;
  }

  lemma MixIsXor(c: word, b: byte)
    ensures Mix(c, b) == c ^ (b as word)
  {}

  /** Mixing a byte into the register adds its bits to the front. */
  lemma MixAdds(c: word, b: byte, d: Poly)
    requires |d| >= 32
    ensures Plus(Reflected(c), ByteBits(b) + d) == Plus(Reflected(Mix(c, b)), All(8, false) + d)
  {
    hide ByteBits, Reflected, Mix;
    ReflectedByte(b);
    ReflectedXor(c, b as word);
    assert Mix(c, b) == c ^ (b as word) by { MixIsXor(c, b); }
    hide Plus;
    AddTwice(Reflected(c), ByteBits(b), d);
  }

  lemma {:induction false} RegisterDivides(c: word, data: Bytes)
    ensures Modulo(Divisor(), Plus(Reflected(c), Message(data) + All(32, false))) == Reflected(Register(c, data))
    decreases |data|
  {
    hide ByteBits, Reflected, Mix, EightSteps;
    if data == [] {
      assert Plus(Reflected(c), Message(data) + All(32, false)) == Reflected(c);
    } else {
      hide Plus, Modulo;
      var rest := Message(data[1..]) + All(32, false);
      assert Message(data) + All(32, false) == ByteBits(data[0]) + rest;
      MixAdds(c, data[0], rest);
      EightDivide(Mix(c, data[0]), rest);
      RegisterDivides(ByteStep(c, data[0]), data[1..]);
    }
  }

  /** The checksum is the CRC-32C of the data, by long division, with its bits
      reflected; and no other word is. */
  lemma ChecksumIsCrc(data: Bytes)
    ensures Reflected(Checksum(data)) == Crc(data)
    ensures forall c: word :: Reflected(c) == Crc(data) ==> c == Checksum(data)
  {
    hide Reflected, Register, Plus, Modulo, Message;
    ReflectedOnes();
    RegisterDivides(0xFFFFFFFF, data);
    FlipIsXor(Register(0xFFFFFFFF, data));
    ReflectedXor(0xFFFFFFFF, Register(0xFFFFFFFF, data));
    forall c: word | Reflected(c) == Crc(data)
      ensures c == Checksum(data)
    {
      ReflectedInjective(c, Checksum(data));
    }
  }

  lemma FlipIsXor(c: word)
    ensures Flip(c) == 0xFFFFFFFF ^ c
  {}

  lemma ReflectedInjective(c: word, d: word)
    requires Reflected(c) == Reflected(d)
    ensures c == d
  {
    hide Meets, Mask;
    forall k: nat | k < 32
      ensures Meets(c, Mask(k)) <==> Meets(d, Mask(k))
    {
      assert Reflected(c)[k] == Meets(c, Mask(k)) && Reflected(d)[k] == Meets(d, Mask(k));
    }
    BitsDecide(c, d);
  }

  lemma BitsDecide(c: word, d: word)
    requires forall k: nat :: k < 32 ==> (Meets(c, Mask(k)) <==> Meets(d, Mask(k)))
    ensures c == d
  {
    hide Mask, Meets;
    MaskValues();
    SameBits(c, d);
  }

  lemma SameBits(c: word, d: word)
    requires Meets(c, 0x1) == Meets(d, 0x1) && Meets(c, 0x2) == Meets(d, 0x2)
    requires Meets(c, 0x4) == Meets(d, 0x4) && Meets(c, 0x8) == Meets(d, 0x8)
    requires Meets(c, 0x10) == Meets(d, 0x10) && Meets(c, 0x20) == Meets(d, 0x20)
    requires Meets(c, 0x40) == Meets(d, 0x40) && Meets(c, 0x80) == Meets(d, 0x80)
    requires Meets(c, 0x100) == Meets(d, 0x100) && Meets(c, 0x200) == Meets(d, 0x200)
    requires Meets(c, 0x400) == Meets(d, 0x400) && Meets(c, 0x800) == Meets(d, 0x800)
    requires Meets(c, 0x1000) == Meets(d, 0x1000) && Meets(c, 0x2000) == Meets(d, 0x2000)
    requires Meets(c, 0x4000) == Meets(d, 0x4000) && Meets(c, 0x8000) == Meets(d, 0x8000)
    requires Meets(c, 0x10000) == Meets(d, 0x10000) && Meets(c, 0x20000) == Meets(d, 0x20000)
    requires Meets(c, 0x40000) == Meets(d, 0x40000) && Meets(c, 0x80000) == Meets(d, 0x80000)
    requires Meets(c, 0x100000) == Meets(d, 0x100000) && Meets(c, 0x200000) == Meets(d, 0x200000)
    requires Meets(c, 0x400000) == Meets(d, 0x400000) && Meets(c, 0x800000) == Meets(d, 0x800000)
    requires Meets(c, 0x1000000) == Meets(d, 0x1000000) && Meets(c, 0x2000000) == Meets(d, 0x2000000)
    requires Meets(c, 0x4000000) == Meets(d, 0x4000000) && Meets(c, 0x8000000) == Meets(d, 0x8000000)
    requires Meets(c, 0x10000000) == Meets(d, 0x10000000) && Meets(c, 0x20000000) == Meets(d, 0x20000000)
    requires Meets(c, 0x40000000) == Meets(d, 0x40000000) && Meets(c, 0x80000000) == Meets(d, 0x80000000)
    ensures c == d
  {}

  /** The table-driven loop of the library, one byte at a time. */
  method Compute(data: Bytes) returns (c: word)
    ensures c == Checksum(data) && Reflected(c) == Crc(data)
  {
    hide ByteStep, Reflected, Crc;
    c := 0xFFFFFFFF;
    for i := 0 to |data|
      invariant Register(c, data[i..]) == Register(0xFFFFFFFF, data)
    {
      assert data[i..][1..] == data[i + 1..];
      c := ByteStep(c, data[i]);
    }
    c := Flip(c);
    ChecksumIsCrc(data);
  }

  /** The published check value: the checksum of the digits 1 to 9 as text. */
  lemma CheckValue()
    ensures Checksum([0x31, 0x32, 0x33, 0x34, 0x35, 0x36, 0x37, 0x38, 0x39]) == 0xE306_9283
  {
    assert ByteStep(0xFFFFFFFF, 0x31) == 0x6F0A661C;
    assert ByteStep(0x6F0A661C, 0x32) == 0x8CAA3B9F;
    assert ByteStep(0x8CAA3B9F, 0x33) == 0xEF84D04D;
    assert ByteStep(0xEF84D04D, 0x34) == 0x9C50B11;
    assert ByteStep(0x9C50B11, 0x35) == 0xE72EDCCA;
    assert ByteStep(0xE72EDCCA, 0x36) == 0xBECA8E79;
    assert ByteStep(0xBECA8E79, 0x37) == 0xEDBD6815;
    assert ByteStep(0xEDBD6815, 0x38) == 0x9F787F65;
    assert ByteStep(0x9F787F65, 0x39) == 0x1CF96D7C;
    hide ByteStep;
    assert Register(0x9F787F65, [0x39]) == 0x1CF96D7C;
    assert Register(0xEDBD6815, [0x38, 0x39]) == 0x1CF96D7C;
    assert Register(0xBECA8E79, [0x37, 0x38, 0x39]) == 0x1CF96D7C;
    assert Register(0xE72EDCCA, [0x36, 0x37, 0x38, 0x39]) == 0x1CF96D7C;
    assert Register(0x9C50B11, [0x35, 0x36, 0x37, 0x38, 0x39]) == 0x1CF96D7C;
    assert Register(0xEF84D04D, [0x34, 0x35, 0x36, 0x37, 0x38, 0x39]) == 0x1CF96D7C;
    assert Register(0x8CAA3B9F, [0x33, 0x34, 0x35, 0x36, 0x37, 0x38, 0x39]) == 0x1CF96D7C;
    assert Register(0x6F0A661C, [0x32, 0x33, 0x34, 0x35, 0x36, 0x37, 0x38, 0x39]) == 0x1CF96D7C;
    assert Register(0xFFFFFFFF, [0x31, 0x32, 0x33, 0x34, 0x35, 0x36, 0x37, 0x38, 0x39]) == 0x1CF96D7C;
  }

  lemma BitStepInjective(c: word, d: word)
    requires BitStep(c) == BitStep(d)
    ensures c == d
  {}

  lemma MixInjective(c: word, d: word, b: byte, e: byte)
    ensures Mix(c, b) == Mix(d, b) ==> c == d
    ensures Mix(c, b) == Mix(c, e) ==> b == e
  {}

  lemma FlipInjective(c: word, d: word)
    requires Flip(c) == Flip(d)
    ensures c == d
  {}

  lemma WordFacts(c: word, d: word)
    ensures Word(c) < 0x1_0000_0000
    ensures Word(c) == Word(d) ==> c == d
  {
    assert (c as int) as word == c;
    assert (d as int) as word == d;
  }

  lemma EightStepsInjective(c: word, d: word)
    requires EightSteps(c) == EightSteps(d)
    ensures c == d
  {
    hide BitStep;
    var c1, d1 := BitStep(c), BitStep(d);
    var c2, d2 := BitStep(c1), BitStep(d1);
    var c3, d3 := BitStep(c2), BitStep(d2);
    var c4, d4 := BitStep(c3), BitStep(d3);
    var c5, d5 := BitStep(c4), BitStep(d4);
    var c6, d6 := BitStep(c5), BitStep(d5);
    var c7, d7 := BitStep(c6), BitStep(d6);
    BitStepInjective(c7, d7);
    BitStepInjective(c6, d6);
    BitStepInjective(c5, d5);
    BitStepInjective(c4, d4);
    BitStepInjective(c3, d3);
    BitStepInjective(c2, d2);
    BitStepInjective(c1, d1);
    BitStepInjective(c, d);
  }

  lemma ByteStepInjective(c: word, d: word, b: byte, e: byte)
    ensures ByteStep(c, b) == ByteStep(d, b) ==> c == d
    ensures ByteStep(c, b) == ByteStep(c, e) ==> b == e
  {
    hide EightSteps, Mix;
    MixInjective(c, d, b, e);
    if ByteStep(c, b) == ByteStep(d, b) { EightStepsInjective(Mix(c, b), Mix(d, b)); }
    if ByteStep(c, b) == ByteStep(c, e) { EightStepsInjective(Mix(c, b), Mix(c, e)); }
  }

  lemma {:induction false} RegisterInjective(c: word, d: word, data: Bytes)
    requires Register(c, data) == Register(d, data)
    ensures c == d
    decreases |data|
  {
    if data == [] {
    } else {
      hide ByteStep;
      RegisterInjective(ByteStep(c, data[0]), ByteStep(d, data[0]), data[1..]);
      ByteStepInjective(c, d, data[0], data[0]);
    }
  }

  lemma {:induction false} RegisterDetects(c: word, data: Bytes, i: nat, b: byte)
    requires i < |data| && b != data[i]
    ensures Register(c, data[i := b]) != Register(c, data)
    decreases |data|
  {
    hide ByteStep;
    var changed := data[i := b];
    if i == 0 {
      assert changed[1..] == data[1..];
      ByteStepInjective(c, c, data[0], b);
      if Register(ByteStep(c, b), data[1..]) == Register(ByteStep(c, data[0]), data[1..]) {
        RegisterInjective(ByteStep(c, b), ByteStep(c, data[0]), data[1..]);
      }
    } else {
      assert changed[1..] == data[1..][i - 1 := b];
      RegisterDetects(ByteStep(c, data[0]), data[1..], i - 1, b);
    }
  }

  /** Changing any single byte changes the checksum, at every length. */
  lemma ChecksumDetects(data: Bytes, i: nat, b: byte)
    requires i < |data| && b != data[i]
    ensures Checksum(data[i := b]) != Checksum(data)
  {
    hide Register, Flip;
    RegisterDetects(0xFFFFFFFF, data, i, b);
    if Checksum(data[i := b]) == Checksum(data) {
      FlipInjective(Register(0xFFFFFFFF, data[i := b]), Register(0xFFFFFFFF, data));
    }
  }
}
