/** The multiply-add kernels of bench/gfbench and the encode loop built on them. */
module GfKernels {
  import opened Bytes
  import opened Gf256
  import opened CauchyCode

  /** dst[i] ^= src[i] * coef over the length of src. */
  function Accumulate(dst: seq<byte>, src: seq<byte>, coef: byte): (r: seq<byte>)
    requires |src| <= |dst|
    ensures |r| == |dst|
  {
    seq(|dst|, i requires 0 <= i < |dst| =>
      if i < |src| then Add(dst[i], Mul(src[i], coef)) else dst[i])
  }

  /** A split table: products of the low nibbles, then of the high nibbles. */
  ghost predicate IsTable(tab: seq<byte>, coef: byte) {
    && |tab| == 32
    && (forall n :: 0 <= n < 16 ==> tab[n] == Mul(ByteOf(n), coef))
    && (forall n :: 0 <= n < 16 ==> tab[16 + n] == Mul(ByteOf(n), Mul(16, coef)))
  }

  // ---------- two table look-ups make a product ----------

  function Low(s: byte): byte { s & 0x0F }

  function High(s: byte): byte { s >> 4 }

  function Raised(h: byte): byte { h << 4 }

  lemma NibbleSplit(s: byte)
    ensures s == Add(Low(s), Raised(High(s)))
    ensures Low(s) < 16 && High(s) < 16
  {}

  lemma NibbleIndex(s: byte)
    requires s < 16
    ensures IntOf(s) < 16
  {}

  lemma RaisedIsXTimes(h: byte)
    requires h < 16
    ensures Raised(h) == XTimes(XTimes(XTimes(XTimes(h))))
  {}

  lemma SixteenIsXTimes()
    ensures XTimes(XTimes(XTimes(XTimes(1)))) == 16
  {}

  lemma RaisedProduct(h: byte, c: byte)
    requires h < 16
    ensures Mul(Raised(h), c) == Mul(h, Mul(16, c))
  {
    hide Mul, Raised, XTimes;
    RaisedIsXTimes(h);
    SixteenIsXTimes();
    MulOne(h);
    MulXTimesRight(h, 1);
    MulXTimesRight(h, XTimes(1));
    MulXTimesRight(h, XTimes(XTimes(1)));
    MulXTimesRight(h, XTimes(XTimes(XTimes(1))));
    MulAssoc(h, 16, c);
  }

  lemma LookUp(s: byte, tab: seq<byte>, coef: byte)
    requires IsTable(tab, coef)
    ensures IntOf(Low(s)) < 16 && IntOf(High(s)) < 16
    ensures Add(tab[IntOf(Low(s))], tab[16 + IntOf(High(s))]) == Mul(s, coef)
  {
    hide Mul, Add, Low, High, Raised, ByteOf, IntOf;
    NibbleSplit(s);
    NibbleIndex(Low(s));
    NibbleIndex(High(s));
    IntOfByte(Low(s));
    IntOfByte(High(s));
    MulAddLeft(Low(s), Raised(High(s)), coef);
    RaisedProduct(High(s), coef);
  }

  // ---------- the kernels ----------

  /** buildNibbleTable, and gf256_build_nibble in C. */
  method BuildNibbleTable(coef: byte) returns (tab: array<byte>)
    ensures fresh(tab) && IsTable(tab[..], coef)
  {
    hide Mul, ByteOf;
    tab := new byte[32];
    for lo := 0 to 16
      invariant forall n :: 0 <= n < lo ==> tab[n] == Mul(ByteOf(n), coef)
    {
      tab[lo] := GfMul(ByteOf(lo), coef);
    }
    var hiMul := GfMul(16, coef);
    for hi := 0 to 16
      invariant forall n :: 0 <= n < 16 ==> tab[n] == Mul(ByteOf(n), coef)
      invariant forall n :: 0 <= n < hi ==> tab[16 + n] == Mul(ByteOf(n), hiMul)
    {
      tab[16 + hi] := GfMul(ByteOf(hi), hiMul);
    }
  }

  /** mulAddC without vector instructions: one product per byte. */
  method MulAddPlain(dst: array<byte>, src: seq<byte>, coef: byte)
    requires |src| <= dst.Length
    modifies dst
    ensures dst[..] == Accumulate(old(dst[..]), src, coef)
  {
    hide Mul, Add;
    for i := 0 to |src|
      invariant forall j :: 0 <= j < i ==> dst[j] == Add(old(dst[j]), Mul(src[j], coef))
      invariant forall j :: i <= j < dst.Length ==> dst[j] == old(dst[j])
    {
      var p := GfMul(src[i], coef);
      dst[i] := Add(dst[i], p);
    }
  }

  /** gf256_muladd: sixteen lanes at a time through the table, then a scalar tail. */
  method MulAddBlocks(dst: array<byte>, src: seq<byte>, tab: seq<byte>, coef: byte)
    requires |src| <= dst.Length && IsTable(tab, coef)
    modifies dst
    ensures dst[..] == Accumulate(old(dst[..]), src, coef)
  {
    hide Mul, Add, Low, High, IntOf;
    var n := |src|;
    var i := 0;
    while i + 16 <= n
      invariant 0 <= i <= n
      invariant forall j :: 0 <= j < i ==> dst[j] == Add(old(dst[j]), Mul(src[j], coef))
      invariant forall j :: i <= j < dst.Length ==> dst[j] == old(dst[j])
    {
      forall j | i <= j < i + 16 {
        LookUp(src[j], tab, coef);
      }
      forall j | i <= j < i + 16 {
        dst[j] := Add(dst[j], Add(tab[IntOf(Low(src[j]))], tab[16 + IntOf(High(src[j]))]));
      }
      i := i + 16;
    }
    while i < n
      invariant 0 <= i <= n
      invariant forall j :: 0 <= j < i ==> dst[j] == Add(old(dst[j]), Mul(src[j], coef))
      invariant forall j :: i <= j < dst.Length ==> dst[j] == old(dst[j])
    {
      var p := GfMul(src[i], coef);
      dst[i] := Add(dst[i], p);
      i := i + 1;
    }
  }

  /** gf256_xor: sixty-four bytes at a time, then a tail; it adds with coefficient 1. */
  method XorBlocks(dst: array<byte>, src: seq<byte>)
    requires |src| <= dst.Length
    modifies dst
    ensures dst[..] == Accumulate(old(dst[..]), src, 1)
  {
    hide Mul, Add;
    var n := |src|;
    var i := 0;
    while i + 64 <= n
      invariant 0 <= i <= n
      invariant forall j :: 0 <= j < i ==> dst[j] == Add(old(dst[j]), src[j])
      invariant forall j :: i <= j < dst.Length ==> dst[j] == old(dst[j])
    {
      forall j | i <= j < i + 64 {
        dst[j] := Add(dst[j], src[j]);
      }
      i := i + 64;
    }
    while i < n
      invariant 0 <= i <= n
      invariant forall j :: 0 <= j < i ==> dst[j] == Add(old(dst[j]), src[j])
      invariant forall j :: i <= j < dst.Length ==> dst[j] == old(dst[j])
    {
      dst[i] := Add(dst[i], src[i]);
      i := i + 1;
    }
    forall j | 0 <= j < n { MulOne(src[j]); }
  }

  /** cauchyMatrix(k, m), row by row. */
  method CauchyMatrix(k: nat, m: nat) returns (rows: seq<seq<byte>>)
    ensures |rows| == m
    ensures forall p :: 0 <= p < m ==> |rows[p]| == k
    ensures forall p, i :: 0 <= p < m && 0 <= i < k ==> rows[p][i] == Entry(k, p, i)
  {
    hide Pow, Add, ByteOf;
    rows := [];
    for p := 0 to m
      invariant |rows| == p
      invariant forall q :: 0 <= q < p ==> |rows[q]| == k
      invariant forall q, i :: 0 <= q < p && 0 <= i < k ==> rows[q][i] == Entry(k, q, i)
    {
      var row := [];
      var xp := ByteOf(k + p);
      for i := 0 to k
        invariant |row| == i
        invariant forall j :: 0 <= j < i ==> row[j] == Entry(k, p, j)
      {
        var v := GfPow(Add(xp, ByteOf(i)), INVERSE_EXPONENT);
        row := row + [v];
      }
      rows := rows + [row];
    }
  }

  /** Row p accumulated over the first n shards. */
  ghost predicate RowIs(row: seq<byte>, data: seq<seq<byte>>, p: nat, n: nat)
    requires n <= |data| && forall i :: 0 <= i < |data| ==> |data[i]| == |row|
  {
    forall t :: 0 <= t < |row| ==> row[t] == Dot(|data|, p, Column(data, t), n)
  }

  lemma RowStep(row: seq<byte>, row': seq<byte>, data: seq<seq<byte>>, p: nat, n: nat)
    requires n < |data| && forall i :: 0 <= i < |data| ==> |data[i]| == |row|
    requires RowIs(row, data, p, n)
    requires row' == Accumulate(row, data[n], Entry(|data|, p, n))
    ensures RowIs(row', data, p, n + 1)
  {
    hide Mul, Add, Entry;
    forall t | 0 <= t < |row'|
      ensures row'[t] == Dot(|data|, p, Column(data, t), n + 1)
    {
      var c := Column(data, t);
      assert c[n] == data[n][t];
    }
  }

  /** One parity shard of benchCGO: the row of coefficients applied shard by
      shard, through a cache of nibble tables keyed by the coefficient's value. */
  method EncodeRow(row: array<byte>, coefs: seq<byte>, data: seq<seq<byte>>, ghost p: nat, cache0: map<nat, seq<byte>>)
    returns (cache: map<nat, seq<byte>>)
    requires |coefs| == |data|
    requires forall i :: 0 <= i < |data| ==> |data[i]| == row.Length && coefs[i] == Entry(|data|, p, i)
    requires forall t :: 0 <= t < row.Length ==> row[t] == 0
    requires forall n :: n in cache0 ==> IsTable(cache0[n], ByteOf(n))
    modifies row
    ensures RowIs(row[..], data, p, |data|)
    ensures forall n :: n in cache ==> IsTable(cache[n], ByteOf(n))
  {
    hide Mul, Add, Entry, Accumulate, IsTable, ByteOf, IntOf;
    cache := cache0;
    for i := 0 to |data|
      invariant forall n :: n in cache ==> IsTable(cache[n], ByteOf(n))
      invariant RowIs(row[..], data, p, i)
    {
      var c := coefs[i];
      ghost var before := row[..];
      if c == 1 {
        XorBlocks(row, data[i]);
      } else {
        var key := IntOf(c);
        IntOfByte(c);
        if key !in cache {
          var t := BuildNibbleTable(c);
          cache := cache[key := t[..]];
        }
        MulAddBlocks(row, data[i], cache[key], c);
      }
      RowStep(before, row[..], data, p, i);
    }
  }

  /** The encode loop of benchCGO: parity shard p holds in every column the
      codeword symbol k + p. */
  method Encode(data: seq<seq<byte>>, m: nat, size: nat) returns (parity: seq<array<byte>>)
    requires forall i :: 0 <= i < |data| ==> |data[i]| == size
    ensures |parity| == m
    ensures forall p :: 0 <= p < m ==> parity[p].Length == size
    ensures forall p, t :: 0 <= p < m && 0 <= t < size ==>
      parity[p][t] == Symbol(Column(data, t), |data| + p)
  {
    hide Entry, IsTable, Dot, ByteOf;
    var k := |data|;
    var mat := CauchyMatrix(k, m);
    var cache: map<nat, seq<byte>> := map[];
    parity := [];
    for p := 0 to m
      invariant |parity| == p
      invariant forall n :: n in cache ==> IsTable(cache[n], ByteOf(n))
      invariant forall q :: 0 <= q < p ==> parity[q].Length == size && RowIs(parity[q][..], data, q, k)
    {
      var row := new byte[size](_ => 0);
      cache := EncodeRow(row, mat[p], data, p, cache);
      parity := parity + [row];
    }
    forall p, t | 0 <= p < m && 0 <= t < size
      ensures parity[p][t] == Symbol(Column(data, t), k + p)
    {
      assert parity[p][..][t] == Dot(k, p, Column(data, t), k);
    }
  }
}
