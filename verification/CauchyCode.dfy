/** The Cauchy erasure code of bench/gfbench/main.go, column by column: parity
    row p holds the inverses of (k + p) + i, and any k of the k + m symbols of
    a codeword determine the data. */
module CauchyCode {
  import opened Bytes
  import opened Gf256

  // ---------- sums of simple fractions ----------

  function Term(e: byte, y: byte, x: byte): byte {
    Mul(e, Inv(Add(x, y)))
  }

  /** The value at x of the sum of the fractions e[i] / (x + y[i]). */
  function Sum(e: seq<byte>, y: seq<byte>, x: byte): byte
    requires |e| == |y|
  {
    var n := |e|;
    if n == 0 then 0 else Add(Sum(e[..n - 1], y[..n - 1], x), Term(e[n - 1], y[n - 1], x))
  }

  function Total(e: seq<byte>): byte {
    var n := |e|;
    if n == 0 then 0 else Add(Total(e[..n - 1]), e[n - 1])
  }

  /** Coefficients e[i] * (y[i] + z). */
  function Shifted(e: seq<byte>, y: seq<byte>, z: byte): seq<byte>
    requires |e| == |y|
  {
    seq(|e|, i requires 0 <= i < |e| => Mul(e[i], Add(y[i], z)))
  }

  /** Coefficients e[i] / (z + y[i]). */
  function Divided(e: seq<byte>, y: seq<byte>, z: byte): seq<byte>
    requires |e| == |y|
  {
    seq(|e|, i requires 0 <= i < |e| => Mul(e[i], Inv(Add(z, y[i]))))
  }

  predicate Distinct(s: seq<byte>) {
    forall i, j :: 0 <= i < j < |s| ==> s[i] != s[j]
  }

  predicate Disjoint(s: seq<byte>, t: seq<byte>) {
    forall i, j :: 0 <= i < |s| && 0 <= j < |t| ==> s[i] != t[j]
  }

  predicate NonZero(s: seq<byte>) {
    forall i :: 0 <= i < |s| ==> s[i] != 0
  }

  /** (x + z) * e / (x + y) == e + e * (y + z) / (x + y) */
  lemma TermShift(e: byte, y: byte, z: byte, x: byte)
    requires x != y
    ensures Mul(Add(x, z), Term(e, y, x)) == Add(e, Term(Mul(e, Add(y, z)), y, x))
  {
    hide Mul, Inv, Add;
    var u, v := Add(x, y), Add(y, z);
    AddLaws(x, y);
    MulInv(u);
    var w := Inv(u);
    calc {
      Mul(Add(x, z), Mul(e, w));
      { AddThrough(x, y, z); }
      Mul(Add(u, v), Mul(e, w));
      { MulAddLeft(u, v, Mul(e, w)); }
      Add(Mul(u, Mul(e, w)), Mul(v, Mul(e, w)));
      { Cancel(u, w, e); MulAssoc(v, e, w); MulComm(v, e); }
      Add(e, Mul(Mul(e, v), w));
    }
  }

  /** f / (x + y) + f / (z + y) == (x + z) * (f / (z + y)) / (x + y) */
  lemma TermDifference(f: byte, y: byte, z: byte, x: byte)
    requires x != y && z != y
    ensures Add(Term(f, y, x), Term(f, y, z)) == Mul(Add(x, z), Term(Mul(f, Inv(Add(z, y))), y, x))
  {
    hide Mul, Inv, Add;
    var u, v := Add(x, y), Add(z, y);
    AddLaws(x, y);
    AddLaws(z, y);
    MulInv(u);
    MulInv(v);
    var p, q := Inv(u), Inv(v);
    calc {
      Mul(Add(x, z), Mul(Mul(f, q), p));
      { AddLaws(z, y); AddThrough(x, y, z); }
      Mul(Add(u, v), Mul(Mul(f, q), p));
      { MulAddLeft(u, v, Mul(Mul(f, q), p)); }
      Add(Mul(u, Mul(Mul(f, q), p)), Mul(v, Mul(Mul(f, q), p)));
      { Cancel(u, p, Mul(f, q)); }
      Add(Mul(f, q), Mul(v, Mul(Mul(f, q), p)));
      { MulAssoc(f, q, p); MulComm(q, p); MulAssoc(f, p, q); Cancel(v, q, Mul(f, p)); }
      Add(Mul(f, q), Mul(f, p));
      { AddLaws(Mul(f, q), Mul(f, p)); }
      Add(Mul(f, p), Mul(f, q));
    }
  }

  lemma Cancel(u: byte, w: byte, a: byte)
    requires Mul(u, w) == 1
    ensures Mul(u, Mul(a, w)) == a
  {
    hide Mul;
    MulComm(a, w);
    MulAssoc(u, w, a);
    OneMul(a, 8);
  }

  lemma {:induction false} SumShift(e: seq<byte>, y: seq<byte>, z: byte, x: byte)
    requires |e| == |y| && x !in y
    ensures Mul(Add(x, z), Sum(e, y, x)) == Add(Total(e), Sum(Shifted(e, y, z), y, x))
  {
    hide ByteOf, Mul, Inv, Add, Term;
    var n := |e|;
    if n == 0 {
      MulZero(Add(x, z));
      AddLaws(0, 0);
    } else {
      var d, w := e[..n - 1], y[..n - 1];
      SumShift(d, w, z, x);
      TermShift(e[n - 1], y[n - 1], z, x);
      assert Shifted(e, y, z)[..n - 1] == Shifted(d, w, z);
      MulAddRight(Add(x, z), Sum(d, w, x), Term(e[n - 1], y[n - 1], x));
      AddSwap(Total(d), Sum(Shifted(d, w, z), w, x),
              e[n - 1], Term(Mul(e[n - 1], Add(y[n - 1], z)), y[n - 1], x));
    }
  }

  lemma {:induction false} SumDifference(f: seq<byte>, y: seq<byte>, z: byte, x: byte)
    requires |f| == |y| && x !in y && z !in y
    ensures Add(Sum(f, y, x), Sum(f, y, z)) == Mul(Add(x, z), Sum(Divided(f, y, z), y, x))
  {
    hide Mul, Inv, Add, Term;
    var n := |f|;
    if n == 0 {
      MulZero(Add(x, z));
      AddLaws(0, 0);
    } else {
      var g, w := f[..n - 1], y[..n - 1];
      SumDifference(g, w, z, x);
      TermDifference(f[n - 1], y[n - 1], z, x);
      assert Divided(f, y, z)[..n - 1] == Divided(g, w, z);
      AddSwap(Sum(g, w, x), Term(f[n - 1], y[n - 1], x), Sum(g, w, z), Term(f[n - 1], y[n - 1], z));
      MulAddRight(Add(x, z), Sum(Divided(g, w, z), w, x), Term(Mul(f[n - 1], Inv(Add(z, y[n - 1]))), y[n - 1], x));
    }
  }

  /** The coefficients left after eliminating the last node with the root z. */
  function Eliminated(e: seq<byte>, y: seq<byte>, z: byte): seq<byte>
    requires |e| == |y| > 0
  {
    var n := |e| - 1;
    Divided(Shifted(e[..n], y[..n], y[n]), y[..n], z)
  }

  /** Two roots z and x of a sum: x is a root of the sum with one node less. */
  lemma EliminateRoot(e: seq<byte>, y: seq<byte>, z: byte, x: byte)
    requires |e| == |y| > 0
    requires x !in y && z !in y && x != z
    requires Sum(e, y, x) == 0 == Sum(e, y, z)
    ensures Sum(Eliminated(e, y, z), y[..|y| - 1], x) == 0
  {
    hide Mul, Inv, Add;
    var n := |e| - 1;
    var s := Shifted(e, y, y[n]);
    var t := s[..n];
    assert t == Shifted(e[..n], y[..n], y[n]);
    AddLaws(y[n], y[n]);
    MulZero(e[n]);
    assert s[n] == 0;
    forall v | v !in y && Sum(e, y, v) == 0
      ensures Sum(t, y[..n], v) == Total(e)
    {
      SumShift(e, y, y[n], v);
      MulZero(Add(v, y[n]));
      AddLaws(Total(e), Sum(s, y, v));
      MulZero(Inv(Add(v, y[n])));
      AddLaws(Sum(t, y[..n], v), 0);
    }
    SumDifference(t, y[..n], z, x);
    AddLaws(Total(e), Total(e));
    NoZeroDivisors(Add(x, z), Sum(Eliminated(e, y, z), y[..n], x));
    AddLaws(x, z);
  }

  lemma EliminatedNonZero(e: seq<byte>, y: seq<byte>, z: byte)
    requires |e| == |y| > 0 && NonZero(e) && Distinct(y) && z !in y
    ensures NonZero(Eliminated(e, y, z))
  {
    hide Mul, Inv, Add;
    var n := |e| - 1;
    forall i | 0 <= i < n
      ensures Eliminated(e, y, z)[i] != 0
    {
      var v := Add(y[i], y[n]);
      var w := Add(z, y[i]);
      AddLaws(y[i], y[n]);
      AddLaws(z, y[i]);
      MulInv(w);
      if Mul(e[i], v) == 0 { NoZeroDivisors(e[i], v); }
      if Mul(Mul(e[i], v), Inv(w)) == 0 { NoZeroDivisors(Mul(e[i], v), Inv(w)); }
    }
  }

  /** A sum of n fractions with distinct nodes and nonzero coefficients has
      fewer than n roots outside its nodes. */
  lemma {:induction false} FewRoots(e: seq<byte>, y: seq<byte>, xs: seq<byte>)
    requires |e| == |y| > 0
    requires NonZero(e) && Distinct(y) && Distinct(xs) && Disjoint(xs, y)
    requires forall j :: 0 <= j < |xs| ==> Sum(e, y, xs[j]) == 0
    ensures |xs| < |e|
    decreases |e|
  {
    hide Mul, Inv, Add;
    if |xs| > 0 {
      var z := xs[0];
      var n := |e| - 1;
      if n == 0 {
        assert Sum(e, y, z) == Add(Sum([], [], z), Term(e[0], y[0], z)) by {
          assert e[..0] == [] && y[..0] == [];
        }
        AddLaws(Term(e[0], y[0], z), 0);
        AddLaws(z, y[0]);
        MulInv(Add(z, y[0]));
        NoZeroDivisors(e[0], Inv(Add(z, y[0])));
      } else {
        var f := Eliminated(e, y, z);
        EliminatedNonZero(e, y, z);
        forall j | 0 <= j < |xs[1..]|
          ensures Sum(f, y[..n], xs[1..][j]) == 0
        {
          EliminateRoot(e, y, z, xs[1..][j]);
        }
        FewRoots(f, y[..n], xs[1..]);
      }
    }
  }

  // ---------- the code ----------

  /** Entry (p, i) of cauchyMatrix(k, m). */
  function Entry(k: nat, p: nat, i: nat): byte {
    Inv(Add(ByteOf(k + p), ByteOf(i)))
  }

  /** Row p applied to the first n symbols of a data column, in loop order. */
  function Dot(k: nat, p: nat, d: seq<byte>, n: nat): byte
    requires n <= |d|
  {
    if n == 0 then 0 else Add(Dot(k, p, d, n - 1), Mul(d[n - 1], Entry(k, p, n - 1)))
  }

  /** Symbol j of the codeword of a data column: data first, then parity. */
  function Symbol(d: seq<byte>, j: nat): byte {
    if j < |d| then d[j] else Dot(|d|, j - |d|, d, |d|)
  }

  /** Column t of k shards of equal length. */
  function Column(data: seq<seq<byte>>, t: nat): seq<byte>
    requires forall i :: 0 <= i < |data| ==> t < |data[i]|
  {
    seq(|data|, i requires 0 <= i < |data| => data[i][t])
  }

  /** How many of the first n flags are set. */
  function Count(present: seq<bool>, n: nat): nat
    requires n <= |present|
  {
    if n == 0 then 0 else Count(present, n - 1) + if present[n - 1] then 1 else 0
  }

  function Difference(c: seq<byte>, d: seq<byte>): seq<byte>
    requires |c| == |d|
  {
    seq(|c|, i requires 0 <= i < |c| => Add(c[i], d[i]))
  }

  lemma {:induction false} DotDifference(k: nat, p: nat, c: seq<byte>, d: seq<byte>, n: nat)
    requires n <= |c| == |d|
    ensures Dot(k, p, Difference(c, d), n) == Add(Dot(k, p, c, n), Dot(k, p, d, n))
    decreases n
  {
    hide ByteOf, Mul, Inv, Add;
    if n == 0 {
      AddLaws(0, 0);
    } else {
      var w := Entry(k, p, n - 1);
      DotDifference(k, p, c, d, n - 1);
      MulAddLeft(c[n - 1], d[n - 1], w);
      AddSwap(Dot(k, p, c, n - 1), Dot(k, p, d, n - 1), Mul(c[n - 1], w), Mul(d[n - 1], w));
    }
  }

  /** Entry (p, i) times the sum of the points k + p and i is one. */
  lemma EntryInverts(k: nat, p: nat, i: nat)
    requires i < k && k + p < 256
    ensures Mul(Add(ByteOf(k + p), ByteOf(i)), Entry(k, p, i)) == 1
  {
    hide Mul, Inv, ByteOf, Add;
    ByteOfInt(k + p);
    ByteOfInt(i);
    AddLaws(ByteOf(k + p), ByteOf(i));
    MulInv(Add(ByteOf(k + p), ByteOf(i)));
  }

  /** Of a column with a single symbol, parity p is that symbol times its entry in row p. */
  lemma {:induction false} SingleSymbol(k: nat, p: nat, d: seq<byte>, i: nat, n: nat)
    requires i < |d| && n <= |d| && forall j :: 0 <= j < |d| && j != i ==> d[j] == 0
    ensures Dot(k, p, d, n) == if i < n then Mul(d[i], Entry(k, p, i)) else 0
    decreases n
  {
    hide Mul, Add, Entry;
    if n == 0 {
    } else {
      SingleSymbol(k, p, d, i, n - 1);
      MulZero(Entry(k, p, n - 1));
      AddLaws(Dot(k, p, d, n - 1), 0);
      AddLaws(Mul(d[n - 1], Entry(k, p, n - 1)), 0);
    }
  }

  /** What the code is: parity p of a single symbol, and of a sum the sum of the parities. */
  lemma CodeIs(d: seq<byte>, c: seq<byte>, p: nat, i: nat)
    requires |c| == |d| && i < |d| && |d| + p < 256
    ensures (forall j :: 0 <= j < |d| && j != i ==> d[j] == 0) ==>
      Mul(Symbol(d, |d| + p), Add(ByteOf(|d| + p), ByteOf(i))) == d[i]
    ensures Symbol(Difference(c, d), |d| + p) == Add(Symbol(c, |d| + p), Symbol(d, |d| + p))
  {
    hide Mul, Add, Entry, Dot, ByteOf;
    var x, e := Add(ByteOf(|d| + p), ByteOf(i)), Entry(|d|, p, i);
    if forall j :: 0 <= j < |d| && j != i ==> d[j] == 0 {
      SingleSymbol(|d|, p, d, i, |d|);
      EntryInverts(|d|, p, i);
      MulComm(e, x);
      MulAssoc(d[i], e, x);
      MulOne(d[i]);
    }
    DotDifference(|d|, p, c, d, |d|);
  }

  /** The nonzero values among the first n entries of d, and where they are. */
  function Values(d: seq<byte>, n: nat): seq<byte>
    requires n <= |d|
  {
    if n == 0 then [] else Values(d, n - 1) + if d[n - 1] != 0 then [d[n - 1]] else []
  }

  function Nodes(d: seq<byte>, n: nat): (y: seq<byte>)
    requires n <= |d|
    ensures |y| == |Values(d, n)| <= n
  {
    if n == 0 then [] else Nodes(d, n - 1) + if d[n - 1] != 0 then [ByteOf(n - 1)] else []
  }

  lemma {:induction false} SupportFacts(d: seq<byte>, n: nat)
    requires n <= |d| <= 256
    ensures NonZero(Values(d, n))
    ensures forall i :: 0 <= i < |Nodes(d, n)| ==> IntOf(Nodes(d, n)[i]) < n
    ensures Distinct(Nodes(d, n))
    decreases n
  {
    hide ByteOf, IntOf;
    if n == 0 {
    } else {
      SupportFacts(d, n - 1);
      var y, v := Nodes(d, n - 1), ByteOf(n - 1);
      ByteOfInt(n - 1);
      assert forall i :: 0 <= i < |y| ==> IntOf(y[i]) != IntOf(v);
    }
  }

  lemma SumSnoc(e: seq<byte>, y: seq<byte>, v: byte, w: byte, x: byte)
    requires |e| == |y|
    ensures Sum(e + [v], y + [w], x) == Add(Sum(e, y, x), Mul(v, Inv(Add(x, w))))
  {
    hide ByteOf, Mul, Inv, Add;
    assert (e + [v])[..|e|] == e && (y + [w])[..|y|] == y;
  }

  /** Only the nonzero entries contribute to a parity symbol. */
  lemma {:induction false} DotIsSum(k: nat, p: nat, d: seq<byte>, n: nat)
    requires n <= |d|
    ensures Dot(k, p, d, n) == Sum(Values(d, n), Nodes(d, n), ByteOf(k + p))
    decreases n
  {
    hide ByteOf, IntOf, Mul, Inv, Add, Term;
    if n == 0 {
    } else {
      hide Sum;
      DotIsSum(k, p, d, n - 1);
      if d[n - 1] != 0 {
        SumSnoc(Values(d, n - 1), Nodes(d, n - 1), d[n - 1], ByteOf(n - 1), ByteOf(k + p));
      } else {
        assert Values(d, n) == Values(d, n - 1) && Nodes(d, n) == Nodes(d, n - 1);
        MulZero(Entry(k, p, n - 1));
        AddLaws(Dot(k, p, d, n - 1), 0);
      }
    }
  }

  /** The evaluation points of the parity symbols with a set flag, up to symbol n. */
  function Points(present: seq<bool>, k: nat, n: nat): seq<byte>
    requires k <= n <= |present|
    decreases n
  {
    if n == k then [] else Points(present, k, n - 1) + if present[n - 1] then [ByteOf(n - 1)] else []
  }

  lemma {:induction false} PointFacts(present: seq<bool>, k: nat, n: nat)
    requires k <= n <= |present| <= 256
    ensures forall j :: 0 <= j < |Points(present, k, n)| ==>
      var x := IntOf(Points(present, k, n)[j]);
      k <= x < n && present[x]
    ensures Distinct(Points(present, k, n))
    ensures Count(present, n) == Count(present, k) + |Points(present, k, n)|
    decreases n
  {
    hide ByteOf, IntOf;
    if n == k {
    } else {
      PointFacts(present, k, n - 1);
      ByteOfInt(n - 1);
    }
  }

  lemma {:induction false} SupportMissesPresent(present: seq<bool>, d: seq<byte>, n: nat)
    requires n <= |d| && n <= |present|
    requires forall i :: 0 <= i < n && present[i] ==> d[i] == 0
    ensures Count(present, n) + |Values(d, n)| <= n
    decreases n
  {
    if n == 0 {
    } else {
      SupportMissesPresent(present, d, n - 1);
    }
  }

  lemma {:induction false} EmptySupport(d: seq<byte>, n: nat)
    requires n <= |d| && |Values(d, n)| == 0
    ensures forall i :: 0 <= i < n ==> d[i] == 0
    decreases n
  {
    if n == 0 {
    } else {
      EmptySupport(d, n - 1);
    }
  }

  /** A data column whose codeword vanishes on k or more symbols is zero. */
  lemma ZeroOnEnough(d: seq<byte>, m: nat, present: seq<bool>)
    requires |d| + m == |present| <= 256
    requires Count(present, |present|) >= |d|
    requires forall j :: 0 <= j < |present| && present[j] ==> Symbol(d, j) == 0
    ensures forall i :: 0 <= i < |d| ==> d[i] == 0
  {
    hide Sum, Dot, Values, Nodes, Points, Add, Mul, Inv, ByteOf, IntOf;
    var k := |d|;
    var e, y := Values(d, k), Nodes(d, k);
    var xs := Points(present, k, |present|);
    SupportFacts(d, k);
    PointFacts(present, k, |present|);
    forall i | 0 <= i < k && present[i]
      ensures d[i] == 0
    {
      assert Symbol(d, i) == d[i];
    }
    SupportMissesPresent(present, d, k);
    if |e| > 0 {
      forall j | 0 <= j < |xs|
        ensures Sum(e, y, xs[j]) == 0
      {
        var x := IntOf(xs[j]);
        assert Symbol(d, x) == 0;
        IntOfByte(xs[j]);
        DotIsSum(k, x - k, d, k);
      }
      FewRoots(e, y, xs);
    }
    EmptySupport(d, k);
  }

  /** The code is maximum distance separable: two data columns whose codewords
      agree on k or more of the k + m symbols are equal. */
  lemma Separable(c: seq<byte>, d: seq<byte>, m: nat, present: seq<bool>)
    requires |c| == |d| && |d| + m == |present| <= 256
    requires Count(present, |present|) >= |d|
    requires forall j :: 0 <= j < |present| && present[j] ==> Symbol(c, j) == Symbol(d, j)
    ensures c == d
  {
    hide ByteOf, IntOf, Mul, Inv, Add, Dot, Count;
    var k := |d|;
    var f := Difference(c, d);
    forall j | 0 <= j < |present| && present[j]
      ensures Symbol(f, j) == 0
    {
      AddLaws(Symbol(c, j), Symbol(d, j));
      if j >= k { DotDifference(k, j - k, c, d, k); }
    }
    ZeroOnEnough(f, m, present);
    forall i | 0 <= i < k
      ensures c[i] == d[i]
    {
      assert f[i] == 0;
      AddLaws(c[i], d[i]);
    }
  }
}
