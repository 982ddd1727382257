/** The contract under which the container uses a Reed-Solomon library, and the
    Cauchy code of bench/gfbench as a code that meets it. */
module ErasureCode {
  import opened Bytes
  import CauchyCode

  datatype Option<+T> = None | Some(value: T)

  type Shards = seq<Bytes>

  /** k data shards, m parity shards, the shard sizes the library accepts, and its
      two operations. Codes over bytes accept every size; a code of more than 256
      shards has wider symbols and accepts only multiples of its unit. */
  datatype Code = Code(k: nat, m: nat,
                       sizes: nat -> bool,
                       encode: Shards -> Shards,
                       reconstruct: seq<Option<Bytes>> -> Option<Shards>)

  predicate IsData(code: Code, data: Shards, size: nat) {
    size > 0 && code.sizes(size) && |data| == code.k && Uniform(data, size)
  }

  function Codeword(code: Code, data: Shards): Shards {
    data + code.encode(data)
  }

  /** How many of the first n views are present. */
  function Present(views: seq<Option<Bytes>>, n: nat): nat
    requires n <= |views|
  {
    if n == 0 then 0 else Present(views, n - 1) + if views[n - 1].Some? then 1 else 0
  }

  predicate Matches(views: seq<Option<Bytes>>, word: Shards) {
    |views| == |word| && forall i :: 0 <= i < |word| && views[i].Some? ==> views[i].value == word[i]
  }

  /** Encoding yields m shards of the data's size. */
  ghost predicate Encodes(code: Code) {
    forall data, size :: IsData(code, data, size) ==>
      |code.encode(data)| == code.m && Uniform(code.encode(data), size)
  }

  /** Views of a codeword: any k of them give it back, fewer give an error. */
  ghost predicate Reconstructs(code: Code) {
    forall data, size, views :: IsData(code, data, size) && Matches(views, Codeword(code, data)) ==>
      code.reconstruct(views) == if Present(views, |views|) >= code.k then Some(Codeword(code, data)) else None
  }

  /** Whatever the views, a result has their number and keeps those present. */
  ghost predicate KeepsViews(code: Code) {
    forall views :: code.reconstruct(views).Some? ==> Matches(views, code.reconstruct(views).value)
  }

  ghost predicate Contract(code: Code) {
    code.k > 0 && Encodes(code) && Reconstructs(code) && KeepsViews(code)
  }

  ghost predicate AnySize(code: Code) {
    forall size: nat :: size > 0 ==> code.sizes(size)
  }

  /** The same byte range of every shard. */
  function Cut(shards: Shards, lo: nat, hi: nat): Shards
    requires lo <= hi && forall i :: 0 <= i < |shards| ==> hi <= |shards[i]|
  {
    seq(|shards|, i requires 0 <= i < |shards| => shards[i][lo..hi])
  }

  /** Encoding a byte range of the data gives that byte range of the parity. */
  ghost predicate CutCommutes(code: Code, data: Shards, size: nat, lo: nat, hi: nat) {
    IsData(code, data, size) && Uniform(code.encode(data), size) && lo < hi <= size ==>
      code.encode(Cut(data, lo, hi)) == Cut(code.encode(data), lo, hi)
  }

  /** Encoding works byte column by byte column. */
  ghost predicate ColumnWise(code: Code) {
    forall data, size: nat, lo: nat, hi: nat :: CutCommutes(code, data, size, lo, hi)
  }

  /** Any k shards determine a codeword. */
  lemma AnyKDetermine(code: Code, c: Shards, d: Shards, size: nat, size': nat, views: seq<Option<Bytes>>)
    requires Contract(code) && IsData(code, c, size) && IsData(code, d, size')
    requires Matches(views, Codeword(code, c)) && Matches(views, Codeword(code, d))
    requires Present(views, |views|) >= code.k
    ensures c == d
  {
    assert code.reconstruct(views) == Some(Codeword(code, c)) == Some(Codeword(code, d));
    assert Codeword(code, c)[..code.k] == c;
    assert Codeword(code, d)[..code.k] == d;
  }

  // ---------- the Cauchy code meets the contract ----------

  function CauchyParity(data: Shards, p: nat, size: nat): Bytes
    requires Uniform(data, size)
  {
    seq(size, t requires 0 <= t < size => CauchyCode.Symbol(CauchyCode.Column(data, t), |data| + p))
  }

  function CauchyEncode(data: Shards, m: nat): Shards {
    if |data| > 0 && Uniform(data, |data[0]|) then
      seq(m, p requires 0 <= p < m => CauchyParity(data, p, |data[0]|))
    else []
  }

  ghost predicate Explains(k: nat, m: nat, data: Shards, views: seq<Option<Bytes>>) {
    && |data| == k > 0 && |data[0]| > 0 && Uniform(data, |data[0]|)
    && Matches(views, data + CauchyEncode(data, m))
  }

  ghost function CauchyReconstruct(k: nat, m: nat, views: seq<Option<Bytes>>): Option<Shards> {
    if Present(views, |views|) >= k && exists data :: Explains(k, m, data, views) then
      var data :| Explains(k, m, data, views);
      Some(data + CauchyEncode(data, m))
    else None
  }

  ghost function Cauchy(k: nat, m: nat): Code {
    Code(k, m, _ => true, data => CauchyEncode(data, m), views => CauchyReconstruct(k, m, views))
  }

  function Mask(views: seq<Option<Bytes>>): seq<bool> {
    seq(|views|, i requires 0 <= i < |views| => views[i].Some?)
  }

  lemma {:induction false} MaskCount(views: seq<Option<Bytes>>, n: nat)
    requires n <= |views|
    ensures CauchyCode.Count(Mask(views), n) == Present(views, n)
  {
    if n == 0 {
    } else {
      MaskCount(views, n - 1);
    }
  }

  lemma {:induction false} SomePresent(views: seq<Option<Bytes>>, n: nat) returns (i: nat)
    requires n <= |views| && Present(views, n) > 0
    ensures i < n && views[i].Some?
  {
    if views[n - 1].Some? {
      i := n - 1;
    } else {
      i := SomePresent(views, n - 1);
    }
  }

  /** Byte t of codeword shard j is codeword symbol j of column t. */
  lemma CodewordSymbol(data: Shards, m: nat, size: nat, j: nat, t: nat)
    requires |data| > 0 && Uniform(data, size) && j < |data| + m && t < size
    ensures |(data + CauchyEncode(data, m))| == |data| + m
    ensures |(data + CauchyEncode(data, m))[j]| == size
    ensures (data + CauchyEncode(data, m))[j][t] == CauchyCode.Symbol(CauchyCode.Column(data, t), j)
  {
    var e := CauchyEncode(data, m);
    assert |data[0]| == size;
    if j >= |data| {
      assert e[j - |data|] == CauchyParity(data, j - |data|, size);
      assert (data + e)[j] == e[j - |data|];
    }
  }

  lemma CauchyDetermines(k: nat, m: nat, c: Shards, d: Shards, views: seq<Option<Bytes>>)
    requires k + m <= 256
    requires Explains(k, m, c, views) && Explains(k, m, d, views)
    requires Present(views, |views|) >= k
    ensures c == d
  {
    var size := |c[0]|;
    var i := SomePresent(views, |views|);
    CodewordSymbol(c, m, size, i, 0);
    CodewordSymbol(d, m, |d[0]|, i, 0);
    assert |d[0]| == size;
    forall t | 0 <= t < size
      ensures CauchyCode.Column(c, t) == CauchyCode.Column(d, t)
    {
      MaskCount(views, |views|);
      forall j | 0 <= j < |views| && Mask(views)[j]
        ensures CauchyCode.Symbol(CauchyCode.Column(c, t), j) == CauchyCode.Symbol(CauchyCode.Column(d, t), j)
      {
        CodewordSymbol(c, m, size, j, t);
        CodewordSymbol(d, m, size, j, t);
      }
      CauchyCode.Separable(CauchyCode.Column(c, t), CauchyCode.Column(d, t), m, Mask(views));
    }
    forall n | 0 <= n < k
      ensures c[n] == d[n]
    {
      forall t | 0 <= t < size
        ensures c[n][t] == d[n][t]
      {
        assert CauchyCode.Column(c, t)[n] == CauchyCode.Column(d, t)[n];
      }
    }
  }

  /** The code of bench/gfbench is a code in the sense of the contract whenever
      its k + m shards have distinct evaluation points. */
  lemma CauchyMeetsContract(k: nat, m: nat)
    requires 0 < k && k + m <= 256
    ensures Contract(Cauchy(k, m)) && ColumnWise(Cauchy(k, m)) && AnySize(Cauchy(k, m))
  {
    var code := Cauchy(k, m);
    forall data, size | IsData(code, data, size)
      ensures |code.encode(data)| == m && Uniform(code.encode(data), size)
    {
      assert |data[0]| == size;
    }
    forall data, size, views | IsData(code, data, size) && Matches(views, Codeword(code, data))
      ensures code.reconstruct(views) == if Present(views, |views|) >= k then Some(Codeword(code, data)) else None
    {
      assert |data[0]| == size;
      assert Explains(k, m, data, views);
      if Present(views, |views|) >= k {
        var d :| Explains(k, m, d, views) && CauchyReconstruct(k, m, views) == Some(d + CauchyEncode(d, m));
        CauchyDetermines(k, m, data, d, views);
      }
    }
    CauchyColumnWise(k, m);
  }

  lemma CauchyColumnWise(k: nat, m: nat)
    requires 0 < k
    ensures ColumnWise(Cauchy(k, m))
  {
    forall data, size: nat, lo: nat, hi: nat
      ensures CutCommutes(Cauchy(k, m), data, size, lo, hi)
    {
      if IsData(Cauchy(k, m), data, size) && lo < hi <= size {
        CauchyCut(k, m, data, size, lo, hi);
      }
    }
  }

  lemma CauchyCut(k: nat, m: nat, data: Shards, size: nat, lo: nat, hi: nat)
    requires 0 < k == |data| && Uniform(data, size) && lo < hi <= size
    ensures Uniform(CauchyEncode(data, m), size)
    ensures CauchyEncode(Cut(data, lo, hi), m) == Cut(CauchyEncode(data, m), lo, hi)
  {
    assert |data[0]| == size;
    var part := Cut(data, lo, hi);
    assert |part[0]| == hi - lo && Uniform(part, hi - lo);
    forall p | 0 <= p < m
      ensures CauchyParity(part, p, hi - lo) == CauchyParity(data, p, size)[lo..hi]
    {
      var a, b := CauchyParity(part, p, hi - lo), CauchyParity(data, p, size)[lo..hi];
      forall t | 0 <= t < hi - lo
        ensures a[t] == b[t]
      {
        assert CauchyCode.Column(part, t) == CauchyCode.Column(data, lo + t);
      }
    }
  }
}
