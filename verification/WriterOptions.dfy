/** What NewWriter makes of its options, and the manifests Close records (writer.go). */
module WriterOptions {
  import opened ErasureCode
  import opened Layout
  import opened Format

  datatype Scheme = RSDual | GCMOnly | RSStrong

  /** The options' accumulator; no scheme means rs-dual. */
  datatype Opts = Opts(workers: int, inflight: int, m2cap: int, formatV3: bool, scheme: Option<Scheme>)

  datatype Opt = WithWorkers(n: int) | WithInflight(n: int) | WithFileParity(m: int) | WithRePull | WithStrongRS

  function Default(): Opts {
    Opts(4, 16, FILE_PARITY_SHARDS, false, None)
  }

  /** One option; values out of range are ignored. */
  function Apply(o: Opts, opt: Opt): Opts {
    match opt
    case WithWorkers(n) => if 1 <= n <= 16 then o.(workers := n) else o
    case WithInflight(n) => if 4 <= n <= 256 then o.(inflight := n) else o
    case WithFileParity(m) =>
      if 1 <= m <= FILE_PARITY_SHARDS then o.(m2cap := m, formatV3 := true, scheme := Some(RSDual)) else o
    case WithRePull => o.(scheme := Some(GCMOnly), formatV3 := true)
    case WithStrongRS => o.(scheme := Some(RSStrong), formatV3 := true)
  }

  function Fold(opts: seq<Opt>): Opts {
    if opts == [] then Default() else Apply(Fold(opts[..|opts| - 1]), opts[|opts| - 1])
  }

  /** The loop of NewWriter. */
  method FoldOptions(opts: seq<Opt>) returns (o: Opts)
    ensures o == Fold(opts)
  {
    o := Default();
    for i := 0 to |opts|
      invariant o == Fold(opts[..i])
    {
      assert opts[..i + 1][..i] == opts[..i];
      o := Apply(o, opts[i]);
    }
    assert opts[..|opts|] == opts;
  }

  function WriterSpec(o: Opts): Spec
    requires o.m2cap >= 0
  {
    if o.formatV3 then Spec(3, o.m2cap) else Spec(2, FILE_PARITY_SHARDS)
  }

  /** Whatever the options, the pipeline gets workers, channels with room, and a
      layout that tiles; a v2 writer keeps the full parity count in its manifest. */
  lemma {:induction false} OptionsAreSafe(opts: seq<Opt>)
    ensures
      var o := Fold(opts);
      && 1 <= o.workers <= 16 && o.inflight / 2 >= 1 && o.inflight - o.inflight / 2 >= 1
      && o.m2cap >= 0 && WriterSpec(o).Valid() && WriterSpec(o).m2cap == o.m2cap && (WriterSpec(o).version == 3 <==> o.formatV3)
      && 4 <= o.inflight && (o.formatV3 <==> o.scheme.Some?)
    decreases |opts|
  {
    if opts == [] {
    } else {
      OptionsAreSafe(opts[..|opts| - 1]);
    }
  }

  /** The scheme an option asks for, if it asks for one. */
  function Asks(opt: Opt): Option<Scheme> {
    match opt
    case WithFileParity(m) => if 1 <= m <= FILE_PARITY_SHARDS then Some(RSDual) else None
    case WithRePull => Some(GCMOnly)
    case WithStrongRS => Some(RSStrong)
    case _ => None
  }

  /** The scheme the last asking option asks for. */
  function LastAsked(opts: seq<Opt>): Option<Scheme> {
    if opts == [] then None
    else if Asks(opts[|opts| - 1]).Some? then Asks(opts[|opts| - 1])
    else LastAsked(opts[..|opts| - 1])
  }

  /** The last option that asks for a scheme decides it; with none it is rs-dual in
      the v2 format, and otherwise the format is v3. */
  lemma {:induction false} LastSchemeWins(opts: seq<Opt>)
    ensures Fold(opts).scheme == LastAsked(opts)
    ensures Fold(opts).formatV3 == LastAsked(opts).Some?
    decreases |opts|
  {
    if opts == [] {
    } else {
      LastSchemeWins(opts[..|opts| - 1]);
    }
  }

  /** Option i is the last that gives a value, and the value is x. */
  predicate LastAt(opts: seq<Opt>, value: Opt -> Option<int>, x: int, i: int) {
    0 <= i < |opts| && value(opts[i]) == Some(x) && forall j :: i < j < |opts| ==> value(opts[j]) == None
  }

  /** x is the value of the last option that gives one, or the default. */
  ghost predicate LastOf(opts: seq<Opt>, value: Opt -> Option<int>, default: int, x: int) {
    || (x == default && forall i :: 0 <= i < |opts| ==> value(opts[i]) == None)
    || (exists i :: LastAt(opts, value, x, i))
  }

  function WorkersOf(opt: Opt): Option<int> {
    if opt.WithWorkers? && 1 <= opt.n <= 16 then Some(opt.n) else None
  }

  function InflightOf(opt: Opt): Option<int> {
    if opt.WithInflight? && 4 <= opt.n <= 256 then Some(opt.n) else None
  }

  function CapOf(opt: Opt): Option<int> {
    if opt.WithFileParity? && 1 <= opt.m <= 64 then Some(opt.m) else None
  }

  lemma LastStep(opts: seq<Opt>, value: Opt -> Option<int>, default: int, x: int)
    requires opts != [] && LastOf(opts[..|opts| - 1], value, default, x)
    ensures LastOf(opts, value, default, if value(opts[|opts| - 1]).Some? then value(opts[|opts| - 1]).value else x)
  {
    var n := |opts| - 1;
    var front := opts[..n];
    if value(opts[n]).Some? {
      assert LastAt(opts, value, value(opts[n]).value, n);
    } else if i :| LastAt(front, value, x, i) {
      assert forall j :: i < j < n ==> opts[j] == front[j];
      assert LastAt(opts, value, x, i);
    } else {
      assert forall i :: 0 <= i < n ==> opts[i] == front[i];
    }
  }

  lemma NoneGiven(value: Opt -> Option<int>, default: int)
    ensures LastOf([], value, default, default)
  {}

  /** Workers, blocks in flight and parity cap are each decided by the last option in
      range; without one they are 4, 16 and 64. */
  lemma {:induction false} LastValueWins(opts: seq<Opt>)
    ensures LastOf(opts, WorkersOf, 4, Fold(opts).workers)
    ensures LastOf(opts, InflightOf, 16, Fold(opts).inflight)
    ensures LastOf(opts, CapOf, 64, Fold(opts).m2cap)
    decreases |opts|
  {
    hide LastOf;
    if opts == [] {
      NoneGiven(WorkersOf, 4);
      NoneGiven(InflightOf, 16);
      NoneGiven(CapOf, 64);
    } else {
      var front := opts[..|opts| - 1];
      LastValueWins(front);
      LastStep(opts, WorkersOf, 4, Fold(front).workers);
      LastStep(opts, InflightOf, 16, Fold(front).inflight);
      LastStep(opts, CapOf, 64, Fold(front).m2cap);
    }
  }

  // ---------- the manifest of a strong container ----------

  /** What closeSmall records for rs-strong, and where it puts the trailer. */
  function StrongManifest(plainSize: nat): Manifest {
    Manifest(3, K_STRONG, M_STRONG, 0, 0, StrongShardSize(plainSize), 0, 0, plainSize, K_STRONG, M_STRONG)
  }

  /** validateRSStrong. */
  function ValidateRSStrong(man: Manifest, size: int, trailerLen: nat): Check {
    if man.version != 3 then UnsupportedFormat
    else if man.k != K_STRONG || man.m != M_STRONG || man.kStrong != K_STRONG || man.mStrong != M_STRONG then UnsupportedFormat
    else if man.k2 != 0 || man.m2 != 0 || man.chunkPlain != 0 || man.chunkCount != 0 then UnsupportedFormat
    else if man.plainSize < 0 || man.shardSize != StrongShardSize(man.plainSize) then UnsupportedFormat
    else if StrongPayloadSize(man.plainSize) + trailerLen != size then SizeMismatch
    else Accepted
  }

  /** Among the manifests of one plaintext size only the one Close records is
      accepted, and only for the file size Close produces. */
  lemma OnlyStrongManifest(man: Manifest, size: int, trailerLen: nat)
    ensures ValidateRSStrong(man, size, trailerLen) == Accepted <==>
      man.plainSize >= 0 && man == StrongManifest(man.plainSize) && size == StrongPayloadSize(man.plainSize) + trailerLen
  {
    hide StrongShardSize, StrongPayloadSize;
  }
}
