/** In which order the blobs of a container stand in its file, said without blob
    numbers: parity before data in the v2 format, data before parity in v3. */
module BlobOrder {
  import opened Layout

  /** b stands right in front of d. */
  ghost predicate Adjacent(spec: Spec, c: nat, b: Blob, d: Blob) {
    && InContainer(spec, c, b) && InContainer(spec, c, d)
    && Offset(spec, c, d) == Offset(spec, c, b) + BLOB_DISK_SIZE
  }

  /** Which blobs there are: chunks below the count, a group for every 128 of them,
      and in it 64 parity blobs in v2, in v3 as many as chunks but no more than cap. */
  lemma WhichBlobs(spec: Spec, c: nat, g: nat, q: nat)
    requires spec.Valid()
    ensures InContainer(spec, c, Data(g)) <==> g < c
    ensures InContainer(spec, c, Parity(g, q)) <==>
      && g * 128 < c
      && q < (if spec.version == 2 then 64 else spec.m2cap)
      && (spec.version == 3 ==> g * 128 + q < c)
  {}

  /** A group begins behind all full groups before it, in v2 with its first parity
      blob, in v3 with its first chunk. */
  lemma GroupBegins(spec: Spec, c: nat, g: nat)
    requires spec.Valid() && g * 128 < c
    ensures spec.version == 2 ==>
      InContainer(spec, c, Parity(g, 0)) && Offset(spec, c, Parity(g, 0)) == g * (64 + 128) * BLOB_DISK_SIZE
    ensures spec.version == 3 ==>
      InContainer(spec, c, Data(g * 128)) && Offset(spec, c, Data(g * 128)) == g * (128 + spec.m2cap) * BLOB_DISK_SIZE
  {}

  /** Chunks that follow each other in a group do so on disk. */
  lemma DataFollows(spec: Spec, c: nat, i: nat)
    requires spec.Valid() && i + 1 < c && (i + 1) % 128 != 0
    ensures Adjacent(spec, c, Data(i), Data(i + 1))
  {
    assert (i + 1) / 128 == i / 128 && (i + 1) % 128 == i % 128 + 1;
  }

  /** So do parity blobs. */
  lemma ParityFollows(spec: Spec, c: nat, g: nat, q: nat)
    requires spec.Valid() && InContainer(spec, c, Parity(g, q + 1))
    ensures Adjacent(spec, c, Parity(g, q), Parity(g, q + 1))
  {}

  /** In v2 the last parity blob stands in front of the group's first chunk; in v3
      the group's last chunk in front of the first parity blob. */
  lemma PartsMeet(spec: Spec, c: nat, g: nat)
    requires spec.Valid() && g * 128 < c
    ensures spec.version == 2 ==> Adjacent(spec, c, Parity(g, 63), Data(g * 128))
    ensures spec.version == 3 ==> Adjacent(spec, c, Data(if g * 128 + 128 <= c then g * 128 + 127 else c - 1), Parity(g, 0))
  {}

  // ---------- the whole file ----------

  function Chunks(first: nat, k: nat): (blobs: seq<Blob>)
    ensures |blobs| == k
  {
    seq(k, n requires 0 <= n < k => Data(first + n))
  }

  function Parities(g: nat, m: nat): (blobs: seq<Blob>)
    ensures |blobs| == m
  {
    seq(m, n requires 0 <= n < m => Parity(g, n))
  }

  /** The blobs of group g with k chunks, in the order the format documents. */
  function GroupOrder(spec: Spec, g: nat, k: nat): seq<Blob> {
    if spec.version == 2 then Parities(g, 64) + Chunks(g * 128, k)
    else Chunks(g * 128, k) + Parities(g, if k < spec.m2cap then k else spec.m2cap)
  }

  /** The blobs of the first n groups of a container of c chunks, all but the last full. */
  function FileOrder(spec: Spec, c: nat, n: nat): seq<Blob>
    requires n > 0 ==> (n - 1) * 128 < c
  {
    if n == 0 then []
    else FileOrder(spec, c, n - 1) + GroupOrder(spec, n - 1, if n * 128 <= c then 128 else c - (n - 1) * 128)
  }

  lemma ChunkInPlace(spec: Spec, c: nat, g: nat, n: nat)
    requires spec.Valid() && n < 128 && g * 128 + n < c
    ensures InContainer(spec, c, Data(g * 128 + n))
    ensures Offset(spec, c, Data(g * 128 + n)) ==
      (g * (128 + spec.m2cap) + ((if spec.version == 2 then 64 else 0) + n)) * BLOB_DISK_SIZE
  {
    assert (g * 128 + n) / 128 == g && (g * 128 + n) % 128 == n;
    Distribute(g * (128 + spec.m2cap), 64, n);
  }

  lemma ParityInPlace(spec: Spec, c: nat, g: nat, k: nat, q: nat)
    requires spec.Valid() && g * 128 < c && k == if g * 128 + 128 <= c then 128 else c - g * 128
    requires q < (if spec.version == 2 then 64 else spec.m2cap) && (spec.version == 3 ==> q < k)
    ensures InContainer(spec, c, Parity(g, q))
    ensures Offset(spec, c, Parity(g, q)) ==
      (g * (128 + spec.m2cap) + ((if spec.version == 2 then 0 else k) + q)) * BLOB_DISK_SIZE
  {
    WhichBlobs(spec, c, g, q);
    Distribute(g * (128 + spec.m2cap), k, q);
  }

  lemma GroupInPlace(spec: Spec, c: nat, g: nat, r: nat)
    requires spec.Valid() && g * 128 < c
    requires r < |GroupOrder(spec, g, if g * 128 + 128 <= c then 128 else c - g * 128)|
    ensures
      var b := GroupOrder(spec, g, if g * 128 + 128 <= c then 128 else c - g * 128)[r];
      InContainer(spec, c, b) && Offset(spec, c, b) == (g * (128 + spec.m2cap) + r) * BLOB_DISK_SIZE
  {
    hide Offset, InContainer;
    var k := if g * 128 + 128 <= c then 128 else c - g * 128;
    if spec.version == 2 {
      if r < 64 {
        ParityInPlace(spec, c, g, k, r);
      } else {
        ChunkInPlace(spec, c, g, r - 64);
      }
    } else {
      if r < k {
        ChunkInPlace(spec, c, g, r);
      } else {
        ParityInPlace(spec, c, g, k, r - k);
      }
    }
  }

  lemma {:induction false} OrderSoFar(spec: Spec, c: nat, n: nat)
    requires spec.Valid() && (n > 0 ==> (n - 1) * 128 < c)
    ensures n * 128 <= c ==> |FileOrder(spec, c, n)| == n * (128 + spec.m2cap)
    ensures forall p: nat :: p < |FileOrder(spec, c, n)| ==>
      InContainer(spec, c, FileOrder(spec, c, n)[p]) && Offset(spec, c, FileOrder(spec, c, n)[p]) == p * BLOB_DISK_SIZE
    decreases n
  {
    hide Offset, InContainer, GroupOrder;
    if n == 0 {
    } else {
      OrderSoFar(spec, c, n - 1);
      var before := FileOrder(spec, c, n - 1);
      var group := GroupOrder(spec, n - 1, if n * 128 <= c then 128 else c - (n - 1) * 128);
      var span := 128 + spec.m2cap;
      GroupSize(spec, n - 1, 128);
      assert |before| == (n - 1) * span;
      OneMore(n - 1, span);
      forall p: nat | p < |before + group|
        ensures InContainer(spec, c, (before + group)[p]) && Offset(spec, c, (before + group)[p]) == p * BLOB_DISK_SIZE
      {
        if p >= |before| {
          GroupInPlace(spec, c, n - 1, p - |before|);
        } else {
          assert (before + group)[p] == before[p];
        }
      }
    }
  }

  lemma OneMore(n: nat, span: nat)
    ensures (n + 1) * span == n * span + span
  {}

  lemma GroupSize(spec: Spec, g: nat, k: nat)
    requires spec.Valid() && 1 <= k <= 128
    ensures |GroupOrder(spec, g, k)| == k + if spec.version == 2 then 64 else if k < spec.m2cap then k else spec.m2cap
  {}

  /** The file is exactly this list: blob p begins at p times the blob size, and there
      are as many as the total says. */
  lemma FileIsInOrder(spec: Spec, c: nat)
    requires spec.Valid()
    ensures
      var order := FileOrder(spec, c, (c + 127) / 128);
      && |order| == spec.TotalBlobCount(c)
      && forall p: nat :: p < |order| ==> InContainer(spec, c, order[p]) && Offset(spec, c, order[p]) == p * BLOB_DISK_SIZE
  {
    var n := (c + 127) / 128;
    OrderSoFar(spec, c, n);
    if n > 0 {
      OrderSoFar(spec, c, n - 1);
      GroupSize(spec, n - 1, c - (n - 1) * 128);
    }
  }
}
