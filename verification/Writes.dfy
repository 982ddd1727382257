/** Writes to a seekable file that grows, and what a log of writes leaves in it. */
module Writes {
  import opened Bytes

  /** One positioned write. */
  datatype Put = Put(off: nat, data: Bytes) {
    function End(): nat {
      off + |data|
    }
  }

  function Zeros(n: nat): (z: Bytes)
    ensures |z| == n
  {
    seq(n, _ => 0)
  }

  /** The file after a write at off; a gap before it reads as zeros. */
  function Overwrite(f: Bytes, off: nat, b: Bytes): (r: Bytes)
    ensures |r| == if off + |b| <= |f| then |f| else off + |b|
  {
    var g := if |f| < off then f + Zeros(off - |f|) else f;
    g[..off] + b + if off + |b| <= |g| then g[off + |b|..] else []
  }

  /** Byte by byte: the new bytes where they were written, elsewhere the old ones, and
      zeros between the old end and the write. */
  lemma OverwriteBytes(f: Bytes, off: nat, b: Bytes, i: nat)
    requires i < |Overwrite(f, off, b)|
    ensures Overwrite(f, off, b)[i] ==
      if off <= i < off + |b| then b[i - off] else if i < |f| then f[i] else 0
  {}

  function Apply(f: Bytes, log: seq<Put>): Bytes {
    var n := |log|;
    if n == 0 then f else Overwrite(Apply(f, log[..n - 1]), log[n - 1].off, log[n - 1].data)
  }

  predicate Apart(a: Put, b: Put) {
    a.End() <= b.off || b.End() <= a.off
  }

  /** The write is what the file holds at its place. */
  predicate Holds(f: Bytes, p: Put) {
    p.End() <= |f| && f[p.off..p.End()] == p.data
  }

  lemma OverwriteHolds(f: Bytes, p: Put)
    ensures Holds(Overwrite(f, p.off, p.data), p)
  {}

  lemma OverwriteKeeps(f: Bytes, p: Put, q: Put)
    requires Holds(f, q) && Apart(p, q)
    ensures Holds(Overwrite(f, p.off, p.data), q)
  {
    var r := Overwrite(f, p.off, p.data);
    forall i | q.off <= i < q.End()
      ensures r[i] == f[i]
    {
    }
    assert r[q.off..q.End()] == f[q.off..q.End()];
  }

  /** No two writes of a log touch the same byte, so all of them survive. */
  lemma {:induction false} DisjointWritesSurvive(f: Bytes, log: seq<Put>)
    requires forall a, b :: 0 <= a < b < |log| ==> Apart(log[a], log[b])
    ensures forall a :: 0 <= a < |log| ==> Holds(Apply(f, log), log[a])
    decreases |log|
  {
    var n := |log|;
    if n == 0 {
    } else {
      var before := log[..n - 1];
      DisjointWritesSurvive(f, before);
      OverwriteHolds(Apply(f, before), log[n - 1]);
      forall a | 0 <= a < n - 1
        ensures Holds(Apply(f, log), log[a])
      {
        assert before[a] == log[a];
        OverwriteKeeps(Apply(f, before), log[n - 1], log[a]);
      }
    }
  }

  /** The file is as long as the furthest write. */
  lemma {:induction false} ApplyLength(log: seq<Put>, limit: nat)
    requires forall a :: 0 <= a < |log| ==> log[a].End() <= limit
    ensures |Apply([], log)| <= limit
    ensures forall a :: 0 <= a < |log| ==> log[a].End() <= |Apply([], log)|
    decreases |log|
  {
    var n := |log|;
    if n == 0 {
    } else {
      var before := log[..n - 1];
      ApplyLength(before, limit);
      forall a | 0 <= a < n
        ensures log[a].End() <= |Apply([], log)|
      {
        if a < n - 1 {
          assert before[a] == log[a];
        }
      }
    }
  }

  lemma {:induction false} ApplyAppend(f: Bytes, a: seq<Put>, b: seq<Put>)
    ensures Apply(f, a + b) == Apply(Apply(f, a), b)
    decreases |b|
  {
    var n := |b|;
    if n == 0 {
      assert a + b == a;
    } else {
      ApplyAppend(f, a, b[..n - 1]);
      assert (a + b)[..|a| + n - 1] == a + b[..n - 1];
    }
  }

  /** A file opened for reading, writing and seeking: its bytes and its cursor. */
  class Dst {
    var bytes: Bytes
    var pos: nat

    constructor ()
      ensures bytes == [] && pos == 0
    {
      bytes, pos := [], 0;
    }

    method Seek(off: nat)
      modifies this
      ensures pos == off && bytes == old(bytes)
    {
      pos := off;
    }

    method Write(b: Bytes)
      modifies this
      ensures bytes == Overwrite(old(bytes), old(pos), b) && pos == old(pos) + |b|
    {
      bytes := Overwrite(bytes, pos, b);
      pos := pos + |b|;
    }

    /** seekWrite, run without interruption. */
    method SeekWrite(p: Put)
      modifies this
      ensures bytes == Overwrite(old(bytes), p.off, p.data)
    {
      Seek(p.off);
      Write(p.data);
    }
  }
}
