/** Random access through the one-chunk cache (reader.go): every read returns
    exactly the plaintext slice it was asked for, whatever the cache holds. */
module Reader {
  import opened Bytes
  import opened ErasureCode
  import opened Layout
  import opened Vault
  import opened Format
  import opened Repair
  import opened Chunking
  import opened Engine
  import opened StrongLoops
  import Strong

  /** What the scheme of the manifest opens: chunks, or one blob for the whole file. */
  datatype Backend = Dual(c: Container) | Single(s: StrongContainer)

  datatype ReadError = NoError | EOF | NegativeOffset | IndexOutOfRange | LoadFailed(index: nat, why: Loaded)

  /** The byte range of a text that a read of len bytes at off covers. */
  function Covered(text: Bytes, off: int, n: nat): Bytes
    requires 0 <= off
  {
    if off + n <= |text| then text[off..off + n] else []
  }

  lemma {:induction false} ChunkSlice(text: Bytes, at: nat, n: nat)
    requires at < |text|
    requires at / CHUNK_PLAIN_SIZE < |ChunksOf(text)|
    requires at % CHUNK_PLAIN_SIZE + n <= |ChunksOf(text)[at / CHUNK_PLAIN_SIZE]|
    ensures at + n <= |text|
    ensures ChunksOf(text)[at / CHUNK_PLAIN_SIZE][at % CHUNK_PLAIN_SIZE..at % CHUNK_PLAIN_SIZE + n] == text[at..at + n]
  {
    var i, o := at / CHUNK_PLAIN_SIZE, at % CHUNK_PLAIN_SIZE;
    ChunkWithin(text, i);
    var chunk := ChunksOf(text)[i];
    var a, b := chunk[o..o + n], text[at..at + n];
    forall k | 0 <= k < n
      ensures a[k] == b[k]
    {
      WithinChunk(at, k);
      ByteInChunk(text, at + k);
    }
  }

  lemma WithinChunk(at: nat, k: nat)
    requires at % CHUNK_PLAIN_SIZE + k < CHUNK_PLAIN_SIZE
    ensures (at + k) / CHUNK_PLAIN_SIZE == at / CHUNK_PLAIN_SIZE
    ensures (at + k) % CHUNK_PLAIN_SIZE == at % CHUNK_PLAIN_SIZE + k
  {}

  /** Chunk i lies within the text. */
  lemma {:induction false} ChunkWithin(text: Bytes, i: nat)
    requires i < |ChunksOf(text)|
    ensures 1 <= |ChunksOf(text)[i]| <= CHUNK_PLAIN_SIZE
    ensures i * CHUNK_PLAIN_SIZE + |ChunksOf(text)[i]| <= |text|
    decreases |text|
  {
    if i == 0 {
    } else {
      ChunkWithin(text[CHUNK_PLAIN_SIZE..], i - 1);
    }
  }

  class Reader {
    const backend: Backend
    const plainSize: nat
    ghost const text: Bytes
    var cacheIdx: int
    var cachePlain: Option<Bytes>
    var allLoaded: bool
    var allPlain: Bytes

    /** The file behind the reader. */
    function Src(): Medium {
      match backend
      case Dual(c) => c.src
      case Single(s) => s.src
    }

    /** The container opens, and whatever loads is what the writer was given. */
    ghost predicate Faithful()
      reads Src()
    {
      match backend
      case Dual(c) =>
        && c.Valid() && CodesOk(c.v.cr) && c.v.chunkCount == |ChunksOf(text)|
        && forall i: nat :: i < c.v.chunkCount && Repair.LoadChunk(c.v, c.Image(), i).Chunk? ==>
             Repair.LoadChunk(c.v, c.Image(), i) == Chunk(ChunksOf(text)[i])
      case Single(s) =>
        && s.Valid() && Strong.StrongOk(s.cr)
        && (Strong.LoadStrong(s.cr, s.plainSize, s.Slots()).Chunk? ==>
              Strong.LoadStrong(s.cr, s.plainSize, s.Slots()) == Chunk(text))
    }

    /** The cache holds nothing, or the chunk its index names. */
    ghost predicate CacheOk()
      reads this
    {
      && (cachePlain.Some? ==> 0 <= cacheIdx < |ChunksOf(text)| && cachePlain.value == ChunksOf(text)[cacheIdx])
      && (allLoaded ==> allPlain == text)
    }

    ghost predicate Valid()
      reads this, Src()
    {
      plainSize == |text| && Faithful() && CacheOk()
    }

    /** Open leaves both caches empty. */
    constructor (backend: Backend, plainSize: nat, ghost text: Bytes)
      ensures this.backend == backend && this.plainSize == plainSize && this.text == text
      ensures plainSize == |text| && Faithful() ==> Valid()
    {
      this.backend := backend;
      this.plainSize := plainSize;
      this.text := text;
      cacheIdx, cachePlain := -1, None;
      allLoaded, allPlain := false, [];
    }

    /** cached: a hit needs the index and a chunk. */
    method Cached(idx: nat) returns (plain: Option<Bytes>)
      requires CacheOk()
      ensures plain.Some? ==> idx < |ChunksOf(text)| && plain.value == ChunksOf(text)[idx]
    {
      if cacheIdx == idx && cachePlain.Some? {
        return cachePlain;
      }
      return None;
    }

    /** A chunk from the cache, or loaded and cached. */
    method Fetch(idx: nat) returns (r: Loaded)
      requires Valid() && backend.Dual? && idx < |ChunksOf(text)|
      modifies this
      ensures Valid()
      ensures r.Chunk? ==> r.bytes == ChunksOf(text)[idx]
      ensures !r.Chunk? ==> r == Repair.LoadChunk(backend.c.v, backend.c.Image(), idx)
    {
      hide ChunksOf, Repair.LoadChunk, CodesOk;
      var hit := Cached(idx);
      if hit.Some? {
        return Chunk(hit.value);
      }
      r := backend.c.LoadChunk(idx);
      if r.Chunk? {
        cacheIdx, cachePlain := idx, Some(r.bytes);
      }
    }

    /** A load that failed, as the read reports it. */
    ghost predicate FailedAt(index: nat, why: Loaded)
      requires Valid()
      reads this, Src()
    {
      && backend.Dual? && index < backend.c.v.chunkCount
      && !why.Chunk? && why == Repair.LoadChunk(backend.c.v, backend.c.Image(), index)
    }

    /** The single blob does not load, for this reason. */
    ghost predicate SingleFails(why: Loaded)
      requires Valid()
      reads this, Src()
    {
      && backend.Single? && !why.Chunk?
      && why == Strong.LoadStrong(backend.s.cr, backend.s.plainSize, backend.s.Slots())
    }

    /** Whatever a read of len bytes at off needs can be loaded from the file. */
    ghost predicate Loads(off: nat, len: nat)
      requires Valid()
      reads this, Src()
    {
      match backend
      case Dual(c) =>
        forall at: nat :: off <= at < off + len && at < |text| && at / CHUNK_PLAIN_SIZE < c.v.chunkCount ==>
          Repair.LoadChunk(c.v, c.Image(), at / CHUNK_PLAIN_SIZE).Chunk?
      case Single(s) => Strong.LoadStrong(s.cr, s.plainSize, s.Slots()).Chunk?
    }

    /** One round of ReadAt: copy from the chunk that holds the next byte. */
    method CopyChunk(p: array<byte>, off: nat, n: nat, ghost orig: Bytes) returns (cnt: nat, r: Loaded)
      requires Valid() && backend.Dual? && n < p.Length && off + n < |text| && Delivered(text, orig, p[..], off, n)
      modifies this, p
      ensures Valid()
      ensures r.Chunk? ==> 0 < cnt <= p.Length - n && Delivered(text, orig, p[..], off, n + cnt)
      ensures !r.Chunk? ==> Delivered(text, orig, p[..], off, n) && FailedAt((off + n) / CHUNK_PLAIN_SIZE, r)
    {
      hide ChunksOf, Repair.LoadChunk, Delivered, CodesOk;
      var at := off + n;
      var idx, inOff := at / CHUNK_PLAIN_SIZE, at % CHUNK_PLAIN_SIZE;
      ByteInChunk(text, at);
      cnt := 0;
      r := Fetch(idx);
      if r.Chunk? {
        hide Faithful, CacheOk;
        cnt := Min(p.Length - n, |r.bytes| - inOff);
        ChunkSlice(text, at, cnt);
        ghost var before := p[..];
        DeliveredLength(text, orig, before, off, n);
        CopyAt(p, n, r.bytes[inOff..inOff + cnt]);
        DeliveredMore(text, orig, before, p[..], off, n, cnt);
      }
    }

    /** ReadAt over chunks: copy chunk by chunk until the buffer is full, the
        plaintext ends, or a chunk cannot be loaded. */
    method ReadChunks(p: array<byte>, off: nat) returns (n: nat, err: ReadError)
      requires Valid() && backend.Dual?
      modifies this, p
      ensures Valid() && Delivered(text, old(p[..]), p[..], off, n)
      ensures Outcome(text, p.Length, off, n, err)
      ensures err.LoadFailed? ==> FailedAt(err.index, err.why)
    {
      hide ChunksOf, Faithful, CacheOk, FailedAt, Delivered;
      ghost var orig := p[..];
      NothingDelivered(text, orig, off);
      n := 0;
      while n < p.Length && off + n < plainSize
        invariant Valid() && n <= p.Length && Delivered(text, orig, p[..], off, n)
        decreases p.Length - n
      {
        var cnt, r := CopyChunk(p, off, n, orig);
        if !r.Chunk? {
          return n, LoadFailed((off + n) / CHUNK_PLAIN_SIZE, r);
        }
        n := n + cnt;
      }
      err := if n < p.Length then EOF else NoError;
    }

    /** loadAllPlain: the whole plaintext, loaded once. */
    method LoadAllPlain() returns (r: Loaded)
      requires Valid() && backend.Single?
      modifies this
      ensures Valid()
      ensures r.Chunk? ==> r.bytes == text
      ensures !r.Chunk? ==> r == Strong.LoadStrong(backend.s.cr, backend.s.plainSize, backend.s.Slots())
    {
      hide Strong.LoadStrong;
      if allLoaded {
        return Chunk(allPlain);
      }
      r := backend.s.LoadStrong();
      if r.Chunk? {
        allPlain, allLoaded := r.bytes, true;
      }
    }

    /** copy(p, src) of Go, when src fits. */
    static method CopyIn(p: array<byte>, src: Bytes)
      requires |src| <= p.Length
      modifies p
      ensures p[..] == src + old(p[|src|..])
    {
      CopyAt(p, 0, src);
    }

    /** The copy of readAtSmall. */
    static method CopySlice(p: array<byte>, off: nat, plain: Bytes) returns (n: nat, err: ReadError)
      requires p.Length > 0
      modifies p
      ensures Delivered(plain, old(p[..]), p[..], off, n) && Outcome(plain, p.Length, off, n, err)
      ensures !err.LoadFailed?
    {
      hide Delivered, Outcome;
      ghost var orig := p[..];
      NothingDelivered(plain, orig, off);
      if off >= |plain| {
        OutcomeIs(plain, p.Length, off, 0, EOF);
        return 0, EOF;
      }
      n := Min(p.Length, |plain| - off);
      CopyIn(p, plain[off..off + n]);
      DeliveredFront(plain, orig, p[..], off, n);
      err := if n < p.Length then EOF else NoError;
      OutcomeIs(plain, p.Length, off, n, err);
    }

    /** readAtSmall: a slice of the whole plaintext. */
    method ReadSmall(p: array<byte>, off: nat) returns (n: nat, err: ReadError)
      requires Valid() && backend.Single? && p.Length > 0
      modifies this, p
      ensures Valid() && Delivered(text, old(p[..]), p[..], off, n)
      ensures !err.LoadFailed? ==> Outcome(text, p.Length, off, n, err)
      ensures err.LoadFailed? ==> n == 0 == err.index && SingleFails(err.why)
      ensures err.NoError? || err.EOF? || err.LoadFailed?
    {
      hide Strong.LoadStrong, Delivered;
      ghost var orig := p[..];
      NothingDelivered(text, orig, off);
      hide Faithful, CacheOk;
      var plain := LoadAllPlain();
      if !plain.Chunk? {
        return 0, LoadFailed(0, plain);
      }
      n, err := CopySlice(p, off, plain.bytes);
    }

    /** ReadAt: io.ReaderAt over the plaintext. It fails only where the file gives it no
        chunk, with the chunk and the reason; a range whose chunks all load is read. */
    method ReadAt(p: array<byte>, off: int) returns (n: nat, err: ReadError)
      requires Valid()
      modifies this, p
      ensures Valid()
      ensures err.NegativeOffset? <==> off < 0
      ensures off < 0 ==> n == 0 && p[..] == old(p[..])
      ensures off >= 0 ==> Delivered(text, old(p[..]), p[..], off, n)
      ensures off >= 0 && !err.LoadFailed? ==> Outcome(text, p.Length, off, n, err)
      ensures err.LoadFailed? && backend.Dual? ==>
        && n < p.Length && off + n < |text| && err.index == (off + n) / CHUNK_PLAIN_SIZE && FailedAt(err.index, err.why)
      ensures err.LoadFailed? && backend.Single? ==> n == 0 < p.Length && err.index == 0 && SingleFails(err.why)
      ensures off >= 0 && Loads(off, p.Length) ==>
        n == Min(p.Length, if off < |text| then |text| - off else 0) && err == if n == p.Length then NoError else EOF
    {
      hide Delivered, Repair.LoadChunk, Strong.LoadStrong, Faithful, CacheOk;
      if off < 0 {
        return 0, NegativeOffset;
      }
      NothingDelivered(text, p[..], off);
      if p.Length == 0 {
        return 0, NoError;
      }
      match backend {
        case Dual(_) => n, err := ReadChunks(p, off);
        case Single(_) => n, err := ReadSmall(p, off);
      }
      DeliveredWithin(text, old(p[..]), p[..], off, n);
    }

    /** ReadChunkAt: one whole chunk, or the whole plaintext of a single blob. */
    method ReadChunkAt(index: int) returns (plain: Bytes, err: ReadError)
      requires Valid()
      modifies this
      ensures Valid()
      ensures err.NoError? || err.IndexOutOfRange? || err.LoadFailed?
      ensures err.IndexOutOfRange? <==> index < 0 || index >= if backend.Dual? then |ChunksOf(text)| else 1
      ensures err.NoError? ==> plain == if backend.Dual? then ChunksOf(text)[index] else text
      ensures err.LoadFailed? && backend.Dual? ==> err.index == index && FailedAt(err.index, err.why)
      ensures err.LoadFailed? && backend.Single? ==> err.index == index == 0 && SingleFails(err.why)
    {
      hide ChunksOf, Repair.LoadChunk, Strong.LoadStrong;
      plain := [];
      match backend {
        case Single(_) =>
          if index != 0 {
            return [], IndexOutOfRange;
          }
          var all := LoadAllPlain();
          if !all.Chunk? {
            return [], LoadFailed(0, all);
          }
          return all.bytes, NoError;
        case Dual(c) =>
          if index < 0 || index >= c.v.chunkCount {
            return [], IndexOutOfRange;
          }
          var r := Fetch(index);
          if !r.Chunk? {
            return [], LoadFailed(index, r);
          }
          return r.bytes, NoError;
      }
    }
  }

  /** The first n bytes of the buffer are the text from off on; the rest is as it was. */
  ghost predicate Delivered(text: Bytes, orig: Bytes, p: Bytes, off: nat, n: nat) {
    && |p| == |orig| && n <= |p| && (n > 0 ==> off + n <= |text|)
    && p == Covered(text, off, n) + orig[n..]
  }

  /** A read is short exactly when it ends with an error: at the end of the text
      with EOF, before it with a chunk that cannot be loaded. */
  predicate Outcome(text: Bytes, len: nat, off: nat, n: nat, err: ReadError) {
    && n <= len && (err.NoError? <==> n == len)
    && (err.EOF? <==> n < len && off + n >= |text|)
    && (err.LoadFailed? <==> n < len && off + n < |text|)
    && (err.LoadFailed? ==> err.index == (off + n) / CHUNK_PLAIN_SIZE)
  }

  lemma OutcomeIs(text: Bytes, len: nat, off: nat, n: nat, err: ReadError)
    requires n <= len && err == (if n < len then EOF else NoError) && (n < len ==> off + n >= |text|)
    ensures Outcome(text, len, off, n, err)
  {}

  lemma NothingDelivered(text: Bytes, orig: Bytes, off: nat)
    ensures Delivered(text, orig, orig, off, 0)
  {
    assert Covered(text, off, 0) == [];
  }

  lemma DeliveredWithin(text: Bytes, orig: Bytes, p: Bytes, off: nat, n: nat)
    requires Delivered(text, orig, p, off, n)
    ensures n <= |p| && (n > 0 ==> off + n <= |text|)
  {}

  lemma DeliveredFront(text: Bytes, orig: Bytes, after: Bytes, off: nat, n: nat)
    requires 0 < n <= |orig| && off + n <= |text| && after == text[off..off + n] + orig[n..]
    ensures Delivered(text, orig, after, off, n)
  {}

  lemma DeliveredLength(text: Bytes, orig: Bytes, p: Bytes, off: nat, n: nat)
    requires Delivered(text, orig, p, off, n)
    ensures |p| == |orig|
  {}

  lemma DeliveredMore(text: Bytes, orig: Bytes, before: Bytes, after: Bytes, off: nat, n: nat, cnt: nat)
    requires Delivered(text, orig, before, off, n) && off + n + cnt <= |text| && n + cnt <= |orig|
    requires after == before[..n] + text[off + n..off + n + cnt] + before[n + cnt..]
    ensures Delivered(text, orig, after, off, n + cnt)
  {
    assert before[..n] == Covered(text, off, n);
    assert before[n + cnt..] == orig[n + cnt..];
    assert Covered(text, off, n) == text[off..off + n];
    assert Covered(text, off, n + cnt) == text[off..off + n] + text[off + n..off + n + cnt];
  }
}
