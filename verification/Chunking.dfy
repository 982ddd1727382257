/** Cutting a plaintext into chunks. */
module Chunking {
  import opened Bytes
  import opened Layout

  /** Full chunks and a last one that may be shorter, but is not empty. */
  function ChunksOf(text: Bytes): seq<Bytes> {
    if |text| == 0 then []
    else if |text| <= CHUNK_PLAIN_SIZE then [text]
    else [text[..CHUNK_PLAIN_SIZE]] + ChunksOf(text[CHUNK_PLAIN_SIZE..])
  }

  predicate AllFull(chunks: seq<Bytes>) {
    forall i :: 0 <= i < |chunks| ==> |chunks[i]| == CHUNK_PLAIN_SIZE
  }

  /** All chunks but the last are full, and the last is not empty. */
  predicate WellCut(chunks: seq<Bytes>) {
    forall i :: 0 <= i < |chunks| ==>
      if i < |chunks| - 1 then |chunks[i]| == CHUNK_PLAIN_SIZE else 1 <= |chunks[i]| <= CHUNK_PLAIN_SIZE
  }

  lemma ConcatFirst(first: Bytes, rest: seq<Bytes>)
    ensures Concat([first] + rest) == first + Concat(rest)
  {
    ConcatAppend([first], rest);
    assert [first][..0] == [];
    assert Concat([first]) == Concat([]) + first;
  }

  lemma EmptyConcat()
    ensures Concat([]) == []
  {}

  /** Full chunks are cut off a text they begin. */
  lemma {:induction false} FullChunksFirst(chunks: seq<Bytes>, rest: Bytes)
    requires AllFull(chunks)
    ensures ChunksOf(Concat(chunks) + rest) == chunks + (if rest == [] then [] else ChunksOf(rest))
    decreases |chunks|
  {
    hide Concat;
    if chunks == [] {
      assert Concat(chunks) == [] by { EmptyConcat(); }
      assert Concat(chunks) + rest == rest;
      assert chunks + ChunksOf(rest) == ChunksOf(rest);
    } else {
      var first, more := chunks[0], chunks[1..];
      assert chunks == [first] + more;
      ConcatFirst(first, more);
      var text := Concat(chunks) + rest;
      assert text == first + (Concat(more) + rest);
      FullChunksFirst(more, rest);
      if |text| > CHUNK_PLAIN_SIZE {
        assert text[..CHUNK_PLAIN_SIZE] == first;
        assert text[CHUNK_PLAIN_SIZE..] == Concat(more) + rest;
      } else {
        assert Concat(more) + rest == [];
        FullLength(more);
        assert text == first;
      }
    }
  }

  lemma FullLength(chunks: seq<Bytes>)
    requires AllFull(chunks)
    ensures chunks != [] ==> |Concat(chunks)| >= CHUNK_PLAIN_SIZE
  {}

  /** A well-cut sequence of chunks is the cut of its concatenation. */
  lemma CutIsUnique(chunks: seq<Bytes>)
    requires WellCut(chunks)
    ensures ChunksOf(Concat(chunks)) == chunks
  {
    var n := |chunks|;
    if n > 0 {
      var front, last := chunks[..n - 1], chunks[n - 1];
      FullChunksFirst(front, last);
      assert chunks == front + [last];
    }
  }

  lemma {:induction false} ChunksAreCut(text: Bytes)
    ensures Concat(ChunksOf(text)) == text && WellCut(ChunksOf(text))
    ensures |ChunksOf(text)| == (if |text| == 0 then 0 else (|text| - 1) / CHUNK_PLAIN_SIZE + 1)
    decreases |text|
  {
    if |text| == 0 {
    } else if |text| <= CHUNK_PLAIN_SIZE {
      ConcatFirst(text, []);
      assert [text] + [] == [text];
    } else {
      var rest := text[CHUNK_PLAIN_SIZE..];
      ChunksAreCut(rest);
      ConcatFirst(text[..CHUNK_PLAIN_SIZE], ChunksOf(rest));
      assert (|text| - 1) / CHUNK_PLAIN_SIZE == (|rest| - 1) / CHUNK_PLAIN_SIZE + 1;
    }
  }

  /** Byte p of a text is byte p % CHUNK_PLAIN_SIZE of chunk p / CHUNK_PLAIN_SIZE. */
  lemma {:induction false} ByteInChunk(text: Bytes, p: nat)
    requires p < |text|
    ensures p / CHUNK_PLAIN_SIZE < |ChunksOf(text)|
    ensures p % CHUNK_PLAIN_SIZE < |ChunksOf(text)[p / CHUNK_PLAIN_SIZE]|
    ensures ChunksOf(text)[p / CHUNK_PLAIN_SIZE][p % CHUNK_PLAIN_SIZE] == text[p]
    decreases |text|
  {
    if |text| > CHUNK_PLAIN_SIZE && p >= CHUNK_PLAIN_SIZE {
      ByteInChunk(text[CHUNK_PLAIN_SIZE..], p - CHUNK_PLAIN_SIZE);
      assert (p - CHUNK_PLAIN_SIZE) / CHUNK_PLAIN_SIZE == p / CHUNK_PLAIN_SIZE - 1;
      assert (p - CHUNK_PLAIN_SIZE) % CHUNK_PLAIN_SIZE == p % CHUNK_PLAIN_SIZE;
    }
  }
}
