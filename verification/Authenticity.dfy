/** Whatever the file holds, a chunk that is returned is the writer's chunk of
    that index. */
module Authenticity {
  import opened Bytes
  import opened ErasureCode
  import opened Layout
  import opened Vault
  import opened Format
  import opened Repair
  import opened Encoder

  /** The AEAD's promise under one key: it opens only what was sealed. */
  ghost predicate OpensOnlySealed(cr: Crypto, done: set<Sealing>) {
    forall nonce, ct, aad :: cr.open(nonce, ct, aad).Some? ==> Sealing(nonce, cr.open(nonce, ct, aad).value, aad) in done
  }

  lemma FlatIsAuthentic(cr: Crypto, pfx: Bytes, chunks: seq<Bytes>, index: int, flat: Bytes)
    requires |pfx| == 4 && OpensOnlySealed(cr, ChunkSealings(pfx, chunks)) && |chunks| <= TWO_63
    requires forall i :: 0 <= i < |chunks| ==> ChunkOk(chunks[i])
    requires |flat| == BLOB_PLAIN_SIZE && DecodeFlat(cr, index, flat).Plain?
    ensures 0 <= index < |chunks| && DecodeFlat(cr, index, flat) == Plain(chunks[index])
  {
    hide Marshal, ParseChunkHeader, FromBigEndian, Signed64, HeaderFor;
    var hdr := ParseChunkHeader(flat[..HEADER_SIZE]).value;
    var ct := flat[HEADER_SIZE..HEADER_SIZE + hdr.plainLen + TAG_SIZE];
    var plain := cr.open(hdr.nonce, ct, flat[..HEADER_SIZE]).value;
    var j: nat :| j < |chunks| && ChunkSealing(pfx, j, chunks[j]) == Sealing(hdr.nonce, plain, flat[..HEADER_SIZE]);
    HeaderIndex(pfx, j, chunks[j]);
  }

  lemma HeaderIndex(pfx: Bytes, j: nat, plain: Bytes)
    requires |pfx| == 4 && j < TWO_63 && ChunkOk(plain)
    ensures ParseChunkHeader(Marshal(HeaderFor(pfx, j, plain))) == Some(HeaderFor(pfx, j, plain))
    ensures HeaderFor(pfx, j, plain).index == j
  {
    HeaderRoundTrip(HeaderFor(pfx, j, plain));
  }

  /** For arbitrary file contents, LoadChunk returns the writer's chunk of that
      index or an error, never another chunk's data. */
  lemma NeverAnotherChunk(v: Vault, pfx: Bytes, chunks: seq<Bytes>, img: Image, index: int)
    requires v.spec.Valid() && Shaped(img, v.Total())
    requires |pfx| == 4 && OpensOnlySealed(v.cr, ChunkSealings(pfx, chunks)) && |chunks| <= TWO_63
    requires forall i :: 0 <= i < |chunks| ==> ChunkOk(chunks[i])
    ensures
      var r := LoadChunk(v, img, index);
      r.Chunk? ==> 0 <= index < |chunks| && r == Chunk(chunks[index])
  {
    hide Shaped, DecodeFlat, OpensOnlySealed, ChunkSealings, Concat;
    if LoadChunk(v, img, index).Chunk? {
      var parts := Recovered(v, img, index).value[..DATA_SHARDS];
      FlatLength(parts);
      FlatIsAuthentic(v.cr, pfx, chunks, index, Concat(parts));
    }
  }
}
