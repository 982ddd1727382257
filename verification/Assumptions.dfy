/** The laws assumed of the foreign primitives do not contradict each other. */
module Assumptions {
  import opened Bytes
  import opened ErasureCode
  import opened Layout
  import opened Vault
  import opened Encoder
  import opened Authenticity
  import opened Writes
  import Strong

  function Tagged(plain: Bytes): Bytes {
    plain + Zeros(TAG_SIZE)
  }

  function Untagged(ct: Bytes): Bytes {
    if |ct| >= TAG_SIZE then ct[..|ct| - TAG_SIZE] else []
  }

  /** An AEAD in form only: it keeps a book of what was sealed. */
  function OpenDone(done: set<Sealing>, nonce: Bytes, ct: Bytes, aad: Bytes): Option<Bytes> {
    if Sealing(nonce, Untagged(ct), aad) in done then Some(Untagged(ct)) else None
  }

  /** A tag, that AEAD, and Cauchy codes for every size but the intra-blob one. */
  ghost function Primitives(intra: Code, done: set<Sealing>): Crypto {
    Crypto(_ => Zeros(TAG_SIZE), (_, plain, _) => Tagged(plain), (nonce, ct, aad) => OpenDone(done, nonce, ct, aad),
           intra, (k: nat, m: nat) => Cauchy(k, m), Cauchy(K_STRONG, M_STRONG))
  }

  /** Given any code that meets the contract for the intra-blob sizes, and whatever
      was sealed, there are primitives that meet every law used: the file-level and
      the strong codes stay within the 256 shards the Cauchy code can have, and an
      AEAD can open all that was sealed and nothing else. */
  lemma LawsCanBeMet(intra: Code, done: set<Sealing>)
    requires intra.k == DATA_SHARDS && intra.m == PARITY_SHARDS && intra.sizes(SHARD_SIZE) && Contract(intra)
    ensures
      var cr := Primitives(intra, done);
      TagsOk(cr) && CodesOk(cr) && Strong.StrongOk(cr) && SealOk(cr) && OpensSealed(cr, done) && OpensOnlySealed(cr, done)
  {
    hide Cauchy, Contract, ColumnWise, AnySize;
    var cr := Primitives(intra, done);
    forall k: nat, m: nat | 1 <= k <= FILE_GROUP_CHUNKS && 1 <= m <= FILE_PARITY_SHARDS
      ensures FileCodeOk(cr, k, m)
    {
      CauchyMeetsContract(k, m);
      CauchySizes(k, m);
    }
    CauchyMeetsContract(K_STRONG, M_STRONG);
    CauchySizes(K_STRONG, M_STRONG);
    forall plain: Bytes
      ensures Untagged(Tagged(plain)) == plain
    {
      assert Tagged(plain)[..|plain|] == plain;
    }
  }

  lemma CauchySizes(k: nat, m: nat)
    ensures Cauchy(k, m).k == k && Cauchy(k, m).m == m
  {}
}
