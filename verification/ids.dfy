/** The composite key under which a session files both its templates and its
    record sizes: a 16-bit template ID and a 32-bit observation-domain ID packed
    into one unsigned 64-bit word (session/session.go, `combinedID`).

    Go's `uint16`, `uint32` and `uint64` are modelled as the bit-vector types
    of the same width, so the packing is written exactly as the Go expression. */
module Ids {

  /** A template ID, Go's `uint16`. */
  type TemplateID = bv16

  /** An observation-domain ID, Go's `uint32`. */
  type DomainID = bv32

  /** A map key: the `uint64` word the Go maps are indexed by. It is wrapped
      in a datatype because the verifier handles maps indexed by datatype
      values better than maps indexed by bare bit-vectors. */
  datatype Key = Key(word: bv64)

  /** Number of bits the template ID is shifted left by. */
  const TidShift: bv64 := 32

  /** Mask that selects the observation-domain bits of a key. */
  const OidMask: bv64 := 0xFFFF_FFFF

  /** A key that some (tid, oid) pair produces: bits 48..63 are zero. */
  predicate IsCombined(key: Key) {
    key.word >> 48 == 0
  }

  /** The template ID stored in bits 32..47 of a packed key. */
  function TidOf(key: Key): (tid: TemplateID)
    requires IsCombined(key)
  {
    (key.word >> TidShift) as bv16
  }

  /** The observation-domain ID stored in bits 0..31 of a packed key. */
  function OidOf(key: Key): (oid: DomainID) {
    (key.word & OidMask) as bv32
  }

  /** `uint64(tid)<<32 | uint64(oid)`. The two fields land in disjoint bit
      ranges, so neither is truncated and both can be read back. */
  function CombinedID(tid: TemplateID, oid: DomainID): (key: Key)
    ensures IsCombined(key)
    ensures TidOf(key) == tid
    ensures OidOf(key) == oid
  {
    Key(((tid as bv64) << TidShift) | (oid as bv64))
  }

  /** The packing agrees with the arithmetic reading tid * 2^32 + oid; since
      tid < 2^16 this sum cannot wrap around in 64 bits. */
  lemma CombinedIDIsPositional(tid: TemplateID, oid: DomainID)
    ensures CombinedID(tid, oid).word == (tid as bv64) * 0x1_0000_0000 + (oid as bv64)
    ensures CombinedID(tid, oid).word < 0x1_0000_0000_0000
  {
  }

  /** Distinct (tid, oid) pairs never share a key, and equal pairs always do. */
  lemma CombinedIDInjective(tid1: TemplateID, oid1: DomainID, tid2: TemplateID, oid2: DomainID)
    ensures CombinedID(tid1, oid1) == CombinedID(tid2, oid2) <==> tid1 == tid2 && oid1 == oid2
  {
    if CombinedID(tid1, oid1) == CombinedID(tid2, oid2) {
      assert tid1 == TidOf(CombinedID(tid1, oid1));
      assert oid1 == OidOf(CombinedID(tid1, oid1));
    }
  }

  /** The injectivity of `CombinedID`, for all pairs at once. */
  lemma CombinedIDSeparates()
    ensures forall tid1, oid1, tid2, oid2 :: CombinedID(tid1, oid1) == CombinedID(tid2, oid2) ==> tid1 == tid2 && oid1 == oid2
  {
    forall tid1, oid1, tid2, oid2 | CombinedID(tid1, oid1) == CombinedID(tid2, oid2)
      ensures tid1 == tid2 && oid1 == oid2
    {
      CombinedIDInjective(tid1, oid1, tid2, oid2);
    }
  }

  /** Every key with clear top 16 bits is the packing of exactly the pair read
      back out of it, so the packing is a bijection onto such keys. */
  lemma CombinedIDSurjective(key: Key)
    requires IsCombined(key)
    ensures CombinedID(TidOf(key), OidOf(key)) == key
  {
  }
}
