/** The advisory lock of a build's archive is keyed by a 64-bit number made of a
    namespace and the low half of the build id. */
module LockKeys {

  const NAMESPACE: bv64 := 0x44454E4B
  const LOW_HALF: bv64 := 0xFFFF_FFFF

  function ArchiveLockKey(id: bv64): bv64 {
    (NAMESPACE << 32) | (id & LOW_HALF)
  }

  lemma LowHalfIsKept(id: bv64)
    ensures ArchiveLockKey(id) & 0xFFFF_FFFF == id & 0xFFFF_FFFF
  {
  }

  lemma NamespaceIsAbove(id: bv64)
    ensures ArchiveLockKey(id) >> 32 == 0x44454E4B
  {
  }

  lemma SmallIsLowHalf(id: bv64)
    requires id <= 0xFFFF_FFFF
    ensures id & 0xFFFF_FFFF == id
  {
  }

  lemma UpperHalfIsDropped(id: bv64)
    ensures (id + 0x1_0000_0000) & 0xFFFF_FFFF == id & 0xFFFF_FFFF
  {
  }

  lemma SameHalfSameKey(a: bv64, b: bv64)
    requires a & 0xFFFF_FFFF == b & 0xFFFF_FFFF
    ensures ArchiveLockKey(a) == ArchiveLockKey(b)
  {
  }

  /** A key is the namespace over the low half of the id. */
  lemma KeyIsNamespaceAndId(id: bv64)
    ensures ArchiveLockKey(id) >> 32 == 0x44454E4B && ArchiveLockKey(id) & 0xFFFF_FFFF == id & 0xFFFF_FFFF
  {
    NamespaceIsAbove(id);
    LowHalfIsKept(id);
  }

  /** So builds share a lock exactly when their ids agree in the low half. */
  lemma SharedLocks(a: bv64, b: bv64)
    ensures ArchiveLockKey(a) == ArchiveLockKey(b) <==> a & 0xFFFF_FFFF == b & 0xFFFF_FFFF
  {
    if a & 0xFFFF_FFFF == b & 0xFFFF_FFFF { SameHalfSameKey(a, b); }
    if ArchiveLockKey(a) == ArchiveLockKey(b) {
      LowHalfIsKept(a);
      LowHalfIsKept(b);
    }
  }

  lemma SmallIdsDiffer(a: bv64, b: bv64)
    requires a & 0xFFFF_FFFF == a && b & 0xFFFF_FFFF == b && a != b
    ensures ArchiveLockKey(a) != ArchiveLockKey(b)
  {
    SharedLocks(a, b);
  }

  lemma FarIdsShare(id: bv64)
    ensures ArchiveLockKey(id + 0x1_0000_0000) == ArchiveLockKey(id)
  {
    UpperHalfIsDropped(id);
    SameHalfSameKey(id + 0x1_0000_0000, id);
  }

  /** Distinct builds below 2^32 have distinct locks; a build 2^32 further on
      shares its lock. */
  lemma LocksAreDistinct(a: bv64, b: bv64)
    requires a <= 0xFFFF_FFFF && b <= 0xFFFF_FFFF && a != b
    ensures ArchiveLockKey(a) != ArchiveLockKey(b)
    ensures ArchiveLockKey(a + 0x1_0000_0000) == ArchiveLockKey(a)
  {
    assert ArchiveLockKey(a) != ArchiveLockKey(b) by {
      SmallIsLowHalf(a);
      SmallIsLowHalf(b);
      SmallIdsDiffer(a, b);
    }
    FarIdsShare(a);
  }
}
