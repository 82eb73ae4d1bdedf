/**
 * Revision v1.3.0 (NFSVersionManager.hpp): a closed enumeration of supported
 * builds, a static table from entry-point RVA to build, the detected build
 * (computed once from the host's RVA) and the equality query `is`.
 *
 * The RVA and the table are const; the detected key is computed once from
 * them. The model takes the detected key to be that computed value, so it is
 * pure: the detected key is a function of the RVA, and `is` is a predicate
 * of the RVA and the candidate key.
 */
module VersionManager {
  import opened Image

  /** The supported builds, plus the fallback for an unrecognised host. */
  datatype GameKey =
    | Underground
    | Underground2
    | MostWanted
    | Carbon
    | Prostreet
    | Undercover
    | TheRun
    | UnknownNFS

  /** The build fingerprints: entry-point RVA of each supported executable. */
  const Games: map<Rva, GameKey> := map[
    0x270CB5  := Underground,
    0x35BCC7  := Underground2,
    0x3C4040  := MostWanted,
    0x47E926  := Carbon,
    0x428C25  := Prostreet,
    0x4AEC55  := Undercover,
    0x1005AFF := TheRun
  ]

  /** Every key that names a real build. */
  const KnownKeys: set<GameKey> :=
    {Underground, Underground2, MostWanted, Carbon, Prostreet, Undercover, TheRun}

  /** `detectedGameKey`: the table's entry for the RVA, or UnknownNFS. */
  function Detect(rva: Rva): (k: GameKey)
    ensures k == UnknownNFS <==> rva !in Games
    ensures rva in Games ==> k == Games[rva]
  {
    if rva in Games then Games[rva] else UnknownNFS
  }

  /**
   * `is(gameKey)`: does the candidate equal the detected key? In terms of
   * the table: the RVA is a fingerprint of k, or k is UnknownNFS and the RVA
   * is no fingerprint at all.
   */
  predicate Is(rva: Rva, k: GameKey): (r: bool)
    ensures r <==> (rva in Games && Games[rva] == k) || (rva !in Games && k == UnknownNFS)
  {
    k == Detect(rva)
  }

  /** The table's keys are exactly the seven fingerprints. */
  lemma FingerprintsAreTheKeys()
    ensures Games.Keys == {0x270CB5, 0x35BCC7, 0x3C4040, 0x47E926, 0x428C25, 0x4AEC55, 0x1005AFF}
  {
  }

  /** The seven fingerprints are pairwise distinct, so the table has seven entries. */
  lemma TableHasSevenEntries()
    ensures |Games| == 7
  {
  }

  /** Every known build is the value of some fingerprint, and UnknownNFS of none. */
  lemma TableValuesAreKnownKeys()
    ensures Games.Values == KnownKeys && UnknownNFS !in Games.Values
  {
    FingerprintsAreTheKeys();
  }

  /** No two fingerprints name the same build: the table is injective. */
  lemma TableIsInjective()
    ensures forall r1, r2 | r1 in Games && r2 in Games && Games[r1] == Games[r2] :: r1 == r2
  {
  }

  /** The detected key is UnknownNFS exactly when the RVA matches none of the seven fingerprints. */
  lemma UnknownIffNoFingerprint(rva: Rva)
    ensures Is(rva, UnknownNFS) <==>
      rva !in {0x270CB5, 0x35BCC7, 0x3C4040, 0x47E926, 0x428C25, 0x4AEC55, 0x1005AFF}
  {
  }

  /** The Carbon v1.4 executable is recognised as Carbon and as nothing else. */
  lemma DetectsCarbon()
    ensures Detect(0x47E926) == Carbon
    ensures forall k | Is(0x47E926, k) :: k == Carbon
  {
  }

  /**
   * For every RVA exactly one key, counting UnknownNFS, satisfies `is`: the
   * keys that hold form the singleton set of the detected key.
   */
  lemma ExactlyOneKeyHolds(rva: Rva)
    ensures (set k | k in KnownKeys + {UnknownNFS} && Is(rva, k)) == {Detect(rva)}
    ensures |set k | k in KnownKeys + {UnknownNFS} && Is(rva, k)| == 1
    ensures exists k :: Is(rva, k)
  {
  }

  /** At most one real build is detected: two known keys that both hold are the same key. */
  lemma AtMostOneBuild(rva: Rva, k1: GameKey, k2: GameKey)
    requires k1 in KnownKeys && k2 in KnownKeys
    requires Is(rva, k1) && Is(rva, k2)
    ensures k1 == k2 && rva in Games && Games[rva] == k1
  {
  }
}
