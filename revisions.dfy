/**
 * The two revisions side by side. The v1.0.0 checks hard-code the same seven
 * entry-point RVAs that the v1.3.0 table holds, so on the same host each
 * v1.0.0 check agrees with the v1.3.0 detector.
 */
module Revisions {
  import opened Image
  import V1 = NfsVersion
  import V3 = VersionManager

  /** The v1.3.0 key each v1.0.0 check stands for. */
  function KeyOf(c: V1.Check): (k: V3.GameKey)
    ensures k in V3.KnownKeys
  {
    match c
    case UG1 => V3.Underground
    case UG2 => V3.Underground2
    case MW05 => V3.MostWanted
    case Carbon => V3.Carbon
    case PS => V3.Prostreet
    case UC => V3.Undercover
    case TR => V3.TheRun
  }

  /** Every known build has exactly one v1.0.0 check, and no check stands for UnknownNFS. */
  lemma KeyOfIsBijective(k: V3.GameKey)
    ensures k in V3.KnownKeys <==> exists c :: KeyOf(c) == k
    ensures forall c, d | KeyOf(c) == KeyOf(d) :: c == d
  {
    if k in V3.KnownKeys {
      var c :=
        match k
        case Underground => V1.UG1
        case Underground2 => V1.UG2
        case MostWanted => V1.MW05
        case Carbon => V1.Carbon
        case Prostreet => V1.PS
        case Undercover => V1.UC
        case _ => V1.TR;
      assert KeyOf(c) == k;
    }
  }

  /** Each check's constant is the table's fingerprint of the corresponding key. */
  lemma ConstantsMatchTable(c: V1.Check)
    ensures V1.ExpectedRva(c) in V3.Games && V3.Games[V1.ExpectedRva(c)] == KeyOf(c)
  {
  }

  /** On the same host, a v1.0.0 check succeeds exactly when v1.3.0 detects its build. */
  lemma CheckAgreesWithDetector(rva: Rva, c: V1.Check)
    ensures V1.Passes(rva, c) <==> V3.Is(rva, KeyOf(c))
  {
  }

  /** On a host the table does not know, every v1.0.0 check fails. */
  lemma UnknownHostFailsEveryCheck(rva: Rva, c: V1.Check)
    requires V3.Is(rva, V3.UnknownNFS)
    ensures !V1.Passes(rva, c)
  {
  }

  /** On a host the table knows, exactly the check for the detected build succeeds. */
  lemma KnownHostPassesOneCheck(rva: Rva)
    requires !V3.Is(rva, V3.UnknownNFS)
    ensures exists c :: V1.Passes(rva, c)
    ensures forall c | V1.Passes(rva, c) :: KeyOf(c) == V3.Detect(rva)
  {
    var k := V3.Detect(rva);
    V3.TableValuesAreKnownKeys();
    KeyOfIsBijective(k);
    var c :| KeyOf(c) == k;
    CheckAgreesWithDetector(rva, c);
    forall d | V1.Passes(rva, d) ensures KeyOf(d) == k {
      CheckAgreesWithDetector(rva, d);
    }
  }
}
