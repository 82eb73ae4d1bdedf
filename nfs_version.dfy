/**
 * Revision v1.0.0 (nfs_version.hpp): one boolean check per supported build,
 * each comparing the host's entry-point RVA with a hard-coded constant, and
 * one process-wide error-message slot that a failing check overwrites.
 *
 * The slot is the only state that changes, so the struct becomes a class
 * with a constant `entryPointRVA` and a mutable `errorMessage`. A ghost
 * history of the checks made so far lets the object invariant say what the
 * slot holds: the fold `Run` of the checks over the empty string.
 */
module NfsVersion {
  import opened Image

  /** The seven checks, one constructor per `isX` function. */
  datatype Check = UG1 | UG2 | MW05 | Carbon | PS | UC | TR

  /**
   * The constant each check compares the entry-point RVA with. Each constant
   * belongs to exactly one check.
   */
  function ExpectedRva(c: Check): (r: Rva)
    ensures r == 0x270CB5 <==> c == UG1
    ensures r == 0x35BCC7 <==> c == UG2
    ensures r == 0x3C4040 <==> c == MW05
    ensures r == 0x47E926 <==> c == Carbon
    ensures r == 0x428C25 <==> c == PS
    ensures r == 0x4AEC55 <==> c == UC
    ensures r == 0x1005AFF <==> c == TR
  {
    match c
    case UG1 => 0x270CB5
    case UG2 => 0x35BCC7
    case MW05 => 0x3C4040
    case Carbon => 0x47E926
    case PS => 0x428C25
    case UC => 0x4AEC55
    case TR => 0x1005AFF
  }

  /**
   * The label each failing check writes into the error message. Each label
   * belongs to exactly one check.
   */
  function Label(c: Check): (r: string)
    ensures r == "Underground v1.4" <==> c == UG1
    ensures r == "Underground 2 v1.2" <==> c == UG2
    ensures r == "Most Wanted v1.3" <==> c == MW05
    ensures r == "Carbon v1.4" <==> c == Carbon
    ensures r == "Prostreet v1.1" <==> c == PS
    ensures r == "Undercover v1.0.0.1" <==> c == UC
    ensures r == "The Run v1.1.0.0" <==> c == TR
  {
    match c
    case UG1 => "Underground v1.4"
    case UG2 => "Underground 2 v1.2"
    case MW05 => "Most Wanted v1.3"
    case Carbon => "Carbon v1.4"
    case PS => "Prostreet v1.1"
    case UC => "Undercover v1.0.0.1"
    case TR => "The Run v1.1.0.0"
  }

  const Prefix: string := "This .exe is not compatible \nUse "
  const Suffix: string := " executable. \n"

  /**
   * The text `setError(game)` stores: a fixed prefix, the label, a fixed
   * suffix. The label can be read back from the middle of the message.
   */
  function ErrorText(game: string): (m: string)
    ensures |m| == |Prefix| + |game| + |Suffix|
    ensures m[..|Prefix|] == Prefix && m[|m| - |Suffix|..] == Suffix
    ensures m[|Prefix|..|m| - |Suffix|] == game
  {
    "This .exe is not compatible \n" + "Use " + game + " executable. \n"
  }

  /**
   * Does check c succeed on a host whose entry-point RVA is rva? It does
   * exactly when the RVA is c's constant, and then no other check's constant
   * matches.
   */
  predicate Passes(rva: Rva, c: Check): (r: bool)
    ensures rva == ExpectedRva(c) ==> r
    ensures r ==> rva == ExpectedRva(c) && forall d | d != c :: rva != ExpectedRva(d)
  {
    rva == ExpectedRva(c)
  }

  /**
   * The reference step: the error slot after running check c on a slot that
   * held msg. `Run` folds it, and every `isX` method is specified by it.
   */
  function After(msg: string, rva: Rva, c: Check): (r: string)
    ensures Passes(rva, c) ==> r == msg
    ensures !Passes(rva, c) ==> r == ErrorText(Label(c))
  {
    if Passes(rva, c) then msg else ErrorText(Label(c))
  }

  /**
   * The error slot after running the checks in order, starting empty. The
   * slot is never a concatenation: it is empty, or the message of one of the
   * checks that were run and failed.
   */
  function Run(rva: Rva, checks: seq<Check>): (r: string)
    ensures r == "" || exists c | c in checks :: !Passes(rva, c) && r == ErrorText(Label(c))
  {
    if checks == [] then ""
    else After(Run(rva, checks[..|checks| - 1]), rva, checks[|checks| - 1])
  }

  /** No check after position i fails. */
  predicate NoFailureAfter(rva: Rva, checks: seq<Check>, i: nat)
  {
    forall j | i < j < |checks| :: Passes(rva, checks[j])
  }

  lemma RunAppend(rva: Rva, checks: seq<Check>, c: Check)
    ensures Run(rva, checks + [c]) == After(Run(rva, checks), rva, c)
  {
  }

  /** Two different labels never produce the same message. */
  lemma ErrorTextInjective(a: string, b: string)
    requires ErrorText(a) == ErrorText(b)
    ensures a == b
  {
  }

  /** The seven labels are pairwise distinct. */
  lemma LabelsDistinct(c: Check, d: Check)
    requires Label(c) == Label(d)
    ensures c == d
  {
  }

  /**
   * A failing check writes the message naming the checked game, and that
   * message names no other game.
   */
  lemma FailureNamesCheckedGame(msg: string, rva: Rva, c: Check, d: Check)
    requires !Passes(rva, c)
    ensures After(msg, rva, c) == ErrorText(Label(c))
    ensures After(msg, rva, c) == ErrorText(Label(d)) ==> c == d
  {
  }

  /** The seven constants are pairwise distinct: at most one check passes. */
  lemma AtMostOnePasses(rva: Rva, c: Check, d: Check)
    requires Passes(rva, c) && Passes(rva, d)
    ensures c == d
  {
  }

  /**
   * Repeating a check leaves the error slot as running it once does. (Its
   * result, `Passes(rva, c)`, depends on the RVA alone, so it repeats too.)
   */
  lemma RepeatIsIdempotent(rva: Rva, checks: seq<Check>, c: Check)
    ensures Run(rva, checks + [c, c]) == Run(rva, checks + [c])
  {
    RunAppend(rva, checks, c);
    assert checks + [c, c] == (checks + [c]) + [c];
    RunAppend(rva, checks + [c], c);
  }

  /** The slot is empty exactly when no check so far failed. */
  lemma {:induction false} EmptyIffNoFailure(rva: Rva, checks: seq<Check>)
    ensures Run(rva, checks) == "" <==> forall i | 0 <= i < |checks| :: Passes(rva, checks[i])
  {
    if checks != [] {
      var n := |checks| - 1;
      EmptyIffNoFailure(rva, checks[..n]);
      assert forall i | 0 <= i < n :: checks[..n][i] == checks[i];
      if !Passes(rva, checks[n]) {
        assert |ErrorText(Label(checks[n]))| > 0;
      }
    }
  }

  /** A failing check followed only by passing checks leaves its message in the slot. */
  lemma {:induction false} LastFailureMessage(rva: Rva, checks: seq<Check>, i: nat)
    requires i < |checks| && !Passes(rva, checks[i]) && NoFailureAfter(rva, checks, i)
    ensures Run(rva, checks) == ErrorText(Label(checks[i]))
    decreases |checks|
  {
    var n := |checks| - 1;
    var front := checks[..n];
    if i == n {
      assert Run(rva, checks) == After(Run(rva, front), rva, checks[n]);
    } else {
      assert Passes(rva, checks[n]);
      assert NoFailureAfter(rva, front, i) by {
        forall j | i < j < |front| ensures Passes(rva, front[j]) {
          assert front[j] == checks[j];
        }
      }
      LastFailureMessage(rva, front, i);
      calc {
        Run(rva, checks);
        After(Run(rva, front), rva, checks[n]);
        Run(rva, front);
        ErrorText(Label(front[i]));
        { assert front[i] == checks[i]; }
        ErrorText(Label(checks[i]));
      }
    }
  }

  /**
   * After any sequence of checks the slot is empty exactly when none failed,
   * and otherwise holds the message of the last failing check.
   */
  lemma LastFailureWins(rva: Rva, checks: seq<Check>)
    ensures Run(rva, checks) == "" <==> forall i | 0 <= i < |checks| :: Passes(rva, checks[i])
    ensures forall i | 0 <= i < |checks| && !Passes(rva, checks[i]) && NoFailureAfter(rva, checks, i) ::
      Run(rva, checks) == ErrorText(Label(checks[i]))
  {
    EmptyIffNoFailure(rva, checks);
    forall i | 0 <= i < |checks| && !Passes(rva, checks[i]) && NoFailureAfter(rva, checks, i)
      ensures Run(rva, checks) == ErrorText(Label(checks[i]))
    {
      LastFailureMessage(rva, checks, i);
    }
  }

  /**
   * `struct NFSVersionManager` of v1.0.0: the entry-point RVA, read once,
   * and the shared error slot, last write wins.
   */
  class NFSVersionManager {
    const entryPointRVA: Rva
    var errorMessage: string
    /** The checks made on this object so far, in order. */
    ghost var history: seq<Check>

    ghost predicate Valid()
      reads this
    {
      errorMessage == Run(entryPointRVA, history)
    }

    /** Static initialisation: the RVA read from the header, an empty slot. */
    constructor (rva: Rva)
      ensures Valid()
      ensures entryPointRVA == rva && errorMessage == "" && history == []
    {
      entryPointRVA := rva;
      errorMessage := "";
      history := [];
    }

    /**
     * `setError`: overwrites the slot. It is private in the source and is
     * called only from the checks, which restore Valid() right after.
     */
    method SetError(game: string)
      modifies this`errorMessage
      ensures errorMessage == ErrorText(game)
    {
      errorMessage := ErrorText(game);
    }

    /** Records check c in the ghost history, keeping Valid(). */
    ghost method Record(c: Check)
      requires errorMessage == After(Run(entryPointRVA, history), entryPointRVA, c)
      modifies this`history
      ensures Valid() && history == old(history) + [c]
    {
      RunAppend(entryPointRVA, history, c);
      history := history + [c];
    }

    method IsUG1() returns (ok: bool)
      requires Valid()
      modifies this
      ensures Valid() && history == old(history) + [UG1]
      ensures ok <==> entryPointRVA == 0x270CB5
      ensures errorMessage == if ok then old(errorMessage) else ErrorText("Underground v1.4")
    {
      if entryPointRVA == 0x270CB5 {
        Record(UG1);
        return true;
      }
      SetError("Underground v1.4");
      Record(UG1);
      return false;
    }

    method IsUG2() returns (ok: bool)
      requires Valid()
      modifies this
      ensures Valid() && history == old(history) + [UG2]
      ensures ok <==> entryPointRVA == 0x35BCC7
      ensures errorMessage == if ok then old(errorMessage) else ErrorText("Underground 2 v1.2")
    {
      if entryPointRVA == 0x35BCC7 {
        Record(UG2);
        return true;
      }
      SetError("Underground 2 v1.2");
      Record(UG2);
      return false;
    }

    method IsMW05() returns (ok: bool)
      requires Valid()
      modifies this
      ensures Valid() && history == old(history) + [MW05]
      ensures ok <==> entryPointRVA == 0x3C4040
      ensures errorMessage == if ok then old(errorMessage) else ErrorText("Most Wanted v1.3")
    {
      if entryPointRVA == 0x3C4040 {
        Record(MW05);
        return true;
      }
      SetError("Most Wanted v1.3");
      Record(MW05);
      return false;
    }

    method IsCarbon() returns (ok: bool)
      requires Valid()
      modifies this
      ensures Valid() && history == old(history) + [Carbon]
      ensures ok <==> entryPointRVA == 0x47E926
      ensures errorMessage == if ok then old(errorMessage) else ErrorText("Carbon v1.4")
    {
      if entryPointRVA == 0x47E926 {
        Record(Carbon);
        return true;
      }
      SetError("Carbon v1.4");
      Record(Carbon);
      return false;
    }

    method IsPS() returns (ok: bool)
      requires Valid()
      modifies this
      ensures Valid() && history == old(history) + [PS]
      ensures ok <==> entryPointRVA == 0x428C25
      ensures errorMessage == if ok then old(errorMessage) else ErrorText("Prostreet v1.1")
    {
      if entryPointRVA == 0x428C25 {
        Record(PS);
        return true;
      }
      SetError("Prostreet v1.1");
      Record(PS);
      return false;
    }

    method IsUC() returns (ok: bool)
      requires Valid()
      modifies this
      ensures Valid() && history == old(history) + [UC]
      ensures ok <==> entryPointRVA == 0x4AEC55
      ensures errorMessage == if ok then old(errorMessage) else ErrorText("Undercover v1.0.0.1")
    {
      if entryPointRVA == 0x4AEC55 {
        Record(UC);
        return true;
      }
      SetError("Undercover v1.0.0.1");
      Record(UC);
      return false;
    }

    method IsTR() returns (ok: bool)
      requires Valid()
      modifies this
      ensures Valid() && history == old(history) + [TR]
      ensures ok <==> entryPointRVA == 0x1005AFF
      ensures errorMessage == if ok then old(errorMessage) else ErrorText("The Run v1.1.0.0")
    {
      if entryPointRVA == 0x1005AFF {
        Record(TR);
        return true;
      }
      SetError("The Run v1.1.0.0");
      Record(TR);
      return false;
    }

    /**
     * `getErrorMessage`: the slot verbatim, changing nothing. It is empty
     * exactly when no check so far failed, and otherwise the message of the
     * last failing check.
     */
    method GetErrorMessage() returns (m: string)
      requires Valid()
      ensures m == errorMessage
      ensures m == "" <==> forall i | 0 <= i < |history| :: Passes(entryPointRVA, history[i])
      ensures forall i | 0 <= i < |history| && !Passes(entryPointRVA, history[i])
                         && NoFailureAfter(entryPointRVA, history, i) ::
        m == ErrorText(Label(history[i]))
    {
      m := errorMessage;
      LastFailureWins(entryPointRVA, history);
    }
  }

  /**
   * A host running Carbon v1.4: the Carbon check succeeds, the Underground
   * check fails and leaves a message naming Underground, not Carbon; a
   * later successful check keeps that message.
   */
  method CarbonHostScenario()
  {
    var manager := new NFSVersionManager(0x47E926);
    var carbon := manager.IsCarbon();
    assert carbon;
    var m := manager.GetErrorMessage();
    assert m == "";
    var ug1 := manager.IsUG1();
    assert !ug1;
    carbon := manager.IsCarbon();
    m := manager.GetErrorMessage();
    assert m == ErrorText("Underground v1.4");
  }
}
