# NFSVersionManager, modelled in Dafny

NFSVersionManager is a header-only helper for mods that are injected as a DLL
into a Need for Speed game. It identifies which supported executable build
hosts the DLL by reading one number from the host's own loaded image: the
entry-point relative virtual address (RVA) in the PE optional header. Each
supported build has its own entry-point RVA, which serves as a fingerprint.

Two revisions of the header are modelled:

- **v1.3.0** (`NFSVersionManager.hpp`), module `VersionManager`
  (`version_manager.dfy`). It has a closed `GameKey` enumeration with an
  `UnknownNFS` sentinel, a constant `games` table from RVA to key, the
  `detectedGameKey` lookup and the query `is(key)`. The RVA and the table are
  `const`; the detected key is computed once from them at static
  initialisation. The model takes the detected key to be that computed value,
  so this revision becomes pure functions of the RVA.
- **v1.0.0** (`nfs_version.hpp`), module `NfsVersion` (`nfs_version.dfy`). It
  has seven checks (`isUG1` … `isTR`). Each compares the RVA with a
  hard-coded constant. On failure, each overwrites one shared `errorMessage`
  string through `setError`. This revision is modelled as the class
  `NFSVersionManager`, with a constant `entryPointRVA`, a mutable
  `errorMessage` and a ghost `history` of the checks made so far. Its
  invariant `Valid()` says the slot equals `Run(entryPointRVA, history)`,
  which folds the checks over the empty string.
- Module `Revisions` (`revisions.dfy`) proves that the two revisions agree on
  every host.
- Module `Image` (`image.dfy`) holds the RVA type: a 32-bit unsigned value,
  because `AddressOfEntryPoint` is a DWORD.

The header walk that produces the RVA (`GetModuleHandleA`, then `e_lfanew`,
then the NT headers) is not modelled. The RVA is an input: a function
argument in v1.3.0 and a constructor argument in v1.0.0.

v1.3.0's `is` takes only a key and writes no message; only v1.0.0 has an
error slot.

## Model

| member | source | states |
|---|---|---|
| `VersionManager.Detect` | NFSVersionManager.hpp:88-91 | The detected key is `UnknownNFS` exactly when the RVA is not a key of the table. Otherwise it is the table's value for that RVA. |
| `VersionManager.Is` | NFSVersionManager.hpp:94-96 | `is(k)` holds exactly when the RVA is the table's fingerprint of k, or when the RVA is no fingerprint and k is `UnknownNFS`. This is the same as k being the detected key. |
| `VersionManager.FingerprintsAreTheKeys` | NFSVersionManager.hpp:76-84 | The table's keys are exactly the seven entry-point constants. |
| `VersionManager.TableHasSevenEntries` | NFSVersionManager.hpp:76-84 | The seven constants are pairwise distinct, so the table has seven entries and no entry overwrites another. |
| `VersionManager.TableValuesAreKnownKeys` | NFSVersionManager.hpp:54-84 | Every real game key is a value of the table. `UnknownNFS` never is. |
| `VersionManager.TableIsInjective` | NFSVersionManager.hpp:76-84 | No two fingerprints map to the same key. |
| `VersionManager.UnknownIffNoFingerprint` | NFSVersionManager.hpp:88-96 | `is(UnknownNFS)` holds exactly when the RVA equals none of the seven constants. |
| `VersionManager.DetectsCarbon` | NFSVersionManager.hpp:80-96 | RVA `0x47E926` is detected as `Carbon`, and `Carbon` is the only key `is` accepts for it. |
| `VersionManager.ExactlyOneKeyHolds` | NFSVersionManager.hpp:94-96 | For every RVA, the set of keys (counting `UnknownNFS`) that satisfy `is` is the singleton of the detected key. |
| `VersionManager.AtMostOneBuild` | NFSVersionManager.hpp:94-96 | If two real keys both satisfy `is`, they are the same key, and the RVA is that key's fingerprint. |
| `NfsVersion.ExpectedRva` | nfs_version.hpp:67-122 | The constant each check compares the RVA with: `0x270CB5`, `0x35BCC7`, `0x3C4040`, `0x47E926`, `0x428C25`, `0x4AEC55`, `0x1005AFF` for `isUG1` … `isTR`. Each constant belongs to exactly one check. |
| `NfsVersion.Label` | nfs_version.hpp:67-122 | The label each check passes to `setError`, from "Underground v1.4" to "The Run v1.1.0.0". Each label belongs to exactly one check. |
| `NfsVersion.Passes` | nfs_version.hpp:67-122 | Check c succeeds exactly when the RVA equals `ExpectedRva(c)`, and then no other check's constant matches. |
| `NfsVersion.ErrorText` | nfs_version.hpp:61-65 | The message is a fixed prefix, then the label, then a fixed suffix, and the label can be read back from between them. |
| `NfsVersion.After` | nfs_version.hpp:61-73 | One check's effect on the slot. A passing check keeps the slot. A failing check overwrites the slot, whatever it held, with the checked game's message. |
| `NfsVersion.Run` | nfs_version.hpp:59-65 | The slot after running the checks in order, starting from empty. It is empty, or it is the message of one of the checks that were run and failed. It is never a concatenation of messages. |
| `NfsVersion.ErrorTextInjective` | nfs_version.hpp:61-65 | Different labels never produce the same message. |
| `NfsVersion.LabelsDistinct` | nfs_version.hpp:67-122 | The seven labels passed to `setError` are pairwise distinct. |
| `NfsVersion.FailureNamesCheckedGame` | nfs_version.hpp:61-73 | A failing check leaves the message naming the checked game. That message equals no other check's message. |
| `NfsVersion.AtMostOnePasses` | nfs_version.hpp:67-122 | The seven constants are pairwise distinct, so at most one check can succeed for a given RVA. |
| `NfsVersion.RepeatIsIdempotent` | nfs_version.hpp:67-122 | Running the same check twice in a row leaves the same error slot as running it once. |
| `NfsVersion.EmptyIffNoFailure` | nfs_version.hpp:59-65 | After any sequence of checks starting from an empty slot, the slot is empty exactly when no check failed. |
| `NfsVersion.LastFailureMessage` | nfs_version.hpp:59-65 | A failing check followed only by passing checks leaves its own message in the slot. |
| `NfsVersion.LastFailureWins` | nfs_version.hpp:59-65 | After any sequence of checks starting from an empty slot, the slot is empty exactly when no check failed. Otherwise it holds the message of the last failing check. |
| `NfsVersion.NFSVersionManager.constructor` | nfs_version.hpp:51-59 | Initialisation stores the host's RVA and an empty error slot, with no checks made. |
| `NfsVersion.NFSVersionManager.SetError` | nfs_version.hpp:61-65 | The slot is overwritten, not appended to, with the message for the given label. |
| `NfsVersion.NFSVersionManager.IsUG1` | nfs_version.hpp:67-74 | Returns true iff the RVA is `0x270CB5`. On success the slot is unchanged. On failure it becomes the "Underground v1.4" message. |
| `NfsVersion.NFSVersionManager.IsUG2` | nfs_version.hpp:75-82 | Returns true iff the RVA is `0x35BCC7`. On success the slot is unchanged. On failure it becomes the "Underground 2 v1.2" message. |
| `NfsVersion.NFSVersionManager.IsMW05` | nfs_version.hpp:83-90 | Returns true iff the RVA is `0x3C4040`. On success the slot is unchanged. On failure it becomes the "Most Wanted v1.3" message. |
| `NfsVersion.NFSVersionManager.IsCarbon` | nfs_version.hpp:91-98 | Returns true iff the RVA is `0x47E926`. On success the slot is unchanged. On failure it becomes the "Carbon v1.4" message. |
| `NfsVersion.NFSVersionManager.IsPS` | nfs_version.hpp:99-106 | Returns true iff the RVA is `0x428C25`. On success the slot is unchanged. On failure it becomes the "Prostreet v1.1" message. |
| `NfsVersion.NFSVersionManager.IsUC` | nfs_version.hpp:107-114 | Returns true iff the RVA is `0x4AEC55`. On success the slot is unchanged. On failure it becomes the "Undercover v1.0.0.1" message. |
| `NfsVersion.NFSVersionManager.IsTR` | nfs_version.hpp:115-122 | Returns true iff the RVA is `0x1005AFF`. On success the slot is unchanged. On failure it becomes the "The Run v1.1.0.0" message. |
| `NfsVersion.NFSVersionManager.GetErrorMessage` | nfs_version.hpp:123-125 | Returns the slot verbatim and modifies nothing. The result is empty exactly when no check so far failed. Otherwise it is the message of the last failing check. |
| `Revisions.KeyOf` | NFSVersionManager.hpp:54-63 | Each v1.0.0 check stands for a real key, never `UnknownNFS`. |
| `Revisions.KeyOfIsBijective` | NFSVersionManager.hpp:54-63 | Every real key has exactly one v1.0.0 check, and different checks stand for different keys. |
| `Revisions.ConstantsMatchTable` | NFSVersionManager.hpp:76-84 | Each v1.0.0 constant is a key of the v1.3.0 table, mapped to the key of the same game. |
| `Revisions.CheckAgreesWithDetector` | nfs_version.hpp:67-122 | On the same RVA, each v1.0.0 check succeeds exactly when v1.3.0's `is` holds for its game's key. |
| `Revisions.UnknownHostFailsEveryCheck` | NFSVersionManager.hpp:88-91 | When v1.3.0 detects `UnknownNFS`, every v1.0.0 check fails. |
| `Revisions.KnownHostPassesOneCheck` | NFSVersionManager.hpp:88-96 | When v1.3.0 detects a real game, some v1.0.0 check succeeds, and every check that succeeds is the detected game's check. |

## Left out

- Reading the host image (nfs_version.hpp:51-57, NFSVersionManager.hpp:67-73): `GetModuleHandleA` and the raw pointer walk through the DOS and NT headers. This is foreign code and process memory. The RVA is an input instead.
- `displayErrorMessage` (nfs_version.hpp:126-128): a blocking `MessageBoxA` call, which is UI I/O.
- C++ static-initialisation order and thread safety. The model has a single sequential caller. The unprotected shared slot of v1.0.0 is one object's field.
- `std::unordered_map` hashing. The table is a Dafny `map`, with the same lookup semantics.
- The file sizes listed in the v1.3.0 header comment. They are documentation only, and no code uses them.
- `is` leaves state unchanged: in v1.3.0 this holds by construction, because `Is` is a pure function of the RVA and the key. No separate lemma states it.
- In v1.0.0 the RVA and the slot are static members shared by the whole process. The model makes them fields of one object, so it does not capture two objects sharing a slot.
- `detectedGameKey` (NFSVersionManager.hpp:88-91) is a public, non-const static. The model fixes it to `Detect(rva)` and assumes no client overwrites it. If a client did overwrite it, `is` would compare against the written value, and the lemmas relating `Is` to the table would no longer describe the program.
- `NFSVersionManager.SetError` and `errorMessage` are private in the source (nfs_version.hpp:58-65). Dafny cannot hide them, so a client could call `SetError` directly and break `Valid()`. Every public contract requires `Valid()`, so the model gives nothing to such a caller.
