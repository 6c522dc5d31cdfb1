/** Shared vocabulary of the runner model: optional values, the reasons a run is
    rejected, and results of the preparation phase. */
module Common {

  datatype Option<+T> = None | Some(value: T)

  /** Why a run's promise is rejected. */
  datatype RunError =
    | FilePathMissing              // the item has no file URI
    | RscriptMissing               // no Rscript executable was found
    | VersionUndetected(output: string)  // the devtools version probe printed no version
    | VersionTooOld                // devtools is older than 2.3.2
    | WorkspaceMissing             // no workspace folder is open
    | SpawnFailed(reason: string)  // the child process emitted "error"
    | TestNotFound(id: string)     // a streamed label resolved to no item
    | ExecutionHalted(transcript: string)  // the fatal marker was seen on exit

  datatype Result<+T> = Ok(value: T) | Err(error: RunError)

  /** `w` occurs somewhere in `s` (String.prototype.includes). */
  predicate Contains(s: string, w: string)
    decreases |s|
  {
    w <= s || (|s| > 0 && Contains(s[1..], w))
  }

  lemma {:induction false} ContainsInSuffix(a: string, b: string, w: string)
    requires Contains(b, w)
    ensures Contains(a + b, w)
    decreases |a|
  {
    if |a| == 0 {
      assert a + b == b;
    } else {
      assert (a + b)[1..] == a[1..] + b;
      ContainsInSuffix(a[1..], b, w);
    }
  }

  lemma {:induction false} ContainsInPrefix(a: string, b: string, w: string)
    requires Contains(a, w)
    ensures Contains(a + b, w)
    decreases |a|
  {
    if w <= a {
      assert w <= a + b;
    } else {
      assert (a + b)[1..] == a[1..] + b;
      ContainsInPrefix(a[1..], b, w);
    }
  }
}
