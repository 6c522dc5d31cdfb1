/** The devtools version gate of `runSingleTestFile` (src/testthat/runner.ts). */
module Versions {

  /** The (major, minor, patch) triple the version probe reports. */
  datatype Version = Version(major: nat, minor: nat, patch: nat)

  /** The oldest devtools release the adapter accepts. */
  const Minimum := Version(2, 3, 2)

  /** The gate exactly as the runner writes it: three disjuncts over the components. */
  predicate TooOld(v: Version) {
    v.major < 2 || (v.major == 2 && v.minor < 3) || (v.major == 2 && v.minor == 3 && v.patch < 2)
  }

  function Components(v: Version): seq<nat> {
    [v.major, v.minor, v.patch]
  }

  /** Strict lexicographic order on component sequences of the same length. */
  predicate LexBelow(a: seq<nat>, b: seq<nat>)
    requires |a| == |b|
    decreases |a|
  {
    |a| > 0 && (a[0] < b[0] || (a[0] == b[0] && LexBelow(a[1..], b[1..])))
  }

  /** The run is turned away exactly when the version is lexicographically below 2.3.2. */
  lemma GateIsLexicographic(v: Version)
    ensures TooOld(v) <==> LexBelow(Components(v), Components(Minimum))
  {
  }

  /** Any version at or above an accepted one is accepted too; in particular every
      version at or above 2.3.2 passes. */
  lemma GateIsMonotone(v: Version, w: Version)
    requires !TooOld(v)
    requires !LexBelow(Components(w), Components(v))
    ensures !TooOld(w)
  {
  }
}
