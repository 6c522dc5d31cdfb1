/** How `runSingleTestFile` picks the child process's working directory: the
    file path with backslashes turned into slashes, matched against the regular
    expression `(.+?)\/tests\/testthat.+?` with the `i` flag; the first group of
    the match, or the workspace folder when nothing matches. */
module WorkDir {
  import opened Common

  /** `filePath.replace(/\\/g, "/")`. */
  function Normalise(path: string): (r: string)
    ensures |r| == |path| && '\\' !in r
    ensures forall i :: 0 <= i < |path| && path[i] != '\\' ==> r[i] == path[i]
    ensures forall i :: 0 <= i < |path| && path[i] == '\\' ==> r[i] == '/'
  {
    seq(|path|, i requires 0 <= i < |path| => if path[i] == '\\' then '/' else path[i])
  }

  /** The literal part of the pattern. */
  const TestRoot := "/tests/testthat"

  /** The characters a regular-expression `.` does not match. */
  predicate IsLineTerminator(c: char) {
    c == '\n' || c == '\r' || c == '\U{2028}' || c == '\U{2029}'
  }

  predicate NoLineTerminator(w: string) {
    forall c :: c in w ==> !IsLineTerminator(c)
  }

  /** Case folding under the `i` flag for the letters of TestRoot: only ASCII
      letters fold onto them. */
  function FoldAscii(c: char): char {
    if 'A' <= c <= 'Z' then (c as int + 32) as char else c
  }

  /** At `i` stands `/tests/testthat` in any letter case, followed by one more
      character that `.` matches. */
  predicate MarkerAt(p: string, i: nat) {
    i + |TestRoot| < |p| &&
    (forall j :: 0 <= j < |TestRoot| ==> FoldAscii(p[i + j]) == TestRoot[j]) &&
    !IsLineTerminator(p[i + |TestRoot|])
  }

  /** The pattern matches at start `s` with a first group of length `k`. */
  predicate GroupAt(p: string, s: nat, k: nat) {
    1 <= k && s + k <= |p| && NoLineTerminator(p[s..s + k]) && MarkerAt(p, s + k)
  }

  /** The lazy `(.+?)` at start `s`: the shortest group of length `k` or more. */
  function ShortestGroup(p: string, s: nat, k: nat): (r: Option<nat>)
    requires 1 <= k && s + k <= |p| + 1
    ensures r.Some? ==> k <= r.value && s + r.value + |TestRoot| < |p|
    decreases |p| + 1 - (s + k)
  {
    if s + k > |p| || IsLineTerminator(p[s + k - 1]) then None
    else if MarkerAt(p, s + k) then Some(k)
    else ShortestGroup(p, s, k + 1)
  }

  /** The search tries start positions from left to right. */
  function LeftmostGroup(p: string, s: nat): (r: Option<(nat, nat)>)
    ensures r.Some? ==> s <= r.value.0 && 1 <= r.value.1 && r.value.0 + r.value.1 + |TestRoot| < |p|
    decreases |p| - s
  {
    if s >= |p| then None
    else match ShortestGroup(p, s, 1)
      case Some(k) => Some((s, k))
      case None => LeftmostGroup(p, s + 1)
  }

  /** The process's working directory (src/testthat/runner.ts lines 57-58 and 79-81). */
  function WorkingDirectory(filePath: string, workspaceFolder: string): string {
    var clean := Normalise(filePath);
    match LeftmostGroup(clean, 0)
    case Some((s, k)) => clean[s..s + k]
    case None => workspaceFolder
  }

  lemma {:induction false} ShortestGroupSpec(p: string, s: nat, k: nat)
    requires 1 <= k && s + k <= |p| + 1
    requires NoLineTerminator(p[s..s + k - 1])
    ensures ShortestGroup(p, s, k).Some? ==>
      var g := ShortestGroup(p, s, k).value;
      k <= g && GroupAt(p, s, g) && forall j: nat :: k <= j < g ==> !GroupAt(p, s, j)
    ensures ShortestGroup(p, s, k).None? ==> forall j: nat :: k <= j ==> !GroupAt(p, s, j)
    decreases |p| + 1 - (s + k)
  {
    if s + k > |p| {
    } else if IsLineTerminator(p[s + k - 1]) {
      forall j: nat | k <= j
        ensures !GroupAt(p, s, j)
      {
        if s + j <= |p| {
          assert p[s..s + j][k - 1] == p[s + k - 1];
        }
      }
    } else {
      assert p[s..s + k] == p[s..s + k - 1] + [p[s + k - 1]];
      if !MarkerAt(p, s + k) {
        ShortestGroupSpec(p, s, k + 1);
      }
    }
  }

  /** The search returns the match with the leftmost start and, at that start,
      the shortest group; it returns nothing exactly when the pattern matches
      nowhere at or after `s`. */
  lemma {:induction false} LeftmostGroupSpec(p: string, s: nat)
    ensures LeftmostGroup(p, s).Some? ==>
      var (s0, k0) := LeftmostGroup(p, s).value;
      s <= s0 && GroupAt(p, s0, k0) &&
      forall s': nat, k: nat :: s <= s' && GroupAt(p, s', k) ==> s0 < s' || (s0 == s' && k0 <= k)
    ensures LeftmostGroup(p, s).None? <==> forall s': nat, k: nat :: s <= s' ==> !GroupAt(p, s', k)
    decreases |p| - s
  {
    if s < |p| {
      assert p[s..s + 1 - 1] == [];
      ShortestGroupSpec(p, s, 1);
      LeftmostGroupSpec(p, s + 1);
    }
  }

  /** The working directory is the first group of the leftmost, shortest match on
      the slash-normalised path, and the workspace folder exactly when the
      pattern matches nowhere. */
  lemma WorkingDirectoryRule(filePath: string, workspaceFolder: string)
    ensures var clean := Normalise(filePath);
      (forall s: nat, k: nat :: !GroupAt(clean, s, k)) ==>
        WorkingDirectory(filePath, workspaceFolder) == workspaceFolder
    ensures var clean := Normalise(filePath);
      (exists s: nat, k: nat :: GroupAt(clean, s, k)) ==>
        exists s0: nat, k0: nat ::
          GroupAt(clean, s0, k0) && WorkingDirectory(filePath, workspaceFolder) == clean[s0..s0 + k0] &&
          forall s': nat, k: nat :: GroupAt(clean, s', k) ==> s0 < s' || (s0 == s' && k0 <= k)
  {
    var clean := Normalise(filePath);
    LeftmostGroupSpec(clean, 0);
    if LeftmostGroup(clean, 0).Some? {
      var (s0, k0) := LeftmostGroup(clean, 0).value;
      assert WorkingDirectory(filePath, workspaceFolder) == clean[s0..s0 + k0];
    }
  }

  /** On a path without line breaks the directory is the shortest non-empty
      prefix that `/tests/testthat` (any case) and one more character follow. */
  lemma SingleLinePathGivesShortestPrefix(p: string)
    requires NoLineTerminator(p)
    ensures (exists m: nat :: 1 <= m && MarkerAt(p, m)) ==> LeftmostGroup(p, 0).Some?
    ensures LeftmostGroup(p, 0).Some? ==>
      var (s0, k0) := LeftmostGroup(p, 0).value;
      s0 == 0 && 1 <= k0 && MarkerAt(p, k0) && forall j: nat :: 1 <= j < k0 ==> !MarkerAt(p, j)
  {
    LeftmostGroupSpec(p, 0);
    forall m | 1 <= m && MarkerAt(p, m)
      ensures GroupAt(p, 0, m)
    {
      assert forall c :: c in p[0..m] ==> c in p;
    }
    if LeftmostGroup(p, 0).Some? {
      var (s0, k0) := LeftmostGroup(p, 0).value;
      assert GroupAt(p, 0, s0 + k0);
    }
  }
}
