/** The test-item tree the runner searches (vscode.TestItem reduced to an id and
    its ordered children) and `findTestRecursively` from src/testthat/runner.ts. */
module TestTree {
  import opened Common

  /** The two kinds of item the adapter knows (src/util.ts). */
  datatype ItemType = File | TestCase

  datatype TestItem = TestItem(id: string, children: seq<TestItem>)

  /** An item inside a tree, named by the child indices that lead to it from the
      root; it stands for the object identity the runner keys its maps by. */
  type NodePath = seq<nat>

  predicate ValidPath(t: TestItem, p: NodePath)
    decreases p
  {
    p == [] || (p[0] < |t.children| && ValidPath(t.children[p[0]], p[1..]))
  }

  function NodeAt(t: TestItem, p: NodePath): TestItem
    requires ValidPath(t, p)
    decreases p
  {
    if p == [] then t else NodeAt(t.children[p[0]], p[1..])
  }

  /** `p` names a proper descendant of `t` (never `t` itself). */
  predicate IsDescendant(t: TestItem, p: NodePath) {
    p != [] && ValidPath(t, p)
  }

  /** `q` comes strictly before `p` in a depth-first pre-order walk: an ancestor
      comes before its descendants, and earlier siblings' subtrees come first. */
  predicate PathBefore(q: NodePath, p: NodePath)
    decreases p
  {
    p != [] && (q == [] || q[0] < p[0] || (q[0] == p[0] && PathBefore(q[1..], p[1..])))
  }

  /** What `findTestRecursively` has found after visiting the first `n` children
      of `t`: a child is compared before its own subtree is searched, and once
      something is found the remaining children are passed over. */
  function FindAmong(id: string, t: TestItem, n: nat): Option<NodePath>
    requires n <= |t.children|
    decreases t, n
  {
    if n == 0 then None
    else
      var before := FindAmong(id, t, n - 1);
      var child := t.children[n - 1];
      if before.Some? then before
      else if id == child.id then Some([n - 1])
      else match FindAmong(id, child, |child.children|)
        case Some(p) => Some([n - 1] + p)
        case None => None
  }

  function Find(id: string, t: TestItem): Option<NodePath> {
    FindAmong(id, t, |t.children|)
  }

  lemma StepIntoChild(t: TestItem, i: nat, p: NodePath)
    requires i < |t.children|
    ensures ValidPath(t, [i] + p) <==> ValidPath(t.children[i], p)
    ensures ValidPath(t, [i] + p) ==> NodeAt(t, [i] + p) == NodeAt(t.children[i], p)
  {
    assert ([i] + p)[0] == i && ([i] + p)[1..] == p;
  }

  /** Among the first `n` children's subtrees, the search finds a matching
      descendant, finds none only when there is none, and finds the first one
      in pre-order. */
  lemma {:induction false} FindAmongSpec(id: string, t: TestItem, n: nat)
    requires n <= |t.children|
    ensures FindAmong(id, t, n).Some? ==>
      var p := FindAmong(id, t, n).value;
      IsDescendant(t, p) && p[0] < n && NodeAt(t, p).id == id
    ensures FindAmong(id, t, n).None? ==>
      forall q :: IsDescendant(t, q) && q[0] < n ==> NodeAt(t, q).id != id
    ensures FindAmong(id, t, n).Some? ==>
      forall q :: IsDescendant(t, q) && q[0] < n && NodeAt(t, q).id == id ==>
        !PathBefore(q, FindAmong(id, t, n).value)
    decreases t, n
  {
    if n > 0 {
      var i := n - 1;
      var child := t.children[i];
      FindAmongSpec(id, t, i);
      FindAmongSpec(id, child, |child.children|);
      var inChild := FindAmong(id, child, |child.children|);
      forall q | IsDescendant(t, q) && q[0] == i
        ensures q == [i] || (IsDescendant(child, q[1..]) && NodeAt(t, q) == NodeAt(child, q[1..]))
      {
        assert q == [i] + q[1..];
        StepIntoChild(t, i, q[1..]);
      }
      if FindAmong(id, t, i).None? && id != child.id {
        if inChild.Some? {
          StepIntoChild(t, i, inChild.value);
        }
      } else if FindAmong(id, t, i).None? {
        StepIntoChild(t, i, []);
      }
    }
  }

  /** `findTestRecursively(id, t)` returns the first proper descendant of `t`, in
      depth-first pre-order, whose id is `id`, and nothing exactly when no proper
      descendant has that id. */
  lemma FindIsFirstMatch(id: string, t: TestItem)
    ensures Find(id, t).Some? ==>
      IsDescendant(t, Find(id, t).value) && NodeAt(t, Find(id, t).value).id == id
    ensures Find(id, t).None? <==> forall q :: IsDescendant(t, q) ==> NodeAt(t, q).id != id
    ensures Find(id, t).Some? ==>
      forall q :: IsDescendant(t, q) && NodeAt(t, q).id == id ==> !PathBefore(q, Find(id, t).value)
  {
    FindAmongSpec(id, t, |t.children|);
  }

  /** The loop of `findTestRecursively`: visits every child in order and only
      updates the local result while it is still undefined. */
  method FindTestRecursively(id: string, t: TestItem) returns (found: Option<NodePath>)
    ensures found == Find(id, t)
    decreases t
  {
    found := None;
    var i := 0;
    while i < |t.children|
      invariant 0 <= i <= |t.children|
      invariant found == FindAmong(id, t, i)
    {
      var child := t.children[i];
      if found == None {
        if id == child.id {
          found := Some([i]);
        } else {
          var sub := FindTestRecursively(id, child);
          found := if sub.Some? then Some([i] + sub.value) else None;
        }
      }
      i := i + 1;
    }
  }
}
