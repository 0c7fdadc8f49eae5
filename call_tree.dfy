/** The profiler's top-down call tree and the pre-order walk that numbers its nodes
    (`visit` in src/plugins/node/prof/nodeprofplugin.cpp). */
module CallTree {

  /** One frame of the call tree as V8 reports it. `extractable` is false when copying
      the function name or the script name out of V8 fails. */
  datatype ProfileNode = ProfileNode(
    functionName: string,
    scriptName: string,
    lineNumber: int,
    hitCount: nat,
    children: seq<ProfileNode>,
    extractable: bool)

  /** One step of the walk: the node reached, the id it was given and the id of the node
      the walk came from (the `parentId` argument of `visit`). */
  datatype Step = Step(node: ProfileNode, id: int, parentId: int)

  /** The number of nodes in the tree. */
  function Size(t: ProfileNode): nat
    decreases t, 1, 0
  {
    1 + ChildrenSize(t, |t.children|)
  }

  /** The number of nodes under the first `i` children of `t`. */
  function ChildrenSize(t: ProfileNode, i: nat): nat
    requires i <= |t.children|
    decreases t, 0, i
  {
    if i == 0 then 0 else ChildrenSize(t, i - 1) + Size(t.children[i - 1])
  }

  /** The walk `visit(t, cb, parentId)` performs when the id counter holds `first`:
      `t` itself takes `first`, then each child is walked in order with `first` as
      its parent, each child's subtree continuing the numbering. */
  function Visits(t: ProfileNode, first: int, parentId: int): seq<Step>
    decreases t, 1, 0
  {
    [Step(t, first, parentId)] + ChildVisits(t, |t.children|, first)
  }

  /** The walk of the first `i` children of `t`, where `t` took the id `id`. */
  function ChildVisits(t: ProfileNode, i: nat, id: int): seq<Step>
    requires i <= |t.children|
    decreases t, 0, i
  {
    if i == 0 then []
    else ChildVisits(t, i - 1, id) + Visits(t.children[i - 1], id + 1 + ChildrenSize(t, i - 1), id)
  }

  /** The walk has one visit per node. */
  predicate VisitsLength(t: ProfileNode, first: int, parentId: int) {
    |Visits(t, first, parentId)| == Size(t)
  }

  /** The visits of `vs` carry the ids `first`, `first + 1`, ... in order, and every visit
      after the first comes from an earlier one: its `parentId` is the id of an earlier
      visit, and its node is a child of the node of whichever visit holds that id. */
  ghost predicate PreorderNumbered(vs: seq<Step>, first: int) {
    && (forall k :: 0 <= k < |vs| ==> vs[k].id == first + k)
    && (forall k :: 0 < k < |vs| ==> first <= vs[k].parentId < first + k)
    && (forall j, k :: 0 <= j < |vs| && 0 < k < |vs| && vs[j].id == vs[k].parentId ==>
          vs[k].node in vs[j].node.children)
  }

  /** The same shape for the walk `cv` over children of `t`, where `t` took the id `id`:
      ids run from `id + 1`, and each visit is either one of the children of `t` (with
      parent `id`) or comes from an earlier visit of `cv`. */
  ghost predicate ChildrenNumbered(cv: seq<Step>, t: ProfileNode, id: int) {
    && (forall k :: 0 <= k < |cv| ==> cv[k].id == id + 1 + k)
    && (forall k :: 0 <= k < |cv| ==>
          (cv[k].parentId == id && cv[k].node in t.children) ||
          id + 1 <= cv[k].parentId < id + 1 + k)
    && (forall j, k :: 0 <= j < |cv| && 0 <= k < |cv| && cv[j].id == cv[k].parentId ==>
          cv[k].node in cv[j].node.children)
  }

  /** The walk starting at `t` with the counter at `first` visits every node of `t` once,
      `t` first with the given `parentId`; ids run from `first` in visit order; every
      later node's `parentId` is the id of an earlier visit whose node has it as a child. */
  lemma {:induction false} VisitsNumbering(t: ProfileNode, first: int, parentId: int)
    ensures Visits(t, first, parentId)[0] == Step(t, first, parentId)
    ensures |Visits(t, first, parentId)| == Size(t)
    ensures PreorderNumbered(Visits(t, first, parentId), first)
    decreases t, 1, 0
  {
    ChildVisitsNumbering(t, |t.children|, first);
    NumberedUnderRoot(Step(t, first, parentId), ChildVisits(t, |t.children|, first));
  }

  /** In the walk of the first `i` children of a node with id `id`, each visit is either
      one of those children (parent `id`) or is reached from an earlier visit of the walk. */
  lemma {:induction false} ChildVisitsNumbering(t: ProfileNode, i: nat, id: int)
    requires i <= |t.children|
    ensures |ChildVisits(t, i, id)| == ChildrenSize(t, i)
    ensures ChildrenNumbered(ChildVisits(t, i, id), t, id)
    decreases t, 0, i
  {
    if i > 0 {
      var before := ChildVisits(t, i - 1, id);
      var base := id + 1 + ChildrenSize(t, i - 1);
      var sub := Visits(t.children[i - 1], base, id);
      ChildVisitsNumbering(t, i - 1, id);
      VisitsNumbering(t.children[i - 1], base, id);
      NumberedAppend(before, sub, t, id, i - 1, base);
    }
  }

  /** A visit followed by the numbered walk of its node's children is a numbered walk. */
  lemma {:induction false} NumberedUnderRoot(v: Step, cv: seq<Step>)
    requires ChildrenNumbered(cv, v.node, v.id)
    ensures PreorderNumbered([v] + cv, v.id)
  {
    var vs := [v] + cv;
    assert forall k :: 0 < k < |vs| ==> vs[k] == cv[k - 1];
    forall j, k | 0 <= j < |vs| && 0 < k < |vs| && vs[j].id == vs[k].parentId
      ensures vs[k].node in vs[j].node.children
    {
      if j > 0 {
        assert cv[j - 1].id == cv[k - 1].parentId;
      }
    }
  }

  /** Appending the numbered walk of child `c`, numbered on from the walk before it,
      keeps the walk of the children numbered. */
  lemma {:induction false} NumberedAppend(before: seq<Step>, sub: seq<Step>, t: ProfileNode, id: int, c: nat, base: int)
    requires c < |t.children|
    requires ChildrenNumbered(before, t, id) && base == id + 1 + |before|
    requires |sub| > 0 && sub[0] == Step(t.children[c], base, id)
    requires PreorderNumbered(sub, base)
    ensures ChildrenNumbered(before + sub, t, id)
  {
    var cv := before + sub;
    assert forall k :: 0 <= k < |before| ==> cv[k] == before[k];
    assert forall k :: |before| <= k < |cv| ==> cv[k] == sub[k - |before|];
    forall k | 0 <= k < |cv|
      ensures (cv[k].parentId == id && cv[k].node in t.children) ||
        id + 1 <= cv[k].parentId < id + 1 + k
    {
    }
    forall j, k | 0 <= j < |cv| && 0 <= k < |cv| && cv[j].id == cv[k].parentId
      ensures cv[k].node in cv[j].node.children
    {
      if k < |before| {
        assert j < |before|;
      } else if k == |before| {
        assert false;
      } else {
        assert j >= |before|;
        assert sub[j - |before|].id == sub[k - |before|].parentId;
      }
    }
  }

  lemma {:induction false} VisitsSize(t: ProfileNode, first: int, parentId: int)
    ensures VisitsLength(t, first, parentId)
    decreases t, 1, 0
  {
    ChildVisitsSize(t, |t.children|, first);
  }

  lemma {:induction false} ChildVisitsSize(t: ProfileNode, i: nat, id: int)
    requires i <= |t.children|
    ensures |ChildVisits(t, i, id)| == ChildrenSize(t, i)
    decreases t, 0, i
  {
    if i > 0 {
      ChildVisitsSize(t, i - 1, id);
      VisitsSize(t.children[i - 1], id + 1 + ChildrenSize(t, i - 1), id);
    }
  }

  /** The walk of fewer children is a prefix of the walk of more. */
  lemma {:induction false} ChildVisitsPrefix(t: ProfileNode, i: nat, j: nat, id: int)
    requires i <= j <= |t.children|
    ensures ChildVisits(t, i, id) <= ChildVisits(t, j, id)
    decreases j
  {
    if i < j {
      ChildVisitsPrefix(t, i, j - 1, id);
    }
  }

  /** Child `i` of `t` is visited right after the subtrees of the children before it,
      with the id of `t` as its parent. */
  lemma {:induction false} ChildVisited(t: ProfileNode, first: int, parentId: int, i: nat)
    requires i < |t.children|
    ensures 1 + ChildrenSize(t, i) < |Visits(t, first, parentId)|
    ensures Visits(t, first, parentId)[1 + ChildrenSize(t, i)]
         == Step(t.children[i], first + 1 + ChildrenSize(t, i), first)
  {
    var n := |t.children|;
    var before := ChildrenSize(t, i);
    var sub := Visits(t.children[i], first + 1 + before, first);
    var cv := ChildVisits(t, i + 1, first);
    var all := ChildVisits(t, n, first);
    ChildVisitsSize(t, i, first);
    ChildVisitsSize(t, i + 1, first);
    ChildVisitsSize(t, n, first);
    VisitsSize(t.children[i], first + 1 + before, first);
    assert cv == ChildVisits(t, i, first) + sub;
    assert cv[before] == sub[0];
    ChildVisitsPrefix(t, i + 1, n, first);
    assert all[before] == cv[before];
    assert Visits(t, first, parentId) == [Step(t, first, parentId)] + all;
  }

  /** Pre-order: the visits from the `k`-th on, as many as the `k`-th node's subtree has
      nodes, are exactly the walk of that subtree, started with the same id and parent. */
  lemma {:induction false} SubtreeSegment(t: ProfileNode, first: int, parentId: int, k: nat)
    requires k < Size(t)
    ensures VisitsLength(t, first, parentId)
    ensures k + Size(Visits(t, first, parentId)[k].node) <= Size(t)
    ensures var v := Visits(t, first, parentId)[k];
      Visits(t, first, parentId)[k..k + Size(v.node)] == Visits(v.node, first + k, v.parentId)
    decreases t, 1, 0
  {
    VisitsSize(t, first, parentId);
    if k > 0 {
      var cv := ChildVisits(t, |t.children|, first);
      ChildVisitsSize(t, |t.children|, first);
      ChildSegment(t, |t.children|, first, k - 1);
      AppendSegment([Step(t, first, parentId)], cv, k, Size(cv[k - 1].node));
    }
  }

  lemma {:induction false} ChildSegment(t: ProfileNode, i: nat, id: int, k: nat)
    requires i <= |t.children|
    requires k < ChildrenSize(t, i)
    ensures |ChildVisits(t, i, id)| == ChildrenSize(t, i)
    ensures k + Size(ChildVisits(t, i, id)[k].node) <= ChildrenSize(t, i)
    ensures var v := ChildVisits(t, i, id)[k];
      ChildVisits(t, i, id)[k..k + Size(v.node)] == Visits(v.node, id + 1 + k, v.parentId)
    decreases t, 0, i
  {
    var before := ChildVisits(t, i - 1, id);
    var base := id + 1 + ChildrenSize(t, i - 1);
    var sub := Visits(t.children[i - 1], base, id);
    assert ChildVisits(t, i, id) == before + sub;
    ChildVisitsSize(t, i - 1, id);
    VisitsSize(t.children[i - 1], base, id);
    if k < |before| {
      ChildSegment(t, i - 1, id, k);
      AppendSegment(before, sub, k, Size(before[k].node));
    } else {
      SubtreeSegment(t.children[i - 1], base, id, k - |before|);
      AppendSegment(before, sub, k, Size(sub[k - |before|].node));
    }
  }

  /** A run of `a + b` lies inside `a` or inside `b` when it starts there and fits. */
  lemma {:induction false} AppendSegment<T>(a: seq<T>, b: seq<T>, k: nat, n: nat)
    requires k < k + n <= |a| + |b|
    requires k < |a| ==> k + n <= |a|
    ensures k < |a| ==> (a + b)[k] == a[k] && (a + b)[k..k + n] == a[k..k + n]
    ensures |a| <= k ==> (a + b)[k] == b[k - |a|] && (a + b)[k..k + n] == b[k - |a|..k - |a| + n]
  {
    if k < |a| {
      assert (a + b)[k..k + n] == a[k..k + n];
    } else {
      assert (a + b)[k..k + n] == b[k - |a|..k - |a| + n];
    }
  }

  /** An element inside a run is the matching element of what the run equals. */
  lemma {:induction false} SegmentIndex<T>(s: seq<T>, sub: seq<T>, k: nat, n: nat, d: nat, j: nat)
    requires k + n <= |s| && s[k..k + n] == sub
    requires d < |sub| && j == k + d
    ensures j < |s| && s[j] == sub[d]
  {
    assert s[k..k + n][d] == s[j];
  }

  /** Every node's children are visited, in order, with that node's id as their parent,
      whatever becomes of the node's own record. */
  lemma {:induction false} ChildrenVisitedUnderParent(t: ProfileNode, first: int, parentId: int, k: nat, i: nat)
    requires k < Size(t)
    requires VisitsLength(t, first, parentId)
    requires i < |Visits(t, first, parentId)[k].node.children|
    ensures var vs := Visits(t, first, parentId);
      var j := k + 1 + ChildrenSize(vs[k].node, i);
      j < |vs| && vs[j] == Step(vs[k].node.children[i], first + j, first + k)
  {
    var vs := Visits(t, first, parentId);
    var v := vs[k];
    SubtreeSegment(t, first, parentId, k);
    var sub := Visits(v.node, first + k, v.parentId);
    var d := 1 + ChildrenSize(v.node, i);
    var j := k + 1 + ChildrenSize(v.node, i);
    ChildVisited(v.node, first + k, v.parentId, i);
    SegmentIndex(vs, sub, k, Size(v.node), d, j);
  }
}
