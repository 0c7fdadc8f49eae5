/** The serializer as the C++ runs it: `visit` recursing inside a loop over children,
    appending to a `std::stringstream` and drawing ids from a counter that lives for the
    whole process (`static int nextid = 1` inside `visit`). */
module Serializer {
  import opened Text
  import opened CallTree
  import opened WireFormat

  /** The output stream `ConstructData` creates and the visit callbacks append to. */
  class StringStream {
    var text: string

    constructor ()
      ensures text == ""
    {
      text := "";
    }

    method Append(s: string)
      modifies this
      ensures text == old(text) + s
    {
      text := text + s;
    }
  }

  /** Holds the function-static id counter of `visit`. It starts at 1 and is never reset,
      so each snapshot continues the numbering of the one before. */
  class NodeSerializer {
    var nextId: int

    constructor ()
      ensures nextId == 1
    {
      nextId := 1;
    }

    /** `ConstructNodeData`: append the node's line, or nothing when its function name or
        script name cannot be extracted. */
    static method ConstructNodeData(node: ProfileNode, id: int, parentId: int, result: StringStream)
      modifies result
      ensures result.text == old(result.text) + RecordText(Step(node, id, parentId))
    {
      if !node.extractable {
        return;
      }
      // The two `<<` statements of the source, each appending its pieces in order.
      result.Append("NodeProfData,Node," + IntStr(id) + "," + IntStr(parentId) + ",");
      result.Append(node.scriptName + "," + node.functionName + "," + IntStr(node.lineNumber) + ","
                    + NatStr(node.hitCount) + "\n");
      NodeTextInTwoStatements(old(result.text), node, id, parentId);
    }

    /** `visit`: take the next id for `current`, append its line, then walk its children
        with that id as parent. The counter advances by the size of the subtree. The ghost
        `line` is how the text of each node is named in the contract; it writes what
        `ConstructNodeData` writes. */
    method Visit(current: ProfileNode, parentId: int, result: StringStream, ghost line: Step -> string)
      requires WritesRecords(line)
      modifies this, result
      ensures nextId == old(nextId) + Size(current)
      ensures result.text == old(result.text) + WalkText(line, current, old(nextId), parentId)
      decreases current, 1
    {
      var id := nextId;
      nextId := nextId + 1;
      ConstructNodeData(current, id, parentId, result);
      VisitChildren(current, id, result, line);
      AppendAssoc(old(result.text), line(Step(current, id, parentId)),
        ChildrenText(line, current, |current.children|, id));
    }

    /** The loop of `visit` over the children of `current`, which took the id `id`: each
        child's subtree is walked in order, numbered on from the counter. */
    method VisitChildren(current: ProfileNode, id: int, result: StringStream, ghost line: Step -> string)
      requires WritesRecords(line)
      requires nextId == id + 1
      modifies this, result
      ensures nextId == id + 1 + ChildrenSize(current, |current.children|)
      ensures result.text == old(result.text) + ChildrenText(line, current, |current.children|, id)
      decreases current, 0
    {
      ghost var head := result.text;
      var children := |current.children|;
      var i := 0;
      while i < children
        invariant 0 <= i <= children
        invariant nextId == id + 1 + ChildrenSize(current, i)
        invariant result.text == head + ChildrenText(line, current, i, id)
      {
        Visit(current.children[i], id, result, line);
        AppendAssoc(head, ChildrenText(line, current, i, id),
          WalkText(line, current.children[i], id + 1 + ChildrenSize(current, i), id));
        i := i + 1;
      }
    }

    /** `ConstructData`: the `Start` line with the time `now`, the walk from the root with
        parent 0, and the `End` line. The result is never absent. */
    method ConstructData(root: ProfileNode, now: nat) returns (data: string)
      modifies this
      ensures nextId == old(nextId) + Size(root)
      ensures data == Blob(now, root, old(nextId))
    {
      var result := new StringStream();
      result.Append("NodeProfData,Start," + NatStr(now) + "\n");
      Visit(root, 0, result, RecordText);
      result.Append("NodeProfData,End" + "\n");
      data := result.text;
      BlobInStatements(now, root, old(nextId));
    }
  }

  /** The text `visit` appends for the subtree `t` when the counter holds `first`, each
      node written out by `line`: the line of `t`, then the text of each child's subtree
      in turn. */
  function WalkText(line: Step -> string, t: ProfileNode, first: int, parentId: int): string
    decreases t, 1, 0
  {
    line(Step(t, first, parentId)) + ChildrenText(line, t, |t.children|, first)
  }

  /** The text the loop of `visit` appends for the first `i` children of `t`, where `t`
      took the id `id`. */
  function ChildrenText(line: Step -> string, t: ProfileNode, i: nat, id: int): string
    requires i <= |t.children|
    decreases t, 0, i
  {
    if i == 0 then ""
    else ChildrenText(line, t, i - 1, id)
         + WalkText(line, t.children[i - 1], id + 1 + ChildrenSize(t, i - 1), id)
  }

  /** What `visit` appends is the rendering of the pre-order walk: one piece per node,
      in visit order, with the ids and parents `Visits` assigns. */
  lemma {:induction false} WalkTextRenders(line: Step -> string, t: ProfileNode, first: int, parentId: int)
    ensures WalkText(line, t, first, parentId) == RenderBy(line, Visits(t, first, parentId))
    decreases t, 1, 0
  {
    var vs := Visits(t, first, parentId);
    ChildrenTextRenders(line, t, |t.children|, first);
    assert vs[0] == Step(t, first, parentId);
    assert vs[1..] == ChildVisits(t, |t.children|, first);
  }

  lemma {:induction false} ChildrenTextRenders(line: Step -> string, t: ProfileNode, i: nat, id: int)
    requires i <= |t.children|
    ensures ChildrenText(line, t, i, id) == RenderBy(line, ChildVisits(t, i, id))
    decreases t, 0, i
  {
    if i == 0 {
      assert ChildVisits(t, i, id) == [];
    } else {
      var walked := ChildVisits(t, i - 1, id);
      var base := id + 1 + ChildrenSize(t, i - 1);
      var sub := Visits(t.children[i - 1], base, id);
      assert ChildVisits(t, i, id) == walked + sub;
      assert ChildrenText(line, t, i, id)
          == ChildrenText(line, t, i - 1, id) + WalkText(line, t.children[i - 1], base, id);
      ChildrenTextRenders(line, t, i - 1, id);
      WalkTextRenders(line, t.children[i - 1], base, id);
      RenderAppend(line, walked, sub);
    }
  }

  /** `line` writes each visit as `ConstructNodeData` does. The link is drawn only where
      `RecordText` itself is mentioned, so the walk can be reasoned about without
      unfolding how a line is spelled. */
  ghost predicate WritesRecords(line: Step -> string) {
    forall v {:trigger RecordText(v)} :: line(v) == RecordText(v)
  }

  /** The two statements of `ConstructNodeData` append exactly the node's line. */
  lemma {:induction false} NodeTextInTwoStatements(before: string, node: ProfileNode, id: int, parentId: int)
    requires node.extractable
    ensures before + RecordText(Step(node, id, parentId))
         == before + ("NodeProfData,Node," + IntStr(id) + "," + IntStr(parentId) + ",")
          + (node.scriptName + "," + node.functionName + "," + IntStr(node.lineNumber) + ","
             + NatStr(node.hitCount) + "\n")
  {
    var r := RecordOf(Step(node, id, parentId));
    NodeLineSpelled(r);
    Regroup("NodeProfData,Node," + IntStr(r.id) + "," + IntStr(r.parentId) + ",",
      r.scriptName, r.functionName, IntStr(r.lineNumber), NatStr(r.selfSamples));
    AppendAssoc(before, "NodeProfData,Node," + IntStr(id) + "," + IntStr(parentId) + ",",
      node.scriptName + "," + node.functionName + "," + IntStr(node.lineNumber) + ","
      + NatStr(node.hitCount) + "\n");
  }

  /** Proof helper for `NodeTextInTwoStatements`: moving the boundary between two
      appended runs of text changes nothing. */
  lemma {:induction false} Regroup(a: string, s: string, f: string, l: string, n: string)
    ensures a + s + "," + f + "," + l + "," + n + "\n"
         == a + (s + "," + f + "," + l + "," + n + "\n")
  {
  }

  /** The statements of `ConstructData` around the walk produce exactly the blob. */
  lemma {:induction false} BlobInStatements(now: nat, t: ProfileNode, first: int)
    ensures "" + ("NodeProfData,Start," + NatStr(now) + "\n") + WalkText(RecordText, t, first, 0)
            + ("NodeProfData,End" + "\n")
         == Blob(now, t, first)
  {
    StartLineSpelled(now);
    WalkTextRenders(RecordText, t, first, 0);
    var start := StartLine(now) + "\n";
    var walk := Render(Visits(t, first, 0));
    assert "" + start == start;
    AppendAssoc(start + walk, EndLine, "\n");
  }

  /** Two snapshots taken one after the other by a fresh process: the first is numbered
      from 1, the second continues where the first stopped. */
  method SerializeTwice(first: ProfileNode, second: ProfileNode, now1: nat, now2: nat)
    returns (blob1: string, blob2: string)
    ensures blob1 == Blob(now1, first, 1)
    ensures blob2 == Blob(now2, second, 1 + Size(first))
  {
    var s := new NodeSerializer();
    blob1 := s.ConstructData(first, now1);
    blob2 := s.ConstructData(second, now2);
  }
}
