/** The text blob one tick hands to the agent (`ConstructNodeData`, `ConstructData` in
    src/plugins/node/prof/nodeprofplugin.cpp), and a parser that reads it back. */
module WireFormat {
  import opened Wrappers
  import opened Text
  import opened CallTree

  const Tag := "NodeProfData"
  const EndLine := "NodeProfData,End"

  /** The fields of one `Node` record, in the order they are written. */
  datatype NodeRecord = NodeRecord(
    id: int,
    parentId: int,
    scriptName: string,
    functionName: string,
    lineNumber: int,
    selfSamples: nat)

  /** What a blob carries: the `Start` timestamp and the node records between `Start` and `End`. */
  datatype Snapshot = Snapshot(timestamp: nat, records: seq<NodeRecord>)

  function RecordOf(v: Step): NodeRecord {
    NodeRecord(v.id, v.parentId, v.node.scriptName, v.node.functionName, v.node.lineNumber, v.node.hitCount)
  }

  /** The comma-separated fields of a `Node` line: script before function, no escaping. */
  function NodeFields(r: NodeRecord): seq<string> {
    [Tag, "Node", IntStr(r.id), IntStr(r.parentId), r.scriptName, r.functionName,
     IntStr(r.lineNumber), NatStr(r.selfSamples)]
  }

  function NodeLine(r: NodeRecord): string {
    Join(NodeFields(r), ',')
  }

  function StartLine(now: nat): string {
    Join([Tag, "Start", NatStr(now)], ',')
  }

  /** What `ConstructNodeData` appends for one visit: its line, or nothing when the
      node's names cannot be extracted. */
  function RecordText(v: Step): string {
    if v.node.extractable then NodeLine(RecordOf(v)) + "\n" else ""
  }

  /** The text of a walk when each visit is written out by `line`, visit by visit. */
  function RenderBy(line: Step -> string, vs: seq<Step>): string {
    if vs == [] then "" else line(vs[0]) + RenderBy(line, vs[1..])
  }

  /** The text a walk appends to the stream: `RecordText` for each visit in turn. */
  function Render(vs: seq<Step>): string {
    RenderBy(RecordText, vs)
  }

  /** The records of the visits whose names could be extracted, in visit order. */
  function Emitted(vs: seq<Step>): seq<NodeRecord> {
    if vs == [] then []
    else (if vs[0].node.extractable then [RecordOf(vs[0])] else []) + Emitted(vs[1..])
  }

  /** The blob `ConstructData` returns for the tree `t` at time `now` when the id counter
      holds `first`: the `Start` line, the records of the walk from the root (parent 0),
      the `End` line, each line ending in a newline. */
  function Blob(now: nat, t: ProfileNode, first: int): string {
    StartLine(now) + "\n" + Render(Visits(t, first, 0)) + EndLine + "\n"
  }

  // ---------------------------------------------------------------------------
  // Reading a blob back

  function ParseRecord(line: string): Option<NodeRecord> {
    var f := Split(line, ',');
    if |f| == 8 && f[0] == Tag && f[1] == "Node" then
      match (ParseInt(f[2]), ParseInt(f[3]), ParseInt(f[6]), ParseNat(f[7]))
      case (Some(id), Some(parentId), Some(lineNumber), Some(samples)) =>
        Some(NodeRecord(id, parentId, f[4], f[5], lineNumber, samples))
      case _ => None
    else None
  }

  function ParseRecords(lines: seq<string>): Option<seq<NodeRecord>> {
    if lines == [] then Some([])
    else
      match (ParseRecord(lines[0]), ParseRecords(lines[1..]))
      case (Some(r), Some(rs)) => Some([r] + rs)
      case _ => None
  }

  function ParseStart(line: string): Option<nat> {
    var f := Split(line, ',');
    if |f| == 3 && f[0] == Tag && f[1] == "Start" then ParseNat(f[2]) else None
  }

  function ParseBlob(blob: string): Option<Snapshot> {
    var lines := Split(blob, '\n');
    var n := |lines|;
    if n >= 3 && lines[n - 1] == "" && lines[n - 2] == EndLine then
      match (ParseStart(lines[0]), ParseRecords(lines[1..n - 2]))
      case (Some(ts), Some(rs)) => Some(Snapshot(ts, rs))
      case _ => None
    else None
  }

  function Lines(rs: seq<NodeRecord>): seq<string> {
    if rs == [] then [] else [NodeLine(rs[0])] + Lines(rs[1..])
  }

  /** A name the format can carry: it holds neither field nor line separator. */
  predicate Plain(s: string) {
    ',' !in s && '\n' !in s
  }

  predicate PlainRecord(r: NodeRecord) {
    Plain(r.scriptName) && Plain(r.functionName)
  }

  predicate PlainVisits(vs: seq<Step>) {
    forall k :: 0 <= k < |vs| ==> Plain(vs[k].node.scriptName) && Plain(vs[k].node.functionName)
  }

  // ---------------------------------------------------------------------------
  // Properties

  /** A record line splits back into its eight fields and holds no newline. */
  lemma {:induction false} NodeLineFields(r: NodeRecord)
    requires PlainRecord(r)
    ensures Split(NodeLine(r), ',') == NodeFields(r)
    ensures '\n' !in NodeLine(r)
  {
    var f := NodeFields(r);
    assert forall i :: 0 <= i < |f| ==> ',' !in f[i] && '\n' !in f[i];
    SplitJoin(f, ',');
    JoinAvoids(f, ',', '\n');
  }

  /** Every record a node can produce is read back as itself. */
  lemma {:induction false} RecordRoundTrip(r: NodeRecord)
    requires PlainRecord(r)
    ensures ParseRecord(NodeLine(r)) == Some(r)
  {
    NodeLineFields(r);
    IntStrRoundTrip(r.id);
    IntStrRoundTrip(r.parentId);
    IntStrRoundTrip(r.lineNumber);
    NatStrRoundTrip(r.selfSamples);
  }

  lemma {:induction false} RecordsRoundTrip(rs: seq<NodeRecord>)
    requires forall k :: 0 <= k < |rs| ==> PlainRecord(rs[k])
    ensures ParseRecords(Lines(rs)) == Some(rs)
  {
    if rs != [] {
      assert forall k :: 0 <= k < |rs[1..]| ==> rs[1..][k] == rs[k + 1];
      RecordRoundTrip(rs[0]);
      RecordsRoundTrip(rs[1..]);
      ParseRecordsCons(NodeLine(rs[0]), Lines(rs[1..]), rs[0], rs[1..]);
      assert [rs[0]] + rs[1..] == rs;
    }
  }

  /** Parsing a line in front of parsed lines puts its record in front. */
  lemma {:induction false} ParseRecordsCons(line: string, lines: seq<string>, r: NodeRecord, rs: seq<NodeRecord>)
    requires ParseRecord(line) == Some(r) && ParseRecords(lines) == Some(rs)
    ensures ParseRecords([line] + lines) == Some([r] + rs)
  {
    var all := [line] + lines;
    assert all[0] == line && all[1..] == lines;
  }

  /** Rendering distributes over concatenation of walks, whatever writes each visit. */
  lemma {:induction false} RenderAppend(line: Step -> string, a: seq<Step>, b: seq<Step>)
    ensures RenderBy(line, a + b) == RenderBy(line, a) + RenderBy(line, b)
  {
    if a != [] {
      assert (a + b)[0] == a[0];
      assert (a + b)[1..] == a[1..] + b;
      RenderAppend(line, a[1..], b);
      calc {
        RenderBy(line, a + b);
        line(a[0]) + RenderBy(line, a[1..] + b);
        line(a[0]) + (RenderBy(line, a[1..]) + RenderBy(line, b));
        (line(a[0]) + RenderBy(line, a[1..])) + RenderBy(line, b);
      }
    } else {
      assert a + b == b;
    }
  }

  lemma {:induction false} EmittedPlain(vs: seq<Step>)
    requires PlainVisits(vs)
    ensures forall k :: 0 <= k < |Emitted(vs)| ==> PlainRecord(Emitted(vs)[k])
  {
    if vs != [] {
      EmittedPlain(vs[1..]);
    }
  }

  lemma {:induction false} SplitAfterLine(r: NodeRecord, tail: string)
    requires PlainRecord(r)
    ensures Split(NodeLine(r) + "\n" + tail, '\n') == [NodeLine(r)] + Split(tail, '\n')
  {
    NodeLineFields(r);
    assert NodeLine(r) + "\n" + tail == NodeLine(r) + ['\n'] + tail;
    SplitFirst(NodeLine(r), '\n', tail);
  }

  /** The rendered walk, followed by any text, splits into one line per emitted record
      followed by the lines of that text. */
  lemma {:induction false} RenderLines(vs: seq<Step>, rest: string)
    requires PlainVisits(vs)
    ensures Split(Render(vs) + rest, '\n') == Lines(Emitted(vs)) + Split(rest, '\n')
  {
    if vs == [] {
      assert Render(vs) + rest == rest;
    } else {
      assert PlainVisits(vs[1..]) by {
        assert forall k :: 0 <= k < |vs[1..]| ==> vs[1..][k] == vs[k + 1];
      }
      RenderLines(vs[1..], rest);
      RenderLinesStep(vs[0], vs[1..], rest);
      assert [vs[0]] + vs[1..] == vs;
    }
  }

  /** One step of `RenderLines`: the first visit contributes its line, if it has one. */
  lemma {:induction false} RenderLinesStep(v: Step, vs: seq<Step>, rest: string)
    requires Plain(v.node.scriptName) && Plain(v.node.functionName)
    requires Split(Render(vs) + rest, '\n') == Lines(Emitted(vs)) + Split(rest, '\n')
    ensures Split(Render([v] + vs) + rest, '\n') == Lines(Emitted([v] + vs)) + Split(rest, '\n')
  {
    if v.node.extractable {
      RenderLinesLine(v, vs, rest);
      AppendAssoc([NodeLine(RecordOf(v))], Lines(Emitted(vs)), Split(rest, '\n'));
    } else {
      RenderLinesSkip(v, vs);
    }
  }

  /** A visit without a line adds neither text nor record. */
  lemma {:induction false} RenderLinesSkip(v: Step, vs: seq<Step>)
    requires !v.node.extractable
    ensures Render([v] + vs) == Render(vs)
    ensures Emitted([v] + vs) == Emitted(vs)
  {
    var all := [v] + vs;
    assert all[0] == v && all[1..] == vs;
  }

  lemma {:induction false} RenderLinesLine(v: Step, vs: seq<Step>, rest: string)
    requires v.node.extractable
    requires Plain(v.node.scriptName) && Plain(v.node.functionName)
    ensures Render([v] + vs) + rest == NodeLine(RecordOf(v)) + "\n" + (Render(vs) + rest)
    ensures Split(Render([v] + vs) + rest, '\n') == [NodeLine(RecordOf(v))] + Split(Render(vs) + rest, '\n')
    ensures Lines(Emitted([v] + vs)) == [NodeLine(RecordOf(v))] + Lines(Emitted(vs))
  {
    var all := [v] + vs;
    assert all[0] == v && all[1..] == vs;
    var r := RecordOf(v);
    assert Render(all) == NodeLine(r) + "\n" + Render(vs);
    SplitAfterLine(r, Render(vs) + rest);
    assert Emitted(all) == [r] + Emitted(vs);
  }

  /** Reading a blob gives back its timestamp and exactly the records of the nodes whose
      names could be extracted, in visit order, provided no name holds a separator. */
  lemma {:induction false} BlobRoundTrip(now: nat, t: ProfileNode, first: int)
    requires PlainVisits(Visits(t, first, 0))
    ensures ParseBlob(Blob(now, t, first)) == Some(Snapshot(now, Emitted(Visits(t, first, 0))))
  {
    var vs := Visits(t, first, 0);
    BlobLines(now, vs);
    EmittedPlain(vs);
    ParseFramedLines(Blob(now, t, first), now, Emitted(vs));
  }

  /** The `Start` line reads back as its timestamp and holds no newline. */
  lemma {:induction false} StartRoundTrip(now: nat)
    ensures ParseStart(StartLine(now)) == Some(now)
    ensures '\n' !in StartLine(now)
  {
    var fs := [Tag, "Start", NatStr(now)];
    assert forall i :: 0 <= i < |fs| ==> ',' !in fs[i] && '\n' !in fs[i];
    SplitJoin(fs, ',');
    JoinAvoids(fs, ',', '\n');
    NatStrRoundTrip(now);
  }

  /** A blob around the walk `vs` splits into the `Start` line, one line per emitted record,
      the `End` line and the empty text after the last newline. */
  lemma {:induction false} BlobLines(now: nat, vs: seq<Step>)
    requires PlainVisits(vs)
    ensures Split(StartLine(now) + "\n" + Render(vs) + EndLine + "\n", '\n')
         == [StartLine(now)] + Lines(Emitted(vs)) + [EndLine, ""]
  {
    var start := StartLine(now);
    StartRoundTrip(now);
    assert '\n' !in EndLine;
    SplitFirst(EndLine, '\n', "");
    assert EndLine + "\n" == EndLine + ['\n'] + "";
    assert Split("", '\n') == [""];
    RenderLines(vs, EndLine + "\n");
    var body := Render(vs) + (EndLine + "\n");
    assert start + "\n" + Render(vs) + EndLine + "\n" == start + ['\n'] + body;
    SplitFirst(start, '\n', body);
  }

  /** Text that splits into a `Start` line, record lines and the `End` line parses as the
      snapshot of that timestamp and those records. */
  lemma {:induction false} ParseFramedLines(blob: string, now: nat, rs: seq<NodeRecord>)
    requires forall k :: 0 <= k < |rs| ==> PlainRecord(rs[k])
    requires Split(blob, '\n') == [StartLine(now)] + Lines(rs) + [EndLine, ""]
    ensures ParseBlob(blob) == Some(Snapshot(now, rs))
  {
    var lines := Split(blob, '\n');
    StartRoundTrip(now);
    assert lines[0] == StartLine(now);
    assert lines[1..|lines| - 2] == Lines(rs);
    RecordsRoundTrip(rs);
  }

  /** The emitted records are exactly the records of the visits whose names were extracted. */
  lemma {:induction false} EmittedMembers(vs: seq<Step>)
    ensures forall r :: r in Emitted(vs) <==>
      exists j :: 0 <= j < |vs| && vs[j].node.extractable && RecordOf(vs[j]) == r
  {
    forall r | r in Emitted(vs)
      ensures exists j :: 0 <= j < |vs| && vs[j].node.extractable && RecordOf(vs[j]) == r
    {
      var j := EmittedSource(vs, r);
    }
    forall j | 0 <= j < |vs| && vs[j].node.extractable
      ensures RecordOf(vs[j]) in Emitted(vs)
    {
      EmittedHas(vs, j);
    }
  }

  /** A visit whose names were extracted has its record emitted. */
  lemma {:induction false} EmittedHas(vs: seq<Step>, j: nat)
    requires j < |vs| && vs[j].node.extractable
    ensures RecordOf(vs[j]) in Emitted(vs)
  {
    if j > 0 {
      EmittedHas(vs[1..], j - 1);
    }
  }

  /** Every emitted record comes from a visit whose names were extracted. */
  lemma {:induction false} EmittedSource(vs: seq<Step>, r: NodeRecord) returns (j: nat)
    requires r in Emitted(vs)
    ensures j < |vs| && vs[j].node.extractable && RecordOf(vs[j]) == r
  {
    if vs[0].node.extractable && r == RecordOf(vs[0]) {
      j := 0;
    } else {
      var i := EmittedSource(vs[1..], r);
      j := i + 1;
    }
  }

  /** When every node's names can be extracted, every visit yields its record, in order. */
  lemma {:induction false} EmittedAll(vs: seq<Step>)
    requires forall k :: 0 <= k < |vs| ==> vs[k].node.extractable
    ensures |Emitted(vs)| == |vs|
    ensures forall k :: 0 <= k < |vs| ==> Emitted(vs)[k] == RecordOf(vs[k])
  {
    if vs != [] {
      EmittedAll(vs[1..]);
      assert forall k :: 0 < k < |vs| ==> vs[k] == vs[1..][k - 1];
    }
  }

  /** Records come out with strictly increasing ids, all drawn from the walk's range. */
  lemma {:induction false} EmittedIncreasing(vs: seq<Step>, first: int)
    requires forall k :: 0 <= k < |vs| ==> vs[k].id == first + k
    ensures forall a :: 0 <= a < |Emitted(vs)| ==> first <= Emitted(vs)[a].id < first + |vs|
    ensures forall a, b :: 0 <= a < b < |Emitted(vs)| ==> Emitted(vs)[a].id < Emitted(vs)[b].id
  {
    if vs != [] {
      var tail := vs[1..];
      assert forall k :: 0 <= k < |tail| ==> tail[k] == vs[k + 1];
      EmittedIncreasing(tail, first + 1);
      var head := if vs[0].node.extractable then [RecordOf(vs[0])] else [];
      var es := Emitted(vs);
      assert es == head + Emitted(tail);
      forall a | 0 <= a < |es|
        ensures first <= es[a].id < first + |vs|
      {
        if a >= |head| {
          assert es[a] == Emitted(tail)[a - |head|];
        }
      }
      forall a, b | 0 <= a < b < |es|
        ensures es[a].id < es[b].id
      {
        assert es[b] == Emitted(tail)[b - |head|];
        if a >= |head| {
          assert es[a] == Emitted(tail)[a - |head|];
        }
      }
    }
  }

  /** A node whose names cannot be extracted loses only its own line: its id is still
      taken (no record carries it, and the numbering of the rest is unchanged), and each of
      its children is still visited with that id as parent and emitted if extractable. */
  lemma {:induction false} UnextractableNodeLosesOnlyItsLine(t: ProfileNode, first: int, k: nat)
    requires k < |Visits(t, first, 0)|
    requires !Visits(t, first, 0)[k].node.extractable
    ensures forall r :: r in Emitted(Visits(t, first, 0)) ==> r.id != first + k
    ensures var vs := Visits(t, first, 0);
      forall i :: 0 <= i < |vs[k].node.children| ==> ChildStillWalked(vs, first, k, i)
  {
    var vs := Visits(t, first, 0);
    forall r | r in Emitted(vs)
      ensures r.id != first + k
    {
      EmittedIdsOwned(t, first, k, r);
    }
    VisitsSize(t, first, 0);
    forall i | 0 <= i < |vs[k].node.children|
      ensures ChildStillWalked(vs, first, k, i)
    {
      ChildOfUnextractableEmitted(t, first, k, i);
    }
  }

  /** An emitted record carries the id of a visit whose names were extracted. */
  lemma {:induction false} EmittedIdsOwned(t: ProfileNode, first: int, k: nat, r: NodeRecord)
    requires k < |Visits(t, first, 0)|
    requires !Visits(t, first, 0)[k].node.extractable
    requires r in Emitted(Visits(t, first, 0))
    ensures r.id != first + k
  {
    var vs := Visits(t, first, 0);
    var j := EmittedSource(vs, r);
    VisitsNumbering(t, first, 0);
    assert vs[j].id == first + j && vs[k].id == first + k;
  }

  /** In the walk `vs` numbered from `first`, child `i` of the `k`-th visited node is
      visited after the subtrees of the children before it, with the `k`-th id as its
      parent, and its record is emitted if its names were extracted. */
  ghost predicate ChildStillWalked(vs: seq<Step>, first: int, k: nat, i: nat)
    requires k < |vs| && i < |vs[k].node.children|
  {
    var j := k + 1 + ChildrenSize(vs[k].node, i);
    && j < |vs|
    && vs[j] == Step(vs[k].node.children[i], first + j, first + k)
    && (vs[j].node.extractable ==> RecordOf(vs[j]) in Emitted(vs))
  }

  /** Child `i` of the `k`-th visited node is visited under it and emitted if extractable. */
  lemma {:induction false} ChildOfUnextractableEmitted(t: ProfileNode, first: int, k: nat, i: nat)
    requires k < Size(t) && VisitsLength(t, first, 0)
    requires i < |Visits(t, first, 0)[k].node.children|
    ensures ChildStillWalked(Visits(t, first, 0), first, k, i)
  {
    var vs := Visits(t, first, 0);
    ChildrenVisitedUnderParent(t, first, 0, k, i);
    var j := k + 1 + ChildrenSize(vs[k].node, i);
    if vs[j].node.extractable {
      EmittedHas(vs, j);
    }
  }

  /** The `Start` line as `ConstructData` writes it. */
  lemma {:induction false} StartLineSpelled(now: nat)
    ensures StartLine(now) == "NodeProfData,Start," + NatStr(now)
  {
    var fs := [Tag, "Start", NatStr(now)];
    assert fs[..2][..1] == [Tag];
    assert Join(fs[..2], ',') == Tag + [','] + "Start";
    assert "NodeProfData,Start," == Tag + [','] + "Start" + [','];
  }

  /** A `Node` line as `ConstructNodeData` writes it, field by field. */
  lemma {:induction false} NodeLineSpelled(r: NodeRecord)
    ensures NodeLine(r)
         == "NodeProfData,Node," + IntStr(r.id) + "," + IntStr(r.parentId) + ","
          + r.scriptName + "," + r.functionName + "," + IntStr(r.lineNumber) + ","
          + NatStr(r.selfSamples)
  {
    var fs := NodeFields(r);
    assert fs[..1] == [Tag];
    assert Join(fs[..2], ',') == Tag + [','] + "Node" by {
      assert fs[..2][..1] == fs[..1];
    }
    assert Join(fs[..3], ',') == "NodeProfData,Node," + IntStr(r.id) by {
      assert fs[..3][..2] == fs[..2];
      assert "NodeProfData,Node," == Tag + [','] + "Node" + [','];
    }
    assert Join(fs[..4], ',') == Join(fs[..3], ',') + "," + IntStr(r.parentId) by {
      assert fs[..4][..3] == fs[..3];
    }
    assert Join(fs[..5], ',') == Join(fs[..4], ',') + "," + r.scriptName by {
      assert fs[..5][..4] == fs[..4];
    }
    assert Join(fs[..6], ',') == Join(fs[..5], ',') + "," + r.functionName by {
      assert fs[..6][..5] == fs[..5];
    }
    assert Join(fs[..7], ',') == Join(fs[..6], ',') + "," + IntStr(r.lineNumber) by {
      assert fs[..7][..6] == fs[..6];
    }
    assert fs[..8] == fs;
  }

  /** A two-node example tree: `(root)` in `main.js` calling `foo`
      at line 12 of `a.js`, which was on top of the stack for three samples. */
  function ExampleTree(rootExtractable: bool): ProfileNode {
    ProfileNode("(root)", "main.js", 0, 0, [ExampleChild()], rootExtractable)
  }

  function ExampleChild(): ProfileNode {
    ProfileNode("foo", "a.js", 12, 3, [], true)
  }

  lemma {:induction false} ExampleVisits(rootExtractable: bool)
    ensures var t := ExampleTree(rootExtractable);
      Visits(t, 1, 0) == [Step(t, 1, 0), Step(t.children[0], 2, 1)]
  {
    var t := ExampleTree(rootExtractable);
    var c := t.children[0];
    assert Visits(c, 2, 1) == [Step(c, 2, 1)];
    assert ChildVisits(t, 1, 1) == [Step(c, 2, 1)];
  }

  lemma {:induction false} ExampleRootLine(rootExtractable: bool)
    ensures NodeLine(RecordOf(Step(ExampleTree(rootExtractable), 1, 0)))
         == "NodeProfData,Node,1,0,main.js,(root),0,0"
  {
    NodeLineSpelled(RecordOf(Step(ExampleTree(rootExtractable), 1, 0)));
  }

  lemma ExampleChildLine()
    ensures NodeLine(RecordOf(Step(ExampleChild(), 2, 1))) == "NodeProfData,Node,2,1,a.js,foo,12,3"
  {
    NodeLineSpelled(RecordOf(Step(ExampleChild(), 2, 1)));
    assert IntStr(2) == "2" && IntStr(1) == "1" && IntStr(12) == "12" && NatStr(3) == "3";
  }

  lemma {:induction false} ExampleRender(rootExtractable: bool)
    ensures var t := ExampleTree(rootExtractable);
      var child := NodeLine(RecordOf(Step(t.children[0], 2, 1))) + "\n";
      Render(Visits(t, 1, 0))
        == (if rootExtractable then NodeLine(RecordOf(Step(t, 1, 0))) + "\n" else "") + child
  {
    var t := ExampleTree(rootExtractable);
    ExampleVisits(rootExtractable);
    var vs := Visits(t, 1, 0);
    assert vs[1..] == [vs[1]] && vs[1..][1..] == [];
    assert Render(vs[1..]) == RecordText(vs[1]) + Render([]);
    assert Render(vs) == RecordText(vs[0]) + Render(vs[1..]);
  }

  /** The example tree, serialized as the first snapshot. */
  lemma {:induction false} ExampleBlob(now: nat)
    ensures Blob(now, ExampleTree(true), 1)
         == "NodeProfData,Start," + NatStr(now) + "\n"
          + "NodeProfData,Node,1,0,main.js,(root),0,0\n"
          + "NodeProfData,Node,2,1,a.js,foo,12,3\n"
          + "NodeProfData,End\n"
  {
    ExampleRender(true);
    ExampleRootLine(true);
    ExampleChildLine();
    StartLineSpelled(now);
  }

  /** The same tree when the root's names cannot be extracted: the root's line is missing,
      but the child still has id 2 and parent 1. */
  lemma {:induction false} ExampleBlobWithoutRootLine(now: nat)
    ensures Blob(now, ExampleTree(false), 1)
         == "NodeProfData,Start," + NatStr(now) + "\n"
          + "NodeProfData,Node,2,1,a.js,foo,12,3\n"
          + "NodeProfData,End\n"
  {
    ExampleRender(false);
    ExampleChildLine();
    StartLineSpelled(now);
  }
}
