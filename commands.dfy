/**
 * The backend commands of the desktop application: the connection test
 * `greet` and the (mock) workflow runner `run_workflow`, which turns a list
 * of nodes into an ordered list of log lines and a success report.
 */
module Commands {
  import opened Wrappers
  import opened JsonValue
  import opened Text
  import opened Decimal

  /** One step of a workflow, as the editor submits it: an id, a type tag and free-form parameters. */
  datatype WorkflowNode = WorkflowNode(id: string, nodeType: string, data: Value)

  /** What `run_workflow` hands back to the caller. */
  datatype ExecutionResult = ExecutionResult(success: bool, message: string, logs: seq<string>)

  // ---------------------------------------------------------------- greet

  const GreetPrefix: string := "Hello, "
  const GreetSuffix: string := "! Synapse-OS Backend is online."

  /** The name a greeting was built for, if the text is a greeting at all. */
  function GreetedName(reply: string): Option<string> {
    Between(reply, GreetPrefix, GreetSuffix)
  }

  /**
   * The connection test's reply. It names exactly the name it was given, so
   * different names get different replies.
   */
  function Greet(name: string): (r: string)
    ensures GreetedName(r) == Some(name)
    ensures |r| == |name| + 38
  {
    BetweenOfConcat(GreetPrefix, name, GreetSuffix);
    GreetPrefix + name + GreetSuffix
  }

  // ------------------------------------------------- parameters of a node

  /** The parameter-reading part of a `log` node: its message, or "No message". */
  function LogMessage(data: Value): (m: string)
    ensures Index(data, "message").Str? ==> m == Index(data, "message").s
    ensures !Index(data, "message").Str? ==> m == "No message"
  {
    AsStr(Index(data, "message")).GetOr("No message")
  }

  /** The duration a `delay` node announces: its `ms` when that is an unsigned integer, else 1000. */
  function DelayMs(data: Value): (ms: U64)
    ensures Index(data, "ms") == Num(PosInt(ms))
            || (ms == 1000 && !(Index(data, "ms").Num? && Index(data, "ms").n.PosInt?))
  {
    AsU64(Index(data, "ms")).GetOr(1000)
  }

  /** An endpoint of a `file_move` node: the string under `key`, or "?". */
  function MoveEndpoint(data: Value, key: string): (p: string)
    ensures Index(data, key).Str? ==> p == Index(data, key).s
    ensures !Index(data, key).Str? ==> p == "?"
  {
    AsStr(Index(data, key)).GetOr("?")
  }

  // --------------------------------------------------------- log lines

  /** The arms of the runner's dispatch on the type tag. */
  datatype NodeKind = Log | Delay | FileMove | Unknown

  /** Exact, case-sensitive match of the type tag against the three known tags. */
  function KindOf(nodeType: string): (k: NodeKind)
    ensures k == Log <==> nodeType == "log"
    ensures k == Delay <==> nodeType == "delay"
    ensures k == FileMove <==> nodeType == "file_move"
  {
    if nodeType == "log" then Log
    else if nodeType == "delay" then Delay
    else if nodeType == "file_move" then FileMove
    else Unknown
  }

  const ProcessingPrefix: string := "Processing node: "
  const LogPrefix: string := "LOG OUTPUT: "
  const DelayPrefix: string := "Waiting for "
  const DelaySuffix: string := "ms..."
  const MovePrefix: string := "Moving "
  /** The warning sign U+26A0 and variation selector U+FE0F, then the text. */
  const UnknownPrefix: string := "\U{26A0}\U{FE0F} Unknown node type: "

  predicate IsProcessingLine(line: string) {
    StartsWith(line, ProcessingPrefix)
  }

  /** The opening of the line each arm of the dispatch writes. */
  function KindPrefix(k: NodeKind): string {
    match k
    case Log => LogPrefix
    case Delay => DelayPrefix
    case FileMove => MovePrefix
    case Unknown => UnknownPrefix
  }

  /**
   * The first line written for every node: it opens with "Processing node: ",
   * continues with the node's id and closes with its type tag in parentheses.
   */
  function ProcessingLine(node: WorkflowNode): (line: string)
    ensures IsProcessingLine(line)
    ensures |line| == |ProcessingPrefix| + |node.id| + |node.nodeType| + 3
    ensures line[|ProcessingPrefix|..|ProcessingPrefix| + |node.id|] == node.id
    ensures line[|line| - |node.nodeType| - 3..] == " (" + node.nodeType + ")"
  {
    var line := ProcessingPrefix + node.id + (" (" + node.nodeType + ")");
    assert line[..|ProcessingPrefix|] == ProcessingPrefix;
    assert line[|ProcessingPrefix|..|ProcessingPrefix| + |node.id|] == node.id;
    assert line[|line| - |node.nodeType| - 3..] == " (" + node.nodeType + ")";
    line
  }

  /** The second line written for a node: the one its type tag selects, opening with that arm's prefix. */
  function ActionLine(node: WorkflowNode): (line: string)
    ensures StartsWith(line, KindPrefix(KindOf(node.nodeType)))
  {
    var body := match KindOf(node.nodeType)
      case Log => LogMessage(node.data)
      case Delay => NatToString(DelayMs(node.data)) + DelaySuffix
      case FileMove => MoveEndpoint(node.data, "source") + " to " + MoveEndpoint(node.data, "dest")
      case Unknown => node.nodeType;
    var line := KindPrefix(KindOf(node.nodeType)) + body;
    assert line[..|KindPrefix(KindOf(node.nodeType))|] == KindPrefix(KindOf(node.nodeType));
    line
  }

  /** Which arm of the dispatch wrote a line, told from how the line starts. */
  function LineKind(line: string): NodeKind {
    if StartsWith(line, LogPrefix) then Log
    else if StartsWith(line, DelayPrefix) then Delay
    else if StartsWith(line, MovePrefix) then FileMove
    else Unknown
  }

  /** The duration a "Waiting for ...ms..." line announces. */
  function WaitedMs(line: string): Option<nat> {
    match Between(line, DelayPrefix, DelaySuffix)
    case Some(digits) => ParseNat(digits)
    case None => None
  }

  /**
   * Every second line can be told apart from a "Processing node" line and
   * names the dispatch arm its node's type tag selected.
   */
  lemma ActionLineKind(node: WorkflowNode)
    ensures !IsProcessingLine(ActionLine(node))
    ensures LineKind(ActionLine(node)) == KindOf(node.nodeType)
  {
    var line := ActionLine(node);
    var k := KindOf(node.nodeType);
    assert line[0] == KindPrefix(k)[0];
    assert ProcessingPrefix[0] == 'P' && LogPrefix[0] == 'L' && DelayPrefix[0] == 'W';
    assert MovePrefix[0] == 'M' && UnknownPrefix[0] == '\U{26A0}';
  }

  /** A `log` node's line carries its message, which can be read back. */
  lemma LogLineRoundTrip(node: WorkflowNode)
    requires KindOf(node.nodeType) == Log
    ensures Between(ActionLine(node), LogPrefix, "") == Some(LogMessage(node.data))
  {
    BetweenOfConcat(LogPrefix, LogMessage(node.data), "");
    assert LogPrefix + LogMessage(node.data) + "" == ActionLine(node);
  }

  /** A `delay` node's line announces exactly the duration the node asked for (or the default). */
  lemma DelayLineRoundTrip(node: WorkflowNode)
    requires KindOf(node.nodeType) == Delay
    ensures WaitedMs(ActionLine(node)) == Some(DelayMs(node.data))
  {
    var digits := NatToString(DelayMs(node.data));
    BetweenOfConcat(DelayPrefix, digits, DelaySuffix);
    assert ActionLine(node) == DelayPrefix + digits + DelaySuffix;
    NatToStringRoundTrip(DelayMs(node.data));
  }

  /** An unknown node's warning line ends with exactly the type tag it did not recognise. */
  lemma UnknownLineRoundTrip(node: WorkflowNode)
    requires KindOf(node.nodeType) == Unknown
    ensures Between(ActionLine(node), UnknownPrefix, "") == Some(node.nodeType)
  {
    BetweenOfConcat(UnknownPrefix, node.nodeType, "");
    assert UnknownPrefix + node.nodeType + "" == ActionLine(node);
  }

  /**
   * A "Processing node" line cannot always be read back: an id containing
   * " (" makes two different nodes print the same line.
   */
  lemma ProcessingLineAmbiguous()
    ensures ProcessingLine(WorkflowNode("a (b", "c", Null))
         == ProcessingLine(WorkflowNode("a", "b (c", Null))
  {
  }

  /**
   * A `file_move` line cannot always be read back: a source containing
   * " to " makes two different moves print the same line.
   */
  lemma MoveLineAmbiguous()
    ensures ActionLine(WorkflowNode("m", "file_move", Object(map["source" := Str("a to b"), "dest" := Str("c")])))
         == ActionLine(WorkflowNode("m", "file_move", Object(map["source" := Str("a"), "dest" := Str("b to c")])))
  {
  }

  // ------------------------------------------------------ the whole run

  /** The two lines the runner writes for one node, in order. */
  function NodeLogs(node: WorkflowNode): seq<string> {
    [ProcessingLine(node), ActionLine(node)]
  }

  /**
   * The log of a run over `nodes`: each node's two lines, in the order the
   * nodes were submitted, so exactly two lines per node.
   */
  function ExpectedLogs(nodes: seq<WorkflowNode>): (logs: seq<string>)
    ensures |logs| == 2 * |nodes|
  {
    if nodes == [] then [] else ExpectedLogs(nodes[..|nodes| - 1]) + NodeLogs(nodes[|nodes| - 1])
  }

  /** Line 2i is node i's "Processing node" line and line 2i+1 its dispatch line. */
  lemma {:induction false} ExpectedLogsAt(nodes: seq<WorkflowNode>, i: nat)
    requires i < |nodes|
    ensures |ExpectedLogs(nodes)| == 2 * |nodes|
    ensures ExpectedLogs(nodes)[2 * i] == ProcessingLine(nodes[i])
    ensures ExpectedLogs(nodes)[2 * i + 1] == ActionLine(nodes[i])
  {
    var prefix := nodes[..|nodes| - 1];
    if i < |nodes| - 1 {
      ExpectedLogsAt(prefix, i);
    }
  }

  /** Running two lists one after the other logs what running their concatenation logs. */
  lemma {:induction false} ExpectedLogsAppend(xs: seq<WorkflowNode>, ys: seq<WorkflowNode>)
    ensures ExpectedLogs(xs + ys) == ExpectedLogs(xs) + ExpectedLogs(ys)
  {
    if ys == [] {
      assert xs + ys == xs;
    } else {
      var init := ys[..|ys| - 1];
      assert (xs + ys)[..|xs + ys| - 1] == xs + init;
      ExpectedLogsAppend(xs, init);
    }
  }

  /** In a run's log, exactly the even-numbered lines are "Processing node" lines. */
  lemma LogsAlternate(nodes: seq<WorkflowNode>, j: nat)
    requires j < 2 * |nodes|
    ensures |ExpectedLogs(nodes)| == 2 * |nodes|
    ensures IsProcessingLine(ExpectedLogs(nodes)[j]) <==> j % 2 == 0
  {
    var i := j / 2;
    ExpectedLogsAt(nodes, i);
    if j % 2 == 1 {
      ActionLineKind(nodes[i]);
    }
  }

  const SummaryPrefix: string := "Executed "
  const SummarySuffix: string := " nodes successfully."

  /** The node count a report message states. */
  function ReportedCount(message: string): Option<nat> {
    match Between(message, SummaryPrefix, SummarySuffix)
    case Some(digits) => ParseNat(digits)
    case None => None
  }

  /**
   * The report's message for a run that counted `count` successful nodes:
   * it states that count and no other.
   */
  function SummaryMessage(count: nat): (message: string)
    ensures ReportedCount(message) == Some(count)
  {
    BetweenOfConcat(SummaryPrefix, NatToString(count), SummarySuffix);
    NatToStringRoundTrip(count);
    SummaryPrefix + NatToString(count) + SummarySuffix
  }

  /**
   * `run_workflow`: walks the nodes in order, writing for each its
   * "Processing node" line and the line its type tag selects, and counting
   * it as a success. It never fails.
   */
  method RunWorkflow(nodes: seq<WorkflowNode>) returns (r: Result<ExecutionResult, string>)
    ensures r.Ok? && r.value.success
    ensures r.value.message == SummaryMessage(|nodes|)
    ensures ReportedCount(r.value.message) == Some(|nodes|)
    ensures r.value.logs == ExpectedLogs(nodes)
    ensures |r.value.logs| == 2 * |nodes|
    ensures forall i :: 0 <= i < |nodes| ==>
              r.value.logs[2 * i] == ProcessingLine(nodes[i])
              && r.value.logs[2 * i + 1] == ActionLine(nodes[i])
  {
    var logs: seq<string> := [];
    var successCount: nat := 0;
    for k := 0 to |nodes|
      invariant logs == ExpectedLogs(nodes[..k])
      invariant successCount == k
    {
      var node := nodes[k];
      logs := logs + [ProcessingLine(node)];
      logs := logs + [ActionLine(node)];
      successCount := successCount + 1;
      assert nodes[..k + 1][..k] == nodes[..k];
    }
    assert nodes[..|nodes|] == nodes;
    forall i | 0 <= i < |nodes|
      ensures logs[2 * i] == ProcessingLine(nodes[i]) && logs[2 * i + 1] == ActionLine(nodes[i])
    {
      ExpectedLogsAt(nodes, i);
    }
    r := Ok(ExecutionResult(true, SummaryMessage(successCount), logs));
  }
}
