/**
 * The workflow editor's graph state and its run protocol
 * (frontend/src/components/WorkflowEditor.tsx): canonicalisation of the
 * editor graph into a workflow document, the run-state reset, failure
 * attribution, the result merge and node creation.
 */
module Editor {
  import opened Wrappers
  import Decimal
  import opened FailureAttribution

  /** A JavaScript value as it can appear in node data or a decoded response. */
  datatype JsValue =
    | Undefined
    | Null
    | Bool(b: bool)
    | Num(n: real)
    | Str(s: string)
    | Array(items: seq<JsValue>)
    | Object(fields: map<string, JsValue>)

  /** JavaScript truthiness (NaN is not modelled). */
  predicate Truthy(v: JsValue) {
    match v
    case Undefined => false
    case Null => false
    case Bool(b) => b
    case Num(n) => n != 0.0
    case Str(s) => s != ""
    case Array(_) => true
    case Object(_) => true
  }

  /** A node's `data` bag; a key mapped to Undefined is present but undefined. */
  type NodeData = map<string, JsValue>

  /** Property read `data[key]`: a missing key reads as undefined. */
  function Field(data: map<string, JsValue>, key: string): JsValue {
    if key in data then data[key] else Undefined
  }

  /** Canvas coordinates; presentation only. */
  datatype Position = Position(x: real, y: real)

  /** A React Flow node as the editor holds it; `typ` is the editor type tag. */
  datatype EditorNode = EditorNode(id: string, typ: string, position: Position, data: NodeData)

  /** A React Flow edge; `extra` stands for its presentation-only properties. */
  datatype EditorEdge = EditorEdge(id: string, source: string, target: string, extra: map<string, JsValue>)

  /** The workflow document sent to the executor (frontend/src/types/workflow.ts). */
  datatype DocNode = DocNode(id: string, kind: string, position: Position, data: NodeData)
  datatype DocEdge = DocEdge(id: string, source: string, target: string)
  datatype Document = Document(id: string, nodes: seq<DocNode>, edges: seq<DocEdge>)

  const TaskKind: string := "TASK"
  const StartKind: string := "START"
  const EndKind: string := "END"
  const LlmKind: string := "LLM"
  const ResultKind: string := "RESULT"

  predicate IsKind(k: string) {
    k == TaskKind || k == StartKind || k == EndKind || k == LlmKind || k == ResultKind
  }

  /** The kind table: LLM, RESULT, React Flow's input and output, and TASK for anything else. */
  function KindOf(typ: string): (k: string)
    ensures IsKind(k)
    ensures typ == "LLM" ==> k == LlmKind
    ensures typ == "RESULT" ==> k == ResultKind
    ensures typ == "input" ==> k == StartKind
    ensures typ == "output" ==> k == EndKind
    ensures typ !in {"LLM", "RESULT", "input", "output"} ==> k == TaskKind
  {
    if typ == "LLM" then LlmKind
    else if typ == "RESULT" then ResultKind
    else if typ == "input" then StartKind
    else if typ == "output" then EndKind
    else TaskKind
  }

  /**
   * Re-exporting canonical names is not the identity: LLM and RESULT are
   * stable, but a node whose editor type is already START or END exports as TASK.
   */
  lemma KindOfCanonicalNames()
    ensures KindOf(LlmKind) == LlmKind && KindOf(ResultKind) == ResultKind
    ensures KindOf(StartKind) == TaskKind && KindOf(EndKind) == TaskKind && KindOf(TaskKind) == TaskKind
  {
  }

  function ExportNode(n: EditorNode): DocNode {
    DocNode(n.id, KindOf(n.typ), n.position, n.data)
  }

  function ExportEdge(e: EditorEdge): DocEdge {
    DocEdge(e.id, e.source, e.target)
  }

  /** The document built by handleExport: every node and edge, in order. */
  function Export(wfId: string, nodes: seq<EditorNode>, edges: seq<EditorEdge>): (d: Document)
    ensures d.id == wfId
    ensures |d.nodes| == |nodes| && |d.edges| == |edges|
    ensures forall i :: 0 <= i < |nodes| ==>
      && d.nodes[i].id == nodes[i].id
      && d.nodes[i].kind == KindOf(nodes[i].typ)
      && d.nodes[i].position == nodes[i].position
      && d.nodes[i].data == nodes[i].data
    ensures forall i :: 0 <= i < |edges| ==>
      d.edges[i] == DocEdge(edges[i].id, edges[i].source, edges[i].target)
  {
    Document(wfId, seq(|nodes|, i requires 0 <= i < |nodes| => ExportNode(nodes[i])),
                   seq(|edges|, i requires 0 <= i < |edges| => ExportEdge(edges[i])))
  }

  /** The document id: 'wf-' followed by the millisecond clock reading. */
  function DocumentId(now: int): string {
    "wf-" + Decimal.Show(now)
  }

  /** `{...data, error: undefined, result: undefined}` */
  function ClearedData(data: NodeData): NodeData {
    data["error" := Undefined]["result" := Undefined]
  }

  /** The run-state reset applied before the request is sent. */
  function ClearRunState(nodes: seq<EditorNode>): (r: seq<EditorNode>)
    ensures |r| == |nodes|
    ensures forall i :: 0 <= i < |nodes| ==>
      && r[i].id == nodes[i].id && r[i].typ == nodes[i].typ && r[i].position == nodes[i].position
      && Field(r[i].data, "error") == Undefined && Field(r[i].data, "result") == Undefined
      && (forall k :: k != "error" && k != "result" ==> Field(r[i].data, k) == Field(nodes[i].data, k))
      && r[i].data.Keys == nodes[i].data.Keys + {"error", "result"}
  {
    seq(|nodes|, i requires 0 <= i < |nodes| =>
      nodes[i].(data := ClearedData(nodes[i].data)))
  }

  /** Clearing twice is clearing once. */
  lemma ClearRunStateIdempotent(nodes: seq<EditorNode>)
    ensures ClearRunState(ClearRunState(nodes)) == ClearRunState(nodes)
  {
    var once := ClearRunState(nodes);
    forall i | 0 <= i < |nodes| ensures ClearRunState(once)[i] == once[i] {
      assert ClearedData(once[i].data) == once[i].data;
    }
  }

  /**
   * The document is built from the node list before the reset, so a node's
   * stale `error` and `result` from an earlier run travel in the request,
   * while the editor itself shows them cleared.
   */
  lemma StaleRunStateIsExported(wfId: string, nodes: seq<EditorNode>, edges: seq<EditorEdge>, i: nat)
    requires i < |nodes|
    ensures Field(Export(wfId, nodes, edges).nodes[i].data, "error") == Field(nodes[i].data, "error")
    ensures Field(Export(wfId, nodes, edges).nodes[i].data, "result") == Field(nodes[i].data, "result")
    ensures Field(ClearRunState(nodes)[i].data, "error") == Undefined
    ensures Field(ClearRunState(nodes)[i].data, "result") == Undefined
  {
  }

  /** Sets `error` on every node whose id equals the attributed id. */
  function MarkFailed(nodes: seq<EditorNode>, nodeId: string, reason: string): (r: seq<EditorNode>)
    ensures |r| == |nodes|
    ensures forall i :: 0 <= i < |nodes| ==>
      if nodes[i].id == nodeId
      then r[i] == nodes[i].(data := nodes[i].data["error" := Str(reason)])
      else r[i] == nodes[i]
  {
    seq(|nodes|, i requires 0 <= i < |nodes| =>
      if nodes[i].id == nodeId then nodes[i].(data := nodes[i].data["error" := Str(reason)]) else nodes[i])
  }

  /** Sets `result` to the rendering of each truthy entry of the response map keyed by node id. */
  function MergeResults(nodes: seq<EditorNode>, results: map<string, JsValue>, render: JsValue -> string): (r: seq<EditorNode>)
    ensures |r| == |nodes|
    ensures forall i :: 0 <= i < |nodes| ==>
      if Truthy(Field(results, nodes[i].id))
      then r[i] == nodes[i].(data := nodes[i].data["result" := Str(render(results[nodes[i].id]))])
      else r[i] == nodes[i]
  {
    seq(|nodes|, i requires 0 <= i < |nodes| =>
      if Truthy(Field(results, nodes[i].id))
      then nodes[i].(data := nodes[i].data["result" := Str(render(results[nodes[i].id]))])
      else nodes[i])
  }

  /** What the execute request comes back with, as handleExport observes it. */
  datatype RunResponse =
    | Unreachable(message: string)            // fetch rejected
    | Failed(status: int, text: string)       // !response.ok, body read as text
    | Succeeded(results: map<string, JsValue>) // response.ok, body decoded as an object
    | Unreadable(message: string)             // response.ok, but response.json() rejected

  const UnknownError: string := "An unknown error occurred"
  const SuccessMessage: string := "Workflow executed successfully!"

  /** The workflow-level message thrown for a non-ok response. */
  function ServerError(status: int, text: string): string {
    "Server error (" + Decimal.Show(status) + "):\n" + text
  }

  /** `err.message || 'An unknown error occurred'` */
  function Message(message: string): string {
    if message == "" then UnknownError else message
  }

  /** The node list after a non-ok response with text `text`. */
  function AfterFailure(nodes: seq<EditorNode>, text: string): seq<EditorNode> {
    match Attribute(text)
    case Some(a) => MarkFailed(nodes, a.nodeId, a.reason)
    case None => nodes
  }

  /**
   * After the reset and a failed response, no node carries a result; only
   * nodes with the attributed id carry an error, and it is the attributed
   * reason; without attribution no node carries an error.
   */
  lemma FailureMarksOnlyAttributedNodes(nodes: seq<EditorNode>, text: string, i: nat)
    requires i < |nodes|
    ensures var r := AfterFailure(ClearRunState(nodes), text);
      && |r| == |nodes|
      && r[i].id == nodes[i].id
      && Field(r[i].data, "result") == Undefined
      && Field(r[i].data, "error") ==
           (if Attribute(text).Some? && Attribute(text).value.nodeId == nodes[i].id
            then Str(Attribute(text).value.reason) else Undefined)
  {
  }

  /**
   * After the reset and a successful response, a node carries a result
   * exactly when the response maps its id to a truthy value, and no node
   * carries an error.
   */
  lemma SuccessSetsOnlyReturnedResults(nodes: seq<EditorNode>, results: map<string, JsValue>, render: JsValue -> string, i: nat)
    requires i < |nodes|
    ensures var r := MergeResults(ClearRunState(nodes), results, render);
      && |r| == |nodes|
      && r[i].id == nodes[i].id
      && Field(r[i].data, "error") == Undefined
      && Field(r[i].data, "result") ==
           (if Truthy(Field(results, nodes[i].id)) then Str(render(results[nodes[i].id])) else Undefined)
  {
  }

  /** The node addNode appends: id is the decimal of the old length plus one. */
  function NewNode(nodes: seq<EditorNode>, typ: string, position: Position): (n: EditorNode)
    ensures n.id == Decimal.Show(|nodes| + 1) && n.typ == typ && n.position == position
    ensures n.data == map["label" := Str(typ + " Node")]
  {
    EditorNode(Decimal.Show(|nodes| + 1), typ, position, map["label" := Str(typ + " Node")])
  }

  const InitialNodes: seq<EditorNode> := [
    EditorNode("1", "LLM", Position(250.0, 5.0),
      map["label" := Str("Start"), "model" := Str("GPT-4"), "prompt" := Str("Hello")]),
    EditorNode("2", "RESULT", Position(250.0, 200.0), map["label" := Str("Result")])
  ]

  const InitialEdges: seq<EditorEdge> := [EditorEdge("e1-2", "1", "2", map[])]

  /** The editor component's state: the node and edge lists and the two banners. */
  class EditorState {
    var nodes: seq<EditorNode>
    var edges: seq<EditorEdge>
    var error: Option<string>
    var success: Option<string>

    constructor ()
      ensures nodes == InitialNodes && edges == InitialEdges
      ensures error == None && success == None
    {
      nodes := InitialNodes;
      edges := InitialEdges;
      error := None;
      success := None;
    }

    /**
     * handleExport up to the request: build the document from the current
     * lists, then reset the run state of every node.
     */
    method StartExport(now: int) returns (doc: Document)
      modifies this`nodes
      ensures doc == Export(DocumentId(now), old(nodes), edges)
      ensures nodes == ClearRunState(old(nodes))
    {
      doc := Export(DocumentId(now), nodes, edges);
      nodes := ClearRunState(nodes);
    }

    /**
     * handleExport after the response arrives; it applies to the node list
     * as it is then, including edits made while the request was in flight.
     */
    method FinishExport(response: RunResponse, render: JsValue -> string)
      modifies this`nodes, this`error, this`success
      ensures response.Failed? ==>
        && nodes == AfterFailure(old(nodes), response.text)
        && error == Some(ServerError(response.status, response.text))
        && success == old(success)
      ensures response.Succeeded? ==>
        && nodes == MergeResults(old(nodes), response.results, render)
        && success == Some(SuccessMessage) && error == old(error)
      ensures (response.Unreachable? || response.Unreadable?) ==>
        && nodes == old(nodes)
        && error == Some(Message(response.message)) && success == old(success)
    {
      match response {
        case Unreachable(message) =>
          error := Some(Message(message));
        case Failed(status, text) =>
          var m := Attribute(text);
          if m.Some? {
            nodes := MarkFailed(nodes, m.value.nodeId, m.value.reason);
          }
          error := Some(Message(ServerError(status, text)));
        case Succeeded(results) =>
          nodes := MergeResults(nodes, results, render);
          success := Some(SuccessMessage);
        case Unreadable(message) =>
          error := Some(Message(message));
      }
    }

    /** addNode: append one node; the existing nodes are untouched. */
    method AddNode(typ: string, position: Position)
      modifies this`nodes
      ensures nodes == old(nodes) + [NewNode(old(nodes), typ, position)]
    {
      var id := Decimal.Show(|nodes| + 1);
      var node := EditorNode(id, typ, position, map["label" := Str(typ + " Node")]);
      nodes := nodes + [node];
    }
  }
}
