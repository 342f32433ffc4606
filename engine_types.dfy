/**
 * The engine's data model (backend/engine/types.go and
 * backend/internal/engine/types.go). The two files declare the same types;
 * the second adds a node position and a per-workflow string configuration,
 * which this module carries. A workflow decoded by the legacy server simply
 * has no position and an empty configuration.
 */
module EngineTypes {
  /** NodeType is a string type; these are its declared constants. */
  const TaskType: string := "TASK"
  const StartType: string := "START"
  const EndType: string := "END"
  const LlmType: string := "LLM"
  const ResultType: string := "RESULT"

  const NodeTypes: seq<string> := [TaskType, StartType, EndType, LlmType, ResultType]

  /** The five constants are pairwise distinct, so a type switch over them is unambiguous. */
  lemma NodeTypesDistinct()
    ensures forall i, j :: 0 <= i < j < |NodeTypes| ==> NodeTypes[i] != NodeTypes[j]
  {
    assert TaskType[0] == 'T' && StartType[0] == 'S' && EndType[0] == 'E' && LlmType[0] == 'L' && ResultType[0] == 'R';
  }

  /**
   * A value held in a content map or node data (`interface{}`): a Go string,
   * or any other decoded JSON value, kept as its `%v` rendering.
   */
  datatype Value = Str(s: string) | Other(shown: string)

  /** `fmt.Sprintf("%v", v)` */
  function Format(v: Value): (r: string)
    ensures v.Str? ==> r == v.s
  {
    match v
    case Str(s) => s
    case Other(shown) => shown
  }

  type Content = map<string, Value>

  datatype Position = Position(x: real, y: real)

  datatype Node = Node(id: string, typ: string, position: Position, data: Content, metadata: Content)

  datatype Message = Message(from: string, to: string, content: Content)

  /** An edge carries exactly an id, a source and a target. */
  datatype Edge = Edge(id: string, source: string, target: string)

  /** `Config` is optional; an absent configuration reads as the empty map. */
  datatype Workflow = Workflow(id: string, nodes: seq<Node>, edges: seq<Edge>, config: map<string, string>)

  datatype ExecutionStatus = Pending | Running | Succeeded | Failed

  /** The wire names of the statuses. */
  function StatusName(s: ExecutionStatus): (name: string)
    ensures name in {"PENDING", "RUNNING", "SUCCESS", "FAILED"}
  {
    match s
    case Pending => "PENDING"
    case Running => "RUNNING"
    case Succeeded => "SUCCESS"
    case Failed => "FAILED"
  }

  /** Each status has its own name. */
  lemma StatusNamesDistinct(a: ExecutionStatus, b: ExecutionStatus)
    ensures StatusName(a) == StatusName(b) <==> a == b
  {
  }

  /** The per-node results the engine hands back to the HTTP layer. */
  type Results = map<string, Content>

  /** The state of one run; vertices write `results` while it executes. */
  class ExecutionContext {
    var workflowId: string
    var status: map<string, ExecutionStatus>
    var results: Results

    /** NewExecutionContext */
    constructor (wfId: string)
      ensures workflowId == wfId && status == map[] && results == map[]
    {
      workflowId := wfId;
      status := map[];
      results := map[];
    }
  }

  /** The ids of a node list. */
  function NodeIds(nodes: seq<Node>): (ids: set<string>)
    ensures forall id :: id in ids <==> exists i :: 0 <= i < |nodes| && nodes[i].id == id
  {
    set i | 0 <= i < |nodes| :: nodes[i].id
  }
}
