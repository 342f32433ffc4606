/**
 * The first server (backend/main.go): `/api/execute` behind the CORS
 * wrapper, running the engine with the simulated vertices.
 */
module LegacyServer {
  import opened Wrappers
  import opened EngineTypes
  import opened Bsp
  import Vertices
  import SimulatedNodes
  import opened Http
  import BspLaws

  const MethodNotAllowed: string := "Method not allowed"
  const InvalidBody: string := "Invalid request body"
  const ExecutionFailed: string := "Workflow execution failed: "

  /** The error for a node type the factory does not know. */
  function UnknownNodeType(t: string): string {
    "unknown node type: " + t
  }

  datatype LegacyVertex = SimulatedLlm | SimulatedResult

  /** The vertex factory: LLM, START and TASK get the simulated LLM vertex, RESULT the result vertex. */
  function Factory(t: string): (r: Result<LegacyVertex, string>)
    ensures r.Ok? <==> t in {LlmType, StartType, TaskType, ResultType}
    ensures r.Ok? ==> (r.value == SimulatedResult <==> t == ResultType)
    ensures r.Err? ==> r.error == UnknownNodeType(t)
  {
    if t == LlmType then Ok(SimulatedLlm)
    else if t == ResultType then Ok(SimulatedResult)
    else if t == StartType then Ok(SimulatedLlm)
    else if t == TaskType then Ok(SimulatedLlm)
    else Err(UnknownNodeType(t))
  }

  /** The END type, which the frontend emits for output nodes, has no vertex. */
  lemma EndTypeRejected()
    ensures Factory(EndType) == Err(UnknownNodeType(EndType))
  {
  }

  function Compute(v: LegacyVertex, inv: Invocation): Result<Effect, string> {
    match v
    case SimulatedLlm => SimulatedNodes.LlmEffect(inv)
    case SimulatedResult => Vertices.ResultEffect(inv)
  }

  /** The only error a legacy vertex ever returns is the simulated failure. */
  lemma ComputeErrorsAreSimulated(v: LegacyVertex, inv: Invocation)
    ensures Compute(v, inv).Err? ==> Compute(v, inv).error == SimulatedNodes.SimulatedFailure
  {
  }

  /** The decoded request's run, from a fresh execution context. */
  function Run(wf: Workflow, order: nat -> seq<string>): Outcome
    requires Orders(order, NodeIds(wf.nodes))
  {
    Execute(wf, map[], Factory, Compute, order)
  }

  /**
   * handleExecute's decision: 405 for anything but POST, 400 for a body
   * that does not decode, 500 with the engine error, else the results.
   */
  function ExecuteReply(requestMethod: string, decoded: Option<Workflow>, order: nat -> seq<string>): (r: Reply<Results>)
    requires decoded.Some? ==> Orders(order, NodeIds(decoded.value.nodes))
    ensures requestMethod != Post ==> r == Failure(StatusMethodNotAllowed, MethodNotAllowed)
    ensures requestMethod == Post && decoded.None? ==> r == Failure(StatusBadRequest, InvalidBody)
    ensures requestMethod == Post && decoded.Some? ==>
      var o := Run(decoded.value, order);
      r == if o.error.Some? then Failure(StatusInternalServerError, ExecutionFailed + o.error.value) else Success(o.results)
  {
    if requestMethod != Post then Failure(StatusMethodNotAllowed, MethodNotAllowed)
    else if decoded.None? then Failure(StatusBadRequest, InvalidBody)
    else
      var o := Run(decoded.value, order);
      if o.error.Some? then Failure(StatusInternalServerError, ExecutionFailed + o.error.value)
      else Success(o.results)
  }

  /** handleExecute on a fresh response writer. */
  method HandleExecute(w: ResponseWriter<Results>, requestMethod: string, decoded: Option<Workflow>, order: nat -> seq<string>)
    requires decoded.Some? ==> Orders(order, NodeIds(decoded.value.nodes))
    requires w.status == 0 && w.body == []
    modifies w
    ensures w.Shows(ExecuteReply(requestMethod, decoded, order), old(w.headers))
  {
    if requestMethod != Post {
      w.Error(MethodNotAllowed, StatusMethodNotAllowed);
      return;
    }
    if decoded.None? {
      w.Error(InvalidBody, StatusBadRequest);
      return;
    }
    var wf := decoded.value;
    var exec := new ExecutionContext(wf.id);
    var err := ExecuteBSP(wf, exec, Factory, Compute, order);
    if err.Some? {
      w.Error(ExecutionFailed + err.value, StatusInternalServerError);
      return;
    }
    w.SetHeader(ContentType, ApplicationJson);
    w.Write(JsonChunk(exec.results));
  }

  /** `/api/execute` as registered: the CORS wrapper around handleExecute. */
  method Serve(w: ResponseWriter<Results>, requestMethod: string, decoded: Option<Workflow>, order: nat -> seq<string>)
    requires decoded.Some? ==> Orders(order, NodeIds(decoded.value.nodes))
    requires w.status == 0 && w.body == []
    modifies w
    ensures requestMethod == Options ==> w.status == StatusOK && w.body == [] && w.headers == old(w.headers) + CorsHeaders
    ensures requestMethod != Options ==> w.Shows(ExecuteReply(requestMethod, decoded, order), old(w.headers) + CorsHeaders)
  {
    var forward := w.EnableCors(requestMethod);
    if forward {
      HandleExecute(w, requestMethod, decoded, order);
    }
  }

  /**
   * A workflow with an END node always fails with 500: the build stops at
   * the first node whose type has no vertex, which is that node or one before it.
   */
  lemma OutputNodeFails(wf: Workflow, order: nat -> seq<string>, k: nat)
    requires Orders(order, NodeIds(wf.nodes))
    requires k < |wf.nodes| && wf.nodes[k].typ == EndType
    ensures var r := ExecuteReply(Post, Some(wf), order);
      && r.Failure? && r.status == StatusInternalServerError
      && exists i :: 0 <= i <= k && Factory(wf.nodes[i].typ).Err?
           && r.message == ExecutionFailed + FactoryError(wf.nodes[i].id, UnknownNodeType(wf.nodes[i].typ))
  {
    BspLaws.FactoryFailureStopsBeforeSupersteps(wf, map[], Factory, Compute, order, k);
  }
}
