/**
 * The second server (backend/cmd/server/main.go): `/api/execute` runs the
 * engine with client-backed vertices, and `/api/workflows` dispatches to
 * the stored-workflow handlers; both sit behind the CORS wrapper.
 *
 * The client is a value naming its key and model; what it answers is the
 * parameter `generate`. The clock is `clock`, read once per vertex
 * invocation and already formatted.
 */
module Server {
  import opened Wrappers
  import opened EngineTypes
  import opened Bsp
  import Vertices
  import ClientNodes
  import opened Http
  import BspLaws
  import opened WorkflowApi
  import Config

  const ApiKeyField: string := "openai_api_key"
  const OverrideModel: string := "gpt-4"
  const ExecutionFailed: string := "Workflow execution failed: "

  /** An LLM client: the key and model it was built with. */
  datatype Client = OpenAI(apiKey: string, model: string)

  /** The client built at startup from the configuration. */
  function StartupClient(cfg: Config.Config): (c: Client)
    ensures c.apiKey == cfg.llm.apiKey && c.model == cfg.llm.model
  {
    OpenAI(cfg.llm.apiKey, cfg.llm.model)
  }

  /** A non-empty key in the workflow's config replaces the startup client, with the fixed model. */
  function ClientFor(base: Client, wf: Workflow): (c: Client)
    ensures ApiKeyField in wf.config && wf.config[ApiKeyField] != "" ==> c == OpenAI(wf.config[ApiKeyField], OverrideModel)
    ensures ApiKeyField !in wf.config || wf.config[ApiKeyField] == "" ==> c == base
  {
    if ApiKeyField in wf.config && wf.config[ApiKeyField] != "" then OpenAI(wf.config[ApiKeyField], OverrideModel)
    else base
  }

  /** A request that brings its own key runs on gpt-4 whatever LLM_MODEL says. */
  lemma RequestKeyIgnoresConfiguredModel(env: Config.Env, wf: Workflow)
    requires ApiKeyField in wf.config && wf.config[ApiKeyField] != ""
    ensures ClientFor(StartupClient(Config.Load(env)), wf).model == OverrideModel
    ensures ClientFor(StartupClient(Config.Load(env)), wf).apiKey == wf.config[ApiKeyField]
  {
  }

  /** Without a request key, the unconfigured server calls the client with an empty key and gpt-4. */
  lemma DefaultClient(wf: Workflow)
    requires ApiKeyField !in wf.config
    ensures ClientFor(StartupClient(Config.Load(map[])), wf) == OpenAI("", "gpt-4")
  {
    Config.LoadDefaults();
  }

  datatype ServerVertex = ClientLlm(client: Client) | StoredResult

  /** The vertex factory: LLM, START and TASK get an LLM vertex on this request's client, RESULT the result vertex. */
  function Factory(client: Client, t: string): (r: Result<ServerVertex, string>)
    ensures r.Ok? <==> t in {LlmType, ResultType, StartType, TaskType}
    ensures r.Ok? ==> (r.value == StoredResult <==> t == ResultType)
    ensures r.Ok? && t != ResultType ==> r.value == ClientLlm(client)
    ensures r.Err? ==> r.error == "unknown node type: " + t
  {
    if t == LlmType then Ok(ClientLlm(client))
    else if t == ResultType then Ok(StoredResult)
    else if t == StartType then Ok(ClientLlm(client))
    else if t == TaskType then Ok(ClientLlm(client))
    else Err("unknown node type: " + t)
  }

  function FactoryFor(client: Client): string -> Result<ServerVertex, string> {
    t => Factory(client, t)
  }

  /** A vertex's computation, given what each client answers and the clock. */
  function Compute(generate: (Client, string) -> Result<string, string>, clock: (nat, string) -> string,
                   v: ServerVertex, inv: Invocation): Result<Effect, string>
  {
    match v
    case ClientLlm(c) => ClientNodes.LlmEffect(inv, s => generate(c, s), clock(inv.step, inv.nodeId))
    case StoredResult => Vertices.ResultEffect(inv)
  }

  function ComputeWith(generate: (Client, string) -> Result<string, string>, clock: (nat, string) -> string): Compute<ServerVertex> {
    (v, inv) => Compute(generate, clock, v, inv)
  }

  /** A vertex of this server fails only by wrapping a client error. */
  lemma ComputeErrorsAreGenerationFailures(generate: (Client, string) -> Result<string, string>, clock: (nat, string) -> string,
                                           v: ServerVertex, inv: Invocation)
    ensures Compute(generate, clock, v, inv).Err? ==>
      exists c, prompt :: generate(c, prompt).Err? && Compute(generate, clock, v, inv).error == ClientNodes.GenerationFailed + generate(c, prompt).error
  {
    if v.ClientLlm? && Compute(generate, clock, v, inv).Err? {
      var full := ClientNodes.FullInput(ClientNodes.PromptOf(inv.workflow.nodes, inv.nodeId), Vertices.InputText(inv.messages));
      assert Compute(generate, clock, v, inv).error == ClientNodes.GenerationFailed + generate(v.client, full).error;
    }
  }

  /** The decoded request's run, from a fresh execution context. */
  function Run(wf: Workflow, base: Client, generate: (Client, string) -> Result<string, string>,
               clock: (nat, string) -> string, order: nat -> seq<string>): Outcome
    requires Orders(order, NodeIds(wf.nodes))
  {
    Execute(wf, map[], FactoryFor(ClientFor(base, wf)), ComputeWith(generate, clock), order)
  }

  /**
   * handleExecute's decision: 405 for anything but POST, 400 for a body
   * that does not decode, 500 with the engine error, else the results.
   */
  function ExecuteReply(requestMethod: string, decoded: Option<Workflow>, base: Client,
                        generate: (Client, string) -> Result<string, string>, clock: (nat, string) -> string,
                        order: nat -> seq<string>): (r: Reply<Results>)
    requires decoded.Some? ==> Orders(order, NodeIds(decoded.value.nodes))
    ensures requestMethod != Post ==> r == Failure(StatusMethodNotAllowed, MethodNotAllowed)
    ensures requestMethod == Post && decoded.None? ==> r == Failure(StatusBadRequest, InvalidBody)
    ensures requestMethod == Post && decoded.Some? ==>
      var o := Run(decoded.value, base, generate, clock, order);
      r == if o.error.Some? then Failure(StatusInternalServerError, ExecutionFailed + o.error.value) else Success(o.results)
  {
    if requestMethod != Post then Failure(StatusMethodNotAllowed, MethodNotAllowed)
    else if decoded.None? then Failure(StatusBadRequest, InvalidBody)
    else
      var o := Run(decoded.value, base, generate, clock, order);
      if o.error.Some? then Failure(StatusInternalServerError, ExecutionFailed + o.error.value)
      else Success(o.results)
  }

  /** handleExecute on a fresh response writer. */
  method HandleExecute(w: ResponseWriter<Results>, requestMethod: string, decoded: Option<Workflow>, base: Client,
                       generate: (Client, string) -> Result<string, string>, clock: (nat, string) -> string,
                       order: nat -> seq<string>)
    requires decoded.Some? ==> Orders(order, NodeIds(decoded.value.nodes))
    requires w.status == 0 && w.body == []
    modifies w
    ensures w.Shows(ExecuteReply(requestMethod, decoded, base, generate, clock, order), old(w.headers))
  {
    if requestMethod != Post {
      w.Error(MethodNotAllowed, StatusMethodNotAllowed);
      return;
    }
    if decoded.None? {
      w.Error(InvalidBody, StatusBadRequest);
      return;
    }
    var wf := decoded.value;
    var exec := new ExecutionContext(wf.id);
    var client := base;
    if ApiKeyField in wf.config && wf.config[ApiKeyField] != "" {
      client := OpenAI(wf.config[ApiKeyField], OverrideModel);
    }
    var err := ExecuteBSP(wf, exec, FactoryFor(client), ComputeWith(generate, clock), order);
    if err.Some? {
      w.Error(ExecutionFailed + err.value, StatusInternalServerError);
      return;
    }
    w.SetHeader(ContentType, ApplicationJson);
    w.Write(JsonChunk(exec.results));
  }

  /** `/api/execute` as registered: the CORS wrapper around handleExecute. */
  method ServeExecute(w: ResponseWriter<Results>, requestMethod: string, decoded: Option<Workflow>, base: Client,
                      generate: (Client, string) -> Result<string, string>, clock: (nat, string) -> string,
                      order: nat -> seq<string>)
    requires decoded.Some? ==> Orders(order, NodeIds(decoded.value.nodes))
    requires w.status == 0 && w.body == []
    modifies w
    ensures requestMethod == Options ==> w.status == StatusOK && w.body == [] && w.headers == old(w.headers) + CorsHeaders
    ensures requestMethod != Options ==>
      w.Shows(ExecuteReply(requestMethod, decoded, base, generate, clock, order), old(w.headers) + CorsHeaders)
  {
    var forward := w.EnableCors(requestMethod);
    if forward {
      HandleExecute(w, requestMethod, decoded, base, generate, clock, order);
    }
  }

  /**
   * A workflow with an END node always fails with 500: the build stops at
   * the first node whose type has no vertex, which is that node or one before it.
   */
  lemma OutputNodeFails(wf: Workflow, base: Client, generate: (Client, string) -> Result<string, string>,
                        clock: (nat, string) -> string, order: nat -> seq<string>, k: nat)
    requires Orders(order, NodeIds(wf.nodes))
    requires k < |wf.nodes| && wf.nodes[k].typ == EndType
    ensures var r := ExecuteReply(Post, Some(wf), base, generate, clock, order);
      && r.Failure? && r.status == StatusInternalServerError
      && exists i :: 0 <= i <= k && wf.nodes[i].typ !in {LlmType, ResultType, StartType, TaskType}
           && r.message == ExecutionFailed + FactoryError(wf.nodes[i].id, "unknown node type: " + wf.nodes[i].typ)
  {
    var factory := FactoryFor(ClientFor(base, wf));
    assert factory(wf.nodes[k].typ).Err?;
    BspLaws.FactoryFailureStopsBeforeSupersteps(wf, map[], factory, ComputeWith(generate, clock), order, k);
  }

  /** Starts with the wrapper the LLM vertex puts around a client error. */
  predicate IsGenerationFailure(e: string) {
    |ClientNodes.GenerationFailed| <= |e| && e[..|ClientNodes.GenerationFailed|] == ClientNodes.GenerationFailed
  }

  /**
   * Every 500 from `/api/execute` names an unknown node type, the step
   * cap, or a client error at some superstep and node.
   */
  lemma ExecuteFailureShape(wf: Workflow, base: Client, generate: (Client, string) -> Result<string, string>,
                            clock: (nat, string) -> string, order: nat -> seq<string>)
    requires Orders(order, NodeIds(wf.nodes))
    ensures var r := ExecuteReply(Post, Some(wf), base, generate, clock, order);
      r.Failure? ==>
        || (exists i :: 0 <= i < |wf.nodes| && wf.nodes[i].typ !in {LlmType, ResultType, StartType, TaskType}
              && r.message == ExecutionFailed + FactoryError(wf.nodes[i].id, "unknown node type: " + wf.nodes[i].typ))
        || r.message == ExecutionFailed + MaxStepsError
        || exists s: nat, id, e :: s < MaxSteps && id in NodeIds(wf.nodes) && IsGenerationFailure(e)
             && r.message == ExecutionFailed + StepError(s, id, e)
  {
    var compute := ComputeWith(generate, clock);
    forall v, inv | compute(v, inv).Err? ensures IsGenerationFailure(compute(v, inv).error) {
      ComputeErrorsAreGenerationFailures(generate, clock, v, inv);
      var c, prompt :| generate(c, prompt).Err? && compute(v, inv).error == ClientNodes.GenerationFailed + generate(c, prompt).error;
      assert (ClientNodes.GenerationFailed + generate(c, prompt).error)[..|ClientNodes.GenerationFailed|] == ClientNodes.GenerationFailed;
    }
    BspLaws.ExecuteErrorShape(wf, map[], FactoryFor(ClientFor(base, wf)), compute, order, IsGenerationFailure);
  }

  /** Which handler `/api/workflows` hands a request to. */
  datatype WorkflowRoute = SaveRoute | GetOneRoute | ListRoute | Refused

  function RouteWorkflows(requestMethod: string, id: string): (r: WorkflowRoute)
    ensures r == SaveRoute <==> requestMethod == Post
    ensures r == GetOneRoute <==> requestMethod == Get && id != ""
    ensures r == ListRoute <==> requestMethod == Get && id == ""
    ensures r == Refused <==> requestMethod != Post && requestMethod != Get
  {
    if requestMethod == Post then SaveRoute
    else if requestMethod == Get then (if id != "" then GetOneRoute else ListRoute)
    else Refused
  }

  /** The dispatch checks the id before GetWorkflow does, so GetWorkflow's own 400 never fires from this route. */
  lemma RoutedGetHasId(rows: map<string, Row>, requestMethod: string, id: string, dbError: bool)
    requires RouteWorkflows(requestMethod, id) == GetOneRoute
    ensures GetReply(rows, id, dbError) != Failure(StatusBadRequest, MissingId)
    ensures GetReply(rows, id, dbError).Success? <==> !dbError && id in rows
  {
  }

  /** `/api/workflows` as registered: the CORS wrapper around the dispatch on method and `id`. */
  method ServeWorkflows(w: ResponseWriter<Payload>, h: WorkflowHandler, requestMethod: string, id: string,
                        decoded: Option<SaveRequest>, now: int, dbError: bool,
                        queryError: bool, queried: seq<string>, scans: string -> bool)
    requires ListedByRecency(h.rows, queried)
    requires w.status == 0 && w.body == []
    modifies w, h
    ensures requestMethod == Options ==>
      && w.status == StatusOK && w.body == [] && w.headers == old(w.headers) + CorsHeaders && h.rows == old(h.rows)
    ensures requestMethod != Options && RouteWorkflows(requestMethod, id) == Refused ==>
      w.Shows(Failure(StatusMethodNotAllowed, MethodNotAllowed), old(w.headers) + CorsHeaders) && h.rows == old(h.rows)
    ensures RouteWorkflows(requestMethod, id) == GetOneRoute ==>
      w.Shows(GetReply(old(h.rows), id, dbError), old(w.headers) + CorsHeaders) && h.rows == old(h.rows)
    ensures RouteWorkflows(requestMethod, id) == ListRoute ==>
      && h.rows == old(h.rows)
      && w.Shows(if queryError then Failure(StatusInternalServerError, ListFailed)
                 else Success(Listing(Listed(Summaries(old(h.rows), queried, scans)))), old(w.headers) + CorsHeaders)
    ensures RouteWorkflows(requestMethod, id) == SaveRoute && decoded.None? ==>
      w.Shows(Failure(StatusBadRequest, InvalidBody), old(w.headers) + CorsHeaders) && h.rows == old(h.rows)
    ensures RouteWorkflows(requestMethod, id) == SaveRoute && decoded.Some? && dbError ==>
      w.Shows(Failure(StatusInternalServerError, SaveFailed), old(w.headers) + CorsHeaders) && h.rows == old(h.rows)
    ensures RouteWorkflows(requestMethod, id) == SaveRoute && decoded.Some? && !dbError ==>
      && h.rows == Upsert(old(h.rows), decoded.value, now)
      && w.status == StatusOK && w.body == [JsonChunk(Ack("saved"))] && w.headers == old(w.headers) + CorsHeaders
  {
    var forward := w.EnableCors(requestMethod);
    if !forward {
      return;
    }
    if requestMethod == Post {
      h.SaveWorkflow(w, requestMethod, decoded, now, dbError);
    } else if requestMethod == Get {
      if id != "" {
        h.GetWorkflow(w, requestMethod, id, dbError);
      } else {
        h.ListWorkflows(w, requestMethod, queryError, queried, scans);
      }
    } else {
      w.Error(MethodNotAllowed, StatusMethodNotAllowed);
    }
  }
}
