/**
 * The client-backed vertices of the second server
 * (backend/internal/engine/nodes/nodes.go): the LLM vertex assembles a
 * prompt from its node's data and its mail, asks the client, records the
 * answer with the prompt it used, and fans the answer out.
 *
 * The client is a function from prompt to answer or error; the clock
 * reading is the already formatted RFC 3339 timestamp.
 */
module ClientNodes {
  import opened Wrappers
  import opened EngineTypes
  import opened Bsp
  import opened Vertices

  const PromptKey: string := "prompt"
  const DefaultPrompt: string := "Hello"
  const ContextSeparator: string := "\nContext: "
  const GenerationFailed: string := "LLM generation failed: "

  /** `node.Data["prompt"].(string)`, or "" when absent or not a string. */
  function PromptField(data: Content): string {
    if PromptKey in data && data[PromptKey].Str? then data[PromptKey].s else ""
  }

  /** The prompt of the first node with this id; "" when no node has it (PromptOfFirstMatch, PromptOfAbsent). */
  function PromptOf(nodes: seq<Node>, id: string): (p: string)
    decreases |nodes|
  {
    if |nodes| == 0 then ""
    else if nodes[0].id == id then PromptField(nodes[0].data)
    else PromptOf(nodes[1..], id)
  }

  /** PromptOf gives "" when no node has the id. */
  lemma {:induction false} PromptOfAbsent(nodes: seq<Node>, id: string)
    requires forall i :: 0 <= i < |nodes| ==> nodes[i].id != id
    ensures PromptOf(nodes, id) == ""
    decreases |nodes|
  {
    if |nodes| > 0 {
      var rest := nodes[1..];
      forall i | 0 <= i < |rest| ensures rest[i].id != id {
        assert rest[i] == nodes[i + 1];
      }
      PromptOfAbsent(rest, id);
    }
  }

  /** PromptOf reads the first node with the id. */
  lemma {:induction false} PromptOfFirstMatch(nodes: seq<Node>, id: string, k: nat)
    requires k < |nodes| && nodes[k].id == id
    requires forall j :: 0 <= j < k ==> nodes[j].id != id
    ensures PromptOf(nodes, id) == PromptField(nodes[k].data)
    decreases k
  {
    if k > 0 {
      var rest := nodes[1..];
      assert rest[k - 1] == nodes[k];
      forall j | 0 <= j < k - 1 ensures rest[j].id != id {
        assert rest[j] == nodes[j + 1];
      }
      assert nodes[0].id != id;
      PromptOfFirstMatch(rest, id, k - 1);
    }
  }

  /** The search loop over the workflow's nodes, stopping at the first match. */
  method FindPrompt(nodes: seq<Node>, id: string) returns (prompt: string)
    ensures prompt == PromptOf(nodes, id)
  {
    prompt := "";
    var i := 0;
    while i < |nodes|
      invariant 0 <= i <= |nodes|
      invariant PromptOf(nodes[i..], id) == PromptOf(nodes, id)
      invariant prompt == ""
    {
      if nodes[i].id == id {
        var data := nodes[i].data;
        if PromptKey in data && data[PromptKey].Str? {
          prompt := data[PromptKey].s;
        }
        return;
      }
      assert nodes[i..][1..] == nodes[i + 1..];
      i := i + 1;
    }
  }

  /** What the client is asked: the prompt, the prompt with the mail as context, or the default. */
  function FullInput(prompt: string, input: string): (full: string)
    ensures full != ""
    ensures input == "" && prompt == "" ==> full == DefaultPrompt
    ensures input == "" && prompt != "" ==> full == prompt
    ensures input != "" ==> full == prompt + ContextSeparator + input
  {
    var full := if input != "" then prompt + ContextSeparator + input else prompt;
    if full == "" then DefaultPrompt else full
  }

  /** The record kept for the frontend after a successful call. */
  function DebugRecord(result: string, full: string, timestamp: string): Content {
    map["result" := Str(result), "debug_prompt" := Str(full), "timestamp" := Str(timestamp)]
  }

  /**
   * LLMVertex.Compute: on a client error, a wrapped error and no other
   * effect; otherwise this node's record in the results and one message
   * with the answer per outgoing edge.
   */
  function LlmEffect(inv: Invocation, generate: string -> Result<string, string>, timestamp: string): (r: Result<Effect, string>)
    ensures var full := FullInput(PromptOf(inv.workflow.nodes, inv.nodeId), InputText(inv.messages));
      && (r.Err? <==> generate(full).Err?)
      && (r.Err? ==> r.error == GenerationFailed + generate(full).error)
      && (r.Ok? ==> r.value.results == inv.results[inv.nodeId := DebugRecord(generate(full).value, full, timestamp)])
      && (r.Ok? ==> r.value.outbox == FanOut(inv.workflow.edges, inv.nodeId, generate(full).value))
  {
    var input := InputText(inv.messages);
    var prompt := PromptOf(inv.workflow.nodes, inv.nodeId);
    var full := FullInput(prompt, input);
    match generate(full)
    case Err(e) => Err(GenerationFailed + e)
    case Ok(result) =>
      Ok(Effect(FanOut(inv.workflow.edges, inv.nodeId, result),
                inv.results[inv.nodeId := DebugRecord(result, full, timestamp)]))
  }

  /** LLMVertex.Compute on a live context. */
  method LlmCompute(ctx: Context, messages: seq<Message>, generate: string -> Result<string, string>, timestamp: string)
    returns (err: Option<string>)
    modifies ctx`outbox, ctx.execution`results
    ensures match LlmEffect(Invocation(ctx.step, ctx.nodeId, ctx.workflow, messages, old(ctx.execution.results)), generate, timestamp)
      case Err(e) => err == Some(e) && ctx.outbox == old(ctx.outbox) && ctx.execution.results == old(ctx.execution.results)
      case Ok(eff) => err == None && ctx.outbox == old(ctx.outbox) + eff.outbox && ctx.execution.results == eff.results
  {
    var input := CollectInput(messages);
    var prompt := FindPrompt(ctx.workflow.nodes, ctx.nodeId);
    var full := prompt;
    if input != "" {
      full := prompt + ContextSeparator + input;
    }
    if full == "" {
      full := DefaultPrompt;
    }
    var answer := generate(full);
    if answer.Err? {
      return Some(GenerationFailed + answer.error);
    }
    ctx.execution.results := ctx.execution.results[ctx.nodeId := DebugRecord(answer.value, full, timestamp)];
    SendToChildren(ctx, answer.value);
    return None;
  }

  /** The debug record holds exactly what the client was asked and what it answered. */
  lemma DebugPromptIsWhatWasAsked(inv: Invocation, generate: string -> Result<string, string>, timestamp: string)
    requires LlmEffect(inv, generate, timestamp).Ok?
    ensures var full := FullInput(PromptOf(inv.workflow.nodes, inv.nodeId), InputText(inv.messages));
      var rec := LlmEffect(inv, generate, timestamp).value.results[inv.nodeId];
      && rec["debug_prompt"] == Str(full)
      && generate(full) == Ok(rec["result"].s)
      && rec.Keys == {"result", "debug_prompt", "timestamp"}
  {
  }
}
