/**
 * The simulated vertices of the first server (backend/nodes/nodes.go): an
 * LLM vertex that answers with a canned reply and fails on the input
 * "error", and the shared result vertex.
 */
module SimulatedNodes {
  import opened Wrappers
  import opened EngineTypes
  import opened Bsp
  import opened Vertices

  const SimulatedFailure: string := "simulated LLM failure"
  const InitialReply: string := "LLM Response to initial prompt"

  /** The canned reply for an input text. */
  function SimulatedReply(input: string): (r: string)
    ensures input == "" ==> r == InitialReply
    ensures input != "" ==> r == "LLM Response to '" + input + "'"
  {
    if input == "" then InitialReply else "LLM Response to '" + input + "'"
  }

  /** The input texts on which the vertex fails. */
  predicate IsFailureInput(input: string) {
    input == "error " || input == "error"
  }

  /**
   * LLMVertex.Compute: fail on the failure input without sending anything;
   * otherwise send the reply along every outgoing edge. It never writes results.
   */
  function LlmEffect(inv: Invocation): (r: Result<Effect, string>)
    ensures r.Err? <==> IsFailureInput(InputText(inv.messages))
    ensures r.Err? ==> r.error == SimulatedFailure
    ensures r.Ok? ==> r.value.results == inv.results
    ensures r.Ok? ==> r.value.outbox == FanOut(inv.workflow.edges, inv.nodeId, SimulatedReply(InputText(inv.messages)))
  {
    var input := InputText(inv.messages);
    var result := SimulatedReply(input);
    if IsFailureInput(input) then Err(SimulatedFailure)
    else Ok(Effect(FanOut(inv.workflow.edges, inv.nodeId, result), inv.results))
  }

  /** LLMVertex.Compute on a live context: the same outcome, with the outbox appended in place. */
  method LlmCompute(ctx: Context, messages: seq<Message>) returns (err: Option<string>)
    modifies ctx`outbox
    ensures match LlmEffect(Invocation(ctx.step, ctx.nodeId, ctx.workflow, messages, ctx.execution.results))
      case Err(e) => err == Some(e) && ctx.outbox == old(ctx.outbox)
      case Ok(eff) => err == None && ctx.outbox == old(ctx.outbox) + eff.outbox
  {
    var input := CollectInput(messages);
    var result := if input == "" then InitialReply else "LLM Response to '" + input + "'";
    if input == "error " || input == "error" {
      return Some(SimulatedFailure);
    }
    SendToChildren(ctx, result);
    return None;
  }

  /** The input text never equals "error": the second failure test can never fire. */
  lemma BareErrorNeverOccurs(msgs: seq<Message>)
    ensures InputText(msgs) != "error"
  {
    InputTextShape(msgs);
  }

  /**
   * The vertex fails exactly when one of its messages carries a result,
   * and that result renders as "error".
   */
  lemma {:induction false} FailsIffSingleErrorResult(msgs: seq<Message>)
    ensures InputText(msgs) == "error " <==> |ResultValues(msgs)| == 1 && Format(ResultValues(msgs)[0]) == "error"
    decreases |msgs|
  {
    if |msgs| > 0 {
      var init := msgs[..|msgs| - 1];
      var last := msgs[|msgs| - 1];
      FailsIffSingleErrorResult(init);
      InputTextShape(init);
      var a := InputText(init);
      if ResultKey in last.content {
        var p := Format(last.content[ResultKey]) + " ";
        assert InputText(msgs) == a + p;
        if a != "" {
          assert (a + p)[|a| - 1] == a[|a| - 1] == ' ';
        }
        if a + p == "error " {
          assert a + p == p;
          assert Format(last.content[ResultKey]) == p[..|p| - 1] == "error";
        }
        if |ResultValues(msgs)| == 1 && Format(ResultValues(msgs)[0]) == "error" {
          assert ResultValues(init) == [];
          assert ResultValues(msgs)[0] == last.content[ResultKey];
        }
      }
    }
  }

  /** The simulated LLM vertex fails on exactly one shape of mail. */
  lemma LlmFailsIff(inv: Invocation)
    ensures LlmEffect(inv).Err? <==>
      |ResultValues(inv.messages)| == 1 && Format(ResultValues(inv.messages)[0]) == "error"
  {
    BareErrorNeverOccurs(inv.messages);
    FailsIffSingleErrorResult(inv.messages);
  }
}
