/**
 * What both vertex packages share (backend/nodes/nodes.go and
 * backend/internal/engine/nodes/nodes.go): collecting the input text from
 * the incoming messages, fanning a result out along outgoing edges, and the
 * result vertex, which is the same in both.
 */
module Vertices {
  import opened Wrappers
  import opened EngineTypes
  import opened Bsp

  const ResultKey: string := "result"

  /** The `result` values of the messages that carry one, in message order. */
  function ResultValues(msgs: seq<Message>): (vs: seq<Value>)
    ensures |vs| <= |msgs|
    decreases |msgs|
  {
    if |msgs| == 0 then []
    else
      var last := msgs[|msgs| - 1];
      ResultValues(msgs[..|msgs| - 1]) + (if ResultKey in last.content then [last.content[ResultKey]] else [])
  }

  /** Each carried `result` rendered with `%v` and followed by one space, in message order. */
  function InputText(msgs: seq<Message>): string
    decreases |msgs|
  {
    if |msgs| == 0 then ""
    else
      var last := msgs[|msgs| - 1];
      InputText(msgs[..|msgs| - 1]) + (if ResultKey in last.content then Format(last.content[ResultKey]) + " " else "")
  }

  /** The input text is empty exactly when no message carries a result, and otherwise ends with a space. */
  lemma {:induction false} InputTextShape(msgs: seq<Message>)
    ensures InputText(msgs) == "" <==> ResultValues(msgs) == []
    ensures InputText(msgs) != "" ==> InputText(msgs)[|InputText(msgs)| - 1] == ' '
    decreases |msgs|
  {
    if |msgs| > 0 {
      InputTextShape(msgs[..|msgs| - 1]);
    }
  }

  /** The loop that accumulates the input text. */
  method CollectInput(messages: seq<Message>) returns (input: string)
    ensures input == InputText(messages)
  {
    input := "";
    var i := 0;
    while i < |messages|
      invariant 0 <= i <= |messages|
      invariant input == InputText(messages[..i])
    {
      assert messages[..i + 1][..i] == messages[..i];
      var msg := messages[i];
      if ResultKey in msg.content {
        input := input + Format(msg.content[ResultKey]) + " ";
      }
      i := i + 1;
    }
    assert messages[..i] == messages;
  }

  /** The edges leaving a node, in edge order. */
  function Outgoing(edges: seq<Edge>, id: string): (out: seq<Edge>)
    ensures forall e :: e in out <==> e in edges && e.source == id
    decreases |edges|
  {
    if |edges| == 0 then []
    else
      var rest := Outgoing(edges[..|edges| - 1], id);
      var e := edges[|edges| - 1];
      assert edges == edges[..|edges| - 1] + [e];
      if e.source == id then rest + [e] else rest
  }

  /** The message a vertex sends along one edge. */
  function ResultMessage(from: string, to: string, result: string): Message {
    Message(from, to, map[ResultKey := Str(result)])
  }

  /** The messages sent to the children: one per edge whose source is this node, in edge order. */
  function FanOut(edges: seq<Edge>, id: string, result: string): (out: seq<Message>)
    decreases |edges|
  {
    if |edges| == 0 then []
    else
      var e := edges[|edges| - 1];
      FanOut(edges[..|edges| - 1], id, result) + (if e.source == id then [ResultMessage(id, e.target, result)] else [])
  }

  /** The fan-out is one `{"result": r}` message from this node per outgoing edge, in edge order. */
  lemma {:induction false} FanOutFollowsOutgoingEdges(edges: seq<Edge>, id: string, result: string)
    ensures var out := FanOut(edges, id, result); var targets := Outgoing(edges, id);
      |out| == |targets| && forall k :: 0 <= k < |out| ==> out[k] == ResultMessage(id, targets[k].target, result)
    decreases |edges|
  {
    if |edges| > 0 {
      FanOutFollowsOutgoingEdges(edges[..|edges| - 1], id, result);
    }
  }

  /** The loop that sends the result along the outgoing edges. */
  method SendToChildren(ctx: Context, result: string)
    modifies ctx`outbox
    ensures ctx.outbox == old(ctx.outbox) + FanOut(ctx.workflow.edges, ctx.nodeId, result)
  {
    var edges := ctx.workflow.edges;
    var i := 0;
    while i < |edges|
      invariant 0 <= i <= |edges|
      invariant ctx.outbox == old(ctx.outbox) + FanOut(edges[..i], ctx.nodeId, result)
    {
      assert edges[..i + 1][..i] == edges[..i];
      var edge := edges[i];
      if edge.source == ctx.nodeId {
        ctx.SendMessage(edge.target, map[ResultKey := Str(result)]);
      }
      i := i + 1;
    }
    assert edges[..i] == edges;
  }

  /** The result vertex: the content of the last message it receives becomes its result; it sends nothing. */
  function ResultEffect(inv: Invocation): (r: Result<Effect, string>)
    ensures r.Ok? && r.value.outbox == []
    ensures |inv.messages| == 0 ==> r.value.results == inv.results
    ensures |inv.messages| > 0 ==> r.value.results == inv.results[inv.nodeId := inv.messages[|inv.messages| - 1].content]
  {
    var msgs := inv.messages;
    Ok(Effect([], if |msgs| == 0 then inv.results else inv.results[inv.nodeId := msgs[|msgs| - 1].content]))
  }

  /** ResultVertex.Compute: every message in turn overwrites this node's result. */
  method ResultCompute(ctx: Context, messages: seq<Message>) returns (err: Option<string>)
    modifies ctx.execution`results
    ensures var eff := ResultEffect(Invocation(ctx.step, ctx.nodeId, ctx.workflow, messages, old(ctx.execution.results))).value;
      err == None && ctx.execution.results == eff.results
  {
    var i := 0;
    while i < |messages|
      invariant 0 <= i <= |messages|
      invariant ctx.execution.results ==
        if i == 0 then old(ctx.execution.results) else old(ctx.execution.results)[ctx.nodeId := messages[i - 1].content]
    {
      ctx.execution.results := ctx.execution.results[ctx.nodeId := messages[i].content];
      i := i + 1;
    }
    return None;
  }

  /** The result vertex touches only its own entry, whatever it receives. */
  lemma ResultVertexTouchesOnlyItsEntry(inv: Invocation, other: string)
    requires other != inv.nodeId
    ensures ResultEffect(inv).value.results.Keys - {inv.nodeId} == inv.results.Keys - {inv.nodeId}
    ensures other in inv.results ==> ResultEffect(inv).value.results[other] == inv.results[other]
  {
  }
}
