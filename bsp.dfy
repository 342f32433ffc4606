/**
 * The bulk-synchronous execution engine (backend/engine/bsp.go): vertices
 * are built from the node list by a factory, START nodes get a trigger
 * message, and supersteps run until no vertex has mail, a vertex fails, or
 * the step cap is reached.
 *
 * A vertex's Compute is a function from its invocation to the messages it
 * sends and the results map it leaves, or an error. The order in which a
 * superstep visits the vertices (Go map iteration) is the parameter
 * `order`, which for each step lists every vertex id exactly once.
 */
module Bsp {
  import opened Wrappers
  import opened EngineTypes
  import Decimal

  const MaxSteps: nat := 100
  const SystemSender: string := "system"
  const MaxStepsError: string := "execution exceeded max steps (100)"

  /** The error for a node whose vertex the factory cannot create. */
  function FactoryError(nodeId: string, e: string): string {
    "failed to create vertex for node " + nodeId + ": " + e
  }

  /** The error for a Compute that fails. */
  function StepError(step: nat, nodeId: string, e: string): string {
    "error in superstep " + Decimal.Show(step) + " at node " + nodeId + ": " + e
  }

  /** The runtime a vertex sees while it computes. */
  class Context {
    const step: nat
    const nodeId: string
    const workflow: Workflow
    const execution: ExecutionContext
    var outbox: seq<Message>

    constructor (step: nat, nodeId: string, workflow: Workflow, execution: ExecutionContext)
      ensures this.step == step && this.nodeId == nodeId && this.workflow == workflow
      ensures this.execution == execution && outbox == []
    {
      this.step := step;
      this.nodeId := nodeId;
      this.workflow := workflow;
      this.execution := execution;
      outbox := [];
    }

    /** Queue one message from this vertex; earlier messages stay as they are. */
    method SendMessage(to: string, content: Content)
      modifies this`outbox
      ensures outbox == old(outbox) + [Message(nodeId, to, content)]
    {
      outbox := outbox + [Message(nodeId, to, content)];
    }
  }

  /** What one Compute call sees: the step, its node, the workflow, its mail and the current results. */
  datatype Invocation = Invocation(step: nat, nodeId: string, workflow: Workflow, messages: seq<Message>, results: Results)

  /** What a successful Compute call leaves: the messages it sent, in order, and the results map. */
  datatype Effect = Effect(outbox: seq<Message>, results: Results)

  type Inbox = map<string, seq<Message>>

  /** `inbox[id]`: the mail for an id, empty when there is none. */
  function Inbound(inbox: Inbox, id: string): seq<Message> {
    if id in inbox then inbox[id] else []
  }

  /** `nextInbox[msg.To] = append(nextInbox[msg.To], msg)` */
  function Deliver(inbox: Inbox, m: Message): Inbox {
    inbox[m.to := Inbound(inbox, m.to) + [m]]
  }

  /** Delivering a list of messages in order. */
  function Route(inbox: Inbox, msgs: seq<Message>): Inbox
    decreases |msgs|
  {
    if |msgs| == 0 then inbox
    else Deliver(Route(inbox, msgs[..|msgs| - 1]), msgs[|msgs| - 1])
  }

  /** The messages of a list addressed to one id, in order. */
  function AddressedTo(msgs: seq<Message>, id: string): (r: seq<Message>)
    ensures forall m :: m in r ==> m in msgs && m.to == id
    decreases |msgs|
  {
    if |msgs| == 0 then []
    else
      var rest := AddressedTo(msgs[..|msgs| - 1], id);
      if msgs[|msgs| - 1].to == id then rest + [msgs[|msgs| - 1]] else rest
  }

  /** Routing groups by recipient: each id's mail gains exactly the messages addressed to it, in order. */
  lemma {:induction false} RouteGroupsByRecipient(inbox: Inbox, msgs: seq<Message>, id: string)
    ensures Inbound(Route(inbox, msgs), id) == Inbound(inbox, id) + AddressedTo(msgs, id)
    decreases |msgs|
  {
    if |msgs| > 0 {
      var init := msgs[..|msgs| - 1];
      var last := msgs[|msgs| - 1];
      var before := Route(inbox, init);
      RouteGroupsByRecipient(inbox, init, id);
      assert Route(inbox, msgs) == Deliver(before, last);
      if last.to == id {
        assert Inbound(Route(inbox, msgs), id) == Inbound(before, id) + [last];
        assert AddressedTo(msgs, id) == AddressedTo(init, id) + [last];
      } else {
        assert Inbound(Route(inbox, msgs), id) == Inbound(before, id);
        assert AddressedTo(msgs, id) == AddressedTo(init, id);
      }
    }
  }

  /** Routing creates an entry only for a recipient of some message. */
  lemma {:induction false} RouteRecipients(inbox: Inbox, msgs: seq<Message>, id: string)
    ensures id in Route(inbox, msgs) <==> id in inbox || exists m :: m in msgs && m.to == id
    decreases |msgs|
  {
    if |msgs| > 0 {
      var init := msgs[..|msgs| - 1];
      var last := msgs[|msgs| - 1];
      RouteRecipients(inbox, init, id);
      assert Route(inbox, msgs) == Deliver(Route(inbox, init), last);
      assert forall m :: m in msgs <==> m in init || m == last by {
        assert msgs == init + [last];
      }
    }
  }

  /** Routing two batches is routing their concatenation. */
  lemma {:induction false} RouteAppend(inbox: Inbox, a: seq<Message>, b: seq<Message>)
    ensures Route(Route(inbox, a), b) == Route(inbox, a + b)
    decreases |b|
  {
    if |b| > 0 {
      RouteAppend(inbox, a, b[..|b| - 1]);
      assert (a + b)[..|a + b| - 1] == a + b[..|b| - 1];
    } else {
      assert a + b == a;
    }
  }

  /** The ids of a node list grow by the last node's id. */
  lemma NodeIdsSnoc(nodes: seq<Node>)
    requires |nodes| > 0
    ensures NodeIds(nodes) == NodeIds(nodes[..|nodes| - 1]) + {nodes[|nodes| - 1].id}
  {
    var init := nodes[..|nodes| - 1];
    forall id | id in NodeIds(nodes) ensures id in NodeIds(init) + {nodes[|nodes| - 1].id} {
      var i :| 0 <= i < |nodes| && nodes[i].id == id;
      if i < |init| {
        assert init[i].id == id;
      }
    }
    forall id | id in NodeIds(init) ensures id in NodeIds(nodes) {
      var i :| 0 <= i < |init| && init[i].id == id;
      assert nodes[i].id == id;
    }
  }

  /**
   * The vertex table: one vertex per node id, built in node order; the
   * first node the factory rejects ends the build with an error naming it
   * (BuildVerticesError).
   */
  function BuildVertices<V>(nodes: seq<Node>, factory: string -> Result<V, string>): (r: Result<map<string, V>, string>)
    ensures r.Ok? <==> forall i :: 0 <= i < |nodes| ==> factory(nodes[i].typ).Ok?
    ensures r.Ok? ==> r.value.Keys == NodeIds(nodes)
    decreases |nodes|
  {
    if |nodes| == 0 then Ok(map[])
    else
      var init := nodes[..|nodes| - 1];
      var node := nodes[|nodes| - 1];
      assert forall i :: 0 <= i < |init| ==> init[i] == nodes[i];
      match BuildVertices(init, factory)
      case Err(e) => Err(e)
      case Ok(vertices) =>
        match factory(node.typ)
        case Err(e) => Err(FactoryError(node.id, e))
        case Ok(v) =>
          NodeIdsSnoc(nodes);
          Ok(vertices[node.id := v])
  }

  /** A failed build names the first node the factory rejects, with the factory's error. */
  lemma {:induction false} BuildVerticesError<V>(nodes: seq<Node>, factory: string -> Result<V, string>)
    requires BuildVertices(nodes, factory).Err?
    ensures exists i :: 0 <= i < |nodes| && factory(nodes[i].typ).Err?
                     && (forall j :: 0 <= j < i ==> factory(nodes[j].typ).Ok?)
                     && BuildVertices(nodes, factory).error == FactoryError(nodes[i].id, factory(nodes[i].typ).error)
  {
    var init := nodes[..|nodes| - 1];
    var node := nodes[|nodes| - 1];
    assert forall i :: 0 <= i < |init| ==> init[i] == nodes[i];
    if BuildVertices(init, factory).Err? {
      BuildVerticesError(init, factory);
      var i :| 0 <= i < |init| && factory(init[i].typ).Err?
        && (forall j :: 0 <= j < i ==> factory(init[j].typ).Ok?)
        && BuildVertices(init, factory).error == FactoryError(init[i].id, factory(init[i].typ).error);
      assert nodes[i] == init[i];
    } else {
      var k := |nodes| - 1;
      assert factory(nodes[k].typ).Err?;
      assert forall j :: 0 <= j < k ==> factory(nodes[j].typ).Ok?;
    }
  }

  /** A failed build stays failed however many nodes follow. */
  lemma {:induction false} BuildFailureSticks<V>(nodes: seq<Node>, factory: string -> Result<V, string>, k: nat)
    requires k <= |nodes| && BuildVertices(nodes[..k], factory).Err?
    ensures BuildVertices(nodes, factory) == BuildVertices(nodes[..k], factory)
    decreases |nodes|
  {
    if k < |nodes| {
      var init := nodes[..|nodes| - 1];
      assert init[..k] == nodes[..k];
      BuildFailureSticks(init, factory, k);
    } else {
      assert nodes[..k] == nodes;
    }
  }

  /** The trigger the engine sends a START node before the first superstep. */
  function Trigger(id: string): Message {
    Message(SystemSender, id, map["type" := Str("trigger")])
  }

  /** The mail of superstep 0: a trigger per START node, and nothing else (InitialInboxMail). */
  function InitialInbox(nodes: seq<Node>): (inbox: Inbox)
    decreases |nodes|
  {
    if |nodes| == 0 then map[]
    else
      var inbox := InitialInbox(nodes[..|nodes| - 1]);
      var node := nodes[|nodes| - 1];
      if node.typ == StartType then Deliver(inbox, Trigger(node.id)) else inbox
  }

  /** Exactly the START nodes have mail before superstep 0, and all of it is their trigger. */
  lemma {:induction false} InitialInboxMail(nodes: seq<Node>)
    ensures forall id :: id in InitialInbox(nodes) <==>
      exists i :: 0 <= i < |nodes| && nodes[i].id == id && nodes[i].typ == StartType
    ensures forall id, m :: m in Inbound(InitialInbox(nodes), id) ==> m == Trigger(id)
  {
    if |nodes| > 0 {
      var init := nodes[..|nodes| - 1];
      var node := nodes[|nodes| - 1];
      var inbox := InitialInbox(init);
      InitialInboxMail(init);
      assert forall i :: 0 <= i < |init| ==> init[i] == nodes[i];
      if node.typ == StartType {
        forall id, m | m in Inbound(InitialInbox(nodes), id) ensures m == Trigger(id) {
          if id != node.id {
            assert Inbound(InitialInbox(nodes), id) == Inbound(inbox, id);
          } else {
            assert Inbound(InitialInbox(nodes), id) == Inbound(inbox, id) + [Trigger(id)];
          }
        }
      }
    }
  }

  /** A vertex's Compute, as a function of its invocation. */
  type Compute<!V> = (V, Invocation) -> Result<Effect, string>

  /** One superstep's visiting order lists every vertex id exactly once. */
  ghost predicate IsOrdering(ids: seq<string>, keys: set<string>) {
    && (forall i, j :: 0 <= i < j < |ids| ==> ids[i] != ids[j])
    && (forall id :: id in keys <==> id in ids)
  }

  /** Every superstep's visiting order lists every vertex id exactly once. */
  ghost predicate Orders(order: nat -> seq<string>, keys: set<string>) {
    forall s: nat :: IsOrdering(order(s), keys)
  }

  /**
   * The state of a superstep after visiting a prefix of its order: how many
   * vertices computed, the next superstep's mail, every message sent so far,
   * the results map, and the error that aborted it, if any.
   */
  datatype StepState = StepState(active: nat, next: Inbox, sent: seq<Message>, results: Results, failure: Option<string>)

  /**
   * One superstep over the vertices in the order `ids`: a vertex without
   * mail is skipped; the others compute with their mail; the first error
   * stops the superstep. An id with no vertex is skipped too; a visiting
   * order that satisfies IsOrdering lists none.
   */
  function Superstep<V>(vertices: map<string, V>, inbox: Inbox, ids: seq<string>, wf: Workflow, step: nat,
                        results: Results, compute: Compute<V>): (s: StepState)
    ensures s.active <= |ids|
    decreases |ids|
  {
    if |ids| == 0 then StepState(0, map[], [], results, None)
    else
      var prev := Superstep(vertices, inbox, ids[..|ids| - 1], wf, step, results, compute);
      var id := ids[|ids| - 1];
      var msgs := Inbound(inbox, id);
      if prev.failure.Some? || id !in vertices || |msgs| == 0 then prev
      else
        match compute(vertices[id], Invocation(step, id, wf, msgs, prev.results))
        case Err(e) => prev.(active := prev.active + 1, failure := Some(StepError(step, id, e)))
        case Ok(eff) => StepState(prev.active + 1, Route(prev.next, eff.outbox), prev.sent + eff.outbox, eff.results, None)
  }

  /** A superstep fails only with a StepError naming a visited vertex and an error its Compute returned. */
  lemma {:induction false} SuperstepFailureShape<V>(vertices: map<string, V>, inbox: Inbox, ids: seq<string>, wf: Workflow,
                                                    step: nat, results: Results, compute: Compute<V>)
    ensures var s := Superstep(vertices, inbox, ids, wf, step, results, compute);
      s.failure.Some? ==>
        exists i, r :: 0 <= i < |ids| && ids[i] in vertices && compute(vertices[ids[i]], Invocation(step, ids[i], wf, Inbound(inbox, ids[i]), r)).Err?
          && s.failure.value == StepError(step, ids[i], compute(vertices[ids[i]], Invocation(step, ids[i], wf, Inbound(inbox, ids[i]), r)).error)
    decreases |ids|
  {
    if |ids| > 0 {
      var init := ids[..|ids| - 1];
      SuperstepFailureShape(vertices, inbox, init, wf, step, results, compute);
      var prev := Superstep(vertices, inbox, init, wf, step, results, compute);
      if prev.failure.Some? {
        var i, r :| 0 <= i < |init| && init[i] in vertices && compute(vertices[init[i]], Invocation(step, init[i], wf, Inbound(inbox, init[i]), r)).Err?
          && prev.failure.value == StepError(step, init[i], compute(vertices[init[i]], Invocation(step, init[i], wf, Inbound(inbox, init[i]), r)).error);
        assert ids[i] == init[i];
      } else {
        var id := ids[|ids| - 1];
        var msgs := Inbound(inbox, id);
        if id in vertices && |msgs| > 0 && compute(vertices[id], Invocation(step, id, wf, msgs, prev.results)).Err? {
          assert ids[|ids| - 1] == id;
        }
      }
    }
  }

  /** How a run ends: the error, if any, the results map, and the step counter's final value. */
  datatype Outcome = Outcome(error: Option<string>, results: Results, steps: nat)

  /** StepError texts never coincide with the step-cap text. */
  lemma StepErrorIsNotMaxSteps(step: nat, id: string, e: string)
    ensures StepError(step, id, e) != MaxStepsError
  {
    assert StepError(step, id, e)[1] == 'r';
  }

  /** Supersteps from `step` on, until no vertex computes, a vertex fails, or the cap is reached. */
  function RunFrom<V>(vertices: map<string, V>, inbox: Inbox, results: Results, wf: Workflow, step: nat,
                      compute: Compute<V>, order: nat -> seq<string>): (o: Outcome)
    requires step <= MaxSteps
    ensures step <= o.steps <= MaxSteps
    ensures o.error == Some(MaxStepsError) <==> o.steps == MaxSteps
    decreases MaxSteps - step
  {
    if step == MaxSteps then Outcome(Some(MaxStepsError), results, step)
    else
      var s := Superstep(vertices, inbox, order(step), wf, step, results, compute);
      if s.failure.Some? then
        var e := s.failure.value;
        assert e != MaxStepsError by {
          SuperstepFailureShape(vertices, inbox, order(step), wf, step, results, compute);
          var i, r :| 0 <= i < |order(step)| && order(step)[i] in vertices && compute(vertices[order(step)[i]], Invocation(step, order(step)[i], wf, Inbound(inbox, order(step)[i]), r)).Err?
            && e == StepError(step, order(step)[i], compute(vertices[order(step)[i]], Invocation(step, order(step)[i], wf, Inbound(inbox, order(step)[i]), r)).error);
          StepErrorIsNotMaxSteps(step, order(step)[i], compute(vertices[order(step)[i]], Invocation(step, order(step)[i], wf, Inbound(inbox, order(step)[i]), r)).error);
        }
        Outcome(s.failure, s.results, step)
      else if s.active == 0 then Outcome(None, s.results, step)
      else RunFrom(vertices, s.next, s.results, wf, step + 1, compute, order)
  }

  /** One superstep of RunFrom below the cap, unfolded. */
  lemma RunFromUnfold<V>(vertices: map<string, V>, inbox: Inbox, results: Results, wf: Workflow, step: nat,
                         compute: Compute<V>, order: nat -> seq<string>)
    requires step < MaxSteps
    ensures var s := Superstep(vertices, inbox, order(step), wf, step, results, compute);
      RunFrom(vertices, inbox, results, wf, step, compute, order)
        == if s.failure.Some? then Outcome(s.failure, s.results, step)
           else if s.active == 0 then Outcome(None, s.results, step)
           else RunFrom(vertices, s.next, s.results, wf, step + 1, compute, order)
  {
  }

  /** RunFrom at the cap reports the step-cap error and changes nothing. */
  lemma RunFromAtCap<V>(vertices: map<string, V>, inbox: Inbox, results: Results, wf: Workflow,
                        compute: Compute<V>, order: nat -> seq<string>)
    ensures RunFrom(vertices, inbox, results, wf, MaxSteps, compute, order) == Outcome(Some(MaxStepsError), results, MaxSteps)
  {
  }

  /** FactoryError texts never coincide with the step-cap text. */
  lemma FactoryErrorIsNotMaxSteps(id: string, e: string)
    ensures FactoryError(id, e) != MaxStepsError
  {
    assert FactoryError(id, e)[0] == 'f';
  }

  /** A whole run: build the vertices, seed the START nodes, run from superstep 0. */
  function Execute<V>(wf: Workflow, results: Results, factory: string -> Result<V, string>,
                      compute: Compute<V>, order: nat -> seq<string>): (o: Outcome)
    requires Orders(order, NodeIds(wf.nodes))
    ensures o.steps <= MaxSteps
    ensures o.error == Some(MaxStepsError) <==> o.steps == MaxSteps
  {
    match BuildVertices(wf.nodes, factory)
    case Err(e) =>
      assert e != MaxStepsError by {
        BuildVerticesError(wf.nodes, factory);
        var i :| 0 <= i < |wf.nodes| && factory(wf.nodes[i].typ).Err?
          && e == FactoryError(wf.nodes[i].id, factory(wf.nodes[i].typ).error);
        FactoryErrorIsNotMaxSteps(wf.nodes[i].id, factory(wf.nodes[i].typ).error);
      }
      Outcome(Some(e), results, 0)
    case Ok(vertices) => RunFrom(vertices, InitialInbox(wf.nodes), results, wf, 0, compute, order)
  }

  /** A superstep whose prefix has failed ignores the rest of its order. */
  lemma {:induction false} SuperstepFailureSticks<V>(vertices: map<string, V>, inbox: Inbox, ids: seq<string>, wf: Workflow,
                                                      step: nat, results: Results, compute: Compute<V>, k: nat)
    requires forall i :: 0 <= i < |ids| ==> ids[i] in vertices
    requires k <= |ids| && Superstep(vertices, inbox, ids[..k], wf, step, results, compute).failure.Some?
    ensures Superstep(vertices, inbox, ids, wf, step, results, compute) == Superstep(vertices, inbox, ids[..k], wf, step, results, compute)
    decreases |ids|
  {
    if k < |ids| {
      var init := ids[..|ids| - 1];
      assert init[..k] == ids[..k];
      SuperstepFailureSticks(vertices, inbox, init, wf, step, results, compute, k);
    } else {
      assert ids[..k] == ids;
    }
  }

  /** Orders over the vertex table's keys only ever visit ids that have a vertex. */
  lemma OrdersListVertices<V>(order: nat -> seq<string>, vertices: map<string, V>, keys: set<string>)
    requires Orders(order, keys) && vertices.Keys == keys
    ensures forall s: nat, i :: 0 <= i < |order(s)| ==> order(s)[i] in vertices
  {
    forall s: nat, i | 0 <= i < |order(s)|
      ensures order(s)[i] in vertices
    {
      assert IsOrdering(order(s), keys);
      assert order(s)[i] in order(s);
    }
  }

  /** Step 1 of ExecuteBSP: the vertex table, or the error of the first node the factory rejects. */
  method BuildVertexTable<V>(nodes: seq<Node>, factory: string -> Result<V, string>) returns (r: Result<map<string, V>, string>)
    ensures r == BuildVertices(nodes, factory)
  {
    var vertices: map<string, V> := map[];
    var i := 0;
    while i < |nodes|
      invariant 0 <= i <= |nodes|
      invariant BuildVertices(nodes[..i], factory) == Ok(vertices)
    {
      var node := nodes[i];
      assert nodes[..i + 1][..i] == nodes[..i];
      match factory(node.typ) {
        case Err(e) =>
          BuildFailureSticks(nodes, factory, i + 1);
          return Err(FactoryError(node.id, e));
        case Ok(v) =>
          vertices := vertices[node.id := v];
      }
      i := i + 1;
    }
    assert nodes[..i] == nodes;
    return Ok(vertices);
  }

  /** Step 2 of ExecuteBSP: a trigger for every START node. */
  method SeedInbox(nodes: seq<Node>) returns (inbox: Inbox)
    ensures inbox == InitialInbox(nodes)
  {
    inbox := map[];
    var i := 0;
    while i < |nodes|
      invariant 0 <= i <= |nodes|
      invariant inbox == InitialInbox(nodes[..i])
    {
      var node := nodes[i];
      assert nodes[..i + 1][..i] == nodes[..i];
      if node.typ == StartType {
        inbox := inbox[node.id := Inbound(inbox, node.id) + [Trigger(node.id)]];
      }
      i := i + 1;
    }
    assert nodes[..i] == nodes;
  }

  /** The communication phase for one vertex: deliver its outbox, message by message. */
  method RouteOutbox(inbox: Inbox, out: seq<Message>) returns (next: Inbox)
    ensures next == Route(inbox, out)
  {
    next := inbox;
    var j := 0;
    while j < |out|
      invariant 0 <= j <= |out|
      invariant next == Route(inbox, out[..j])
    {
      assert out[..j + 1][..j] == out[..j];
      next := Deliver(next, out[j]);
      j := j + 1;
    }
    assert out[..j] == out;
  }

  /** One superstep of ExecuteBSP over the order `ids`, stopping at the first Compute error. */
  method RunSuperstep<V>(vertices: map<string, V>, inbox: Inbox, ids: seq<string>, wf: Workflow, step: nat,
                         exec: ExecutionContext, compute: Compute<V>) returns (active: nat, next: Inbox, failure: Option<string>)
    requires forall i :: 0 <= i < |ids| ==> ids[i] in vertices
    modifies exec`results
    ensures var s := Superstep(vertices, inbox, ids, wf, step, old(exec.results), compute);
      active == s.active && next == s.next && failure == s.failure && exec.results == s.results
  {
    active := 0;
    next := map[];
    failure := None;
    ghost var sent: seq<Message> := [];
    ghost var results0 := exec.results;
    var k := 0;
    while k < |ids|
      invariant 0 <= k <= |ids|
      invariant Superstep(vertices, inbox, ids[..k], wf, step, results0, compute) == StepState(active, next, sent, exec.results, None)
    {
      var id := ids[k];
      ghost var visited := ids[..k + 1];
      assert visited[..k] == ids[..k] && visited[k] == id;
      var msgs := Inbound(inbox, id);
      if |msgs| > 0 {
        active := active + 1;
        var r := compute(vertices[id], Invocation(step, id, wf, msgs, exec.results));
        if r.Err? {
          failure := Some(StepError(step, id, r.error));
          SuperstepFailureSticks(vertices, inbox, ids, wf, step, results0, compute, k + 1);
          return;
        }
        exec.results := r.value.results;
        next := RouteOutbox(next, r.value.outbox);
        sent := sent + r.value.outbox;
      }
      k := k + 1;
    }
    assert ids[..k] == ids;
  }

  /**
   * ExecuteBSP: the engine loop. It leaves in `exec.results` the results map
   * the run ends with and returns the run's error, exactly as Execute states.
   */
  method ExecuteBSP<V>(wf: Workflow, exec: ExecutionContext, factory: string -> Result<V, string>,
                       compute: Compute<V>, order: nat -> seq<string>) returns (err: Option<string>)
    requires Orders(order, NodeIds(wf.nodes))
    modifies exec
    ensures var o := Execute(wf, old(exec.results), factory, compute, order);
      err == o.error && exec.results == o.results
    ensures exec.workflowId == old(exec.workflowId) && exec.status == old(exec.status)
  {
    var built := BuildVertexTable(wf.nodes, factory);
    if built.Err? {
      return Some(built.error);
    }
    var vertices := built.value;
    OrdersListVertices(order, vertices, NodeIds(wf.nodes));
    var inbox := SeedInbox(wf.nodes);
    err := RunSupersteps(vertices, inbox, wf, exec, compute, order, RunFrom(vertices, inbox, exec.results, wf, 0, compute, order));
  }

  /**
   * One turn of the superstep loop: run the superstep, then either stop
   * with the run's outcome or hand the next superstep its mail.
   */
  method StepOnce<V>(vertices: map<string, V>, inbox: Inbox, wf: Workflow, step: nat, exec: ExecutionContext,
                     compute: Compute<V>, order: nat -> seq<string>, ghost target: Outcome)
      returns (stop: bool, err: Option<string>, next: Inbox)
    requires step < MaxSteps
    requires forall i :: 0 <= i < |order(step)| ==> order(step)[i] in vertices
    requires RunFrom(vertices, inbox, exec.results, wf, step, compute, order) == target
    modifies exec`results
    ensures stop ==> err == target.error && exec.results == target.results
    ensures !stop ==> RunFrom(vertices, next, exec.results, wf, step + 1, compute, order) == target
  {
    var ids := order(step);
    RunFromUnfold(vertices, inbox, exec.results, wf, step, compute, order);
    var active, failure;
    active, next, failure := RunSuperstep(vertices, inbox, ids, wf, step, exec, compute);
    stop := failure.Some? || active == 0;
    err := failure;
  }

  /** The superstep loop of the engine, from superstep 0 up to the cap. */
  method RunSupersteps<V>(vertices: map<string, V>, inbox0: Inbox, wf: Workflow, exec: ExecutionContext,
                          compute: Compute<V>, order: nat -> seq<string>, ghost target: Outcome) returns (err: Option<string>)
    requires forall s: nat, i :: 0 <= i < |order(s)| ==> order(s)[i] in vertices
    requires RunFrom(vertices, inbox0, exec.results, wf, 0, compute, order) == target
    modifies exec`results
    ensures err == target.error && exec.results == target.results
  {
    var inbox := inbox0;
    var step: nat := 0;
    while step < MaxSteps
      invariant step <= MaxSteps
      invariant RunFrom(vertices, inbox, exec.results, wf, step, compute, order) == target
      decreases MaxSteps - step
    {
      var stop, e, next := StepOnce(vertices, inbox, wf, step, exec, compute, order, target);
      if stop {
        return e;
      }
      inbox := next;
      step := step + 1;
    }
    assert step == MaxSteps;
    RunFromAtCap(vertices, inbox, exec.results, wf, compute, order);
    return Some(MaxStepsError);
  }





}
