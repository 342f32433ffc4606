/**
 * Properties of the engine run (backend/engine/bsp.go) stated over the
 * functions that specify ExecuteBSP.
 */
module BspLaws {
  import opened Wrappers
  import opened EngineTypes
  import opened Bsp

  /** Before any superstep: a factory failure ends the run at step 0 with the results untouched. */
  lemma FactoryFailureStopsBeforeSupersteps<V>(wf: Workflow, results: Results, factory: string -> Result<V, string>,
                                                compute: Compute<V>, order: nat -> seq<string>, k: nat)
    requires Orders(order, NodeIds(wf.nodes))
    requires k < |wf.nodes| && factory(wf.nodes[k].typ).Err?
    ensures var o := Execute(wf, results, factory, compute, order);
      && o.steps == 0 && o.results == results
      && exists i :: 0 <= i <= k && factory(wf.nodes[i].typ).Err?
           && o.error == Some(FactoryError(wf.nodes[i].id, factory(wf.nodes[i].typ).error))
  {
    var b := BuildVertices(wf.nodes, factory);
    assert b.Err?;
    BuildVerticesError(wf.nodes, factory);
    var i :| 0 <= i < |wf.nodes| && factory(wf.nodes[i].typ).Err?
      && (forall j :: 0 <= j < i ==> factory(wf.nodes[j].typ).Ok?)
      && b.error == FactoryError(wf.nodes[i].id, factory(wf.nodes[i].typ).error);
    assert i <= k;
  }

  /** The number of vertices in `ids` that have mail. */
  function Awake(inbox: Inbox, ids: seq<string>): (n: nat)
    ensures n <= |ids|
    decreases |ids|
  {
    if |ids| == 0 then 0
    else Awake(inbox, ids[..|ids| - 1]) + (if |Inbound(inbox, ids[|ids| - 1])| > 0 then 1 else 0)
  }

  /** A superstep that completes computes exactly the vertices with mail. */
  lemma {:induction false} ActiveIsAwake<V>(vertices: map<string, V>, inbox: Inbox, ids: seq<string>, wf: Workflow,
                                            step: nat, results: Results, compute: Compute<V>)
    requires forall i :: 0 <= i < |ids| ==> ids[i] in vertices
    ensures var s := Superstep(vertices, inbox, ids, wf, step, results, compute);
      s.failure.None? ==> s.active == Awake(inbox, ids)
    decreases |ids|
  {
    if |ids| > 0 {
      ActiveIsAwake(vertices, inbox, ids[..|ids| - 1], wf, step, results, compute);
    }
  }

  /** A vertex without mail is not computed: inserting it anywhere in the order changes nothing. */
  lemma {:induction false} QuietVertexSkipped<V>(vertices: map<string, V>, inbox: Inbox, pre: seq<string>, id: string,
                                                 post: seq<string>, wf: Workflow, step: nat, results: Results,
                                                 compute: Compute<V>)
    requires Inbound(inbox, id) == []
    ensures Superstep(vertices, inbox, pre + [id] + post, wf, step, results, compute)
         == Superstep(vertices, inbox, pre + post, wf, step, results, compute)
    decreases |post|
  {
    if |post| == 0 {
      assert pre + [id] + post == pre + [id];
      assert (pre + [id])[..|pre|] == pre;
      assert pre + post == pre;
    } else {
      var q := post[..|post| - 1];
      QuietVertexSkipped(vertices, inbox, pre, id, q, wf, step, results, compute);
      var a := pre + [id] + post;
      var b := pre + post;
      assert a[..|a| - 1] == pre + [id] + q;
      assert b[..|b| - 1] == pre + q;
      assert a[|a| - 1] == b[|b| - 1];
    }
  }

  /** With no mail anywhere, a superstep computes nothing, sends nothing and keeps the results. */
  lemma {:induction false} SilentSuperstep<V>(vertices: map<string, V>, inbox: Inbox, ids: seq<string>, wf: Workflow,
                                              step: nat, results: Results, compute: Compute<V>)
    requires forall i :: 0 <= i < |ids| ==> ids[i] in vertices
    requires forall i :: 0 <= i < |ids| ==> Inbound(inbox, ids[i]) == []
    ensures Superstep(vertices, inbox, ids, wf, step, results, compute) == StepState(0, map[], [], results, None)
    decreases |ids|
  {
    if |ids| > 0 {
      SilentSuperstep(vertices, inbox, ids[..|ids| - 1], wf, step, results, compute);
    }
  }

  /**
   * The next superstep's mail is exactly the messages sent in this one,
   * grouped by recipient in sending order.
   */
  lemma {:induction false} NextInboxIsSentMail<V>(vertices: map<string, V>, inbox: Inbox, ids: seq<string>, wf: Workflow,
                                                  step: nat, results: Results, compute: Compute<V>)
    requires forall i :: 0 <= i < |ids| ==> ids[i] in vertices
    ensures var s := Superstep(vertices, inbox, ids, wf, step, results, compute);
      s.next == Route(map[], s.sent)
    decreases |ids|
  {
    if |ids| > 0 {
      var prev := Superstep(vertices, inbox, ids[..|ids| - 1], wf, step, results, compute);
      NextInboxIsSentMail(vertices, inbox, ids[..|ids| - 1], wf, step, results, compute);
      var id := ids[|ids| - 1];
      if prev.failure.None? && |Inbound(inbox, id)| > 0 {
        var r := compute(vertices[id], Invocation(step, id, wf, Inbound(inbox, id), prev.results));
        if r.Ok? {
          RouteAppend(map[], prev.sent, r.value.outbox);
        }
      }
    }
  }

  /** Per recipient: the next mail of an id is the sent messages addressed to it, in order. */
  lemma NextMailOfRecipient<V>(vertices: map<string, V>, inbox: Inbox, ids: seq<string>, wf: Workflow,
                               step: nat, results: Results, compute: Compute<V>, id: string)
    requires forall i :: 0 <= i < |ids| ==> ids[i] in vertices
    ensures var s := Superstep(vertices, inbox, ids, wf, step, results, compute);
      Inbound(s.next, id) == AddressedTo(s.sent, id)
  {
    NextInboxIsSentMail(vertices, inbox, ids, wf, step, results, compute);
    var s := Superstep(vertices, inbox, ids, wf, step, results, compute);
    RouteGroupsByRecipient(map[], s.sent, id);
  }

  /**
   * Mail for an id with no vertex is never delivered: a superstep depends
   * only on the mail of the ids it visits.
   */
  lemma {:induction false} SuperstepReadsOnlyVisitedMail<V>(vertices: map<string, V>, inbox: Inbox, other: Inbox, ids: seq<string>,
                                                            wf: Workflow, step: nat, results: Results, compute: Compute<V>)
    requires forall i :: 0 <= i < |ids| ==> ids[i] in vertices
    requires forall i :: 0 <= i < |ids| ==> Inbound(inbox, ids[i]) == Inbound(other, ids[i])
    ensures Superstep(vertices, inbox, ids, wf, step, results, compute) == Superstep(vertices, other, ids, wf, step, results, compute)
    decreases |ids|
  {
    if |ids| > 0 {
      SuperstepReadsOnlyVisitedMail(vertices, inbox, other, ids[..|ids| - 1], wf, step, results, compute);
    }
  }

  /** The run from any step is the same whatever mail is queued for ids that have no vertex. */
  lemma UndeliverableMailIgnored<V>(vertices: map<string, V>, inbox: Inbox, other: Inbox, results: Results, wf: Workflow,
                                    step: nat, compute: Compute<V>, order: nat -> seq<string>)
    requires step <= MaxSteps
    requires Orders(order, vertices.Keys)
    requires forall id :: id in vertices ==> Inbound(inbox, id) == Inbound(other, id)
    ensures RunFrom(vertices, inbox, results, wf, step, compute, order) == RunFrom(vertices, other, results, wf, step, compute, order)
  {
    if step < MaxSteps {
      assert IsOrdering(order(step), vertices.Keys);
      SuperstepReadsOnlyVisitedMail(vertices, inbox, other, order(step), wf, step, results, compute);
    }
  }

  /** A workflow without START nodes runs no vertex and succeeds at step 0. */
  lemma NoStartSucceedsAtOnce<V>(wf: Workflow, results: Results, factory: string -> Result<V, string>,
                                 compute: Compute<V>, order: nat -> seq<string>)
    requires Orders(order, NodeIds(wf.nodes))
    requires forall i :: 0 <= i < |wf.nodes| ==> factory(wf.nodes[i].typ).Ok?
    requires forall i :: 0 <= i < |wf.nodes| ==> wf.nodes[i].typ != StartType
    ensures Execute(wf, results, factory, compute, order) == Outcome(None, results, 0)
  {
    var vertices := BuildVertices(wf.nodes, factory).value;
    var inbox := InitialInbox(wf.nodes);
    InitialInboxMail(wf.nodes);
    assert inbox == map[] by {
      forall id | id in inbox ensures false {
      }
    }
    assert IsOrdering(order(0), vertices.Keys);
    SilentSuperstep(vertices, inbox, order(0), wf, 0, results, compute);
  }

  /** Every error a Compute can return satisfies `allowed`. */
  ghost predicate ComputeErrorsAllowed<V(!new)>(compute: Compute<V>, allowed: string -> bool) {
    forall v, inv :: compute(v, inv).Err? ==> allowed(compute(v, inv).error)
  }

  /** A run from any step fails only at the cap or with a StepError naming a vertex and an allowed error. */
  lemma {:induction false} RunErrorShape<V(!new)>(vertices: map<string, V>, inbox: Inbox, results: Results, wf: Workflow, step: nat,
                                            compute: Compute<V>, order: nat -> seq<string>, allowed: string -> bool)
    requires step <= MaxSteps
    requires Orders(order, vertices.Keys)
    requires ComputeErrorsAllowed(compute, allowed)
    ensures var o := RunFrom(vertices, inbox, results, wf, step, compute, order);
      o.error.Some? ==>
        || o.error.value == MaxStepsError
        || exists s: nat, id, e :: s < MaxSteps && id in vertices && allowed(e) && o.error.value == StepError(s, id, e)
    decreases MaxSteps - step
  {
    if step < MaxSteps {
      var ids := order(step);
      assert IsOrdering(ids, vertices.Keys);
      var st := Superstep(vertices, inbox, ids, wf, step, results, compute);
      if st.failure.Some? {
        SuperstepFailureShape(vertices, inbox, ids, wf, step, results, compute);
        var i, r :| 0 <= i < |ids| && ids[i] in vertices && compute(vertices[ids[i]], Invocation(step, ids[i], wf, Inbound(inbox, ids[i]), r)).Err?
          && st.failure.value == StepError(step, ids[i], compute(vertices[ids[i]], Invocation(step, ids[i], wf, Inbound(inbox, ids[i]), r)).error);
        var e := compute(vertices[ids[i]], Invocation(step, ids[i], wf, Inbound(inbox, ids[i]), r)).error;
        assert allowed(e);
        assert ids[i] in vertices;
      } else if st.active > 0 {
        RunErrorShape(vertices, st.next, st.results, wf, step + 1, compute, order, allowed);
      }
    }
  }

  /**
   * Every engine error is a factory error of some node, a StepError for a
   * node of the workflow at a step below the cap carrying an error its
   * Compute returned, or the step-cap error.
   */
  lemma ExecuteErrorShape<V(!new)>(wf: Workflow, results: Results, factory: string -> Result<V, string>,
                             compute: Compute<V>, order: nat -> seq<string>, allowed: string -> bool)
    requires Orders(order, NodeIds(wf.nodes))
    requires ComputeErrorsAllowed(compute, allowed)
    ensures var o := Execute(wf, results, factory, compute, order);
      o.error.Some? ==>
        || (exists i :: 0 <= i < |wf.nodes| && factory(wf.nodes[i].typ).Err?
              && o.error.value == FactoryError(wf.nodes[i].id, factory(wf.nodes[i].typ).error))
        || o.error.value == MaxStepsError
        || exists s: nat, id, e :: s < MaxSteps && id in NodeIds(wf.nodes) && allowed(e) && o.error.value == StepError(s, id, e)
  {
    var b := BuildVertices(wf.nodes, factory);
    if b.Ok? {
      RunErrorShape(b.value, InitialInbox(wf.nodes), results, wf, 0, compute, order, allowed);
    } else {
      BuildVerticesError(wf.nodes, factory);
    }
  }
}
