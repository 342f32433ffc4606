/**
 * The saved-workflow sidebar (frontend/src/components/Sidebar.tsx): the list
 * refresh and the one-shot auto-load of the newest workflow.
 */
module Sidebar {
  import opened Wrappers

  /** A list entry as the list endpoint returns it; timestamps stay text. */
  datatype SavedWorkflow = SavedWorkflow(id: string, name: string, createdAt: string, updatedAt: string)

  /** How one `fetchWorkflows` call ends. */
  datatype FetchOutcome =
    | Rejected                                 // fetch or response.json() threw
    | NotOk(status: int)                       // response.ok is false
    | Listed(body: Option<seq<SavedWorkflow>>) // decoded body; None for JSON null

  /** The effect of one refresh on (list, flag) and the id it asks the parent to load, if any. */
  datatype Step = Step(workflows: seq<SavedWorkflow>, hasLoadedDefault: bool, load: Option<string>)

  function FetchStep(workflows: seq<SavedWorkflow>, hasLoadedDefault: bool, outcome: FetchOutcome): (s: Step)
    ensures !outcome.Listed? ==> s == Step(workflows, hasLoadedDefault, None)
    ensures outcome.Listed? ==>
      s.workflows == (if outcome.body.Some? then outcome.body.value else [])
    ensures s.load.Some? <==>
      !hasLoadedDefault && outcome.Listed? && outcome.body.Some? && |outcome.body.value| > 0
    ensures s.load.Some? ==> s.load.value == outcome.body.value[0].id
    ensures s.hasLoadedDefault == (hasLoadedDefault || s.load.Some?)
  {
    match outcome
    case Listed(body) =>
      var list := if body.Some? then body.value else [];
      if !hasLoadedDefault && body.Some? && |body.value| > 0
      then Step(list, true, Some(body.value[0].id))
      else Step(list, hasLoadedDefault, None)
    case _ => Step(workflows, hasLoadedDefault, None)
  }

  /** The load requests a series of refreshes makes, starting from a flag value. */
  function Loads(hasLoadedDefault: bool, outcomes: seq<FetchOutcome>): seq<string>
    decreases outcomes
  {
    if |outcomes| == 0 then []
    else
      var s := FetchStep([], hasLoadedDefault, outcomes[0]);
      (if s.load.Some? then [s.load.value] else []) + Loads(s.hasLoadedDefault, outcomes[1..])
  }

  /**
   * Across any series of refreshes at most one auto-load happens, none at
   * all once the flag is set.
   */
  lemma {:induction false} AtMostOneAutoLoad(hasLoadedDefault: bool, outcomes: seq<FetchOutcome>)
    ensures |Loads(hasLoadedDefault, outcomes)| <= 1
    ensures hasLoadedDefault ==> Loads(hasLoadedDefault, outcomes) == []
    decreases outcomes
  {
    if |outcomes| > 0 {
      var s := FetchStep([], hasLoadedDefault, outcomes[0]);
      AtMostOneAutoLoad(s.hasLoadedDefault, outcomes[1..]);
    }
  }

  /** The flag only ever goes from unset to set. */
  lemma FlagIsMonotone(workflows: seq<SavedWorkflow>, hasLoadedDefault: bool, outcome: FetchOutcome)
    ensures hasLoadedDefault ==> FetchStep(workflows, hasLoadedDefault, outcome).hasLoadedDefault
    ensures hasLoadedDefault ==> FetchStep(workflows, hasLoadedDefault, outcome).load == None
  {
  }

  /** What a click asks the parent to load: `+ New` asks for null, an entry for its id. */
  datatype Click = NewWorkflow | Entry(workflow: SavedWorkflow)

  function LoadRequest(click: Click): (r: Option<string>)
    ensures r.None? <==> click.NewWorkflow?
    ensures click.Entry? ==> r == Some(click.workflow.id)
  {
    match click
    case NewWorkflow => None
    case Entry(wf) => Some(wf.id)
  }

  /** The component's list and auto-load flag. */
  class SidebarState {
    var workflows: seq<SavedWorkflow>
    var hasLoadedDefault: bool

    constructor ()
      ensures workflows == [] && !hasLoadedDefault
    {
      workflows := [];
      hasLoadedDefault := false;
    }

    /** fetchWorkflows, given how the request ended; returns the id handed to onLoadWorkflow. */
    method FetchWorkflows(outcome: FetchOutcome) returns (load: Option<string>)
      modifies this
      ensures FetchStep(old(workflows), old(hasLoadedDefault), outcome) == Step(workflows, hasLoadedDefault, load)
    {
      load := None;
      if outcome.Listed? {
        var data := outcome.body;
        workflows := if data.Some? then data.value else [];
        if !hasLoadedDefault && data.Some? && |data.value| > 0 {
          load := Some(data.value[0].id);
          hasLoadedDefault := true;
        }
      }
    }
  }
}
