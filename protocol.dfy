/**
 * What the two halves promise each other across the wire: the kind the
 * editor exports for an output node, and whether the editor can attribute
 * an execute failure of the first server to a node.
 */
module Protocol {
  import opened Wrappers
  import opened EngineTypes
  import Bsp
  import Decimal
  import SimulatedNodes
  import LegacyServer
  import Server
  import BspLaws
  import Http
  import opened FailureAttribution
  import Editor

  /** The editor exports an output node as END, and neither server has a vertex for END. */
  lemma OutputKindRejectedByBothServers(client: Server.Client)
    ensures Editor.KindOf("output") == EndType
    ensures LegacyServer.Factory(Editor.KindOf("output")).Err?
    ensures Server.Factory(client, Editor.KindOf("output")).Err?
  {
  }

  /** No match starts at a position whose character belongs to a 'v'-free piece of the text. */
  lemma NoMatchInVFreePiece(s: string, pre: string, mid: string, post: string, i: nat)
    requires s == pre + mid + post
    requires 'v' !in mid
    requires |pre| <= i < |pre| + |mid|
    ensures MatchAt(s, i).None?
  {
    assert s[i] == mid[i - |pre|];
    NoMarkerWithoutV(s, i);
    NoMatchWithoutMarker(s, i);
  }

  /**
   * No match starts inside a space-free piece of the text followed by a
   * character that cannot continue `vertex `.
   */
  lemma NoMatchInSpaceFreePiece(s: string, pre: string, mid: string, post: string, i: nat)
    requires s == pre + mid + post
    requires ' ' !in mid
    requires |post| > 0 && post[0] !in "ertex "
    requires |pre| <= i < |pre| + |mid|
    ensures MatchAt(s, i).None?
  {
    var lo, hi := |pre|, |pre| + |mid|;
    forall j | lo <= j < hi ensures s[j] != ' ' {
      assert s[j] == mid[j - lo];
    }
    assert s[hi] == post[0];
    NoMarkerInSpaceFreeStretch(s, lo, hi, i);
    NoMatchWithoutMarker(s, i);
  }

  const Failed: string := "Workflow execution failed: "
  const FailedTo: string := "failed to create "
  const Ertex: string := "ertex for node "
  const UnknownType: string := ": unknown node type: "

  /** The text before the node id in a factory failure: "vertex" occurs once, at `FactoryMarkerAt`. */
  const FactoryHead: string := Failed + FailedTo + "v" + Ertex
  const FactoryMarkerAt: nat := |Failed| + |FailedTo|

  lemma FactoryHeadHasOneV(i: nat)
    requires i < |FactoryHead| && i != FactoryMarkerAt
    ensures FactoryHead[i] != 'v'
  {
    if i < |Failed| {
      assert FactoryHead[i] == Failed[i];
    } else if i < FactoryMarkerAt {
      assert FactoryHead[i] == FailedTo[i - |Failed|];
    } else {
      assert FactoryHead[i] == Ertex[i - FactoryMarkerAt - 1];
    }
  }

  /** At the one "vertex " of a factory failure the word after it is "for", which " node" follows, not " failed: ". */
  lemma NoMatchAtFactoryMarker(s: string, rest: string)
    requires s == FactoryHead + rest
    ensures MatchAt(s, FactoryMarkerAt).None?
  {
    var a := FactoryMarkerAt;
    assert s[a + 7] == 'f' && s[a + 8] == 'o' && s[a + 9] == 'r' && s[a + 10] == ' ' && s[a + 11] == 'n';
    assert WordEnd(s, a + 7) == a + 10;
    if a + 19 <= |s| {
      assert s[a + 10..a + 19][1] == 'n';
    }
  }

  /** The factory failure of the first server, as sent: head, node id, the rest. */
  lemma FactoryFailureText(id: string, t: string)
    ensures LegacyServer.ExecutionFailed + Bsp.FactoryError(id, LegacyServer.UnknownNodeType(t)) + "\n"
         == FactoryHead + (id + (UnknownType + t + "\n"))
  {
  }

  /** No match starts anywhere in a factory failure whose node id and type are space-free. */
  lemma NoMatchInFactoryText(id: string, t: string, i: nat)
    requires ' ' !in id && ' ' !in t
    requires i <= |FactoryHead + (id + (UnknownType + t + "\n"))|
    ensures MatchAt(FactoryHead + (id + (UnknownType + t + "\n")), i).None?
  {
    var tail := UnknownType + t + "\n";
    var s := FactoryHead + (id + tail);
    var b := |FactoryHead|;
    var c := b + |id| + |UnknownType|;
    assert UnknownType[0] == ':';
    if i == FactoryMarkerAt {
      NoMatchAtFactoryMarker(s, id + tail);
    } else if i < b {
      FactoryHeadHasOneV(i);
      assert s[i] == FactoryHead[i];
      NoMarkerWithoutV(s, i);
      NoMatchWithoutMarker(s, i);
    } else if i < b + |id| {
      assert s == FactoryHead + id + tail;
      NoMatchInSpaceFreePiece(s, FactoryHead, id, tail, i);
    } else if i < c {
      assert 'v' !in UnknownType;
      assert s == (FactoryHead + id) + UnknownType + (t + "\n");
      NoMatchInVFreePiece(s, FactoryHead + id, UnknownType, t + "\n", i);
    } else if i < c + |t| {
      assert s == (FactoryHead + id + UnknownType) + t + "\n";
      NoMatchInSpaceFreePiece(s, FactoryHead + id + UnknownType, t, "\n", i);
    } else {
      assert i < |s| ==> s[i] == '\n';
      if i < |s| {
        NoMarkerWithoutV(s, i);
      }
      NoMatchWithoutMarker(s, i);
    }
  }

  /** The 500 text for a node type the first server has no vertex for is never attributed. */
  lemma FactoryFailureNotAttributed(id: string, t: string)
    requires ' ' !in id && ' ' !in t
    ensures Attribute(LegacyServer.ExecutionFailed + Bsp.FactoryError(id, LegacyServer.UnknownNodeType(t)) + "\n") == None
  {
    FactoryFailureText(id, t);
    var s := FactoryHead + (id + (UnknownType + t + "\n"));
    forall i | 0 <= i <= |s| ensures MatchAt(s, i).None? {
      NoMatchInFactoryText(id, t, i);
    }
    AttributedIffSomeMatch(s);
  }

  const StepHead: string := Failed + "error in superstep "
  const AtNode: string := " at node "
  const StepTail: string := ": " + SimulatedNodes.SimulatedFailure + "\n"

  /** The step failure of the first server, as sent. */
  lemma StepFailureText(step: nat, id: string)
    ensures LegacyServer.ExecutionFailed + Bsp.StepError(step, id, SimulatedNodes.SimulatedFailure) + "\n"
         == StepHead + (Decimal.Show(step) + (AtNode + (id + StepTail)))
  {
  }

  /** The fixed pieces of a step failure hold no 'v'. */
  lemma StepPiecesHaveNoV()
    ensures 'v' !in StepHead && 'v' !in AtNode && 'v' !in StepTail
  {
    forall j | 0 <= j < |StepHead| ensures StepHead[j] != 'v' {
      if j < |Failed| {
        assert StepHead[j] == Failed[j];
      }
    }
  }

  /** The decimal text of a step number holds no 'v'. */
  lemma StepNumberHasNoV(step: nat)
    ensures 'v' !in Decimal.Show(step)
  {
    var d := Decimal.Show(step);
    forall j | 0 <= j < |d| ensures d[j] != 'v' {
      assert Decimal.IsDigit(d[j]);
    }
  }

  /** No match starts anywhere in a simulated step failure whose node id is space-free. */
  lemma NoMatchInStepText(step: nat, id: string, i: nat)
    requires ' ' !in id
    requires i <= |StepHead + (Decimal.Show(step) + (AtNode + (id + StepTail)))|
    ensures MatchAt(StepHead + (Decimal.Show(step) + (AtNode + (id + StepTail))), i).None?
  {
    var d := Decimal.Show(step);
    var s := StepHead + (d + (AtNode + (id + StepTail)));
    var b := |StepHead| + |d| + |AtNode|;
    StepPiecesHaveNoV();
    StepNumberHasNoV(step);
    if i < |StepHead| {
      assert s == [] + StepHead + (d + (AtNode + (id + StepTail)));
      NoMatchInVFreePiece(s, [], StepHead, d + (AtNode + (id + StepTail)), i);
    } else if i < |StepHead| + |d| {
      assert s == StepHead + d + (AtNode + (id + StepTail));
      NoMatchInVFreePiece(s, StepHead, d, AtNode + (id + StepTail), i);
    } else if i < b {
      assert s == (StepHead + d) + AtNode + (id + StepTail);
      NoMatchInVFreePiece(s, StepHead + d, AtNode, id + StepTail, i);
    } else if i < b + |id| {
      assert s == (StepHead + d + AtNode) + id + StepTail;
      assert StepTail[0] == ':';
      NoMatchInSpaceFreePiece(s, StepHead + d + AtNode, id, StepTail, i);
    } else if i < |s| {
      assert s == (StepHead + d + AtNode + id) + StepTail + [];
      NoMatchInVFreePiece(s, StepHead + d + AtNode + id, StepTail, [], i);
    } else {
      NoMatchWithoutMarker(s, i);
    }
  }

  /** The 500 text for the simulated LLM failure is never attributed when node ids are space-free. */
  lemma StepFailureNotAttributed(step: nat, id: string)
    requires ' ' !in id
    ensures Attribute(LegacyServer.ExecutionFailed + Bsp.StepError(step, id, SimulatedNodes.SimulatedFailure) + "\n") == None
  {
    StepFailureText(step, id);
    var s := StepHead + (Decimal.Show(step) + (AtNode + (id + StepTail)));
    forall i | 0 <= i <= |s| ensures MatchAt(s, i).None? {
      NoMatchInStepText(step, id, i);
    }
    AttributedIffSomeMatch(s);
  }

  /** No position of the 500 text for the step cap starts a match. */
  lemma NoMatchInMaxStepsText(i: nat)
    requires i <= |LegacyServer.ExecutionFailed + Bsp.MaxStepsError + "\n"|
    ensures MatchAt(LegacyServer.ExecutionFailed + Bsp.MaxStepsError + "\n", i).None?
  {
    var s := LegacyServer.ExecutionFailed + Bsp.MaxStepsError + "\n";
    if i < |Failed| {
      assert s[i] == Failed[i];
      NoMarkerWithoutV(s, i);
    } else if i < |s| - 1 {
      assert s[i] == Bsp.MaxStepsError[i - |Failed|];
      NoMarkerWithoutV(s, i);
    }
    NoMatchWithoutMarker(s, i);
  }

  /** The 500 text for the step cap is never attributed. */
  lemma MaxStepsFailureNotAttributed()
    ensures Attribute(LegacyServer.ExecutionFailed + Bsp.MaxStepsError + "\n") == None
  {
    var s := LegacyServer.ExecutionFailed + Bsp.MaxStepsError + "\n";
    forall i | 0 <= i <= |s| ensures MatchAt(s, i).None? {
      NoMatchInMaxStepsText(i);
    }
    AttributedIffSomeMatch(s);
  }

  /** Node ids and types free of spaces, as the editor produces them. */
  predicate SpaceFreeNames(wf: Workflow) {
    forall i :: 0 <= i < |wf.nodes| ==> ' ' !in wf.nodes[i].id && ' ' !in wf.nodes[i].typ
  }

  /** The ids `addNode` generates and the kinds the editor exports contain no space. */
  lemma EditorNamesAreSpaceFree(n: nat, typ: string)
    ensures ' ' !in Decimal.Show(n)
    ensures ' ' !in Editor.KindOf(typ)
  {
  }

  /**
   * Against the first server, failure attribution never fires: every
   * failure it reports, as the editor receives it, matches no
   * `vertex <id> failed: <reason>`, so no node is marked failed.
   */
  lemma LegacyFailuresNeverAttributed(wf: Workflow, order: nat -> seq<string>, nodes: seq<Editor.EditorNode>)
    requires Bsp.Orders(order, NodeIds(wf.nodes))
    requires SpaceFreeNames(wf)
    ensures var r := LegacyServer.ExecuteReply(Http.Post, Some(wf), order);
      r.Failure? ==> Attribute(r.message + "\n") == None && Editor.AfterFailure(nodes, r.message + "\n") == nodes
  {
    var r := LegacyServer.ExecuteReply(Http.Post, Some(wf), order);
    if r.Failure? {
      var allowed := e => e == SimulatedNodes.SimulatedFailure;
      forall v, inv | LegacyServer.Compute(v, inv).Err? ensures allowed(LegacyServer.Compute(v, inv).error) {
        LegacyServer.ComputeErrorsAreSimulated(v, inv);
      }
      BspLaws.ExecuteErrorShape(wf, map[], LegacyServer.Factory, LegacyServer.Compute, order, allowed);
      var o := LegacyServer.Run(wf, order);
      assert r.message == LegacyServer.ExecutionFailed + o.error.value;
      if exists i :: 0 <= i < |wf.nodes| && LegacyServer.Factory(wf.nodes[i].typ).Err?
           && o.error.value == Bsp.FactoryError(wf.nodes[i].id, LegacyServer.Factory(wf.nodes[i].typ).error) {
        var i :| 0 <= i < |wf.nodes| && LegacyServer.Factory(wf.nodes[i].typ).Err?
           && o.error.value == Bsp.FactoryError(wf.nodes[i].id, LegacyServer.Factory(wf.nodes[i].typ).error);
        FactoryFailureNotAttributed(wf.nodes[i].id, wf.nodes[i].typ);
      } else if o.error.value == Bsp.MaxStepsError {
        MaxStepsFailureNotAttributed();
      } else {
        var s: nat, id, e :| s < Bsp.MaxSteps && id in NodeIds(wf.nodes) && allowed(e) && o.error.value == Bsp.StepError(s, id, e);
        var k :| 0 <= k < |wf.nodes| && wf.nodes[k].id == id;
        StepFailureNotAttributed(s, id);
      }
    }
  }
}
