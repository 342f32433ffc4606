/**
 * The node components' updaters (frontend/src/components/nodes/LLMNode.tsx,
 * frontend/src/components/nodes/ResultNode.tsx): each builds a new node list
 * from the old one, keyed by node id, and their display choices.
 */
module NodeEdits {
  import opened Editor
  import Decimal

  /** `{...node, data: {...node.data, [key]: value}}` on every node with id `id`. */
  function SetField(nodes: seq<EditorNode>, id: string, key: string, value: JsValue): (r: seq<EditorNode>)
    ensures |r| == |nodes|
    ensures forall i :: 0 <= i < |nodes| ==>
      if nodes[i].id == id
      then r[i] == nodes[i].(data := nodes[i].data[key := value])
      else r[i] == nodes[i]
  {
    seq(|nodes|, i requires 0 <= i < |nodes| =>
      if nodes[i].id == id then nodes[i].(data := nodes[i].data[key := value]) else nodes[i])
  }

  /** handlePromptChange */
  function SetPrompt(nodes: seq<EditorNode>, id: string, prompt: string): seq<EditorNode> {
    SetField(nodes, id, "prompt", Str(prompt))
  }

  /** handleModelChange */
  function SetModel(nodes: seq<EditorNode>, id: string, model: string): seq<EditorNode> {
    SetField(nodes, id, "model", Str(model))
  }

  /**
   * A prompt change: every node with the id now shows the new prompt and
   * keeps every other data field, id, type and position; other nodes are
   * untouched and the list keeps its length and order.
   */
  lemma SetPromptSpec(nodes: seq<EditorNode>, id: string, prompt: string)
    ensures var r := SetPrompt(nodes, id, prompt);
      && |r| == |nodes|
      && (forall i :: 0 <= i < |nodes| && nodes[i].id != id ==> r[i] == nodes[i])
      && (forall i :: 0 <= i < |nodes| && nodes[i].id == id ==>
            && r[i].id == id && r[i].typ == nodes[i].typ && r[i].position == nodes[i].position
            && Field(r[i].data, "prompt") == Str(prompt)
            && forall k :: k != "prompt" ==> Field(r[i].data, k) == Field(nodes[i].data, k))
  {
  }

  /** A model change, stated as for the prompt. */
  lemma SetModelSpec(nodes: seq<EditorNode>, id: string, model: string)
    ensures var r := SetModel(nodes, id, model);
      && |r| == |nodes|
      && (forall i :: 0 <= i < |nodes| && nodes[i].id != id ==> r[i] == nodes[i])
      && (forall i :: 0 <= i < |nodes| && nodes[i].id == id ==>
            && r[i].id == id && r[i].typ == nodes[i].typ && r[i].position == nodes[i].position
            && Field(r[i].data, "model") == Str(model)
            && forall k :: k != "model" ==> Field(r[i].data, k) == Field(nodes[i].data, k))
  {
  }

  /** Editing one node's prompt never changes what another node's prompt or model reads. */
  lemma EditsCommute(nodes: seq<EditorNode>, id: string, prompt: string, model: string)
    ensures SetModel(SetPrompt(nodes, id, prompt), id, model) == SetPrompt(SetModel(nodes, id, model), id, prompt)
  {
    var p := SetPrompt(nodes, id, prompt);
    var m := SetModel(nodes, id, model);
    var a := SetModel(p, id, model);
    var b := SetPrompt(m, id, prompt);
    forall i | 0 <= i < |nodes| ensures a[i] == b[i] {
      if nodes[i].id == id {
        var d := nodes[i].data;
        assert p[i] == nodes[i].(data := d["prompt" := Str(prompt)]);
        assert m[i] == nodes[i].(data := d["model" := Str(model)]);
        assert a[i] == nodes[i].(data := d["prompt" := Str(prompt)]["model" := Str(model)]);
        assert b[i] == nodes[i].(data := d["model" := Str(model)]["prompt" := Str(prompt)]);
        assert "prompt" != "model";
        assert d["prompt" := Str(prompt)]["model" := Str(model)] == d["model" := Str(model)]["prompt" := Str(prompt)];
      } else {
        assert p[i] == nodes[i] && m[i] == nodes[i];
      }
    }
  }

  /** `nds.filter((n) => n.id !== id)`, the delete button of both node kinds. */
  function RemoveNode(nodes: seq<EditorNode>, id: string): (r: seq<EditorNode>)
    ensures |r| <= |nodes|
  {
    if |nodes| == 0 then []
    else
      var rest := RemoveNode(nodes[..|nodes| - 1], id);
      var last := nodes[|nodes| - 1];
      if last.id == id then rest else rest + [last]
  }

  /** Every node of `nodes` without the id survives, and none with it. */
  lemma {:induction false} RemoveNodeKeeps(nodes: seq<EditorNode>, id: string, n: EditorNode)
    ensures n in RemoveNode(nodes, id) <==> n in nodes && n.id != id
  {
    if |nodes| > 0 {
      RemoveNodeKeeps(nodes[..|nodes| - 1], id, n);
      assert nodes == nodes[..|nodes| - 1] + [nodes[|nodes| - 1]];
    }
  }

  /**
   * The survivors keep their relative order and multiplicity: the result is
   * the subsequence of nodes whose id differs, which `Kept` names by positions.
   */
  function Kept(nodes: seq<EditorNode>, id: string): (idx: seq<nat>)
    ensures forall j :: 0 <= j < |idx| ==> idx[j] < |nodes| && nodes[idx[j]].id != id
    ensures forall j, k :: 0 <= j < k < |idx| ==> idx[j] < idx[k]
    ensures forall i :: 0 <= i < |nodes| && nodes[i].id != id ==> i in idx
  {
    if |nodes| == 0 then []
    else
      var rest := Kept(nodes[..|nodes| - 1], id);
      if nodes[|nodes| - 1].id == id then rest else rest + [|nodes| - 1]
  }

  /** RemoveNode(nodes, id) lists exactly the nodes at the Kept positions, in that order. */
  lemma {:induction false} RemoveNodeIsSubsequence(nodes: seq<EditorNode>, id: string)
    ensures var r := RemoveNode(nodes, id); var idx := Kept(nodes, id);
      |r| == |idx| && forall j :: 0 <= j < |r| ==> r[j] == nodes[idx[j]]
  {
    if |nodes| > 0 {
      var init := nodes[..|nodes| - 1];
      RemoveNodeIsSubsequence(init, id);
      var rest := RemoveNode(init, id);
      var restIdx := Kept(init, id);
      var r := RemoveNode(nodes, id);
      var idx := Kept(nodes, id);
      forall j | 0 <= j < |rest| ensures nodes[restIdx[j]] == rest[j] {
        assert init[restIdx[j]] == rest[j];
      }
      if nodes[|nodes| - 1].id != id {
        assert r == rest + [nodes[|nodes| - 1]];
        assert idx == restIdx + [|nodes| - 1];
      }
    }
  }

  /** Deleting twice is deleting once. */
  lemma {:induction false} RemoveNodeIdempotent(nodes: seq<EditorNode>, id: string)
    ensures RemoveNode(RemoveNode(nodes, id), id) == RemoveNode(nodes, id)
  {
    if |nodes| > 0 {
      var init := nodes[..|nodes| - 1];
      var last := nodes[|nodes| - 1];
      var rest := RemoveNode(init, id);
      RemoveNodeIdempotent(init, id);
      assert RemoveNode(rest, id) == rest;
      if last.id != id {
        var r := rest + [last];
        assert RemoveNode(nodes, id) == r;
        assert r[..|r| - 1] == rest;
        assert r[|r| - 1] == last;
        assert RemoveNode(r, id) == RemoveNode(rest, id) + [last];
      }
    }
  }

  /** Deleting an id no node carries changes nothing. */
  lemma {:induction false} RemoveNodeAbsent(nodes: seq<EditorNode>, id: string)
    requires forall i :: 0 <= i < |nodes| ==> nodes[i].id != id
    ensures RemoveNode(nodes, id) == nodes
  {
    if |nodes| > 0 {
      var init := nodes[..|nodes| - 1];
      forall i | 0 <= i < |init| ensures init[i].id != id {
        assert init[i] == nodes[i];
      }
      RemoveNodeAbsent(init, id);
      assert nodes == init + [nodes[|nodes| - 1]];
    }
  }

  /** Deleting an id that exactly one node carries cuts out that node and keeps the rest in order. */
  lemma {:induction false} RemoveNodeSingle(nodes: seq<EditorNode>, id: string, k: nat)
    requires k < |nodes| && nodes[k].id == id
    requires forall i :: 0 <= i < |nodes| && i != k ==> nodes[i].id != id
    ensures RemoveNode(nodes, id) == nodes[..k] + nodes[k + 1..]
  {
    var init := nodes[..|nodes| - 1];
    var last := nodes[|nodes| - 1];
    if k == |nodes| - 1 {
      forall i | 0 <= i < |init| ensures init[i].id != id {
        assert init[i] == nodes[i];
      }
      RemoveNodeAbsent(init, id);
      assert nodes[k + 1..] == [];
    } else {
      forall i | 0 <= i < |init| && i != k ensures init[i].id != id {
        assert init[i] == nodes[i];
      }
      assert init[k] == nodes[k];
      RemoveNodeSingle(init, id, k);
      assert init[..k] == nodes[..k];
      assert init[k + 1..] + [last] == nodes[k + 1..];
    }
  }

  /** The decimal texts of distinct naturals differ. */
  lemma ShowInjective(a: nat, b: nat)
    requires a != b
    ensures Decimal.Show(a) != Decimal.Show(b)
  {
    Decimal.ShowNatValue(a);
    Decimal.ShowNatValue(b);
  }

  /**
   * Ids from addNode can collide: in a list numbered 1..n as addNode numbers
   * it, deleting any node but the last and then adding a node gives the new
   * node the id of the last node, which is still in the list.
   */
  lemma AddAfterDeleteCollides(nodes: seq<EditorNode>, k: nat, typ: string, position: Position)
    requires k + 1 < |nodes|
    requires forall i :: 0 <= i < |nodes| ==> nodes[i].id == Decimal.Show(i + 1)
    ensures var kept := RemoveNode(nodes, nodes[k].id);
      && |kept| == |nodes| - 1
      && nodes[|nodes| - 1] in kept
      && NewNode(kept, typ, position).id == nodes[|nodes| - 1].id
  {
    forall i | 0 <= i < |nodes| && i != k ensures nodes[i].id != nodes[k].id {
      ShowInjective(i + 1, k + 1);
    }
    RemoveNodeSingle(nodes, nodes[k].id, k);
    var kept := RemoveNode(nodes, nodes[k].id);
    assert kept[|kept| - 1] == nodes[|nodes| - 1];
  }

  /**
   * The delete cannot cascade: the updater never receives the edge list, so
   * `edges` is left exactly as it was and an edge from the deleted node
   * survives; after the delete no node carries its source id, so it dangles.
   */
  lemma DeleteLeavesDanglingEdges(nodes: seq<EditorNode>, edges: seq<EditorEdge>, id: string, e: EditorEdge)
    requires e in edges && e.source == id
    ensures forall n :: n in RemoveNode(nodes, id) ==> n.id != e.source
  {
    forall n | n in RemoveNode(nodes, id) ensures n.id != e.source {
      RemoveNodeKeeps(nodes, id, n);
    }
  }

  /** The model select shows `data.model || 'GPT-4'`. */
  function ShownModel(data: map<string, JsValue>): (m: JsValue)
    ensures !Truthy(Field(data, "model")) ==> m == Str("GPT-4")
    ensures Truthy(Field(data, "model")) ==> m == Field(data, "model")
  {
    if Truthy(Field(data, "model")) then Field(data, "model") else Str("GPT-4")
  }

  /** What the result node shows: the output when `data.result` is truthy, else the placeholder. */
  datatype ResultView = Output(result: JsValue) | Waiting

  function ResultBody(data: map<string, JsValue>): (v: ResultView)
    ensures v.Output? <==> Truthy(Field(data, "result"))
    ensures v.Output? ==> v.result == Field(data, "result")
  {
    if Truthy(Field(data, "result")) then Output(Field(data, "result")) else Waiting
  }

  /** A node whose run state was reset shows the placeholder and the default model only if none was chosen. */
  lemma ClearedNodeWaits(nodes: seq<EditorNode>, i: nat)
    requires i < |nodes|
    ensures ResultBody(ClearRunState(nodes)[i].data) == Waiting
    ensures ShownModel(ClearRunState(nodes)[i].data) == ShownModel(nodes[i].data)
  {
  }
}
