/**
 * The saved-workflow API (backend/internal/api/handler.go). The SQL table
 * `workflows` is a map from id to row held by the handler; `NOW()` is the
 * clock reading `now`; database failures are flags; the ORDER BY of the
 * list query is the sequence of ids the query yields.
 */
module WorkflowApi {
  import opened Wrappers
  import opened EngineTypes
  import opened Http

  /** A row of the table, keyed by its id; timestamps are clock readings. */
  datatype Row = Row(name: string, definition: Workflow, createdAt: int, updatedAt: int)

  /** The save request body. */
  datatype SaveRequest = SaveRequest(id: string, name: string, definition: Workflow)

  /** SavedWorkflow as it is encoded in responses. */
  datatype SavedWorkflow = SavedWorkflow(id: string, name: string, definition: Workflow, createdAt: int, updatedAt: int)

  /** What the three handlers encode. */
  datatype Payload =
    | Ack(status: string)
    | Listing(entries: Option<seq<SavedWorkflow>>)  // None encodes as JSON null
    | Record(workflow: SavedWorkflow)

  const MethodNotAllowed: string := "Method not allowed"
  const InvalidBody: string := "Invalid request body"
  const SaveFailed: string := "Failed to save workflow"
  const ListFailed: string := "Failed to list workflows"
  const MissingId: string := "Missing id parameter"
  const NotFound: string := "Workflow not found"
  const GetFailed: string := "Failed to get workflow"

  /** The zero value of a Go Workflow, which list entries carry as their definition. */
  const ZeroDefinition: Workflow := Workflow("", [], [], map[])

  /**
   * The upsert: a new id is inserted with both timestamps at `now`; an
   * existing id gets the new name and definition and `updated_at = now`,
   * keeping its `created_at`; no other row changes.
   */
  function Upsert(rows: map<string, Row>, req: SaveRequest, now: int): (r: map<string, Row>)
    ensures r.Keys == rows.Keys + {req.id}
    ensures forall id :: id in rows && id != req.id ==> r[id] == rows[id]
    ensures r[req.id].name == req.name && r[req.id].definition == req.definition
    ensures r[req.id].updatedAt == now
    ensures r[req.id].createdAt == if req.id in rows then rows[req.id].createdAt else now
  {
    if req.id in rows then rows[req.id := rows[req.id].(name := req.name, definition := req.definition, updatedAt := now)]
    else rows[req.id := Row(req.name, req.definition, now, now)]
  }

  /** Saving the same request again changes only that row's `updated_at`. */
  lemma ResaveTouchesOnlyUpdatedAt(rows: map<string, Row>, req: SaveRequest, t1: int, t2: int)
    ensures var once := Upsert(rows, req, t1);
      Upsert(once, req, t2) == once[req.id := once[req.id].(updatedAt := t2)]
  {
  }

  /** A list entry: the row without its definition. */
  function Summary(id: string, row: Row): SavedWorkflow {
    SavedWorkflow(id, row.name, ZeroDefinition, row.createdAt, row.updatedAt)
  }

  /** The query's result order: every row once, most recently updated first. */
  ghost predicate ListedByRecency(rows: map<string, Row>, queried: seq<string>) {
    && (forall i, j :: 0 <= i < j < |queried| ==> queried[i] != queried[j])
    && (forall id :: id in rows <==> id in queried)
    && (forall i, j :: 0 <= i < j < |queried| && queried[i] in rows && queried[j] in rows ==>
          rows[queried[i]].updatedAt >= rows[queried[j]].updatedAt)
  }

  /** The entries the row loop appends: one per row that scans, in query order. */
  function Summaries(rows: map<string, Row>, queried: seq<string>, scans: string -> bool): (s: seq<SavedWorkflow>)
    requires forall i :: 0 <= i < |queried| ==> queried[i] in rows
    ensures forall k :: 0 <= k < |s| ==> s[k].id in rows && scans(s[k].id) && s[k] == Summary(s[k].id, rows[s[k].id])
    ensures forall k :: 0 <= k < |s| ==> exists q :: 0 <= q < |queried| && queried[q] == s[k].id
    decreases |queried|
  {
    if |queried| == 0 then []
    else
      var id := queried[|queried| - 1];
      var prev := Summaries(rows, queried[..|queried| - 1], scans);
      assert forall k :: 0 <= k < |prev| ==> exists q :: 0 <= q < |queried| && queried[q] == prev[k].id by {
        forall k | 0 <= k < |prev| ensures exists q :: 0 <= q < |queried| && queried[q] == prev[k].id {
          var q :| 0 <= q < |queried| - 1 && queried[..|queried| - 1][q] == prev[k].id;
          assert queried[q] == prev[k].id;
        }
      }
      prev + (if scans(id) then [Summary(id, rows[id])] else [])
  }

  /** Entries ordered most recently updated first. */
  predicate Recent(s: seq<SavedWorkflow>) {
    forall i, j :: 0 <= i < j < |s| ==> s[i].updatedAt >= s[j].updatedAt
  }

  /** The list keeps the query's order: entries are most recently updated first. */
  lemma {:induction false} SummariesByRecency(rows: map<string, Row>, queried: seq<string>, scans: string -> bool)
    requires forall i :: 0 <= i < |queried| ==> queried[i] in rows
    requires forall i, j :: 0 <= i < j < |queried| ==> rows[queried[i]].updatedAt >= rows[queried[j]].updatedAt
    ensures Recent(Summaries(rows, queried, scans))
    decreases |queried|
  {
    if |queried| > 0 {
      var init := queried[..|queried| - 1];
      SummariesByRecency(rows, init, scans);
      var id := queried[|queried| - 1];
      var prev := Summaries(rows, init, scans);
      forall k | 0 <= k < |prev| ensures prev[k].updatedAt >= rows[id].updatedAt {
        var q :| 0 <= q < |init| && init[q] == prev[k].id;
        assert queried[q] == prev[k].id;
      }
      var s := Summaries(rows, queried, scans);
      if scans(id) {
        assert s == prev + [Summary(id, rows[id])];
        forall i, j | 0 <= i < j < |s| ensures s[i].updatedAt >= s[j].updatedAt {
          assert s[i] == prev[i];
          if j < |prev| {
            assert s[j] == prev[j];
          }
        }
      } else {
        assert s == prev;
      }
    }
  }

  /** Every row that scans is listed; rows that fail to scan are skipped, not fatal. */
  lemma {:induction false} SummariesComplete(rows: map<string, Row>, queried: seq<string>, scans: string -> bool, id: string)
    requires forall i :: 0 <= i < |queried| ==> queried[i] in rows
    requires id in queried
    ensures Summary(id, rows[id]) in Summaries(rows, queried, scans) <==> scans(id)
    decreases |queried|
  {
    var init := queried[..|queried| - 1];
    var last := queried[|queried| - 1];
    assert queried == init + [last];
    var prev := Summaries(rows, init, scans);
    if id in init {
      SummariesComplete(rows, init, scans, id);
    } else {
      assert Summary(id, rows[id]) !in prev by {
        forall k | 0 <= k < |prev| ensures prev[k] != Summary(id, rows[id]) {
          var q :| 0 <= q < |init| && init[q] == prev[k].id;
        }
      }
    }
  }

  /**
   * The list handler's entries: most recently updated first, and a row is
   * listed exactly when it scans.
   */
  lemma ListIsMostRecentFirst(rows: map<string, Row>, queried: seq<string>, scans: string -> bool)
    requires ListedByRecency(rows, queried)
    ensures Recent(Summaries(rows, queried, scans))
    ensures forall id :: id in rows ==> (Summary(id, rows[id]) in Summaries(rows, queried, scans) <==> scans(id))
  {
    assert forall i :: 0 <= i < |queried| ==> queried[i] in rows by {
      forall i | 0 <= i < |queried| ensures queried[i] in rows {
        assert queried[i] in queried;
      }
    }
    SummariesByRecency(rows, queried, scans);
    forall id | id in rows ensures Summary(id, rows[id]) in Summaries(rows, queried, scans) <==> scans(id) {
      SummariesComplete(rows, queried, scans, id);
    }
  }

  /** `var workflows []SavedWorkflow` stays nil, and encodes as null, when nothing is appended. */
  function Listed(entries: seq<SavedWorkflow>): Option<seq<SavedWorkflow>> {
    if |entries| == 0 then None else Some(entries)
  }

  /** An empty table lists as null. */
  lemma EmptyTableListsNull(rows: map<string, Row>, queried: seq<string>, scans: string -> bool)
    requires ListedByRecency(rows, queried) && rows == map[]
    ensures Listed(Summaries(rows, queried, scans)) == None
  {
  }

  /** GetWorkflow's decision for a GET with query id `id`. */
  function GetReply(rows: map<string, Row>, id: string, dbError: bool): (r: Reply<Payload>)
    ensures id == "" ==> r == Failure(StatusBadRequest, MissingId)
    ensures id != "" && dbError ==> r == Failure(StatusInternalServerError, GetFailed)
    ensures id != "" && !dbError && id !in rows ==> r == Failure(StatusNotFound, NotFound)
    ensures r.Success? <==> id != "" && !dbError && id in rows
    ensures r.Success? ==> r.value == Record(SavedWorkflow(id, rows[id].name, rows[id].definition, rows[id].createdAt, rows[id].updatedAt))
  {
    if id == "" then Failure(StatusBadRequest, MissingId)
    else if dbError then Failure(StatusInternalServerError, GetFailed)
    else if id !in rows then Failure(StatusNotFound, NotFound)
    else
      var row := rows[id];
      Success(Record(SavedWorkflow(id, row.name, row.definition, row.createdAt, row.updatedAt)))
  }

  /** What was saved is what is read back, with the save time as `updated_at`. */
  lemma SaveThenGet(rows: map<string, Row>, req: SaveRequest, now: int)
    requires req.id != ""
    ensures var r := GetReply(Upsert(rows, req, now), req.id, false);
      && r.Success? && r.value.workflow.id == req.id && r.value.workflow.name == req.name
      && r.value.workflow.definition == req.definition && r.value.workflow.updatedAt == now
  {
  }

  /** The handler, holding the table. */
  class WorkflowHandler {
    var rows: map<string, Row>

    constructor (rows: map<string, Row>)
      ensures this.rows == rows
    {
      this.rows := rows;
    }

    /** SaveWorkflow: method check, decode, upsert, then 200 with `{"status":"saved"}`. */
    method SaveWorkflow(w: ResponseWriter<Payload>, requestMethod: string, decoded: Option<SaveRequest>, now: int, dbError: bool)
      requires w.status == 0 && w.body == []
      modifies this, w
      ensures requestMethod != Post ==> rows == old(rows) && w.Shows(Failure(StatusMethodNotAllowed, MethodNotAllowed), old(w.headers))
      ensures requestMethod == Post && decoded.None? ==> rows == old(rows) && w.Shows(Failure(StatusBadRequest, InvalidBody), old(w.headers))
      ensures requestMethod == Post && decoded.Some? && dbError ==>
        rows == old(rows) && w.Shows(Failure(StatusInternalServerError, SaveFailed), old(w.headers))
      ensures requestMethod == Post && decoded.Some? && !dbError ==>
        && rows == Upsert(old(rows), decoded.value, now)
        && w.status == StatusOK && w.body == [JsonChunk(Ack("saved"))] && w.headers == old(w.headers)
    {
      if requestMethod != Post {
        w.Error(MethodNotAllowed, StatusMethodNotAllowed);
        return;
      }
      if decoded.None? {
        w.Error(InvalidBody, StatusBadRequest);
        return;
      }
      var req := decoded.value;
      if dbError {
        w.Error(SaveFailed, StatusInternalServerError);
        return;
      }
      if req.id in rows {
        rows := rows[req.id := rows[req.id].(name := req.name, definition := req.definition, updatedAt := now)];
      } else {
        rows := rows[req.id := Row(req.name, req.definition, now, now)];
      }
      w.WriteHeader(StatusOK);
      w.Write(JsonChunk(Ack("saved")));
    }

    /** The row loop: one summary per queried row that scans, in query order. */
    method ScanRows(queried: seq<string>, scans: string -> bool) returns (workflows: seq<SavedWorkflow>)
      requires forall i :: 0 <= i < |queried| ==> queried[i] in rows
      ensures workflows == Summaries(rows, queried, scans)
    {
      workflows := [];
      var i := 0;
      while i < |queried|
        invariant 0 <= i <= |queried|
        invariant workflows == Summaries(rows, queried[..i], scans)
      {
        assert queried[..i + 1][..i] == queried[..i];
        var id := queried[i];
        if scans(id) {
          var row := rows[id];
          workflows := workflows + [SavedWorkflow(id, row.name, ZeroDefinition, row.createdAt, row.updatedAt)];
        }
        i := i + 1;
      }
      assert queried[..i] == queried;
    }

    /** ListWorkflows: the row loop over the query result, skipping rows that fail to scan. */
    method ListWorkflows(w: ResponseWriter<Payload>, requestMethod: string, queryError: bool,
                         queried: seq<string>, scans: string -> bool)
      requires ListedByRecency(rows, queried)
      requires w.status == 0 && w.body == []
      modifies w
      ensures requestMethod != Get ==> w.Shows(Failure(StatusMethodNotAllowed, MethodNotAllowed), old(w.headers))
      ensures requestMethod == Get && queryError ==> w.Shows(Failure(StatusInternalServerError, ListFailed), old(w.headers))
      ensures requestMethod == Get && !queryError ==>
        w.Shows(Success(Listing(Listed(Summaries(rows, queried, scans)))), old(w.headers))
    {
      if requestMethod != Get {
        w.Error(MethodNotAllowed, StatusMethodNotAllowed);
        return;
      }
      if queryError {
        w.Error(ListFailed, StatusInternalServerError);
        return;
      }
      assert forall i :: 0 <= i < |queried| ==> queried[i] in rows by {
        forall i | 0 <= i < |queried| ensures queried[i] in rows {
          assert queried[i] in queried;
        }
      }
      var workflows := ScanRows(queried, scans);
      w.SetHeader(ContentType, ApplicationJson);
      w.Write(JsonChunk(Listing(if |workflows| == 0 then None else Some(workflows))));
    }

    /** GetWorkflow: method check, id check, lookup. */
    method GetWorkflow(w: ResponseWriter<Payload>, requestMethod: string, id: string, dbError: bool)
      requires w.status == 0 && w.body == []
      modifies w
      ensures requestMethod != Get ==> w.Shows(Failure(StatusMethodNotAllowed, MethodNotAllowed), old(w.headers))
      ensures requestMethod == Get ==> w.Shows(GetReply(rows, id, dbError), old(w.headers))
    {
      if requestMethod != Get {
        w.Error(MethodNotAllowed, StatusMethodNotAllowed);
        return;
      }
      var reply := GetReply(rows, id, dbError);
      w.Send(reply);
    }
  }
}
