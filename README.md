# Workflow platform: the graph core, on both sides of the wire

This project models the sequential core of a visual LLM-workflow platform.

- **The React editor.** It builds a workflow graph and exports it as a workflow document. Exporting maps each node's editor type to an engine kind and projects nodes and edges. Before a run it resets every node's run state. After a failed run it attributes the failure to a node by matching the pattern `vertex (\w+) failed: (.+)`. After a successful run it merges the returned results into the nodes. It also creates, edits and deletes nodes, and its sidebar auto-loads the newest saved workflow once.
- **The Go bulk-synchronous (Pregel-style) engine.** It builds one vertex per node through a factory and sends a trigger message to every START node. It then runs supersteps: each vertex that has mail computes and sends messages for the next superstep. A run stops when no vertex has mail, when a vertex fails, or at the cap of 100 supersteps.
- **The vertices.** There are simulated LLM vertices, client-backed LLM vertices and a result vertex.
- **The two HTTP servers.** Each has a CORS wrapper, an execute endpoint with its status decisions, and its own vertex factory. The second server also has a stored-workflow API (upsert, list, get) and loads its configuration from the environment.

Each source component is one Dafny module:

- Pure code becomes functions and lemmas: the kind table, the attribution pattern, the node updaters, the configuration and the factories.
- Code that changes state step by step becomes classes and methods with loops, each proved equal to a specification function:
  - the editor state, the sidebar state and the engine loop;
  - the vertex contexts, the response writer and the stored-workflow handler.

What the model leaves open becomes a parameter:

- the visiting order of Go map iteration, `order`;
- what an LLM client answers, `generate`;
- clocks, `now` and `clock`;
- database failures, given as flags;
- JSON rendering, `render`.

The `Protocol` module proves what the two halves promise each other:

- the editor exports an output node as END, which neither server can build;
- no failure that the first server reports is ever attributed to a node by the editor, as long as node ids and types contain no space. The editor's own ids and kinds never contain one.

## Model

| member | source | states |
|---|---|---|
| FailureAttribution.WordEnd | frontend/src/components/WorkflowEditor.tsx:95 | the end of the maximal run of `\w` characters (ASCII letters, digits, `_`) from a position |
| FailureAttribution.LineEnd | frontend/src/components/WorkflowEditor.tsx:95 | the end of the maximal run of characters that `.` matches (no line terminator) |
| FailureAttribution.MatchAt | frontend/src/components/WorkflowEditor.tsx:95 | a match at a position spells `vertex <id> failed: <reason>` there, with a non-empty word id and a non-empty reason that runs to the end of the line |
| FailureAttribution.MatchAtComplete | frontend/src/components/WorkflowEditor.tsx:95 | wherever the text spells `vertex <id> failed: <reason>` with a word id and a one-line reason ending at the text's end or a line terminator, the match at that position has exactly that id and reason |
| FailureAttribution.FirstMatchIndex | frontend/src/components/WorkflowEditor.tsx:95 | the search position is the first at or after the start where the pattern matches, and every earlier position fails; past the text's end when no position matches |
| FailureAttribution.FirstMatchFrom | frontend/src/components/WorkflowEditor.tsx:95 | the result is the match at the leftmost position where one exists, and None only when no position matches |
| FailureAttribution.Attribute | frontend/src/components/WorkflowEditor.tsx:95-97 | `String.prototype.match` returns the leftmost match's two groups, or nothing when no position matches |
| FailureAttribution.AttributedIffSomeMatch | frontend/src/components/WorkflowEditor.tsx:95-96 | a text is attributed exactly when the pattern matches at some position |
| FailureAttribution.ShortTextNotAttributed | frontend/src/components/WorkflowEditor.tsx:95 | no text shorter than 18 characters is ever attributed |
| FailureAttribution.InternalErrorNotAttributed | frontend/src/components/WorkflowEditor.tsx:95 | "internal error" is not attributed |
| FailureAttribution.TimeoutExample | frontend/src/components/WorkflowEditor.tsx:94-97 | the documented format "vertex 7 failed: model timeout" gives id "7" and reason "model timeout" |
| FailureAttribution.LeftmostWinsExample | frontend/src/components/WorkflowEditor.tsx:95-97 | the leftmost occurrence wins, and the reason keeps later colons and later "vertex … failed:" phrases |
| FailureAttribution.ReasonStopsAtLineBreakExample | frontend/src/components/WorkflowEditor.tsx:95-97 | the reason stops at the first line break |
| FailureAttribution.AttributeFirstSpelling | frontend/src/components/WorkflowEditor.tsx:95-97 | a text that spells the pattern at a position and matches nowhere before it is attributed to that spelling's id and reason |
| FailureAttribution.SingleMatch | frontend/src/components/WorkflowEditor.tsx:95-97 | a text that spells `vertex <id> failed: <reason>` from its start, with a word id and a one-line reason followed by the end of the text or a line break, is attributed to exactly that id and reason |
| FailureAttribution.NoMarkerWithoutV | frontend/src/components/WorkflowEditor.tsx:95 | `vertex ` can only start at a 'v' |
| FailureAttribution.NoMarkerInSpaceFreeStretch | frontend/src/components/WorkflowEditor.tsx:95 | `vertex ` cannot start inside a space-free stretch that is followed by a character other than those of "ertex " |
| FailureAttribution.NoMatchWithoutMarker | frontend/src/components/WorkflowEditor.tsx:95 | no match starts where `vertex ` is not spelt |
| Decimal.ShowNat | frontend/src/components/WorkflowEditor.tsx:130 | the decimal text of a natural is a non-empty digit string without a leading zero |
| Decimal.Show | backend/engine/bsp.go:95 | the decimal text of an integer is digits, with a leading '-' exactly for negatives |
| Decimal.ShowNatValue | frontend/src/components/WorkflowEditor.tsx:130 | the decimal text reads back as the same number |
| Editor.KindOf | frontend/src/components/WorkflowEditor.tsx:55-59 | the kind table is total: LLM→LLM, RESULT→RESULT, input→START, output→END, anything else→TASK |
| Editor.KindOfCanonicalNames | frontend/src/components/WorkflowEditor.tsx:55-59 | LLM and RESULT are fixed points, but START and END map to TASK, so re-importing an export is not the identity |
| Editor.Export | frontend/src/components/WorkflowEditor.tsx:52-73 | the document keeps node and edge count and order; each node copies id, position and data unchanged and gets the kind of its type; each edge keeps only id, source and target |
| Editor.ClearRunState | frontend/src/components/WorkflowEditor.tsx:79-82 | every node keeps its id, type, position and order, and every other data field; `error` and `result` read as undefined |
| Editor.ClearRunStateIdempotent | frontend/src/components/WorkflowEditor.tsx:79-82 | resetting twice is resetting once |
| Editor.StaleRunStateIsExported | frontend/src/components/WorkflowEditor.tsx:65-82 | the exported data still carries an earlier run's `error` and `result`, which the editor shows cleared |
| Editor.MarkFailed | frontend/src/components/WorkflowEditor.tsx:98-103 | exactly the nodes with the attributed id get `error` set to the reason; all other nodes are unchanged |
| Editor.MergeResults | frontend/src/components/WorkflowEditor.tsx:113-121 | a node gets `result` set to the rendering of its entry exactly when the response maps its id to a truthy value; other nodes are unchanged |
| Editor.FailureMarksOnlyAttributedNodes | frontend/src/components/WorkflowEditor.tsx:79-104 | after the reset and a failed run, no node has a result; a node has an error exactly when its id is the attributed id, and then the error is the reason |
| Editor.SuccessSetsOnlyReturnedResults | frontend/src/components/WorkflowEditor.tsx:79-121 | after the reset and a successful run, no node has an error; a node has a result exactly when the response maps its id to a truthy value |
| Editor.NewNode | frontend/src/components/WorkflowEditor.tsx:130-136 | the new node's id is the decimal of the old length plus one, and its label is `<type> Node` |
| Editor.EditorState.constructor | frontend/src/components/WorkflowEditor.tsx:23-33 | the editor starts with the two initial nodes, the initial edge and no banners |
| Editor.EditorState.StartExport | frontend/src/components/WorkflowEditor.tsx:51-82 | the document is built from the node list before the reset, and then the node list is reset |
| Editor.EditorState.FinishExport | frontend/src/components/WorkflowEditor.tsx:90-126 | a failed response attributes the failure and sets `Server error (<status>):\n<text>`; a success merges the results and sets the success message; a rejection sets its message or the unknown-error text |
| Editor.EditorState.AddNode | frontend/src/components/WorkflowEditor.tsx:129-138 | exactly one node is appended at the end, and the existing nodes are unchanged |
| NodeEdits.SetField | frontend/src/components/nodes/LLMNode.tsx:11-17 | every node with the id gets the field set; other nodes, length and order are unchanged |
| NodeEdits.SetPromptSpec | frontend/src/components/nodes/LLMNode.tsx:9-18 | a prompt change sets `prompt` on every node with the id and keeps its other fields, its id, type and position; other nodes are unchanged |
| NodeEdits.SetModelSpec | frontend/src/components/nodes/LLMNode.tsx:20-28 | a model change sets `model` in the same way |
| NodeEdits.EditsCommute | frontend/src/components/nodes/LLMNode.tsx:11-27 | a prompt change and a model change on the same node commute |
| NodeEdits.RemoveNode | frontend/src/components/nodes/LLMNode.tsx:45 | deleting never lengthens the list |
| NodeEdits.RemoveNodeKeeps | frontend/src/components/nodes/ResultNode.tsx:20 | a node survives the delete exactly when it was present and has a different id |
| NodeEdits.Kept | frontend/src/components/nodes/ResultNode.tsx:20 | the surviving positions are strictly increasing and include every position whose id differs |
| NodeEdits.RemoveNodeIsSubsequence | frontend/src/components/nodes/LLMNode.tsx:45 | the result is the nodes at the surviving positions, in their original order |
| NodeEdits.RemoveNodeIdempotent | frontend/src/components/nodes/ResultNode.tsx:20 | deleting twice is deleting once |
| NodeEdits.RemoveNodeAbsent | frontend/src/components/nodes/ResultNode.tsx:20 | deleting an id no node carries leaves the list unchanged |
| NodeEdits.RemoveNodeSingle | frontend/src/components/nodes/ResultNode.tsx:20 | deleting an id that exactly one node carries removes exactly that node and keeps the others in order |
| NodeEdits.AddAfterDeleteCollides | frontend/src/components/WorkflowEditor.tsx:129-137 | in a list numbered 1..n as addNode numbers it, deleting any node but the last and then adding a node gives the new node the id of the last node, which is still in the list |
| NodeEdits.DeleteLeavesDanglingEdges | frontend/src/components/nodes/LLMNode.tsx:45 | the delete does not cascade (the updater never receives the edges, so every edge stays): no remaining node has the source id of an edge from the deleted node |
| NodeEdits.ShownModel | frontend/src/components/nodes/LLMNode.tsx:90 | the select shows `GPT-4` exactly when `data.model` is not truthy |
| NodeEdits.ResultBody | frontend/src/components/nodes/ResultNode.tsx:45-49 | the body shows the output exactly when `data.result` is truthy, and otherwise the placeholder |
| NodeEdits.ClearedNodeWaits | frontend/src/components/nodes/ResultNode.tsx:45-49 | a node whose run state was reset shows the placeholder, and its shown model is unchanged |
| Sidebar.FetchStep | frontend/src/components/Sidebar.tsx:24-40 | an ok response replaces the list with the body, or empty for null; a load is requested exactly when the flag is unset and the list is non-empty, and it is the first id; failures change nothing |
| Sidebar.AtMostOneAutoLoad | frontend/src/components/Sidebar.tsx:32-35 | across any series of refreshes at most one auto-load happens, and none once the flag is set |
| Sidebar.FlagIsMonotone | frontend/src/components/Sidebar.tsx:32-34 | once set, the flag stays set and no load is requested |
| Sidebar.LoadRequest | frontend/src/components/Sidebar.tsx:87-125 | `+ New` requests null, and an entry requests its own id |
| Sidebar.SidebarState.constructor | frontend/src/components/Sidebar.tsx:16-18 | the list starts empty and the flag unset |
| Sidebar.SidebarState.FetchWorkflows | frontend/src/components/Sidebar.tsx:24-40 | the new list, flag and requested load are those of FetchStep |
| EngineTypes.NodeTypesDistinct | backend/engine/types.go:10-16 | the five node-type constants are pairwise distinct |
| EngineTypes.Format | backend/nodes/nodes.go:23 | `%v` of a string is the string itself |
| EngineTypes.StatusName | backend/internal/engine/types.go:58-63 | every status is named PENDING, RUNNING, SUCCESS or FAILED |
| EngineTypes.StatusNamesDistinct | backend/internal/engine/types.go:58-63 | two statuses share a name only when they are equal |
| EngineTypes.ExecutionContext.constructor | backend/engine/types.go:65-71 | the context has the given workflow id and empty status and results maps |
| EngineTypes.NodeIds | backend/internal/engine/types.go:24-31 | an id is in the set exactly when some node has it |
| Bsp.Context.constructor | backend/engine/bsp.go:85-91 | a new context has the step, node id, workflow and execution it was given, and an empty outbox |
| Bsp.Context.SendMessage | backend/engine/bsp.go:17-23 | exactly one message from this node is appended, and earlier messages are kept |
| Bsp.AddressedTo | backend/engine/bsp.go:99-101 | the selected messages come from the list and are addressed to the id |
| Bsp.RouteGroupsByRecipient | backend/engine/bsp.go:99-101 | routing appends to each id's mail exactly the messages addressed to it, in order |
| Bsp.RouteRecipients | backend/engine/bsp.go:99-101 | routing creates a mailbox entry only for an id some message is addressed to |
| Bsp.RouteAppend | backend/engine/bsp.go:99-101 | routing two batches in turn equals routing their concatenation |
| Bsp.BuildVertices | backend/engine/bsp.go:40-48 | the build succeeds exactly when the factory accepts every node type, with one vertex per node id |
| Bsp.BuildVerticesError | backend/engine/bsp.go:40-48 | a failed build's error names the first node the factory rejects, with the factory's error |
| Bsp.BuildFailureSticks | backend/engine/bsp.go:42-46 | once a prefix of the nodes fails to build, the whole list fails with the same error |
| Bsp.InitialInboxMail | backend/engine/bsp.go:54-63 | exactly the START nodes have mail before superstep 0, and it is the trigger from `system` |
| Bsp.Superstep | backend/engine/bsp.go:69-102 | at most one computation per visited vertex |
| Bsp.SuperstepFailureShape | backend/engine/bsp.go:94-96 | a failed superstep's error is a StepError naming the step, a visited vertex and the error its Compute returned |
| Bsp.StepErrorIsNotMaxSteps | backend/engine/bsp.go:95-114 | a step error is never the step-cap error |
| Bsp.RunFrom | backend/engine/bsp.go:65-117 | the step counter never passes 100, and the run ends with the step-cap error exactly when the counter reaches 100 |
| Bsp.FactoryErrorIsNotMaxSteps | backend/engine/bsp.go:45-114 | a factory error is never the step-cap error |
| Bsp.Execute | backend/engine/bsp.go:37-118 | a whole run takes at most 100 supersteps and reports the cap error exactly when it hits the cap |
| Bsp.SuperstepFailureSticks | backend/engine/bsp.go:94-96 | once a superstep fails, the vertices later in its order do not compute |
| Bsp.BuildVertexTable | backend/engine/bsp.go:40-48 | the build loop returns BuildVertices |
| Bsp.SeedInbox | backend/engine/bsp.go:54-63 | the seeding loop returns InitialInbox |
| Bsp.RouteOutbox | backend/engine/bsp.go:99-101 | the routing loop returns Route |
| Bsp.RunSuperstep | backend/engine/bsp.go:69-102 | the compute loop returns Superstep's active count, next inbox and failure, and leaves its results |
| Bsp.StepOnce | backend/engine/bsp.go:68-111 | one turn of the superstep loop: it stops with the run's error and results on a failure or an idle superstep, and otherwise leaves the rest of the run equal to the run from the next step |
| Bsp.RunSupersteps | backend/engine/bsp.go:65-117 | the superstep loop returns RunFrom's error and leaves RunFrom's results |
| Bsp.ExecuteBSP | backend/engine/bsp.go:37-118 | the engine returns Execute's error and leaves Execute's results map; the workflow id and statuses are unchanged |
| BspLaws.FactoryFailureStopsBeforeSupersteps | backend/engine/bsp.go:41-48 | if the factory rejects any node, the run fails at step 0 with the results untouched, naming that node or an earlier one |
| BspLaws.Awake | backend/engine/bsp.go:81-83 | at most one awake vertex per id in the order |
| BspLaws.ActiveIsAwake | backend/engine/bsp.go:76-93 | a superstep that completes computes exactly the vertices that have mail |
| BspLaws.QuietVertexSkipped | backend/engine/bsp.go:81-83 | a vertex with an empty inbox is not computed: inserting it at any position of the order leaves the superstep unchanged |
| BspLaws.SilentSuperstep | backend/engine/bsp.go:81-107 | with no mail anywhere, a superstep computes nothing, sends nothing and keeps the results |
| BspLaws.NextInboxIsSentMail | backend/engine/bsp.go:70-109 | the next superstep's mail is exactly this superstep's sent messages, grouped by recipient |
| BspLaws.NextMailOfRecipient | backend/engine/bsp.go:99-109 | each id's next mail is the sent messages addressed to it, in sending order |
| BspLaws.SuperstepReadsOnlyVisitedMail | backend/engine/bsp.go:75-76 | a superstep depends only on the mail of the ids it visits |
| BspLaws.UndeliverableMailIgnored | backend/engine/bsp.go:75-100 | mail for ids without a vertex never changes a run |
| BspLaws.NoStartSucceedsAtOnce | backend/engine/bsp.go:54-107 | a workflow without START nodes succeeds at step 0 with the results untouched |
| BspLaws.RunErrorShape | backend/engine/bsp.go:68-115 | a run from any step fails only at the cap or with a StepError below the cap, naming a vertex and an error its Compute can return |
| BspLaws.ExecuteErrorShape | backend/engine/bsp.go:37-118 | every engine error is a factory error of some node, the step-cap error, or such a StepError |
| Vertices.ResultValues | backend/nodes/nodes.go:21-25 | at most one value per message |
| Vertices.InputTextShape | backend/nodes/nodes.go:20-25 | the input text is empty exactly when no message carries a `result`; otherwise it ends with a space |
| Vertices.CollectInput | backend/internal/engine/nodes/nodes.go:22-27 | the accumulating loop returns InputText |
| Vertices.Outgoing | backend/nodes/nodes.go:41-42 | an edge is outgoing exactly when it is in the list and its source is this node |
| Vertices.FanOutFollowsOutgoingEdges | backend/nodes/nodes.go:41-47 | one `{"result": r}` message from this node per outgoing edge, to its target, in edge order |
| Vertices.SendToChildren | backend/internal/engine/nodes/nodes.go:69-75 | the outbox gains exactly the fan-out |
| Vertices.ResultEffect | backend/nodes/nodes.go:55-65 | the result vertex sends nothing; it stores the content of the last message, or leaves the results unchanged with no mail |
| Vertices.ResultCompute | backend/internal/engine/nodes/nodes.go:83-93 | the loop leaves ResultEffect's results and returns no error |
| Vertices.ResultVertexTouchesOnlyItsEntry | backend/nodes/nodes.go:58-62 | every other node's entry is unchanged |
| SimulatedNodes.SimulatedReply | backend/nodes/nodes.go:29-32 | `LLM Response to '<input>'`, or `LLM Response to initial prompt` for an empty input |
| SimulatedNodes.LlmEffect | backend/nodes/nodes.go:13-50 | fails with `simulated LLM failure` exactly on the failure input, sending nothing; otherwise it fans the reply out; it never writes results |
| SimulatedNodes.LlmCompute | backend/nodes/nodes.go:13-50 | the loops give LlmEffect's error or outbox |
| SimulatedNodes.BareErrorNeverOccurs | backend/nodes/nodes.go:35 | the input text is never "error", so the second test in the condition is dead |
| SimulatedNodes.FailsIffSingleErrorResult | backend/nodes/nodes.go:20-35 | the input is "error " exactly when a single message carries a result and it renders as "error" |
| SimulatedNodes.LlmFailsIff | backend/nodes/nodes.go:35-37 | the simulated vertex fails on exactly that shape of mail |
| ClientNodes.PromptOfFirstMatch | backend/internal/engine/nodes/nodes.go:30-42 | the prompt is the string `prompt` of the first node with this id |
| ClientNodes.PromptOfAbsent | backend/internal/engine/nodes/nodes.go:30-42 | the prompt is "" when no node has this id |
| ClientNodes.FindPrompt | backend/internal/engine/nodes/nodes.go:30-42 | the search loop returns PromptOf |
| ClientNodes.FullInput | backend/internal/engine/nodes/nodes.go:45-52 | never empty: the prompt, `<prompt>\nContext: <input>` when there is input, or `Hello` |
| ClientNodes.LlmEffect | backend/internal/engine/nodes/nodes.go:17-78 | fails exactly when the client fails, with `LLM generation failed: ` and no other effect; otherwise it records the answer, the full input and the time, and fans out the answer |
| ClientNodes.LlmCompute | backend/internal/engine/nodes/nodes.go:17-78 | the method's outbox, results and error are LlmEffect's |
| ClientNodes.DebugPromptIsWhatWasAsked | backend/internal/engine/nodes/nodes.go:56-66 | the record holds exactly `result`, `debug_prompt` and `timestamp`; the prompt is what the client was asked and the result is its answer |
| Http.ResponseWriter.constructor | backend/main.go:19 | a new writer has no headers, no status and no body |
| Http.ResponseWriter.SetHeader | backend/main.go:21-23 | sets one header |
| Http.ResponseWriter.WriteHeader | backend/main.go:26 | only the first status write counts |
| Http.ResponseWriter.Write | backend/main.go:79 | appends to the body; a write without an earlier status implies 200 |
| Http.ResponseWriter.Error | backend/main.go:36 | `http.Error` sets plain-text and nosniff headers and the status, and writes the message plus a newline |
| Http.ResponseWriter.Send | backend/internal/api/handler.go:116-130 | writing a reply to a fresh writer shows exactly that reply |
| Http.ResponseWriter.EnableCors | backend/main.go:18-32 | the CORS headers are always set; OPTIONS gets an empty 200 and is not forwarded; every other method is forwarded |
| LegacyServer.Factory | backend/main.go:52-66 | LLM, START and TASK give the simulated LLM vertex and RESULT the result vertex; every other type, END included, gives `unknown node type: <t>` |
| LegacyServer.EndTypeRejected | backend/main.go:63-64 | END is rejected |
| LegacyServer.ComputeErrorsAreSimulated | backend/nodes/nodes.go:35-37 | a vertex of the first server only ever fails with `simulated LLM failure` |
| LegacyServer.ExecuteReply | backend/main.go:34-80 | 405 for non-POST, 400 for an undecodable body, 500 with `Workflow execution failed: <err>` for an engine error, otherwise the results |
| LegacyServer.HandleExecute | backend/main.go:34-80 | the handler's response shows ExecuteReply |
| LegacyServer.Serve | backend/main.go:13-32 | `/api/execute`: OPTIONS gets the CORS headers and an empty 200; everything else gets the CORS headers and ExecuteReply |
| LegacyServer.OutputNodeFails | backend/main.go:63-72 | a workflow with an END node always gets a 500 naming an unknown node type |
| WorkflowApi.Upsert | backend/internal/api/handler.go:49-62 | a new id is inserted with both timestamps at `now`; an existing id gets the new name and definition and `updated_at`, keeping `created_at`; no other row changes |
| WorkflowApi.ResaveTouchesOnlyUpdatedAt | backend/internal/api/handler.go:49-54 | saving the same request again changes only that row's `updated_at` |
| WorkflowApi.Summaries | backend/internal/api/handler.go:86-93 | each entry is the definition-free summary of a row that scans, in query order |
| WorkflowApi.SummariesByRecency | backend/internal/api/handler.go:79-93 | the entries are ordered by `updated_at`, newest first |
| WorkflowApi.SummariesComplete | backend/internal/api/handler.go:87-92 | a queried row is listed exactly when it scans |
| WorkflowApi.ListIsMostRecentFirst | backend/internal/api/handler.go:79-96 | the list is newest first, and it holds every row that scans and no other |
| WorkflowApi.EmptyTableListsNull | backend/internal/api/handler.go:86-96 | an empty table encodes as null |
| WorkflowApi.GetReply | backend/internal/api/handler.go:105-130 | 400 for an empty id, 500 for a query failure, 404 for an unknown id, otherwise the full record including its definition |
| WorkflowApi.SaveThenGet | backend/internal/api/handler.go:49-130 | what was saved is what a get returns, with the save time as `updated_at` |
| WorkflowApi.WorkflowHandler.constructor | backend/internal/api/handler.go:17-19 | the handler holds the given table |
| WorkflowApi.WorkflowHandler.SaveWorkflow | backend/internal/api/handler.go:29-71 | 405, 400 and 500 leave the table unchanged; success upserts and answers 200 with `{"status":"saved"}` |
| WorkflowApi.WorkflowHandler.ListWorkflows | backend/internal/api/handler.go:73-97 | 405 for non-GET, 500 when the query fails, otherwise the row loop's summaries, or null |
| WorkflowApi.WorkflowHandler.ScanRows | backend/internal/api/handler.go:87-94 | the row loop collects exactly Summaries: one entry per row that scans, in query order |
| WorkflowApi.WorkflowHandler.GetWorkflow | backend/internal/api/handler.go:99-131 | 405 for non-GET, otherwise GetReply |
| Config.Atoi | backend/internal/config/config.go:98 | a parsed value lies in int64 range, and the text starts with a digit or a sign |
| Config.AtoiShowRoundTrip | backend/internal/config/config.go:98 | every int64 written in decimal parses back to itself |
| Config.AtoiRejects | backend/internal/config/config.go:98 | the empty text, a bare sign and any text with a non-digit after the first character are rejected |
| Config.GetEnv | backend/internal/config/config.go:89-94 | the variable's value whenever it is set, even an empty one, else the fallback |
| Config.GetEnvInt | backend/internal/config/config.go:96-103 | the parsed value when the variable is set and parses, else the fallback |
| Config.LoadDefaults | backend/internal/config/config.go:53-87 | with nothing set, every field has its default: port 8080, pools 100/10, DB 50/25, workers 10, retries 3, openai, gpt-4, 4000 tokens |
| Config.FixedTimeouts | backend/internal/config/config.go:57-78 | the read and write timeouts (30 s) and the job timeout (5 min) do not depend on the environment |
| Config.SetButEmptyOrInvalid | backend/internal/config/config.go:56-103 | an empty SERVER_PORT is used as is, and an unparsable pool size falls back to 100 |
| Config.WorkerCountFromEnv | backend/internal/config/config.go:76-100 | any int64 written into WORKER_POOL_SIZE becomes the worker count |
| Server.StartupClient | backend/cmd/server/main.go:39 | the startup client uses the configured key and model |
| Server.ClientFor | backend/cmd/server/main.go:95-99 | a non-empty `openai_api_key` gives a client with that key and gpt-4; otherwise the startup client is used |
| Server.RequestKeyIgnoresConfiguredModel | backend/cmd/server/main.go:39-99 | a request that brings its own key runs on gpt-4 whatever LLM_MODEL says |
| Server.DefaultClient | backend/cmd/server/main.go:19-99 | without a request key, an unconfigured server uses an empty key and gpt-4 |
| Server.Factory | backend/cmd/server/main.go:102-115 | LLM, START and TASK give an LLM vertex on this request's client and RESULT the result vertex; END and every other type give `unknown node type: <t>` |
| Server.ComputeErrorsAreGenerationFailures | backend/internal/engine/nodes/nodes.go:56-59 | a vertex of the second server fails only by wrapping a client error |
| Server.ExecuteReply | backend/cmd/server/main.go:76-128 | 405 for non-POST, 400 for an undecodable body, 500 with `Workflow execution failed: <err>`, otherwise the results |
| Server.HandleExecute | backend/cmd/server/main.go:76-128 | the handler's response shows ExecuteReply |
| Server.ServeExecute | backend/cmd/server/main.go:41-74 | `/api/execute`: OPTIONS gets the CORS headers and an empty 200; everything else gets the CORS headers and ExecuteReply |
| Server.OutputNodeFails | backend/cmd/server/main.go:112-121 | a workflow with an END node always gets a 500 naming an unknown node type |
| Server.ExecuteFailureShape | backend/cmd/server/main.go:118-121 | every 500 names an unknown node type, the step cap, or a client error at some superstep and node |
| Server.RouteWorkflows | backend/cmd/server/main.go:43-53 | POST goes to save, GET with an id to get, GET without one to list, anything else to 405 |
| Server.RoutedGetHasId | backend/cmd/server/main.go:46-47 | a routed get never hits GetWorkflow's missing-id error |
| Server.ServeWorkflows | backend/cmd/server/main.go:42-54 | `/api/workflows` with CORS: OPTIONS gets an empty 200; otherwise each route's handler response, with the table changed only by a successful save |
| Protocol.OutputKindRejectedByBothServers | frontend/src/components/WorkflowEditor.tsx:59 | the editor exports `output` as END, and both factories reject END |
| Protocol.FactoryFailureNotAttributed | backend/engine/bsp.go:45 | a factory failure with space-free node id and type is never attributed |
| Protocol.StepFailureNotAttributed | backend/engine/bsp.go:95 | a simulated step failure with a space-free node id is never attributed |
| Protocol.MaxStepsFailureNotAttributed | backend/engine/bsp.go:114 | the step-cap failure is never attributed |
| Protocol.EditorNamesAreSpaceFree | frontend/src/components/WorkflowEditor.tsx:55-130 | the ids `addNode` generates and the kinds the editor exports contain no space |
| Protocol.LegacyFailuresNeverAttributed | backend/main.go:69-72 | with space-free node ids and types, every failure of the first server, as the editor receives it, is not attributed, and no node is marked failed |

## Left out

- JSON encoding and decoding are not modelled:
  - a request that does not decode is the `None` case;
  - `JSON.stringify` is the parameter `render`;
  - a stored definition is taken to decode back to what was saved.
- As a result, two error paths of the stored-workflow API are not modelled:
  - "Failed to marshal definition", which cannot occur for a workflow value;
  - "Failed to unmarshal definition".
- The following are not modelled: HTTP transport, `fetch`, logging, React rendering, styles, the success-toast timer, and React Flow's `onConnect`/`addEdge`.
- The Go map iteration order of a superstep is the parameter `order`. No property depends on it beyond every vertex being visited once.
- Bsp.Superstep: skips an id of `order` that has no vertex. Go's loop ranges over the vertex map itself, so it never meets such an id, and an order that lists every vertex once lists none either.
- Clocks are parameters: `Date.now`, `time.Now` and SQL `NOW()`.
- The random positions of new nodes are a parameter.
- Floating-point positions are plain reals; no arithmetic is done on them.
- JavaScript truthiness ignores NaN.
- A successful execute response is taken to decode to an object keyed by node id.
- `time.Sleep` in the simulated vertex is not modelled.
- The unused mutex of the execution context is not modelled.
- backend/internal/engine/engine.go is not part of this model. It runs nodes as goroutines, and no handler calls it.
- The second server imports an engine package whose bsp.go is not among the source files. It is modelled by the same `Bsp` module as backend/engine/bsp.go.
- backend/internal/llm/client.go is not part of this model. A client is the function `generate` from client and prompt to an answer or an error.
- Database and Redis connection setup, and the server's start-up and listen, are not modelled.
- SettingsModal, JsonViewModal and App are not part of this model. The stored API keys are never merged into the execute request.
- The frontend type declarations are used as datatype shapes only.
- Editor.EditorState.AddNode: computes the id from the node list it appends to. The source reads the list captured when the component rendered, so two additions within one render can produce the same id.
- Sidebar.SidebarState.FetchWorkflows: reads the current flag. The source reads the flag captured when the effect ran.
- Editor.EditorState.FinishExport: applies to the node list as it is when the response arrives. Edits made while the request is in flight are part of that list.
- WorkflowApi.Upsert: on insert, `created_at` is taken to be the same `NOW()`. The table schema, and with it the column default, is not among the source files.
- WorkflowApi.WorkflowHandler.GetWorkflow: any query error other than a missing row is the flag `dbError`.
- WorkflowApi.WorkflowHandler.ListWorkflows: the query's rows, already in `updated_at` order, are the parameter `queried`, and which rows fail to scan is `scans`.
- Server.ServeWorkflows: the CORS headers are set before dispatch, as in the source. The handlers' inputs (decoded body, clock, database flags, query result) are parameters of the dispatch.
- Config.Atoi: models `strconv.Atoi` on a 64-bit platform only. The text of its error is not modelled.
- Protocol.LegacyFailuresNeverAttributed: covers the first server only. The second server's failures include the client's own error text, which can contain anything.
