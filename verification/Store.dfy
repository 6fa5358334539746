/** The SQLite store (runtime/sqlite/store.go): its tables, and each operation
    as the transaction it commits. A transaction is a function from the tables
    before to the tables after; an error leaves the tables as they were.
    Constraints of the schema (primary keys, unique indexes, foreign keys,
    checks) are errors of the INSERT and UPDATE functions. */
module Store {
  import opened Wrappers
  import opened Events

  /** What newID returns: never the empty string. */
  type NewId = i: Id | i != NoId witness 1

  datatype StoreError =
    | NotFound
    | NoRows
    | UniqueViolation
    | ForeignKeyViolation
    | CheckViolation
    | Invalid(reason: string)
    | WorkspaceBusy

  datatype Conversation = Conversation(agent: string, workspace: Id, lock: string, next: nat)

  /** `messageId` is not kept apart: it always equals the row's id. */
  datatype Submission = Submission(
    conv: Id, key: string, revision: string, status: RunStatus, error: string, acceptedAt: Time)

  /** `inbound` is both inbound_message_id and submission_id. */
  datatype RunRow = RunRow(
    conv: Id, inbound: Id, revision: string, status: RunStatus, error: string,
    startedAt: Time, completedAt: Option<Time>)

  datatype ToolRow = ToolRow(
    call: string, conv: Id, run: Id, inbound: Id, kind: string, status: ToolStatus, updatedAt: Time)

  /** The three index tables. The tool_calls rows of one run are kept in rowid
      order, the only order in which the store reads them. */
  datatype Tables = Tables(
    submissions: map<Id, Submission>,
    runs: map<Id, RunRow>,
    tools: map<Id, seq<ToolRow>>)

  /** The events of one conversation are kept in insertion order; the invariant
      shows that this is cursor order. */
  datatype Db = Db(
    conversations: map<Id, Conversation>,
    rows: Tables,
    log: map<Id, seq<Event>>,
    reservations: set<Id>)

  const EmptyTables := Tables(map[], map[], map[])
  const EmptyDb := Db(map[], EmptyTables, map[], {})

  function ToolsOf(t: Tables, run: Id): seq<ToolRow> {
    if run in t.tools then t.tools[run] else []
  }

  function LogOf(db: Db, conv: Id): seq<Event> {
    if conv in db.log then db.log[conv] else []
  }

  // ---------------------------------------------------------------- rows

  predicate KeyTaken(t: Tables, conv: Id, key: string) {
    exists s | s in t.submissions :: t.submissions[s].conv == conv && t.submissions[s].key == key
  }

  predicate RunningIn(t: Tables, conv: Id) {
    exists s | s in t.submissions :: t.submissions[s].conv == conv && t.submissions[s].status == Running
  }

  function InsertSubmission(t: Tables, convs: set<Id>, id: Id, row: Submission): Result<Tables, StoreError> {
    if id in t.submissions || KeyTaken(t, row.conv, row.key) then Err(UniqueViolation)
    else if row.conv !in convs then Err(ForeignKeyViolation)
    else if row.revision == "" then Err(CheckViolation)
    else Ok(t.(submissions := t.submissions[id := row]))
  }

  function InsertRun(t: Tables, convs: set<Id>, id: Id, row: RunRow): Result<Tables, StoreError> {
    if id in t.runs then Err(UniqueViolation)
    else if row.conv !in convs || row.inbound !in t.submissions then Err(ForeignKeyViolation)
    else if row.revision == "" then Err(CheckViolation)
    else Ok(t.(runs := t.runs[id := row]))
  }

  function InsertTool(t: Tables, convs: set<Id>, row: ToolRow): Result<Tables, StoreError> {
    if (exists prior | prior in ToolsOf(t, row.run) :: prior.call == row.call) then Err(UniqueViolation)
    else if row.conv !in convs || row.run !in t.runs then Err(ForeignKeyViolation)
    else Ok(t.(tools := t.tools[row.run := ToolsOf(t, row.run) + [row]]))
  }

  /** Marks a queued submission running, under the partial unique index
      submissions_one_running_per_conversation. */
  function StartSubmission(t: Tables, id: Id): Result<Tables, StoreError>
    requires id in t.submissions
  {
    if RunningIn(t, t.submissions[id].conv) then Err(UniqueViolation)
    else Ok(t.(submissions := t.submissions[id := t.submissions[id].(status := Running)]))
  }

  /** UPDATE submissions SET status, error WHERE id: no row is no error. */
  function SetSubmission(t: Tables, id: Id, status: RunStatus, error: string): Tables {
    if id !in t.submissions then t
    else t.(submissions := t.submissions[id := t.submissions[id].(status := status, error := error)])
  }

  /** UPDATE runs SET status, error, completed_at WHERE id. */
  function SetRun(t: Tables, id: Id, status: RunStatus, error: string, at: Time): Tables {
    if id !in t.runs then t
    else t.(runs := t.runs[id := t.runs[id].(status := status, error := error, completedAt := Some(at))])
  }

  /** The index of the requested row of `call`, or |tools|. */
  function RequestedIndex(tools: seq<ToolRow>, call: string): (i: nat)
    ensures i <= |tools|
    ensures i < |tools| ==> tools[i].call == call && tools[i].status == Requested
    ensures i == |tools| ==> forall k | 0 <= k < |tools| :: !(tools[k].call == call && tools[k].status == Requested)
  {
    if tools == [] then 0
    else if tools[0].call == call && tools[0].status == Requested then 0
    else 1 + RequestedIndex(tools[1..], call)
  }

  function SetTool(t: Tables, run: Id, i: nat, status: ToolStatus, now: Time): Tables
    requires i < |ToolsOf(t, run)|
  {
    var tools := ToolsOf(t, run);
    t.(tools := t.tools[run := tools[i := tools[i].(status := status, updatedAt := now)]])
  }

  // -------------------------------------------------------------- events

  predicate Clash(log: seq<Event>, e: Event) {
    exists prior | prior in log :: prior.cursor == e.cursor || (MessageId(e) != NoId && MessageId(prior) == MessageId(e))
  }

  /** appendEventTx: assigns the next cursor of the conversation. */
  function AppendEvent(db: Db, e: Event): Result<(Db, Event), StoreError> {
    if e.conv !in db.conversations then Err(NoRows)
    else
      var conversation := db.conversations[e.conv];
      var stored := e.(cursor := conversation.next);
      if Clash(LogOf(db, e.conv), stored) then Err(UniqueViolation)
      else
        Ok((db.(log := db.log[e.conv := LogOf(db, e.conv) + [stored]],
                conversations := db.conversations[e.conv := conversation.(next := conversation.next + 1)]),
            stored))
  }

  /** The event row whose message_id is `id`. */
  function FindMessage(log: seq<Event>, id: Id): Option<Event> {
    if log == [] then None
    else if MessageId(log[0]) == id then Some(log[0])
    else FindMessage(log[1..], id)
  }

  // ---------------------------------------------------------- operations

  /** CreateConversation. The primary key of conversations is its only check
      that involves other rows. */
  function CreateConversation(db: Db, id: Id, agent: string, workspace: Id, lock: string): Result<Db, StoreError> {
    if id in db.conversations then Err(UniqueViolation)
    else if agent == "" || workspace == NoId then Err(CheckViolation)
    else Ok(db.(conversations := db.conversations[id := Conversation(agent, workspace, lock, 1)]))
  }

  datatype Acceptance = Duplicate(existing: Id) | Fresh(id: Id, event: Event)

  ghost function Existing(t: Tables, conv: Id, key: string): Id
    requires KeyTaken(t, conv, key)
  {
    var s :| s in t.submissions && t.submissions[s].conv == conv && t.submissions[s].key == key;
    s
  }

  function InsertAccepted(db: Db, conv: Id, input: InputSubmission, id: NewId, now: Time): Result<(Db, Event), StoreError> {
    if conv !in db.conversations then Err(NotFound)
    else if input.target != db.conversations[conv].agent || input.revision == "" then
      Err(Invalid("input target or agent revision does not match conversation"))
    else
      var rows :- InsertSubmission(db.rows, db.conversations.Keys, id,
                                   Submission(conv, input.key, input.revision, Queued, "", now));
      AppendEvent(db.(rows := rows), Event(0, conv, NoId, id, now, InputAccepted(input)))
  }

  /** Accept: a repeated idempotency key returns the first submission and
      changes nothing. */
  ghost function Accept(db: Db, conv: Id, input: InputSubmission, id: NewId, now: Time): Result<(Db, Acceptance), StoreError> {
    if !ValidInput(input) then Err(Invalid("input"))
    else if KeyTaken(db.rows, conv, input.key) then Ok((db, Duplicate(Existing(db.rows, conv, input.key))))
    else
      var (db', event) :- InsertAccepted(db, conv, input, id, now);
      Ok((db', Fresh(id, event)))
  }

  /** The WHERE clause of ClaimRunnable. */
  predicate Eligible(db: Db, id: Id) {
    && id in db.rows.submissions
    && var queued := db.rows.submissions[id];
    && queued.status == Queued
    && queued.conv in db.conversations
    && !RunningIn(db.rows, queued.conv)
    && !LockHeld(db, db.conversations[queued.conv].lock)
    && db.conversations[queued.conv].workspace !in db.reservations
  }

  predicate LockHeld(db: Db, lock: string) {
    exists s | s in db.rows.submissions ::
      && db.rows.submissions[s].status == Running
      && db.rows.submissions[s].conv in db.conversations
      && db.conversations[db.rows.submissions[s].conv].lock == lock
  }

  /** ORDER BY accepted_at, id. */
  predicate Before(t: Tables, a: Id, b: Id)
    requires a in t.submissions && b in t.submissions
  {
    || t.submissions[a].acceptedAt < t.submissions[b].acceptedAt
    || (t.submissions[a].acceptedAt == t.submissions[b].acceptedAt && a <= b)
  }

  predicate IsNext(db: Db, id: Id) {
    && Eligible(db, id)
    && forall other | other in db.rows.submissions && Eligible(db, other) :: Before(db.rows, id, other)
  }

  datatype Claimed = Claimed(run: Run, parts: seq<TextPart>, events: seq<Event>)

  function LoadInput(db: Db, conv: Id, id: Id): Result<seq<TextPart>, StoreError> {
    match FindMessage(LogOf(db, conv), id)
    case None => Err(NoRows)
    case Some(e) =>
      if e.body.InputAccepted? && e.inbound == id then Ok(e.body.input.parts)
      else Err(Invalid("accepted input is missing"))
  }

  /** Claims one eligible submission. */
  function ClaimOne(db: Db, id: Id, runId: NewId, now: Time): Result<(Db, Claimed), StoreError>
    requires id in db.rows.submissions
  {
    var queued := db.rows.submissions[id];
    var parts :- LoadInput(db, queued.conv, id);
    var run := Run(runId, queued.conv, id, queued.revision, Running, "", now, None);
    var started :- StartSubmission(db.rows, id);
    var rows :- InsertRun(started, db.conversations.Keys, runId,
                          RunRow(queued.conv, id, queued.revision, Running, "", now, None));
    var (db1, admitted) :- AppendEvent(db.(rows := rows), Event(0, queued.conv, runId, id, now, InputAdmitted));
    var (db2, begun) :- AppendEvent(db1, Event(0, queued.conv, runId, id, now, RunStarted(run)));
    Ok((db2, Claimed(run, parts, [admitted, begun])))
  }

  /** ClaimRunnable: nothing eligible is no error. */
  ghost function Claim(db: Db, runId: NewId, now: Time): Result<(Db, Option<Claimed>), StoreError> {
    if id :| IsNext(db, id) then
      var (db', claim) :- ClaimOne(db, id, runId, now);
      Ok((db', Some(claim)))
    else
      Ok((db, None))
  }

  /** The part checks of CommitAssistantTurn; absent arguments become {}. */
  function NormalizePart(part: Part): Result<Part, StoreError> {
    match part
    case Text(text) => if text == "" then Err(Invalid("empty text")) else Ok(part)
    case ToolCall(call, kind, arguments) =>
      if call == "" || kind == "" then Err(Invalid("incomplete tool call"))
      else if arguments.NotAnObject? then Err(Invalid("arguments"))
      else if arguments.Missing? then Ok(ToolCall(call, kind, Object("{}")))
      else Ok(part)
    case _ => Err(Invalid("unsupported part"))
  }

  function NormalizeParts(parts: seq<Part>): Result<seq<Part>, StoreError> {
    if parts == [] then Ok([])
    else
      var first :- NormalizePart(parts[0]);
      var rest :- NormalizeParts(parts[1..]);
      Ok([first] + rest)
  }

  function ToolParts(parts: seq<Part>): seq<Part> {
    if parts == [] then []
    else if parts[0].ToolCall? then [parts[0]] + ToolParts(parts[1..])
    else ToolParts(parts[1..])
  }

  /** Inserts one requested row per tool call, in order. */
  function InsertTools(t: Tables, convs: set<Id>, conv: Id, run: Id, inbound: Id, parts: seq<Part>, now: Time): Result<Tables, StoreError>
    decreases parts
  {
    if parts == [] then Ok(t)
    else if !parts[0].ToolCall? then InsertTools(t, convs, conv, run, inbound, parts[1..], now)
    else
      var t' :- InsertTool(t, convs, ToolRow(parts[0].call, conv, run, inbound, parts[0].kind, Requested, now));
      InsertTools(t', convs, conv, run, inbound, parts[1..], now)
  }

  function CommitTurn(db: Db, run: Run, parts: seq<Part>, outputId: NewId, now: Time): Result<(Db, Event), StoreError> {
    var normalized :- NormalizeParts(parts);
    if ToolParts(normalized) == [] then Err(Invalid("no tool calls"))
    else
      var (db1, event) :- AppendEvent(db, Event(0, run.conv, run.id, run.inbound, now,
                                                AssistantCommitted(AssistantOutput(outputId, normalized, false))));
      var rows :- InsertTools(db1.rows, db1.conversations.Keys, run.conv, run.id, run.inbound, normalized, now);
      Ok((db1.(rows := rows), event))
  }

  /** toolFinishedTx. */
  function FinishTool(db: Db, run: Run, result: ToolResult, status: ToolStatus, outcomeId: NewId, now: Time): Result<(Db, Event), StoreError> {
    var tools := ToolsOf(db.rows, run.id);
    var i := RequestedIndex(tools, result.call);
    if i == |tools| then Err(NoRows)
    else
      var rows := SetTool(db.rows, run.id, i, status, now);
      AppendEvent(db.(rows := rows),
                  Event(0, run.conv, run.id, run.inbound, now,
                        ToolOutcomeRecorded(ToolOutcome(outcomeId, result.call, tools[i].kind, status, result))))
  }

  function ToolCompleted(db: Db, run: Run, result: ToolResult, outcomeId: NewId, now: Time): Result<(Db, Event), StoreError> {
    FinishTool(db, run, result, if result.ok then Succeeded else Faulted, outcomeId, now)
  }

  function ToolDenied(db: Db, run: Run, result: ToolResult, outcomeId: NewId, now: Time): Result<(Db, Event), StoreError> {
    if result.ok then Err(Invalid("denied tool result cannot be successful"))
    else FinishTool(db, run, result, Denied, outcomeId, now)
  }

  /** FinishRun. It does not look at the current status, and it keeps the
      error columns. */
  function FinishRun(db: Db, run: Run, answer: string, outputId: NewId, now: Time): Result<(Db, seq<Event>), StoreError> {
    var submitted :=
      if run.inbound in db.rows.submissions
      then SetSubmission(db.rows, run.inbound, Completed, db.rows.submissions[run.inbound].error)
      else db.rows;
    var rows :=
      if run.id in submitted.runs
      then SetRun(submitted, run.id, Completed, submitted.runs[run.id].error, now)
      else submitted;
    var (db1, output) :- AppendEvent(db.(rows := rows),
                                     Event(0, run.conv, run.id, run.inbound, now,
                                           AssistantCommitted(AssistantOutput(outputId, [Text(answer)], true))));
    var (db2, ended) :- AppendEvent(db1, Event(0, run.conv, run.id, run.inbound, now,
                                               RunCompleted(run.(status := Completed, completedAt := Some(now)))));
    Ok((db2, [output, ended]))
  }

  /** The calls interruptRequestedToolsTx reads: requested rows in rowid order. */
  function RequestedCalls(tools: seq<ToolRow>): seq<ToolRow> {
    if tools == [] then []
    else (if tools[0].status == Requested then [tools[0]] else []) + RequestedCalls(tools[1..])
  }

  function InterruptedResult(row: ToolRow): ToolResult {
    ToolResult(row.call, row.kind, false, "", "execution was interrupted; outcome unknown")
  }

  /** Resolves the listed calls in order; `ids` supplies the outcome ids, from the
      k-th on. */
  function Interrupt(db: Db, run: Run, calls: seq<ToolRow>, ids: nat -> NewId, k: nat, now: Time): Result<(Db, seq<Event>), StoreError>
    decreases calls
  {
    if calls == [] then Ok((db, []))
    else
      var (db1, event) :- FinishTool(db, run, InterruptedResult(calls[0]), Interrupted, ids(k), now);
      var (db2, events) :- Interrupt(db1, run, calls[1..], ids, k + 1, now);
      Ok((db2, [event] + events))
  }

  datatype Ending = RunFailure(message: string) | RunStop

  function EndStatus(ending: Ending): RunStatus {
    if ending.RunFailure? then Failed else Stopped
  }

  function EndMessage(ending: Ending): string {
    if ending.RunFailure? then ending.message else "stopped by request"
  }

  function EndBody(ending: Ending, run: Run): Body {
    if ending.RunFailure? then RunFailed(run) else RunStopped(run)
  }

  /** endRun, the common body of FailRun and StopRun. */
  function EndRun(db: Db, run: Run, ending: Ending, ids: nat -> NewId, now: Time): Result<(Db, seq<Event>), StoreError> {
    var (db1, events) :- Interrupt(db, run, RequestedCalls(ToolsOf(db.rows, run.id)), ids, 0, now);
    var submitted := SetSubmission(db1.rows, run.inbound, EndStatus(ending), EndMessage(ending));
    var rows := SetRun(submitted, run.id, EndStatus(ending), EndMessage(ending), now);
    var ended := run.(status := EndStatus(ending), error := EndMessage(ending), completedAt := Some(now));
    var (db2, event) :- AppendEvent(db1.(rows := rows),
                                    Event(0, run.conv, run.id, run.inbound, now, EndBody(ending, ended)));
    Ok((db2, events + [event]))
  }

  predicate RunIsRunning(db: Db, run: Run) {
    run.id in db.rows.runs && db.rows.runs[run.id].conv == run.conv && db.rows.runs[run.id].status == Running
  }

  /** AppendEnvironmentProgress. */
  function AppendProgress(db: Db, run: Run, step: string, message: string, now: Time): Result<(Db, Event), StoreError> {
    if run.id == NoId || run.conv == NoId || step == "" || message == "" then Err(Invalid("incomplete progress"))
    else if !RunIsRunning(db, run) then Err(Invalid("environment progress requires a running run"))
    else AppendEvent(db, Event(0, run.conv, run.id, run.inbound, now, EnvironmentProgress(step, message)))
  }

  /** AppendAgentEvent, for an entry that passed validAgentEvent. */
  function AppendAgent(db: Db, run: Run, name: string, now: Time): Result<(Db, Event), StoreError> {
    if run.id == NoId || run.conv == NoId then Err(Invalid("invalid agent event"))
    else if !RunIsRunning(db, run) then Err(Invalid("agent step for non-running run"))
    else AppendEvent(db, Event(0, run.conv, run.id, run.inbound, now, AgentFact(name)))
  }

  predicate WorkspaceRunning(db: Db, workspace: Id) {
    exists s | s in db.rows.submissions ::
      && db.rows.submissions[s].status == Running
      && db.rows.submissions[s].conv in db.conversations
      && db.conversations[db.rows.submissions[s].conv].workspace == workspace
  }

  function Reserve(db: Db, workspace: Id): Result<Db, StoreError> {
    if WorkspaceRunning(db, workspace) || workspace in db.reservations then Err(WorkspaceBusy)
    else if workspace == NoId then Err(CheckViolation)
    else Ok(db.(reservations := db.reservations + {workspace}))
  }

  function Release(db: Db, workspace: Id): Db {
    db.(reservations := db.reservations - {workspace})
  }

  // ------------------------------------------------------------ protocol

  function ClaimedValue(id: Id, row: RunRow): Run {
    Run(id, row.conv, row.inbound, row.revision, Running, "", row.startedAt, None)
  }

  /** `run` is the value a claim returned: its identity columns are those of
      its row, and it still says running. */
  predicate FromClaim(db: Db, run: Run) {
    && run.id in db.rows.runs
    && run == ClaimedValue(run.id, db.rows.runs[run.id])
  }

  datatype Op =
    | OpCreate(id: Id, agent: string, workspace: Id, lock: string)
    | OpAccept(conv: Id, input: InputSubmission, newId: NewId, now: Time)
    | OpClaim(runId: NewId, now: Time)
    | OpCommit(run: Run, parts: seq<Part>, newId: NewId, now: Time)
    | OpCompleteTool(run: Run, result: ToolResult, newId: NewId, now: Time)
    | OpDenyTool(run: Run, result: ToolResult, newId: NewId, now: Time)
    | OpFinish(run: Run, answer: string, newId: NewId, now: Time)
    | OpEnd(run: Run, ending: Ending, ids: nat -> NewId, now: Time)
    | OpProgress(run: Run, step: string, message: string, now: Time)
    | OpAgent(run: Run, name: string, now: Time)
    | OpReserve(workspace: Id)
    | OpRelease(workspace: Id)

  /** The tables an operation commits. */
  ghost function Apply(db: Db, op: Op): Result<Db, StoreError> {
    match op
    case OpCreate(id, agent, workspace, lock) => CreateConversation(db, id, agent, workspace, lock)
    case OpAccept(conv, input, id, now) => var (db', _) :- Accept(db, conv, input, id, now); Ok(db')
    case OpClaim(runId, now) => var (db', _) :- Claim(db, runId, now); Ok(db')
    case OpCommit(run, parts, id, now) => var (db', _) :- CommitTurn(db, run, parts, id, now); Ok(db')
    case OpCompleteTool(run, result, id, now) => var (db', _) :- ToolCompleted(db, run, result, id, now); Ok(db')
    case OpDenyTool(run, result, id, now) => var (db', _) :- ToolDenied(db, run, result, id, now); Ok(db')
    case OpFinish(run, answer, id, now) => var (db', _) :- FinishRun(db, run, answer, id, now); Ok(db')
    case OpEnd(run, ending, ids, now) => var (db', _) :- EndRun(db, run, ending, ids, now); Ok(db')
    case OpProgress(run, step, message, now) => var (db', _) :- AppendProgress(db, run, step, message, now); Ok(db')
    case OpAgent(run, name, now) => var (db', _) :- AppendAgent(db, run, name, now); Ok(db')
    case OpReserve(workspace) => Reserve(db, workspace)
    case OpRelease(workspace) => Ok(Release(db, workspace))
  }

  /** What the manager promises the store: run operations carry a claimed run,
      and turns and endings are only recorded while that run is running. */
  predicate Protocol(db: Db, op: Op) {
    match op
    case OpCommit(run, _, _, _) => FromClaim(db, run) && db.rows.runs[run.id].status == Running
    case OpCompleteTool(run, _, _, _) => FromClaim(db, run)
    case OpDenyTool(run, _, _, _) => FromClaim(db, run)
    case OpFinish(run, _, _, _) => FromClaim(db, run) && db.rows.runs[run.id].status == Running
    case OpEnd(run, _, _, _) => FromClaim(db, run) && db.rows.runs[run.id].status == Running
    case OpProgress(run, _, _, _) => FromClaim(db, run)
    case OpAgent(run, _, _) => FromClaim(db, run)
    case _ => true
  }

  /** The tables after a sequence of operations; an operation that fails or
      breaks the protocol leaves them as they were. */
  ghost function RunOps(db: Db, ops: seq<Op>): Db
    decreases ops
  {
    if ops == [] then db
    else
      var next := if Protocol(db, ops[0]) && Apply(db, ops[0]).Ok? then Apply(db, ops[0]).value else db;
      RunOps(next, ops[1..])
  }
}
