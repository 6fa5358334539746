/** What each transaction of the store leaves in the tables and in the log
    (runtime/sqlite/store.go), row by row and entry by entry. */
module StoreMeaning {
  import opened Wrappers
  import opened Events
  import opened Store
  import opened StoreInvariant
  import opened StoreSteps

  /** An entry about a run. */
  predicate Says(e: Event, run: Run, now: Time, body: Body) {
    e == Event(e.cursor, run.conv, run.id, run.inbound, now, body)
  }

  lemma StoredEntry(db: Db, rows: Tables, e: Event, db': Db, stored: Event)
    requires AppendEvent(db.(rows := rows), e) == Ok((db', stored))
    ensures Appended(db, db', e.conv, [stored]) && stored == e.(cursor := stored.cursor) && db'.rows == rows
  {
    AppendEventShape(db.(rows := rows), e);
    assert forall c :: LogOf(db.(rows := rows), c) == LogOf(db, c);
  }

  // ------------------------------------------------------- tool outcomes

  ghost predicate IsRequested(tools: seq<ToolRow>, call: string, i: nat) {
    i < |tools| && tools[i].call == call && tools[i].status == Requested
  }

  /** The first requested row of the call. */
  ghost predicate IsFirstRequested(tools: seq<ToolRow>, call: string, i: nat) {
    IsRequested(tools, call, i) && forall j: nat | j < i :: !IsRequested(tools, call, j)
  }

  /** That row has the status; no other row of any table changed. */
  ghost predicate OneRowResolved(t: Tables, t': Tables, run: Id, i: nat, status: ToolStatus, now: Time) {
    && t'.submissions == t.submissions && t'.runs == t.runs && (forall r | r != run :: ToolsOf(t', r) == ToolsOf(t, r))
    && i < |ToolsOf(t, run)|
    && ToolsOf(t', run) == ToolsOf(t, run)[i := ToolsOf(t, run)[i].(status := status, updatedAt := now)]
  }

  /** The call's outcome is in its row and in the log, with its result. */
  ghost predicate OutcomeStored(db: Db, db': Db, run: Run, result: ToolResult, status: ToolStatus, id: Id, now: Time, event: Event) {
    exists i: nat ::
      && IsFirstRequested(ToolsOf(db.rows, run.id), result.call, i)
      && OneRowResolved(db.rows, db'.rows, run.id, i, status, now)
      && Appended(db, db', run.conv, [event])
      && Says(event, run, now, ToolOutcomeRecorded(ToolOutcome(id, result.call, ToolsOf(db.rows, run.id)[i].kind, status, result)))
  }

  lemma OutcomeMeans(db: Db, run: Run, result: ToolResult, status: ToolStatus, id: NewId, now: Time, db': Db, event: Event)
    requires FinishTool(db, run, result, status, id, now) == Ok((db', event))
    ensures OutcomeStored(db, db', run, result, status, id, now, event)
  {
    var tools := ToolsOf(db.rows, run.id);
    var i := RequestedIndex(tools, result.call);
    var rows := SetTool(db.rows, run.id, i, status, now);
    FirstRequested(tools, result.call);
    StoredEntry(db, rows, Event(0, run.conv, run.id, run.inbound, now,
                                ToolOutcomeRecorded(ToolOutcome(id, result.call, tools[i].kind, status, result))), db', event);
    assert OneRowResolved(db.rows, db'.rows, run.id, i, status, now);
  }

  lemma {:induction false} FirstRequested(tools: seq<ToolRow>, call: string)
    requires RequestedIndex(tools, call) < |tools|
    ensures IsFirstRequested(tools, call, RequestedIndex(tools, call))
  {
    if !(tools[0].call == call && tools[0].status == Requested) {
      FirstRequested(tools[1..], call);
      var i := RequestedIndex(tools, call);
      forall j: nat | j < i
        ensures !IsRequested(tools, call, j)
      {
        assert j > 0 ==> (IsRequested(tools, call, j) <==> IsRequested(tools[1..], call, j - 1));
      }
    }
  }

  /** ToolCompleted: the call succeeded exactly when its result says so. */
  lemma CompletedMeans(db: Db, run: Run, result: ToolResult, id: NewId, now: Time, db': Db)
    requires Apply(db, OpCompleteTool(run, result, id, now)) == Ok(db')
    ensures result.ok ==> exists event :: OutcomeStored(db, db', run, result, Succeeded, id, now, event)
    ensures !result.ok ==> exists event :: OutcomeStored(db, db', run, result, Faulted, id, now, event)
  {
    var (_, event) := ToolCompleted(db, run, result, id, now).value;
    OutcomeMeans(db, run, result, if result.ok then Succeeded else Faulted, id, now, db', event);
  }

  /** ToolDenied: the call was denied, and its result is a failure. */
  lemma DeniedMeans(db: Db, run: Run, result: ToolResult, id: NewId, now: Time, db': Db)
    requires Apply(db, OpDenyTool(run, result, id, now)) == Ok(db')
    ensures !result.ok && exists event :: OutcomeStored(db, db', run, result, ToolStatus.Denied, id, now, event)
  {
    var (_, event) := ToolDenied(db, run, result, id, now).value;
    OutcomeMeans(db, run, result, ToolStatus.Denied, id, now, db', event);
  }

  // -------------------------------------------------------------- endings

  /** An interrupted call: its outcome is unknown, and no success. */
  predicate SaysInterrupted(e: Event, run: Run, now: Time, row: ToolRow) {
    && e.body.ToolOutcomeRecorded?
    && var o := e.body.outcome;
       && Says(e, run, now, ToolOutcomeRecorded(ToolOutcome(o.id, row.call, row.kind, Interrupted, o.result)))
       && o.result.call == row.call && !o.result.ok
  }

  /** What ending a run does to one of its calls. */
  function Ended(row: ToolRow, now: Time): ToolRow {
    if row.status == Requested then row.(status := Interrupted, updatedAt := now) else row
  }

  /** The requested calls of the run are interrupted, and no other call is. */
  ghost predicate CallsEnded(t: Tables, t': Tables, run: Id, now: Time) {
    && (forall r | r != run :: ToolsOf(t', r) == ToolsOf(t, r)) && |ToolsOf(t', run)| == |ToolsOf(t, run)|
    && forall i: nat | i < |ToolsOf(t, run)| :: ToolsOf(t', run)[i] == Ended(ToolsOf(t, run)[i], now)
  }

  ghost predicate AllInterrupted(t: Tables, t': Tables, run: Id, now: Time) {
    ToolsChange(t, t', run) && CallsEnded(t, t', run, now)
  }

  ghost predicate InterruptsSaid(events: seq<Event>, run: Run, now: Time, calls: seq<ToolRow>) {
    |events| == |calls| && forall k: nat | k < |calls| :: SaysInterrupted(events[k], run, now, calls[k])
  }

  lemma OneResolvedThenAll(t: Tables, t1: Tables, t': Tables, run: Id, i: nat, now: Time)
    requires i < |ToolsOf(t, run)| && ToolsOf(t, run)[i].status == Requested
    requires OneRowResolved(t, t1, run, i, Interrupted, now) && (forall r | r in t1.tools :: r in t.tools || r == run)
    requires AllInterrupted(t1, t', run, now)
    ensures AllInterrupted(t, t', run, now)
  {
    forall j: nat | j < |ToolsOf(t, run)|
      ensures ToolsOf(t', run)[j] == Ended(ToolsOf(t, run)[j], now)
    {
      assert ToolsOf(t', run)[j] == Ended(ToolsOf(t1, run)[j], now);
    }
  }

  lemma NoneToInterrupt(t: Tables, run: Id, now: Time)
    requires RequestedCalls(ToolsOf(t, run)) == []
    ensures AllInterrupted(t, t, run, now)
  {
    RequestedCallsNone(ToolsOf(t, run));
  }

  /** One call of interruptRequestedToolsTx. */
  lemma InterruptOne(db: Db, run: Run, id: NewId, now: Time, db1: Db, event: Event)
    requires Valid(db) && FromClaim(db, run) && RequestedCalls(ToolsOf(db.rows, run.id)) != []
    requires FinishTool(db, run, InterruptedResult(RequestedCalls(ToolsOf(db.rows, run.id))[0]), Interrupted, id, now) == Ok((db1, event))
    ensures Valid(db1) && FromClaim(db1, run)
    ensures RequestedCalls(ToolsOf(db1.rows, run.id)) == RequestedCalls(ToolsOf(db.rows, run.id))[1..]
    ensures SaysInterrupted(event, run, now, RequestedCalls(ToolsOf(db.rows, run.id))[0])
    ensures exists i: nat ::
              && i < |ToolsOf(db.rows, run.id)| && ToolsOf(db.rows, run.id)[i].status == Requested
              && OneRowResolved(db.rows, db1.rows, run.id, i, Interrupted, now)
    ensures forall r | r in db1.rows.tools :: r in db.rows.tools || r == run.id
  {
    var tools := ToolsOf(db.rows, run.id);
    var row := RequestedCalls(tools)[0];
    var result := InterruptedResult(row);
    RunFacts(db, run);
    ResolveFirst(tools, run.id, db.rows.runs[run.id], Interrupted, now);
    FinishToolStep(db, run, result, Interrupted, id, now, db1, event);
    OutcomeMeans(db, run, result, Interrupted, id, now, db1, event);
    var i: nat :| && IsFirstRequested(tools, row.call, i) && OneRowResolved(db.rows, db1.rows, run.id, i, Interrupted, now)
                  && Says(event, run, now, ToolOutcomeRecorded(ToolOutcome(id, row.call, tools[i].kind, Interrupted, result)));
    FirstRequested(tools, row.call);
    assert i == RequestedIndex(tools, row.call) by {
      assert IsFirstRequested(tools, row.call, RequestedIndex(tools, row.call));
    }
  }

  lemma {:induction false} InterruptMeans(db: Db, run: Run, calls: seq<ToolRow>, ids: nat -> NewId, k: nat, now: Time, db': Db, events: seq<Event>)
    requires Valid(db) && FromClaim(db, run) && calls == RequestedCalls(ToolsOf(db.rows, run.id))
    requires Interrupt(db, run, calls, ids, k, now) == Ok((db', events))
    ensures AllInterrupted(db.rows, db'.rows, run.id, now) && InterruptsSaid(events, run, now, calls)
    decreases calls
  {
    if calls == [] {
      NoneToInterrupt(db.rows, run.id, now);
    } else {
      var (db1, event) := FinishTool(db, run, InterruptedResult(calls[0]), Interrupted, ids(k), now).value;
      var (_, rest) := Interrupt(db1, run, calls[1..], ids, k + 1, now).value;
      InterruptOne(db, run, ids(k), now, db1, event);
      InterruptMeans(db1, run, calls[1..], ids, k + 1, now, db', rest);
      var i: nat :| && i < |ToolsOf(db.rows, run.id)| && ToolsOf(db.rows, run.id)[i].status == Requested
                    && OneRowResolved(db.rows, db1.rows, run.id, i, Interrupted, now);
      OneResolvedThenAll(db.rows, db1.rows, db'.rows, run.id, i, now);
      SaidFirst(event, rest, run, now, calls);
    }
  }

  lemma SaidFirst(event: Event, rest: seq<Event>, run: Run, now: Time, calls: seq<ToolRow>)
    requires calls != [] && SaysInterrupted(event, run, now, calls[0]) && InterruptsSaid(rest, run, now, calls[1..])
    ensures InterruptsSaid([event] + rest, run, now, calls)
  {
    var events := [event] + rest;
    forall k: nat | k < |calls|
      ensures SaysInterrupted(events[k], run, now, calls[k])
    {
      if k > 0 {
        assert SaysInterrupted(rest[k - 1], run, now, calls[1..][k - 1]);
      }
    }
  }

  /** The run and its submission have this status and error, and every other
      run and submission is as it was. */
  ghost predicate RunEnded(t: Tables, t': Tables, run: Run, status: RunStatus, error: string, now: Time)
    requires run.id in t.runs && run.inbound in t.submissions
  {
    && t'.runs == t.runs[run.id := t.runs[run.id].(status := status, error := error, completedAt := Some(now))]
    && t'.submissions == t.submissions[run.inbound := t.submissions[run.inbound].(status := status, error := error)]
  }

  ghost predicate EndsWith(events: seq<Event>, run: Run, now: Time, body: Body) {
    events != [] && Says(events[|events| - 1], run, now, body)
  }

  /** How a run ended: a failed run keeps its message. */
  ghost predicate EndedBy(t: Tables, t': Tables, run: Run, ending: Ending, now: Time, events: seq<Event>)
    requires run.id in t.runs && run.inbound in t.submissions
  {
    match ending
    case RunFailure(message) =>
      && RunEnded(t, t', run, Failed, message, now)
      && EndsWith(events, run, now, RunFailed(run.(status := Failed, error := message, completedAt := Some(now))))
    case RunStop =>
      && RunEnded(t, t', run, Stopped, "stopped by request", now)
      && EndsWith(events, run, now,
                  RunStopped(run.(status := Stopped, error := "stopped by request", completedAt := Some(now))))
  }

  lemma EndedFrom(t: Tables, t1: Tables, t': Tables, run: Run, ending: Ending, now: Time, events: seq<Event>)
    requires t1.runs == t.runs && t1.submissions == t.submissions && run.id in t.runs && run.inbound in t.submissions
    requires EndedBy(t1, t', run, ending, now, events)
    ensures EndedBy(t, t', run, ending, now, events)
  {
  }

  lemma CallsEndedTo(t: Tables, t1: Tables, t': Tables, run: Id, now: Time)
    requires CallsEnded(t, t1, run, now) && t'.tools == t1.tools
    ensures CallsEnded(t, t', run, now)
  {
    assert forall r :: ToolsOf(t', r) == ToolsOf(t1, r);
  }

  /** FailRun and StopRun. */
  lemma EndMeans(db: Db, run: Run, ending: Ending, ids: nat -> NewId, now: Time, db': Db, events: seq<Event>)
    requires Valid(db) && FromClaim(db, run) && EndRun(db, run, ending, ids, now) == Ok((db', events))
    ensures run.inbound in db.rows.submissions && CallsEnded(db.rows, db'.rows, run.id, now)
    ensures InterruptsSaid(events[..|events| - 1], run, now, RequestedCalls(ToolsOf(db.rows, run.id)))
    ensures EndedBy(db.rows, db'.rows, run, ending, now, events)
  {
    RunFacts(db, run);
    var calls := RequestedCalls(ToolsOf(db.rows, run.id));
    var (db1, first) := Interrupt(db, run, calls, ids, 0, now).value;
    InterruptMeans(db, run, calls, ids, 0, now, db1, first);
    EndAppends(db1, run, ending, now, first, db', events);
    EndedFrom(db.rows, db1.rows, db'.rows, run, ending, now, events);
    CallsEndedTo(db.rows, db1.rows, db'.rows, run.id, now);
  }

  lemma EndAppends(db1: Db, run: Run, ending: Ending, now: Time, first: seq<Event>, db': Db, events: seq<Event>)
    requires run.id in db1.rows.runs && run.inbound in db1.rows.submissions
    requires var ended := run.(status := EndStatus(ending), error := EndMessage(ending), completedAt := Some(now));
             var submitted := SetSubmission(db1.rows, run.inbound, EndStatus(ending), EndMessage(ending));
             var rows := SetRun(submitted, run.id, EndStatus(ending), EndMessage(ending), now);
             var appended := AppendEvent(db1.(rows := rows), Event(0, run.conv, run.id, run.inbound, now, EndBody(ending, ended)));
             appended.Ok? && db' == appended.value.0 && events == first + [appended.value.1]
    ensures db'.rows.tools == db1.rows.tools && events[..|events| - 1] == first
    ensures EndedBy(db1.rows, db'.rows, run, ending, now, events)
  {
  }

  /** FinishRun: the answer is the run's final message. */
  lemma FinishMeans(db: Db, run: Run, answer: string, outputId: NewId, now: Time, db': Db, events: seq<Event>)
    requires Valid(db) && FromClaim(db, run) && db.rows.runs[run.id].status == Running
    requires FinishRun(db, run, answer, outputId, now) == Ok((db', events))
    ensures run.inbound in db.rows.submissions && db'.rows.tools == db.rows.tools
    ensures RunEnded(db.rows, db'.rows, run, Completed, "", now)
    ensures |events| == 2 && Says(events[0], run, now, AssistantCommitted(AssistantOutput(outputId, [Text(answer)], true)))
    ensures Says(events[1], run, now, RunCompleted(run.(status := Completed, completedAt := Some(now))))
  {
    RunFacts(db, run);
    FinishRunCommits(db, run, answer, outputId, now, db', events);
    FinishAppends(db, run, answer, outputId, now, db', events);
  }

  lemma FinishAppends(db: Db, run: Run, answer: string, outputId: NewId, now: Time, db': Db, events: seq<Event>)
    requires FinishRun(db, run, answer, outputId, now) == Ok((db', events))
    ensures |events| == 2 && Says(events[0], run, now, AssistantCommitted(AssistantOutput(outputId, [Text(answer)], true)))
    ensures Says(events[1], run, now, RunCompleted(run.(status := Completed, completedAt := Some(now))))
  {
  }

  // ------------------------------------------------------ inputs and claims

  /** Accept: one queued row for a new input, with its entry; a repeated key
      names the row that has it, and changes nothing. */
  lemma AcceptMeans(db: Db, conv: Id, input: InputSubmission, id: NewId, now: Time, db': Db, accepted: Acceptance)
    requires Accept(db, conv, input, id, now) == Ok((db', accepted))
    ensures accepted.Duplicate? <==> exists s :: HasKey(db.rows, s, conv, input.key)
    ensures accepted.Duplicate? ==> db' == db && HasKey(db.rows, accepted.existing, conv, input.key)
    ensures accepted.Fresh? ==>
              && accepted.id == id && id !in db.rows.submissions && db'.rows.runs == db.rows.runs && db'.rows.tools == db.rows.tools
              && db'.rows.submissions
                 == db.rows.submissions[id := Submission(conv, input.key, input.revision, Queued, "", now)]
              && Appended(db, db', conv, [accepted.event])
              && accepted.event == Event(accepted.event.cursor, conv, NoId, id, now, InputAccepted(input))
    ensures ValidInput(input)
  {
    if accepted.Fresh? {
      var row := Submission(conv, input.key, input.revision, Queued, "", now);
      var rows := InsertSubmission(db.rows, db.conversations.Keys, id, row).value;
      StoredEntry(db, rows, Event(0, conv, NoId, id, now, InputAccepted(input)), db', accepted.event);
      assert forall s :: HasKey(db.rows, s, conv, input.key) ==> KeyTaken(db.rows, conv, input.key);
    } else {
      assert HasKey(db.rows, accepted.existing, conv, input.key);
    }
  }

  predicate HasKey(t: Tables, s: Id, conv: Id, key: string) {
    s in t.submissions && t.submissions[s].conv == conv && t.submissions[s].key == key
  }

  /** A claim starts the run of a queued submission, and says so. */
  lemma ClaimMeans(db: Db, s: Id, runId: NewId, now: Time, db': Db, claim: Claimed)
    requires s in db.rows.submissions && ClaimOne(db, s, runId, now) == Ok((db', claim))
    ensures var row := db.rows.submissions[s];
            && runId !in db.rows.runs
            && claim.run == Run(runId, row.conv, s, row.revision, Running, "", now, None)
            && db'.rows.submissions == db.rows.submissions[s := row.(status := Running)]
            && db'.rows.runs == db.rows.runs[runId := RunRow(row.conv, s, row.revision, Running, "", now, None)]
            && db'.rows.tools == db.rows.tools
            && |claim.events| == 2 && Appended(db, db', row.conv, claim.events)
            && Says(claim.events[0], claim.run, now, InputAdmitted) && Says(claim.events[1], claim.run, now, RunStarted(claim.run))
  {
    var rows := db'.rows;
    var e := Event(0, claim.run.conv, runId, s, now, InputAdmitted);
    var (db1, admitted) := AppendEvent(db.(rows := rows), e).value;
    StoredEntry(db, rows, e, db1, admitted);
    AppendEventShape(db1, Event(0, claim.run.conv, runId, s, now, RunStarted(claim.run)));
    assert claim.events == [admitted] + [claim.events[1]];
    AppendedTrans(db, db1, db', claim.run.conv, [admitted], [claim.events[1]]);
  }

  // ------------------------------------------------------------- progress

  /** A part as it is stored: absent arguments become the empty object. */
  predicate StoredAs(part: Part, stored: Part) {
    match part
    case Text(text) => stored == part && text != ""
    case ToolCall(call, kind, arguments) =>
      && call != "" && kind != "" && !arguments.NotAnObject?
      && stored == ToolCall(call, kind, if arguments.Missing? then Object("{}") else arguments)
    case _ => false
  }

  ghost predicate AllStoredAs(parts: seq<Part>, stored: seq<Part>) {
    |stored| == |parts| && forall i: nat | i < |parts| :: StoredAs(parts[i], stored[i])
  }

  lemma {:induction false} NormalizedAreStored(parts: seq<Part>)
    requires NormalizeParts(parts).Ok?
    ensures AllStoredAs(parts, NormalizeParts(parts).value)
  {
    if parts != [] {
      NormalizedAreStored(parts[1..]);
      var stored := NormalizeParts(parts).value;
      var rest := NormalizeParts(parts[1..]).value;
      assert stored[1..] == rest;
      forall i: nat | i < |parts|
        ensures StoredAs(parts[i], stored[i])
      {
        assert i > 0 ==> StoredAs(parts[1..][i - 1], rest[i - 1]);
      }
    }
  }

  /** The rows that a turn adds: one per tool call, in order, all requested. */
  function RequestedRows(run: Run, parts: seq<Part>, now: Time): seq<ToolRow> {
    if parts == [] then []
    else
      (if parts[0].ToolCall? then [ToolRow(parts[0].call, run.conv, run.id, run.inbound, parts[0].kind, Requested, now)] else [])
      + RequestedRows(run, parts[1..], now)
  }

  lemma {:induction false} InsertedRows(t: Tables, convs: set<Id>, run: Run, parts: seq<Part>, now: Time)
    requires InsertTools(t, convs, run.conv, run.id, run.inbound, parts, now).Ok?
    ensures var t' := InsertTools(t, convs, run.conv, run.id, run.inbound, parts, now).value;
            && t'.submissions == t.submissions && t'.runs == t.runs
            && (forall r | r != run.id :: ToolsOf(t', r) == ToolsOf(t, r))
            && ToolsOf(t', run.id) == ToolsOf(t, run.id) + RequestedRows(run, parts, now)
    decreases parts
  {
    if parts != [] {
      if parts[0].ToolCall? {
        var row := ToolRow(parts[0].call, run.conv, run.id, run.inbound, parts[0].kind, Requested, now);
        InsertedRows(InsertTool(t, convs, row).value, convs, run, parts[1..], now);
      } else {
        InsertedRows(t, convs, run, parts[1..], now);
      }
    }
  }

  /** CommitAssistantTurn: the turn's parts are on record as one message that is
      not final, and each of its tool calls is requested. */
  lemma CommitMeans(db: Db, run: Run, parts: seq<Part>, outputId: NewId, now: Time, db': Db, event: Event)
    requires CommitTurn(db, run, parts, outputId, now) == Ok((db', event))
    ensures exists stored: seq<Part> ::
              && AllStoredAs(parts, stored) && (exists p :: p in stored && p.ToolCall?)
              && Says(event, run, now, AssistantCommitted(AssistantOutput(outputId, stored, false)))
              && ToolsOf(db'.rows, run.id) == ToolsOf(db.rows, run.id) + RequestedRows(run, stored, now)
    ensures Appended(db, db', run.conv, [event])
    ensures db'.rows.submissions == db.rows.submissions && db'.rows.runs == db.rows.runs
    ensures forall r | r != run.id :: ToolsOf(db'.rows, r) == ToolsOf(db.rows, r)
  {
    var stored := NormalizeParts(parts).value;
    NormalizedAreStored(parts);
    var e := Event(0, run.conv, run.id, run.inbound, now, AssistantCommitted(AssistantOutput(outputId, stored, false)));
    StoredEntry(db, db.rows, e, AppendEvent(db, e).value.0, event);
    InsertedRows(db.rows, db.conversations.Keys, run, stored, now);
    SomeToolCall(stored);
  }

  lemma {:induction false} SomeToolCall(parts: seq<Part>)
    requires ToolParts(parts) != []
    ensures exists p :: p in parts && p.ToolCall?
  {
    if !parts[0].ToolCall? {
      SomeToolCall(parts[1..]);
    }
  }

  /** Progress and agent events change no row. */
  lemma NoteMeans(db: Db, run: Run, step: string, message: string, name: string, now: Time)
    ensures AppendProgress(db, run, step, message, now).Ok? ==>
              var (db', event) := AppendProgress(db, run, step, message, now).value;
              && db'.rows == db.rows && Appended(db, db', run.conv, [event])
              && Says(event, run, now, EnvironmentProgress(step, message)) && RunLives(db, run)
    ensures AppendAgent(db, run, name, now).Ok? ==>
              var (db', event) := AppendAgent(db, run, name, now).value;
              && db'.rows == db.rows && Appended(db, db', run.conv, [event])
              && Says(event, run, now, AgentFact(name)) && RunLives(db, run)
  {
    var e := Event(0, run.conv, run.id, run.inbound, now, EnvironmentProgress(step, message));
    var f := Event(0, run.conv, run.id, run.inbound, now, AgentFact(name));
    if AppendEvent(db, e).Ok? { StoredEntry(db, db.rows, e, AppendEvent(db, e).value.0, AppendEvent(db, e).value.1); }
    if AppendEvent(db, f).Ok? { StoredEntry(db, db.rows, f, AppendEvent(db, f).value.0, AppendEvent(db, f).value.1); }
  }

  ghost predicate RunLives(db: Db, run: Run) {
    run.id in db.rows.runs && db.rows.runs[run.id].conv == run.conv && db.rows.runs[run.id].status == Running
  }
}
