/** Rebuilding the index tables from the log (runtime/sqlite/rebuild.go). */
module Replay {
  import opened Wrappers
  import opened Events
  import opened Store

  /** The three tables under reconstruction, and the admissions that wait for
      their run start. */
  datatype Index = Index(rows: Tables, admitted: map<(Id, Id), Id>)

  const Cleared := Index(EmptyTables, map[])

  function AdmittedRun(st: Index, key: (Id, Id)): Id {
    if key in st.admitted then st.admitted[key] else NoId
  }

  predicate StartMatches(e: Event, run: Run) {
    run.id == e.run && run.conv == e.conv && run.inbound == e.inbound && run.status == Running
  }

  predicate EndMatches(e: Event, run: Run, status: RunStatus) {
    run.id == e.run && run.conv == e.conv && run.inbound == e.inbound && run.status == status && run.completedAt.Some?
  }

  function ReplayStart(convs: set<Id>, st: Index, e: Event, run: Run): Result<Index, StoreError> {
    var key := (e.conv, run.inbound);
    if !StartMatches(e, run) then Err(Invalid("invalid run start"))
    else if AdmittedRun(st, key) != run.id then Err(Invalid("run start has no matching admission"))
    else if !(&& run.inbound in st.rows.submissions
              && var row := st.rows.submissions[run.inbound];
                 row.conv == e.conv && row.revision == run.revision && row.status == Queued)
    then Err(Invalid("expected one index row"))
    else
      var started :- StartSubmission(st.rows, run.inbound);
      var rows :- InsertRun(started, convs, run.id,
                            RunRow(e.conv, run.inbound, run.revision, run.status, "", run.startedAt, None));
      Ok(Index(rows, st.admitted - {key}))
  }

  function ReplayTools(t: Tables, convs: set<Id>, e: Event, parts: seq<Part>): Result<Tables, StoreError>
    decreases parts
  {
    if parts == [] then Ok(t)
    else if !parts[0].ToolCall? then ReplayTools(t, convs, e, parts[1..])
    else if parts[0].call == "" || parts[0].kind == "" || e.run == NoId then
      Err(Invalid("tool request has no identity or kind"))
    else
      var t' :- InsertTool(t, convs, ToolRow(parts[0].call, e.conv, e.run, e.inbound, parts[0].kind, Requested, e.createdAt));
      ReplayTools(t', convs, e, parts[1..])
  }

  /** UPDATE tool_calls ... WHERE conversation_id, run_id, id, kind and status. */
  function ReplayOutcome(st: Index, e: Event, outcome: ToolOutcome): Result<Index, StoreError> {
    var tools := ToolsOf(st.rows, e.run);
    var i := RequestedIndex(tools, outcome.call);
    if outcome.call == "" || outcome.status == Requested then Err(Invalid("invalid tool outcome"))
    else if i == |tools| || tools[i].conv != e.conv || tools[i].kind != outcome.kind then
      Err(Invalid("expected one index row"))
    else Ok(st.(rows := SetTool(st.rows, e.run, i, outcome.status, e.createdAt)))
  }

  function ReplayEnd(st: Index, e: Event, run: Run, status: RunStatus): Result<Index, StoreError> {
    if !EndMatches(e, run, status) then Err(Invalid("invalid terminal run"))
    else if !(run.id in st.rows.runs && st.rows.runs[run.id].conv == e.conv && st.rows.runs[run.id].status == Running) then
      Err(Invalid("expected one index row"))
    else if !(&& run.inbound in st.rows.submissions
              && st.rows.submissions[run.inbound].conv == e.conv
              && st.rows.submissions[run.inbound].status == Running)
    then Err(Invalid("expected one index row"))
    else
      Ok(st.(rows := SetSubmission(SetRun(st.rows, run.id, status, run.error, run.completedAt.value),
                                   run.inbound, status, run.error)))
  }

  /** replayIndexEvent. */
  function ReplayEvent(convs: set<Id>, st: Index, e: Event): Result<Index, StoreError> {
    match e.body
    case InputAccepted(input) =>
      if e.inbound == NoId then Err(Invalid("accepted input has no identity"))
      else if !ValidInput(input) then Err(Invalid("input"))
      else
        var rows :- InsertSubmission(st.rows, convs, e.inbound,
                                     Submission(e.conv, input.key, input.revision, Queued, "", e.createdAt));
        Ok(st.(rows := rows))
    case InputAdmitted =>
      if e.run == NoId || e.inbound == NoId then Err(Invalid("admission has no run or input"))
      else if AdmittedRun(st, (e.conv, e.inbound)) != NoId then Err(Invalid("input admitted twice"))
      else Ok(st.(admitted := st.admitted[(e.conv, e.inbound) := e.run]))
    case RunStarted(run) => ReplayStart(convs, st, e, run)
    case AssistantCommitted(output) =>
      var rows :- ReplayTools(st.rows, convs, e, output.parts);
      Ok(st.(rows := rows))
    case ToolOutcomeRecorded(outcome) => ReplayOutcome(st, e, outcome)
    case RunCompleted(run) => ReplayEnd(st, e, run, Completed)
    case RunFailed(run) => ReplayEnd(st, e, run, Failed)
    case RunStopped(run) => ReplayEnd(st, e, run, Stopped)
    case _ => Ok(st)
  }

  function ReplayAll(convs: set<Id>, st: Index, events: seq<Event>): Result<Index, StoreError>
    decreases |events|
  {
    if events == [] then Ok(st)
    else
      var before :- ReplayAll(convs, st, events[..|events| - 1]);
      ReplayEvent(convs, before, events[|events| - 1])
  }

  lemma {:induction false} ReplayAppend(convs: set<Id>, st: Index, xs: seq<Event>, ys: seq<Event>)
    ensures ReplayAll(convs, st, xs + ys) ==
            (var mid := ReplayAll(convs, st, xs);
             if mid.Err? then mid else ReplayAll(convs, mid.value, ys))
    decreases |ys|
  {
    if ys == [] {
      assert xs + ys == xs;
    } else {
      var n := |ys| - 1;
      assert (xs + ys)[..|xs + ys| - 1] == xs + ys[..n];
      ReplayAppend(convs, st, xs, ys[..n]);
    }
  }
}
