/** The store as an object: each method works on the tables of its own
    transaction and commits them at the end, so an error on the way leaves the
    database as it was (runtime/sqlite/store.go, runtime/sqlite/rebuild.go). */
module SqliteStore {
  import opened Wrappers
  import opened Events
  import opened Store
  import opened Replay
  import opened StoreInvariant
  import opened StoreSteps
  import opened StoreTheorems
  import opened StoreProgress
  import opened Rebuild
  import opened RebuildTheorems
  import StoreMeaning

  /** `r` and the database afterwards are what the transaction `spec` says. */
  ghost predicate Committed<T>(before: Db, after: Db, r: Result<T, StoreError>, spec: Result<(Db, T), StoreError>) {
    match spec
    case Ok((tables, value)) => r == Ok(value) && after == tables
    case Err(error) => r == Err(error) && after == before
  }

  /** What is left of a computation after the items in `done`. */
  ghost function Then<T>(done: seq<T>, rest: Result<seq<T>, StoreError>): Result<seq<T>, StoreError> {
    match rest
    case Ok(items) => Ok(done + items)
    case Err(error) => Err(error)
  }

  lemma ThenStart<T>(rest: Result<seq<T>, StoreError>)
    ensures rest == Then([], rest)
  {
    if rest.Ok? {
      assert [] + rest.value == rest.value;
    }
  }

  lemma NormalizeNext(done: seq<Part>, parts: seq<Part>, i: nat)
    requires i < |parts|
    ensures Then(done, NormalizeParts(parts[i..])) ==
            match NormalizePart(parts[i])
            case Ok(part) => Then(done + [part], NormalizeParts(parts[i + 1..]))
            case Err(error) => Err(error)
  {
    assert parts[i..][1..] == parts[i + 1..];
    var rest := NormalizeParts(parts[i + 1..]);
    if NormalizePart(parts[i]).Ok? && rest.Ok? {
      assert done + ([NormalizePart(parts[i]).value] + rest.value) == done + [NormalizePart(parts[i]).value] + rest.value;
    }
  }

  lemma {:induction false} ToolPartsSnoc(parts: seq<Part>, part: Part)
    ensures ToolParts(parts + [part]) == ToolParts(parts) + (if part.ToolCall? then [part] else [])
  {
    if parts != [] {
      assert (parts + [part])[1..] == parts[1..] + [part];
      ToolPartsSnoc(parts[1..], part);
    }
  }

  /** Inserting for every part is inserting for the tool calls among them. */
  lemma {:induction false} InsertToolParts(t: Tables, convs: set<Id>, conv: Id, run: Id, inbound: Id, parts: seq<Part>, now: Time)
    ensures InsertTools(t, convs, conv, run, inbound, parts, now) == InsertTools(t, convs, conv, run, inbound, ToolParts(parts), now)
    decreases parts
  {
    if parts != [] {
      if parts[0].ToolCall? {
        var inserted := InsertTool(t, convs, ToolRow(parts[0].call, conv, run, inbound, parts[0].kind, Requested, now));
        assert ToolParts(parts)[1..] == ToolParts(parts[1..]);
        if inserted.Ok? {
          InsertToolParts(inserted.value, convs, conv, run, inbound, parts[1..], now);
        }
      } else {
        InsertToolParts(t, convs, conv, run, inbound, parts[1..], now);
      }
    }
  }

  lemma {:induction false} ToolPartsAreCalls(parts: seq<Part>)
    ensures forall p | p in ToolParts(parts) :: p.ToolCall?
  {
    if parts != [] {
      ToolPartsAreCalls(parts[1..]);
    }
  }

  /** What is left of Interrupt after `done`. */
  ghost function Resumed(done: seq<Event>, rest: Result<(Db, seq<Event>), StoreError>): Result<(Db, seq<Event>), StoreError> {
    match rest
    case Ok((db, events)) => Ok((db, done + events))
    case Err(error) => Err(error)
  }

  lemma ResumedStart(rest: Result<(Db, seq<Event>), StoreError>)
    ensures rest == Resumed([], rest)
  {
    if rest.Ok? {
      assert [] + rest.value.1 == rest.value.1;
    }
  }

  lemma InterruptNext(db: Db, run: Run, calls: seq<ToolRow>, i: nat, ids: nat -> NewId, now: Time, done: seq<Event>)
    requires i < |calls|
    ensures Resumed(done, Interrupt(db, run, calls[i..], ids, i, now)) ==
            match FinishTool(db, run, InterruptedResult(calls[i]), Interrupted, ids(i), now)
            case Ok((next, event)) => Resumed(done + [event], Interrupt(next, run, calls[i + 1..], ids, i + 1, now))
            case Err(error) => Err(error)
  {
    assert calls[i..][1..] == calls[i + 1..];
    var first := FinishTool(db, run, InterruptedResult(calls[i]), Interrupted, ids(i), now);
    if first.Ok? {
      var rest := Interrupt(first.value.0, run, calls[i + 1..], ids, i + 1, now);
      if rest.Ok? {
        assert done + ([first.value.1] + rest.value.1) == done + [first.value.1] + rest.value.1;
      }
    }
  }

  /** The result of RecoverRunning's query: every running run, once, by start. */
  ghost predicate RunningQuery(t: Tables, order: seq<Id>) {
    && (forall r :: r in order <==> r in t.runs && t.runs[r].status == Running)
    && (forall i, j | 0 <= i < j < |order| :: order[i] != order[j])
    && (forall i, j | 0 <= i < j < |order| :: t.runs[order[i]].startedAt <= t.runs[order[j]].startedAt)
  }

  const Lost := RunFailure("execution was interrupted; outcome unknown")

  /** From the k-th on, each run of `order` has fresh ids for its calls. */
  ghost predicate FreshFrom(db: Db, order: seq<Id>, k: nat, ids: Id -> (nat -> NewId)) {
    forall i | k <= i < |order| :: order[i] in db.rows.runs && FreshFor(db, order[i], ids)
  }

  ghost predicate FreshFor(db: Db, r: Id, ids: Id -> (nat -> NewId))
    requires r in db.rows.runs
  {
    FreshIds(LogOf(db, db.rows.runs[r].conv), ids(r), 0)
  }

  function LostRow(row: RunRow, at: Time): RunRow {
    row.(status := Failed, error := EndMessage(Lost), completedAt := Some(at))
  }

  /** The first k runs of `order` were failed; the other runs are untouched. */
  ghost predicate FailedUpTo(runs: map<Id, RunRow>, runs': map<Id, RunRow>, order: seq<Id>, k: nat, at: Id -> Time) {
    && runs'.Keys == runs.Keys
    && (forall i | 0 <= i < |order| :: order[i] in runs &&
          runs'[order[i]] == if i < k then LostRow(runs[order[i]], at(order[i])) else runs[order[i]])
    && (forall r | r in runs && r !in order :: runs'[r] == runs[r])
  }

  lemma ClearedStillRebuilds(db: Db)
    requires Valid(db) && Rebuildable(db)
    ensures Valid(db.(reservations := {})) && Rebuildable(db.(reservations := {}))
  {
    ClearedStaysValid(db);
    EffectRebuildable(db, db.(reservations := {}));
  }

  lemma ClearedStaysValid(db: Db)
    requires Valid(db)
    ensures Valid(db.(reservations := {}))
  {
    var db' := db.(reservations := {});
    assert Invariant(db);
    ReservationsAside(db, db');
    ExclusiveStays(db, db');
  }

  /** FailRun of one recovered run. */
  lemma RecoverOne(before: Db, db: Db, db': Db, order: seq<Id>, i: nat, ids: nat -> NewId, at: Id -> Time, events: seq<Event>)
    requires Valid(db) && Rebuildable(db) && i < |order| && RunningQuery(before.rows, order)
    requires FailedUpTo(before.rows.runs, db.rows.runs, order, i, at)
    requires var run := ClaimedValue(order[i], db.rows.runs[order[i]]);
             Store.EndRun(db, run, Lost, ids, at(order[i])) == Ok((db', events))
    ensures Valid(db') && Rebuildable(db') && Advances(db, db', db.rows.runs[order[i]].conv, events)
    ensures FailedUpTo(before.rows.runs, db'.rows.runs, order, i + 1, at)
  {
    var run := ClaimedValue(order[i], db.rows.runs[order[i]]);
    assert order[i] in order;
    EndRunAdvances(db, run, Lost, ids, at(order[i]), db', events);
    AdvanceKeeps(db, db', run.conv, events);
    EndRunStep(db, run, Lost, ids, at(order[i]), db', events);
    FailedNext(before.rows.runs, db.rows.runs, db'.rows.runs, order, i, at);
  }

  /** It leaves the ids of the runs still to do fresh. */
  lemma StillFresh(before: Db, db: Db, db': Db, order: seq<Id>, i: nat, ids: Id -> (nat -> NewId), at: Id -> Time, events: seq<Event>)
    requires Valid(db) && i < |order| && RunningQuery(before.rows, order)
    requires FailedUpTo(before.rows.runs, db.rows.runs, order, i, at)
    requires FailedUpTo(before.rows.runs, db'.rows.runs, order, i + 1, at)
    requires Advances(db, db', db.rows.runs[order[i]].conv, events)
    requires FreshFrom(db, order, i, ids)
    ensures FreshFrom(db', order, i + 1, ids)
  {
    assert order[i] in order;
    forall j | i + 1 <= j < |order|
      ensures order[j] in db'.rows.runs && FreshFor(db', order[j], ids)
    {
      assert order[j] in order && FreshFor(db, order[j], ids);
      RunningApart(db, order[i], order[j]);
    }
  }

  lemma FailedNext(runs: map<Id, RunRow>, mid: map<Id, RunRow>, after: map<Id, RunRow>, order: seq<Id>, i: nat, at: Id -> Time)
    requires i < |order| && FailedUpTo(runs, mid, order, i, at)
    requires forall j, k | 0 <= j < k < |order| :: order[j] != order[k]
    requires after == mid[order[i] := LostRow(mid[order[i]], at(order[i]))]
    ensures FailedUpTo(runs, after, order, i + 1, at)
  {
    assert order[i] in order;
  }

  /** No running run, no running submission. */
  lemma NothingRuns(db: Db)
    requires Valid(db) && forall r | r in db.rows.runs :: db.rows.runs[r].status != Running
    ensures forall s | s in db.rows.submissions :: db.rows.submissions[s].status != Running
    ensures Settled(db.rows)
  {
    assert Invariant(db);
    forall s | s in db.rows.submissions && db.rows.submissions[s].status != Queued
      ensures db.rows.submissions[s].status != Running
    {
      assert HasRun(db.rows.runs, s);
      var r :| r in db.rows.runs && db.rows.runs[r].inbound == s;
      assert RunOk(db.rows.submissions, db.rows.runs, r);
    }
  }

  lemma {:induction false} ReplayNext(convs: set<Id>, rows: seq<Event>, i: nat)
    requires i < |rows|
    ensures ReplayAll(convs, Cleared, rows[..i + 1]) ==
            match ReplayAll(convs, Cleared, rows[..i])
            case Ok(st) => ReplayEvent(convs, st, rows[i])
            case Err(error) => Err(error)
  {
    assert rows[..i + 1][..i] == rows[..i];
  }

  lemma {:induction false} ReplayStuck(convs: set<Id>, rows: seq<Event>, i: nat)
    requires i <= |rows| && ReplayAll(convs, Cleared, rows[..i]).Err?
    ensures ReplayAll(convs, Cleared, rows) == ReplayAll(convs, Cleared, rows[..i])
  {
    assert rows == rows[..i] + rows[i..];
    ReplayAppend(convs, Cleared, rows[..i], rows[i..]);
  }

  class Database {
    var db: Db

    constructor ()
      ensures db == EmptyDb
    {
      db := EmptyDb;
    }

    method Accept(conv: Id, input: InputSubmission, id: NewId, now: Time) returns (r: Result<Acceptance, StoreError>)
      requires Valid(db)
      modifies this
      ensures Committed(old(db), db, r, Store.Accept(old(db), conv, input, id, now))
    {
      if !ValidInput(input) {
        return Err(Invalid("input"));
      }
      var tx := db;
      if (exists s :: s in tx.rows.submissions && tx.rows.submissions[s].conv == conv && tx.rows.submissions[s].key == input.key) {
        var s :| s in tx.rows.submissions && tx.rows.submissions[s].conv == conv && tx.rows.submissions[s].key == input.key;
        assert Invariant(db);
        assert SameKey(db.rows.submissions, s, Existing(db.rows, conv, input.key));
        return Ok(Duplicate(s));
      }
      if conv !in tx.conversations {
        return Err(NotFound);
      }
      if input.target != tx.conversations[conv].agent || input.revision == "" {
        return Err(Invalid("input target or agent revision does not match conversation"));
      }
      var rows :- InsertSubmission(tx.rows, tx.conversations.Keys, id, Submission(conv, input.key, input.revision, Queued, "", now));
      tx := tx.(rows := rows);
      var accepted :- AppendEvent(tx, Event(0, conv, NoId, id, now, InputAccepted(input)));
      db := accepted.0;
      return Ok(Fresh(id, accepted.1));
    }

    method ClaimRunnable(runId: NewId, now: Time) returns (r: Result<Option<Claimed>, StoreError>)
      modifies this
      ensures Committed(old(db), db, r, Claim(old(db), runId, now))
    {
      var tx := db;
      if !(exists s :: s in tx.rows.submissions && IsNext(tx, s)) {
        return Ok(None);
      }
      var id :| id in tx.rows.submissions && IsNext(tx, id);
      forall s | IsNext(db, s)
        ensures s == id
      {
        NextIsUnique(db, s, id);
      }
      var queued := tx.rows.submissions[id];
      var parts :- LoadInput(tx, queued.conv, id);
      var run := Run(runId, queued.conv, id, queued.revision, Running, "", now, None);
      tx := tx.(rows := StartSubmission(tx.rows, id).value);
      var rows :- InsertRun(tx.rows, tx.conversations.Keys, runId, RunRow(queued.conv, id, queued.revision, Running, "", now, None));
      tx := tx.(rows := rows);
      var admitted :- AppendEvent(tx, Event(0, queued.conv, runId, id, now, InputAdmitted));
      tx := admitted.0;
      var begun :- AppendEvent(tx, Event(0, queued.conv, runId, id, now, RunStarted(run)));
      db := begun.0;
      return Ok(Some(Claimed(run, parts, [admitted.1, begun.1])));
    }

    method CommitAssistantTurn(run: Run, parts: seq<Part>, outputId: NewId, now: Time) returns (r: Result<Event, StoreError>)
      modifies this
      ensures Committed(old(db), db, r, CommitTurn(old(db), run, parts, outputId, now))
    {
      var tx := db;
      var normalized, toolParts: seq<Part> := [], [];
      ThenStart(NormalizeParts(parts));
      assert parts[0..] == parts;
      for i := 0 to |parts|
        invariant NormalizeParts(parts) == Then(normalized, NormalizeParts(parts[i..]))
        invariant toolParts == ToolParts(normalized)
        invariant db == old(db)
      {
        NormalizeNext(normalized, parts, i);
        var part := parts[i];
        match part {
          case Text(text) =>
            if text == "" {
              return Err(Invalid("empty text"));
            }
          case ToolCall(call, kind, arguments) =>
            if call == "" || kind == "" {
              return Err(Invalid("incomplete tool call"));
            }
            if arguments.NotAnObject? {
              return Err(Invalid("arguments"));
            }
            if arguments.Missing? {
              part := ToolCall(call, kind, Object("{}"));
            }
            toolParts := toolParts + [part];
          case _ =>
            return Err(Invalid("unsupported part"));
        }
        ToolPartsSnoc(normalized, part);
        normalized := normalized + [part];
      }
      assert parts[|parts|..] == [] && normalized + [] == normalized;
      if toolParts == [] {
        return Err(Invalid("no tool calls"));
      }
      var output :- AppendEvent(tx, Event(0, run.conv, run.id, run.inbound, now,
                                          AssistantCommitted(AssistantOutput(outputId, normalized, false))));
      tx := output.0;
      tx :- InsertCalls(tx, run, normalized, toolParts, now);
      db := tx;
      return Ok(output.1);
    }

    /** The inserts of CommitAssistantTurn, within its transaction. */
    method InsertCalls(begun: Db, run: Run, normalized: seq<Part>, toolParts: seq<Part>, now: Time) returns (r: Result<Db, StoreError>)
      requires toolParts == ToolParts(normalized)
      ensures var rows := InsertTools(begun.rows, begun.conversations.Keys, run.conv, run.id, run.inbound, normalized, now);
              r == if rows.Ok? then Ok(begun.(rows := rows.value)) else Err(rows.error)
    {
      var tx := begun;
      ghost var convs := tx.conversations.Keys;
      InsertToolParts(tx.rows, convs, run.conv, run.id, run.inbound, normalized, now);
      ToolPartsAreCalls(normalized);
      assert toolParts[0..] == toolParts;
      for i := 0 to |toolParts|
        invariant tx == begun.(rows := tx.rows)
        invariant InsertTools(begun.rows, convs, run.conv, run.id, run.inbound, normalized, now)
               == InsertTools(tx.rows, convs, run.conv, run.id, run.inbound, toolParts[i..], now)
      {
        assert toolParts[i..][1..] == toolParts[i + 1..];
        assert toolParts[i] in toolParts;
        var row := ToolRow(toolParts[i].call, run.conv, run.id, run.inbound, toolParts[i].kind, Requested, now);
        var rows :- InsertTool(tx.rows, tx.conversations.Keys, row);
        tx := tx.(rows := rows);
      }
      return Ok(tx);
    }

    method ToolFinished(run: Run, result: ToolResult, status: ToolStatus, outcomeId: NewId, now: Time) returns (r: Result<Event, StoreError>)
      modifies this
      ensures Committed(old(db), db, r, FinishTool(old(db), run, result, status, outcomeId, now))
      ensures r.Ok? ==> StoreMeaning.OutcomeStored(old(db), db, run, result, status, outcomeId, now, r.value)
    {
      var tools := ToolsOf(db.rows, run.id);
      var i := RequestedIndex(tools, result.call);
      if i == |tools| {
        return Err(NoRows);
      }
      var tx := db.(rows := SetTool(db.rows, run.id, i, status, now));
      var outcome := ToolOutcome(outcomeId, result.call, tools[i].kind, status, result);
      var stored :- AppendEvent(tx, Event(0, run.conv, run.id, run.inbound, now, ToolOutcomeRecorded(outcome)));
      StoreMeaning.OutcomeMeans(db, run, result, status, outcomeId, now, stored.0, stored.1);
      db := stored.0;
      return Ok(stored.1);
    }

    /** The call succeeded exactly when its result says so. */
    method ToolCompleted(run: Run, result: ToolResult, outcomeId: NewId, now: Time) returns (r: Result<Event, StoreError>)
      modifies this
      ensures Committed(old(db), db, r, Store.ToolCompleted(old(db), run, result, outcomeId, now))
      ensures r.Ok? && result.ok ==> StoreMeaning.OutcomeStored(old(db), db, run, result, Succeeded, outcomeId, now, r.value)
      ensures r.Ok? && !result.ok ==> StoreMeaning.OutcomeStored(old(db), db, run, result, Faulted, outcomeId, now, r.value)
    {
      var status := Succeeded;
      if !result.ok {
        status := Faulted;
      }
      r := ToolFinished(run, result, status, outcomeId, now);
    }

    method ToolDenied(run: Run, result: ToolResult, outcomeId: NewId, now: Time) returns (r: Result<Event, StoreError>)
      modifies this
      ensures Committed(old(db), db, r, Store.ToolDenied(old(db), run, result, outcomeId, now))
      ensures r.Ok? ==> !result.ok && StoreMeaning.OutcomeStored(old(db), db, run, result, Denied, outcomeId, now, r.value)
    {
      if result.ok {
        return Err(Invalid("denied tool result cannot be successful"));
      }
      r := ToolFinished(run, result, Denied, outcomeId, now);
    }

    method FinishRun(run: Run, answer: string, outputId: NewId, now: Time) returns (r: Result<seq<Event>, StoreError>)
      modifies this
      ensures Committed(old(db), db, r, Store.FinishRun(old(db), run, answer, outputId, now))
    {
      var tx := db;
      if run.inbound in tx.rows.submissions {
        tx := tx.(rows := SetSubmission(tx.rows, run.inbound, Completed, tx.rows.submissions[run.inbound].error));
      }
      if run.id in tx.rows.runs {
        tx := tx.(rows := SetRun(tx.rows, run.id, Completed, tx.rows.runs[run.id].error, now));
      }
      var completed := run.(status := Completed, completedAt := Some(now));
      var output :- AppendEvent(tx, Event(0, run.conv, run.id, run.inbound, now,
                                          AssistantCommitted(AssistantOutput(outputId, [Text(answer)], true))));
      tx := output.0;
      var ended :- AppendEvent(tx, Event(0, run.conv, run.id, run.inbound, now, RunCompleted(completed)));
      db := ended.0;
      return Ok([output.1, ended.1]);
    }

    /** interruptRequestedToolsTx, within the transaction of its caller. */
    method InterruptRequestedTools(begun: Db, run: Run, ids: nat -> NewId, now: Time) returns (r: Result<(Db, seq<Event>), StoreError>)
      ensures r == Interrupt(begun, run, RequestedCalls(ToolsOf(begun.rows, run.id)), ids, 0, now)
    {
      var tx := begun;
      var tools := RequestedCalls(ToolsOf(tx.rows, run.id));
      var events: seq<Event> := [];
      assert tools[0..] == tools;
      ghost var whole := Interrupt(tx, run, tools, ids, 0, now);
      ResumedStart(whole);
      for i := 0 to |tools|
        invariant whole == Resumed(events, Interrupt(tx, run, tools[i..], ids, i, now))
      {
        InterruptNext(tx, run, tools, i, ids, now, events);
        var finished :- FinishTool(tx, run, InterruptedResult(tools[i]), Interrupted, ids(i), now);
        tx, events := finished.0, events + [finished.1];
      }
      assert tools[|tools|..] == [] && events + [] == events;
      return Ok((tx, events));
    }

    /** endRun: the body of FailRun and StopRun. */
    method EndRun(run: Run, ending: Ending, ids: nat -> NewId, now: Time) returns (r: Result<seq<Event>, StoreError>)
      modifies this
      ensures Committed(old(db), db, r, Store.EndRun(old(db), run, ending, ids, now))
    {
      var tx := db;
      var interrupted :- InterruptRequestedTools(tx, run, ids, now);
      tx := interrupted.0;
      tx := tx.(rows := SetSubmission(tx.rows, run.inbound, EndStatus(ending), EndMessage(ending)));
      tx := tx.(rows := SetRun(tx.rows, run.id, EndStatus(ending), EndMessage(ending), now));
      var ended := run.(status := EndStatus(ending), error := EndMessage(ending), completedAt := Some(now));
      var last :- AppendEvent(tx, Event(0, run.conv, run.id, run.inbound, now, EndBody(ending, ended)));
      db := last.0;
      return Ok(interrupted.1 + [last.1]);
    }

    method ReserveWorkspace(workspace: Id) returns (r: Result<(), StoreError>)
      modifies this
      ensures match Reserve(old(db), workspace)
              case Ok(next) => r.Ok? && db == next
              case Err(error) => r == Err(error) && db == old(db)
    {
      if WorkspaceRunning(db, workspace) || workspace in db.reservations {
        return Err(WorkspaceBusy);
      }
      if workspace == NoId {
        return Err(CheckViolation);
      }
      db := db.(reservations := db.reservations + {workspace});
      return Ok(());
    }

    /** RecoverRunning at start-up: `order` is the result of its query. The
        log rebuilds the tables at every exit. It fails only when new ids
        collide; otherwise nothing runs and nothing is reserved afterwards,
        every run that was running has failed, and no other run changed. */
    method RecoverRunning(order: seq<Id>, ids: Id -> (nat -> NewId), at: Id -> Time) returns (r: Result<(), StoreError>)
      requires Valid(db) && Rebuildable(db) && RunningQuery(db.rows, order)
      modifies this
      ensures Valid(db) && Rebuildable(db) && db.reservations == {}
      ensures FreshFrom(old(db), order, 0, ids) ==> r.Ok?
      ensures r.Ok? ==>
                && db.rows.runs.Keys == old(db).rows.runs.Keys
                && (forall q | q in db.rows.runs ::
                      db.rows.runs[q] == if old(db).rows.runs[q].status == Running
                                         then LostRow(old(db).rows.runs[q], at(q)) else old(db).rows.runs[q])
                && (forall s | s in db.rows.submissions :: db.rows.submissions[s].status != Running)
                && Settled(db.rows)
    {
      ClearedStillRebuilds(db);
      db := db.(reservations := {});
      assert FreshFrom(old(db), order, 0, ids) ==> FreshFrom(db, order, 0, ids) by {
        assert forall c :: LogOf(db, c) == LogOf(old(db), c);
        assert forall q | q in db.rows.runs :: FreshFor(old(db), q, ids) ==> FreshFor(db, q, ids);
      }
      for i := 0 to |order|
        invariant Valid(db) && Rebuildable(db) && db.reservations == {}
        invariant FailedUpTo(old(db).rows.runs, db.rows.runs, order, i, at)
        invariant FreshFrom(old(db), order, 0, ids) ==> FreshFrom(db, order, i, ids)
      {
        assert order[i] in order;
        var run := ClaimedValue(order[i], db.rows.runs[order[i]]);
        ghost var before := db;
        if FreshFrom(db, order, i, ids) {
          assert FreshFor(db, order[i], ids);
          EndRunSucceeds(db, run, Lost, ids(order[i]), at(order[i]));
        }
        var events :- EndRun(run, Lost, ids(order[i]), at(order[i]));
        RecoverOne(old(db), before, db, order, i, ids(order[i]), at, events);
        if FreshFrom(before, order, i, ids) {
          StillFresh(old(db), before, db, order, i, ids, at, events);
        }
      }
      forall q | q in db.rows.runs
        ensures db.rows.runs[q] == if old(db).rows.runs[q].status == Running
                                   then LostRow(old(db).rows.runs[q], at(q)) else old(db).rows.runs[q]
      {
        if q in order {
          var i :| 0 <= i < |order| && order[i] == q;
        }
      }
      NothingRuns(db);
      return Ok(());
    }

    /** rebuildIndexes: `rows` is the result of its SELECT. */
    method RebuildIndexes(rows: seq<Event>) returns (r: Result<(), StoreError>)
      modifies this
      ensures r.Ok? <==> RebuildFrom(old(db), rows).Ok?
      ensures db == if r.Ok? then RebuildFrom(old(db), rows).value else old(db)
    {
      var tx := db.(rows := EmptyTables);
      var admitted: map<(Id, Id), Id> := map[];
      for i := 0 to |rows|
        invariant tx == old(db).(rows := tx.rows) && db == old(db)
        invariant ReplayAll(db.conversations.Keys, Cleared, rows[..i]) == Ok(Index(tx.rows, admitted))
      {
        ReplayNext(db.conversations.Keys, rows, i);
        var replayed := ReplayEvent(tx.conversations.Keys, Index(tx.rows, admitted), rows[i]);
        if replayed.Err? {
          ReplayStuck(db.conversations.Keys, rows, i + 1);
          return Err(replayed.error);
        }
        tx, admitted := tx.(rows := replayed.value.rows), replayed.value.admitted;
      }
      assert rows[..|rows|] == rows;
      if admitted != map[] {
        return Err(Invalid("input admission has no matching run start"));
      }
      db := tx.(conversations := map c | c in tx.conversations :: tx.conversations[c].(next := NextCursor(LogOf(tx, c))));
      return Ok(());
    }

    method ReleaseWorkspace(workspace: Id)
      modifies this
      ensures db == Release(old(db), workspace)
    {
      db := db.(reservations := db.reservations - {workspace});
    }
  }
}
