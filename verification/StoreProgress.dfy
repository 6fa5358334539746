/** When the transactions of a reachable store succeed. Identifiers come from
    a random source; the only failure left is a collision of identifiers. */
module StoreProgress {
  import opened Wrappers
  import opened Events
  import opened Store
  import opened Replay
  import opened StoreInvariant
  import opened StoreSteps
  import opened Rebuild

  ghost predicate HasMessage(log: seq<Event>, id: Id) {
    exists e :: e in log && MessageId(e) == id
  }

  /** From the k-th on, the ids are different and name no message of the log. */
  ghost predicate FreshIds(log: seq<Event>, ids: nat -> NewId, k: nat) {
    && (forall i: nat | k <= i :: !HasMessage(log, ids(i)))
    && (forall i: nat, j: nat :: ids(i) == ids(j) ==> i == j)
  }

  ghost predicate Appendable(db: Db, e: Event) {
    true == (e.conv in db.conversations && (MessageId(e) == NoId || !HasMessage(LogOf(db, e.conv), MessageId(e))))
  }

  lemma AppendSucceeds(db: Db, e: Event)
    requires LogOk(db) && Appendable(db, e)
    ensures AppendEvent(db, e).Ok?
  {
    assert ConversationOk(db, e.conv);
    var stored := e.(cursor := db.conversations[e.conv].next);
    assert MessageId(stored) == MessageId(e);
  }

  lemma AppendWithRows(db: Db, rows: Tables, e: Event) returns (db': Db, stored: Event)
    requires LogOk(db) && Appendable(db, e)
    ensures AppendEvent(db.(rows := rows), e) == Ok((db', stored))
    ensures LogOk(db') && Appended(db.(rows := rows), db', e.conv, [stored]) && stored == e.(cursor := stored.cursor)
  {
    var mid := db.(rows := rows);
    RowsLeaveLog(db, rows);
    AppendSucceeds(mid, e);
    AppendEventEffect(mid, e);
    db', stored := AppendEvent(mid, e).value.0, AppendEvent(mid, e).value.1;
  }

  // --------------------------------------------------------------- claim

  /** ClaimRunnable's choice: something is next exactly when something is
      eligible, and it is the only such submission. */
  lemma NextExists(db: Db)
    ensures (exists id :: Eligible(db, id)) <==> (exists id :: IsNext(db, id))
  {
    if (exists id :: Eligible(db, id)) {
      var eligible := set id | id in db.rows.submissions && Eligible(db, id);
      var id :| Eligible(db, id);
      assert id in eligible;
      var first := Earliest(db.rows, eligible);
      assert IsNext(db, first);
    }
  }

  lemma {:induction false} Earliest(t: Tables, ids: set<Id>) returns (first: Id)
    requires ids != {} && (forall id | id in ids :: id in t.submissions)
    ensures first in ids && forall id | id in ids :: Before(t, first, id)
    decreases |ids|
  {
    var id :| id in ids;
    first := id;
    if ids != {id} {
      var rest := Earliest(t, ids - {id});
      first := if Before(t, id, rest) then id else rest;
      assert forall other | other in ids :: other == id || other in ids - {id};
    }
  }

  lemma NextIsUnique(db: Db, a: Id, b: Id)
    requires IsNext(db, a) && IsNext(db, b)
    ensures a == b
  {
  }

  /** Only accepted inputs put rows into the submissions table. */
  lemma {:induction false} SubmissionWasAccepted(convs: set<Id>, events: seq<Event>, s: Id)
    requires ReplayAll(convs, Cleared, events).Ok? && s in ReplayAll(convs, Cleared, events).value.rows.submissions
    ensures exists i :: 0 <= i < |events| && events[i].body.InputAccepted? && events[i].inbound == s
    decreases |events|
  {
    var n := |events| - 1;
    var mid := ReplayAll(convs, Cleared, events[..n]).value;
    if s in mid.rows.submissions {
      SubmissionWasAccepted(convs, events[..n], s);
      var i :| 0 <= i < n && events[..n][i].body.InputAccepted? && events[..n][i].inbound == s;
      assert events[i].inbound == s;
    } else {
      ReplaySubmissions(convs, mid, events[n], s);
    }
  }

  lemma ReplaySubmissions(convs: set<Id>, st: Index, e: Event, s: Id)
    requires ReplayEvent(convs, st, e).Ok? && s in ReplayEvent(convs, st, e).value.rows.submissions
    ensures s in st.rows.submissions || (e.body.InputAccepted? && e.inbound == s)
  {
    if e.body.AssistantCommitted? {
      ReplayToolsRows(st.rows, convs, e, e.body.output.parts);
    }
  }

  lemma {:induction false} FindMessageFinds(log: seq<Event>, i: nat, id: Id)
    requires i < |log| && MessageId(log[i]) == id
    requires forall j | 0 <= j < |log| && MessageId(log[j]) == id :: j == i
    ensures FindMessage(log, id) == Some(log[i])
  {
    if i != 0 {
      FindMessageFinds(log[1..], i - 1, id);
    }
  }

  /** The input of every submission can be read back from the log. */
  lemma InputIsStored(db: Db, s: Id)
    requires Valid(db) && Rebuildable(db) && s in db.rows.submissions
    ensures LoadInput(db, db.rows.submissions[s].conv, s).Ok?
    ensures exists e :: && e in LogOf(db, db.rows.submissions[s].conv) && e.body.InputAccepted? && e.inbound == s
                        && LoadInput(db, db.rows.submissions[s].conv, s) == Ok(e.body.input.parts)
  {
    assert Invariant(db);
    var c := db.rows.submissions[s].conv;
    assert SubmissionOk(db.rows.submissions, db.conversations.Keys, s);
    assert ConvRebuilt(db, c) && ConversationOk(db, c);
    SubmissionWasAccepted({c}, LogOf(db, c), s);
    var i :| 0 <= i < |LogOf(db, c)| && LogOf(db, c)[i].body.InputAccepted? && LogOf(db, c)[i].inbound == s;
    assert forall j: nat | j < |LogOf(db, c)| && MessageId(LogOf(db, c)[j]) == s :: SameMessage(LogOf(db, c), i, j);
    FindMessageFinds(LogOf(db, c), i, s);
  }

  /** In a reachable store an eligible submission can be claimed under any
      fresh run id. */
  lemma ClaimOneSucceeds(db: Db, id: Id, runId: NewId, now: Time)
    requires Valid(db) && Rebuildable(db) && Eligible(db, id) && runId !in db.rows.runs
    ensures ClaimOne(db, id, runId, now).Ok?
  {
    InputIsStored(db, id);
    assert LogOk(db) && SubmissionOk(db.rows.submissions, db.conversations.Keys, id) by {
      assert Invariant(db);
    }
    ClaimRows(db.rows, db.conversations.Keys, id, runId, now);
    ClaimEntries(db, ClaimedTables(db.rows, id, runId, now), ClaimedValue(runId, ClaimedRow(db.rows, id, now)), now);
  }

  lemma ClaimEntries(db: Db, rows: Tables, run: Run, now: Time)
    requires LogOk(db) && run.conv in db.conversations
    ensures var first := AppendEvent(db.(rows := rows), Event(0, run.conv, run.id, run.inbound, now, InputAdmitted));
            && first.Ok?
            && AppendEvent(first.value.0, Event(0, run.conv, run.id, run.inbound, now, RunStarted(run))).Ok?
  {
    var e := Event(0, run.conv, run.id, run.inbound, now, InputAdmitted);
    var f := Event(0, run.conv, run.id, run.inbound, now, RunStarted(run));
    NoMessageAppends(db, e);
    var db1, stored := AppendWithRows(db, rows, e);
    assert run.conv in db1.conversations;
    NoMessageAppends(db1, f);
    AppendSucceeds(db1, f);
  }

  lemma NoMessageAppends(db: Db, e: Event)
    requires e.conv in db.conversations && MessageId(e) == NoId
    ensures Appendable(db, e)
  {
  }

  lemma ClaimRows(t: Tables, convs: set<Id>, id: Id, runId: NewId, now: Time)
    requires id in t.submissions && !RunningIn(t, t.submissions[id].conv) && runId !in t.runs
    requires t.submissions[id].conv in convs && t.submissions[id].revision != ""
    ensures StartSubmission(t, id).Ok?
    ensures InsertRun(StartSubmission(t, id).value, convs, runId, ClaimedRow(t, id, now)) == Ok(ClaimedTables(t, id, runId, now))
  {
  }

  lemma ClaimIsOk(db: Db, runId: NewId, now: Time)
    requires Valid(db) && Rebuildable(db) && runId !in db.rows.runs
    ensures Claim(db, runId, now).Ok?
  {
    forall s | IsNext(db, s)
      ensures ClaimOne(db, s, runId, now).Ok?
    {
      ClaimOneSucceeds(db, s, runId, now);
    }
  }

  /** ClaimRunnable in a reachable store: it never fails, it returns nothing
      exactly when nothing is eligible, and what it claims is the least
      eligible submission by (accepted_at, id), with the parts accepted for
      it, now running under the new run. */
  lemma ClaimTakesEarliest(db: Db, runId: NewId, now: Time)
    requires Valid(db) && Rebuildable(db) && runId !in db.rows.runs
    ensures Claim(db, runId, now).Ok?
    ensures var (db', claim) := Claim(db, runId, now).value;
            && (claim.None? <==> forall s :: !Eligible(db, s))
            && (claim.None? ==> db' == db)
            && (claim.Some? ==>
                  var s := claim.value.run.inbound;
                  && Eligible(db, s)
                  && (forall other | Eligible(db, other) :: Before(db.rows, s, other))
                  && claim.value.run == ClaimedValue(runId, ClaimedRow(db.rows, s, now))
                  && db'.rows == ClaimedTables(db.rows, s, runId, now)
                  && HoldsInput(LogOf(db, claim.value.run.conv), s, claim.value.parts))
  {
    NextExists(db);
    ClaimIsOk(db, runId, now);
    var (db', claim) := Claim(db, runId, now).value;
    if claim.Some? {
      var s :| IsNext(db, s) && ClaimOne(db, s, runId, now) == Ok((db', claim.value));
      ClaimedMeaning(db, s, runId, now, db', claim.value);
    }
  }

  ghost predicate HoldsInput(log: seq<Event>, s: Id, parts: seq<TextPart>) {
    exists e :: e in log && e.body.InputAccepted? && e.inbound == s && e.body.input.parts == parts
  }

  lemma ClaimedMeaning(db: Db, s: Id, runId: NewId, now: Time, db': Db, claim: Claimed)
    requires Valid(db) && Rebuildable(db) && IsNext(db, s)
    requires ClaimOne(db, s, runId, now) == Ok((db', claim))
    ensures claim.run == ClaimedValue(runId, ClaimedRow(db.rows, s, now))
    ensures db'.rows == ClaimedTables(db.rows, s, runId, now)
    ensures HoldsInput(LogOf(db, claim.run.conv), s, claim.parts)
  {
    InputIsStored(db, s);
  }

  // ------------------------------------------------------------- endings

  lemma FreshLater(log: seq<Event>, e: Event, ids: nat -> NewId, k: nat)
    requires FreshIds(log, ids, k) && MessageId(e) == ids(k)
    ensures FreshIds(log + [e], ids, k + 1)
  {
    forall i: nat | k + 1 <= i
      ensures !HasMessage(log + [e], ids(i))
    {
      assert !HasMessage(log, ids(i)) && ids(i) != ids(k);
    }
  }

  lemma FinishToolSucceeds(db: Db, run: Run, result: ToolResult, status: ToolStatus, id: NewId, now: Time)
    requires LogOk(db) && run.conv in db.conversations
    requires RequestedIndex(ToolsOf(db.rows, run.id), result.call) < |ToolsOf(db.rows, run.id)|
    requires !HasMessage(LogOf(db, run.conv), id)
    ensures FinishTool(db, run, result, status, id, now).Ok?
    ensures var (db', event) := FinishTool(db, run, result, status, id, now).value;
            MessageId(event) == id && LogOf(db', run.conv) == LogOf(db, run.conv) + [event]
  {
    var tools := ToolsOf(db.rows, run.id);
    var i := RequestedIndex(tools, result.call);
    var e := Event(0, run.conv, run.id, run.inbound, now,
                   ToolOutcomeRecorded(ToolOutcome(id, result.call, tools[i].kind, status, result)));
    var rows := SetTool(db.rows, run.id, i, status, now);
    var db', stored := AppendWithRows(db, rows, e);
    assert FinishTool(db, run, result, status, id, now) == Ok((db', stored));
    LogGrew(db, rows, db', run.conv, stored);
  }

  lemma LogGrew(db: Db, rows: Tables, db': Db, conv: Id, stored: Event)
    requires Appended(db.(rows := rows), db', conv, [stored])
    ensures LogOf(db', conv) == LogOf(db, conv) + [stored]
  {
  }

  lemma {:induction false} InterruptSucceeds(db: Db, run: Run, calls: seq<ToolRow>, ids: nat -> NewId, k: nat, now: Time)
    requires Valid(db) && FromClaim(db, run) && run.conv in db.conversations
    requires calls == RequestedCalls(ToolsOf(db.rows, run.id)) && FreshIds(LogOf(db, run.conv), ids, k)
    ensures Interrupt(db, run, calls, ids, k, now).Ok?
    decreases calls
  {
    if calls != [] {
      var db1, event := OneInterrupted(db, run, calls, ids(k), now);
      FreshLater(LogOf(db, run.conv), event, ids, k);
      InterruptSucceeds(db1, run, calls[1..], ids, k + 1, now);
    }
  }

  /** The first of the requested calls. */
  lemma OneInterrupted(db: Db, run: Run, calls: seq<ToolRow>, id: NewId, now: Time) returns (db': Db, event: Event)
    requires Valid(db) && FromClaim(db, run) && run.conv in db.conversations
    requires calls == RequestedCalls(ToolsOf(db.rows, run.id)) && calls != [] && !HasMessage(LogOf(db, run.conv), id)
    ensures FinishTool(db, run, InterruptedResult(calls[0]), Interrupted, id, now) == Ok((db', event))
    ensures Valid(db') && FromClaim(db', run) && run.conv in db'.conversations
    ensures calls[1..] == RequestedCalls(ToolsOf(db'.rows, run.id))
    ensures MessageId(event) == id && LogOf(db', run.conv) == LogOf(db, run.conv) + [event]
  {
    RunFacts(db, run);
    ResolveFirst(ToolsOf(db.rows, run.id), run.id, db.rows.runs[run.id], Interrupted, now);
    assert LogOk(db) by { assert Invariant(db); }
    FinishToolSucceeds(db, run, InterruptedResult(calls[0]), Interrupted, id, now);
    db', event := FinishTool(db, run, InterruptedResult(calls[0]), Interrupted, id, now).value.0,
                  FinishTool(db, run, InterruptedResult(calls[0]), Interrupted, id, now).value.1;
    AfterOne(db, run, InterruptedResult(calls[0]), id, now, db', event);
  }

  lemma AfterOne(db: Db, run: Run, result: ToolResult, id: NewId, now: Time, db': Db, event: Event)
    requires Valid(db) && FromClaim(db, run) && run.conv in db.conversations
    requires FinishTool(db, run, result, Interrupted, id, now) == Ok((db', event))
    ensures Valid(db') && FromClaim(db', run) && run.conv in db'.conversations
  {
    FinishToolStep(db, run, result, Interrupted, id, now, db', event);
    ClaimSurvives(db, db', run);
  }

  /** FailRun and StopRun of a running run succeed in a reachable store. */
  lemma EndRunSucceeds(db: Db, run: Run, ending: Ending, ids: nat -> NewId, now: Time)
    requires Valid(db) && FromClaim(db, run) && FreshIds(LogOf(db, run.conv), ids, 0)
    ensures EndRun(db, run, ending, ids, now).Ok?
  {
    RunFacts(db, run);
    var calls := RequestedCalls(ToolsOf(db.rows, run.id));
    InterruptSucceeds(db, run, calls, ids, 0, now);
    var (db1, events) := Interrupt(db, run, calls, ids, 0, now).value;
    InterruptStep(db, run, calls, ids, 0, now, db1, events);
    LastEntrySucceeds(db1, run, ending, now);
  }

  lemma LastEntrySucceeds(db: Db, run: Run, ending: Ending, now: Time)
    requires Valid(db) && run.conv in db.conversations
    ensures var rows := SetRun(SetSubmission(db.rows, run.inbound, EndStatus(ending), EndMessage(ending)),
                               run.id, EndStatus(ending), EndMessage(ending), now);
            var ended := run.(status := EndStatus(ending), error := EndMessage(ending), completedAt := Some(now));
            AppendEvent(db.(rows := rows), Event(0, run.conv, run.id, run.inbound, now, EndBody(ending, ended))).Ok?
  {
    assert LogOk(db) by { assert Invariant(db); }
    var rows := SetRun(SetSubmission(db.rows, run.inbound, EndStatus(ending), EndMessage(ending)),
                       run.id, EndStatus(ending), EndMessage(ending), now);
    var ended := run.(status := EndStatus(ending), error := EndMessage(ending), completedAt := Some(now));
    var _, _ := AppendWithRows(db, rows, Event(0, run.conv, run.id, run.inbound, now, EndBody(ending, ended)));
  }
}
