/** What the store's transactions mean to the manager: whose rows change,
    what the public logs gain, and which submissions become eligible. */
module ManagerStore {
  import opened Wrappers
  import opened Events
  import opened Store
  import opened StoreInvariant
  import opened StoreSteps
  import opened StoreTheorems
  import opened StoreProgress
  import opened Rebuild
  import opened RebuildTheorems
  import opened Snapshots
  import M = Manager

  ghost predicate StoreOk(db: Db) {
    Valid(db) && Rebuildable(db)
  }

  /** The public log of `conv` gains `events`; the other logs stay. */
  ghost predicate Publishes(db: Db, db': Db, conv: Id, events: seq<Event>) {
    true == (
      && conv in db.conversations && db'.conversations.Keys == db.conversations.Keys
      && PublicOf(LogOf(db', conv)) == PublicOf(LogOf(db, conv)) + events
      && LogOf(db, conv) <= LogOf(db', conv)
      && (forall c | c != conv :: LogOf(db', c) == LogOf(db, c)))
  }

  /** Every run keeps its identity, and runs other than `except` their rows. */
  ghost predicate RunsStay(db: Db, db': Db, except: Id) {
    true == (
      forall q | q in db.rows.runs ::
        && q in db'.rows.runs
        && ClaimedValue(q, db'.rows.runs[q]) == ClaimedValue(q, db.rows.runs[q])
        && (q != except ==> db'.rows.runs[q] == db.rows.runs[q]))
  }

  /** No submission becomes eligible. */
  ghost predicate NothingNew(db: Db, db': Db) {
    forall s :: Eligible(db', s) ==> Eligible(db, s)
  }

  lemma {:induction false} AllPublic(events: seq<Event>)
    requires forall e | e in events :: Public(e)
    ensures PublicOf(events) == events
    decreases |events|
  {
    if events != [] {
      AllPublic(events[..|events| - 1]);
    }
  }

  lemma AppendPublishes(db: Db, db': Db, conv: Id, stored: seq<Event>, events: seq<Event>)
    requires Appended(db, db', conv, stored) && PublicOf(stored) == events
    ensures Publishes(db, db', conv, events)
  {
    PublicAppend(LogOf(db, conv), stored);
  }

  lemma AdvancePublishes(db: Db, db': Db, conv: Id, stored: seq<Event>, events: seq<Event>)
    requires Advances(db, db', conv, stored) && PublicOf(stored) == events
    ensures Publishes(db, db', conv, events)
  {
    AppendPublishes(db, db', conv, stored, events);
  }

  lemma QuietIsNothingNew(db: Db, db': Db, conv: Id, stored: seq<Event>)
    requires Advances(db, db', conv, stored) && db'.rows.submissions == db.rows.submissions
    ensures NothingNew(db, db')
  {
    assert Appended(db, db', conv, stored);
    assert forall lock :: LockHeld(db, lock) ==> LockHeld(db', lock);
    assert forall c :: RunningIn(db.rows, c) ==> RunningIn(db'.rows, c);
  }

  // --------------------------------------------------------- runner events

  lemma CommitKeeps(db: Db, op: Op, run: Run, db': Db, events: seq<Event>)
    requires StoreOk(db) && op.OpCommit? && op.run == run && FromClaim(db, run) && db.rows.runs[run.id].status == Running
    requires M.EmitTx(db, op) == M.Done(db', events)
    ensures Valid(db') && Advances(db, db', run.conv, events) && PublicOf(events) == events
    ensures db'.rows.runs == db.rows.runs && db'.rows.submissions == db.rows.submissions
  {
    CommitTurnAdvances(db, run, op.parts, op.newId, op.now, db', events[0]);
    CommitTurnStep(db, run, op.parts, op.newId, op.now);
    CommitTurnEvent(db, run, op.parts, op.newId, op.now);
    AllPublic(events);
  }

  lemma CommitTurnEvent(db: Db, run: Run, parts: seq<Part>, outputId: NewId, now: Time)
    requires CommitTurn(db, run, parts, outputId, now).Ok?
    ensures CommitTurn(db, run, parts, outputId, now).value.1.body.AssistantCommitted?
  {
  }

  lemma ToolKeeps(db: Db, op: Op, run: Run, db': Db, events: seq<Event>)
    requires StoreOk(db) && (op.OpCompleteTool? || op.OpDenyTool?) && op.run == run && FromClaim(db, run)
    requires M.EmitTx(db, op) == M.Done(db', events)
    ensures Valid(db') && Advances(db, db', run.conv, events) && PublicOf(events) == events
    ensures db'.rows.runs == db.rows.runs && db'.rows.submissions == db.rows.submissions
  {
    var status := if op.OpDenyTool? then Denied else if op.result.ok then Succeeded else Faulted;
    FinishToolAdvances(db, run, op.result, status, op.newId, op.now, db', events[0]);
    FinishToolStep(db, run, op.result, status, op.newId, op.now, db', events[0]);
    FinishToolEvent(db, run, op.result, status, op.newId, op.now);
    AllPublic(events);
  }

  lemma FinishToolEvent(db: Db, run: Run, result: ToolResult, status: ToolStatus, id: NewId, now: Time)
    requires FinishTool(db, run, result, status, id, now).Ok?
    ensures FinishTool(db, run, result, status, id, now).value.1.body.ToolOutcomeRecorded?
  {
  }

  lemma NoteKeeps(db: Db, op: Op, run: Run, db': Db, events: seq<Event>) returns (stored: seq<Event>)
    requires StoreOk(db) && (op.OpProgress? || op.OpAgent?) && op.run == run && FromClaim(db, run)
    requires M.EmitTx(db, op) == M.Done(db', events)
    ensures Valid(db') && Advances(db, db', run.conv, stored) && PublicOf(stored) == events
    ensures db'.rows.runs == db.rows.runs && db'.rows.submissions == db.rows.submissions
  {
    var body := if op.OpProgress? then EnvironmentProgress(op.step, op.message) else AgentFact(op.name);
    var e := Event(0, run.conv, run.id, run.inbound, op.now, body);
    var event := AppendEvent(db, e).value.1;
    stored := [event];
    NoteAdvances(db, run, e, db', event);
    NoteStep(db, e, db', event);
    if op.OpProgress? {
      AllPublic(stored);
    } else {
      assert stored[..0] == [];
    }
  }

  /** What emitRunEvent commits for a running run. */
  lemma EmitKeeps(db: Db, op: Op, run: Run, db': Db, events: seq<Event>)
    requires StoreOk(db) && M.EmitOp(op, run) && FromClaim(db, run) && db.rows.runs[run.id].status == Running
    requires M.EmitTx(db, op) == M.Done(db', events)
    ensures StoreOk(db') && Publishes(db, db', run.conv, events) && NothingNew(db, db') && db'.rows.runs == db.rows.runs
  {
    var stored := events;
    if op.OpCommit? {
      CommitKeeps(db, op, run, db', events);
    } else if op.OpCompleteTool? || op.OpDenyTool? {
      ToolKeeps(db, op, run, db', events);
    } else {
      stored := NoteKeeps(db, op, run, db', events);
    }
    AdvanceKeeps(db, db', run.conv, stored);
    AdvancePublishes(db, db', run.conv, stored, events);
    QuietIsNothingNew(db, db', run.conv, stored);
  }

  // --------------------------------------------------------------- endings

  lemma FinishRunEvents(db: Db, run: Run, answer: string, outputId: NewId, now: Time)
    requires FinishRun(db, run, answer, outputId, now).Ok?
    ensures forall e | e in FinishRun(db, run, answer, outputId, now).value.1 :: Public(e)
  {
  }

  lemma {:induction false} InterruptEvents(db: Db, run: Run, calls: seq<ToolRow>, ids: nat -> NewId, k: nat, now: Time)
    requires Interrupt(db, run, calls, ids, k, now).Ok?
    ensures forall e | e in Interrupt(db, run, calls, ids, k, now).value.1 :: Public(e)
    decreases calls
  {
    if calls != [] {
      var result := InterruptedResult(calls[0]);
      FinishToolEvent(db, run, result, Interrupted, ids(k), now);
      InterruptEvents(FinishTool(db, run, result, Interrupted, ids(k), now).value.0, run, calls[1..], ids, k + 1, now);
    }
  }

  lemma EndRunEvents(db: Db, run: Run, ending: Ending, ids: nat -> NewId, now: Time)
    requires EndRun(db, run, ending, ids, now).Ok?
    ensures forall e | e in EndRun(db, run, ending, ids, now).value.1 :: Public(e)
  {
    InterruptEvents(db, run, RequestedCalls(ToolsOf(db.rows, run.id)), ids, 0, now);
  }

  lemma FinishKeeps(db: Db, run: Run, answer: string, outputId: NewId, now: Time, db': Db, events: seq<Event>)
    requires StoreOk(db) && FromClaim(db, run) && db.rows.runs[run.id].status == Running
    requires FinishRun(db, run, answer, outputId, now) == Ok((db', events))
    ensures Valid(db') && Advances(db, db', run.conv, events) && PublicOf(events) == events && RunsStay(db, db', run.id)
  {
    FinishRunAdvances(db, run, answer, outputId, now, db', events);
    FinishStays(db, run, answer, outputId, now, db', events);
    FinishRunEvents(db, run, answer, outputId, now);
    AllPublic(events);
  }

  lemma FinishStays(db: Db, run: Run, answer: string, outputId: NewId, now: Time, db': Db, events: seq<Event>)
    requires StoreOk(db) && FromClaim(db, run) && db.rows.runs[run.id].status == Running
    requires FinishRun(db, run, answer, outputId, now) == Ok((db', events))
    ensures RunsStay(db, db', run.id)
  {
    FinishRunCommits(db, run, answer, outputId, now, db', events);
  }

  lemma EndKeeps(db: Db, run: Run, ending: Ending, ids: nat -> NewId, now: Time, db': Db, events: seq<Event>)
    requires StoreOk(db) && FromClaim(db, run) && db.rows.runs[run.id].status == Running
    requires EndRun(db, run, ending, ids, now) == Ok((db', events))
    ensures Valid(db') && Advances(db, db', run.conv, events) && PublicOf(events) == events && RunsStay(db, db', run.id)
  {
    EndRunAdvances(db, run, ending, ids, now, db', events);
    EndStays(db, run, ending, ids, now, db', events);
    EndRunEvents(db, run, ending, ids, now);
    AllPublic(events);
  }

  lemma EndStays(db: Db, run: Run, ending: Ending, ids: nat -> NewId, now: Time, db': Db, events: seq<Event>)
    requires StoreOk(db) && FromClaim(db, run) && db.rows.runs[run.id].status == Running
    requires EndRun(db, run, ending, ids, now) == Ok((db', events))
    ensures RunsStay(db, db', run.id)
  {
    EndRunStep(db, run, ending, ids, now, db', events);
  }

  /** What work's terminal transaction commits for a running run. */
  lemma TerminalKeeps(db: Db, run: Run, stopped: bool, outcome: M.RunOutcome, ids: nat -> NewId, now: Time, db': Db, events: seq<Event>)
    requires StoreOk(db) && FromClaim(db, run) && db.rows.runs[run.id].status == Running
    requires M.TerminalTx(db, run, stopped, outcome, ids, now) == M.Done(db', events)
    ensures StoreOk(db') && Publishes(db, db', run.conv, events) && RunsStay(db, db', run.id)
  {
    match outcome {
      case Answered(answer) => FinishKeeps(db, run, answer, ids(0), now, db', events);
      case Errored(message) => EndKeeps(db, run, if stopped then RunStop else RunFailure(message), ids, now, db', events);
    }
    AdvanceKeeps(db, db', run.conv, events);
    AdvancePublishes(db, db', run.conv, events, events);
  }

  // ---------------------------------------------------- accepts and claims

  lemma AcceptKeeps(db: Db, conv: Id, input: InputSubmission, id: NewId, now: Time, db': Db, events: seq<Event>)
    requires StoreOk(db) && conv in db.conversations && M.AcceptTx(db, conv, input, id, now) == M.Done(db', events)
    ensures StoreOk(db') && db'.rows.runs == db.rows.runs && Publishes(db, db', conv, events)
    ensures events == [] ==> db' == db
  {
    if KeyTaken(db.rows, conv, input.key) {
      NothingPublished(db, conv);
    } else {
      AcceptAdvances(db, conv, input, id, now, db', events[0]);
      AdvanceKeeps(db, db', conv, events);
      AcceptEvent(db, conv, input, id, now);
      AllPublic(events);
      AdvancePublishes(db, db', conv, events, events);
    }
  }

  lemma NothingPublished(db: Db, conv: Id)
    requires conv in db.conversations
    ensures Publishes(db, db, conv, [])
  {
    assert PublicOf(LogOf(db, conv)) + [] == PublicOf(LogOf(db, conv));
  }

  lemma AcceptEvent(db: Db, conv: Id, input: InputSubmission, id: NewId, now: Time)
    requires InsertAccepted(db, conv, input, id, now).Ok?
    ensures InsertAccepted(db, conv, input, id, now).value.1.body.InputAccepted?
    ensures InsertAccepted(db, conv, input, id, now).value.0.rows.runs == db.rows.runs
  {
  }

  /** A claim: its run is new and running, alone in its conversation. */
  lemma ClaimKeeps(db: Db, runId: NewId, now: Time, db': Db, claim: Claimed)
    requires StoreOk(db) && runId !in db.rows.runs && M.ClaimTx(db, runId, now) == M.Taken(db', claim)
    ensures StoreOk(db') && Publishes(db, db', claim.run.conv, claim.events) && RunsStay(db, db', runId)
    ensures claim.run.id == runId && FromClaim(db', claim.run) && db'.rows.runs[runId].status == Running
    ensures forall r | r in db.rows.runs && db.rows.runs[r].status == Running :: db.rows.runs[r].conv != claim.run.conv
  {
    var s :| IsNext(db, s) && ClaimOne(db, s, runId, now) == Ok((db', claim));
    ClaimAdvances(db, s, runId, now, db', claim);
    AdvanceKeeps(db, db', claim.run.conv, claim.events);
    ClaimedMeaning(db, s, runId, now, db', claim);
    ClaimEvents(db, s, runId, now);
    AllPublic(claim.events);
    AdvancePublishes(db, db', claim.run.conv, claim.events, claim.events);
    NoneRunsIn(db, s);
  }

  lemma ClaimEvents(db: Db, id: Id, runId: NewId, now: Time)
    requires id in db.rows.submissions && ClaimOne(db, id, runId, now).Ok?
    ensures forall e | e in ClaimOne(db, id, runId, now).value.1.events :: Public(e)
  {
  }

  lemma NoneRunsIn(db: Db, s: Id)
    requires Valid(db) && Eligible(db, s)
    ensures forall r | r in db.rows.runs && db.rows.runs[r].status == Running :: db.rows.runs[r].conv != db.rows.submissions[s].conv
  {
    assert Invariant(db);
    forall r | r in db.rows.runs && db.rows.runs[r].status == Running
      ensures db.rows.runs[r].conv != db.rows.submissions[s].conv
    {
      assert RunOk(db.rows.submissions, db.rows.runs, r);
    }
  }

  /** Nothing eligible, nothing claimed, and the other way round. */
  lemma ClaimFindsAll(db: Db, runId: NewId, now: Time)
    requires StoreOk(db) && runId !in db.rows.runs
    ensures !M.ClaimTx(db, runId, now).ClaimError?
    ensures M.ClaimTx(db, runId, now).NothingEligible? <==> forall s :: !Eligible(db, s)
  {
    ClaimTakesEarliest(db, runId, now);
  }

  // --------------------------------------------------------- reservations

  lemma ReserveKeeps(db: Db, workspace: Id, db': Db)
    requires StoreOk(db) && Reserve(db, workspace) == Ok(db')
    ensures StoreOk(db') && db'.rows == db.rows && db'.log == db.log && db'.conversations == db.conversations && NothingNew(db, db')
  {
    ReserveStep(db, workspace, db');
    EffectRebuildable(db, db');
    assert forall lock :: LockHeld(db, lock) == LockHeld(db', lock);
  }

  lemma ReleaseKeeps(db: Db, workspace: Id)
    requires StoreOk(db)
    ensures StoreOk(Release(db, workspace))
  {
    ReleaseStep(db, workspace);
    EffectRebuildable(db, Release(db, workspace));
  }

  lemma OpenKeeps(db: Db, id: Id, agent: string, workspace: Id, lock: string, db': Db)
    requires StoreOk(db) && CreateConversation(db, id, agent, workspace, lock) == Ok(db')
    ensures StoreOk(db') && db'.rows == db.rows && db'.log == db.log && NothingNew(db, db')
  {
    CreateStep(db, id, agent, workspace, lock, db');
    EffectRebuildable(db, db');
    OpenNothingNew(db, id, agent, workspace, lock, db');
  }

  lemma OpenNothingNew(db: Db, id: Id, agent: string, workspace: Id, lock: string, db': Db)
    requires Valid(db) && CreateConversation(db, id, agent, workspace, lock) == Ok(db')
    ensures NothingNew(db, db')
  {
    assert Invariant(db);
    assert forall s | s in db.rows.submissions :: SubmissionOk(db.rows.submissions, db.conversations.Keys, s);
    ElsewhereNothingNew(db, db');
  }

  /** A conversation that no submission is in concerns none. */
  lemma ElsewhereNothingNew(db: Db, db': Db)
    requires db'.rows == db.rows && db'.reservations == db.reservations
    requires forall c | c in db.conversations :: c in db'.conversations && db'.conversations[c] == db.conversations[c]
    requires forall s | s in db.rows.submissions :: db.rows.submissions[s].conv in db.conversations
    ensures NothingNew(db, db')
  {
    assert forall key :: LockHeld(db, key) ==> LockHeld(db', key);
  }
}
