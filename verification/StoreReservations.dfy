/** Workspace reservations (runtime/sqlite/store.go): a restore holds its
    workspace from ReserveWorkspace to ReleaseWorkspace. */
module StoreReservations {
  import opened Wrappers
  import opened Events
  import opened Store
  import opened StoreInvariant
  import opened StoreTheorems

  /** Some run of the workspace is running, by the runs table. */
  ghost predicate RunsIn(db: Db, workspace: Id) {
    exists r :: RunsThere(db, workspace, r)
  }

  ghost predicate RunsThere(db: Db, workspace: Id, r: Id) {
    && r in db.rows.runs && db.rows.runs[r].status == Running
    && db.rows.runs[r].conv in db.conversations && db.conversations[db.rows.runs[r].conv].workspace == workspace
  }

  /** The query looks at submissions; in a valid store that is as good as
      looking at runs. */
  lemma RunningBySubmission(db: Db, workspace: Id)
    requires Valid(db)
    ensures WorkspaceRunning(db, workspace) <==> RunsIn(db, workspace)
  {
    assert Invariant(db);
    if WorkspaceRunning(db, workspace) {
      var s :| && s in db.rows.submissions && db.rows.submissions[s].status == Running
               && db.rows.submissions[s].conv in db.conversations
               && db.conversations[db.rows.submissions[s].conv].workspace == workspace;
      SubmissionRuns(db.rows, db.conversations.Keys, s);
      var r :| r in db.rows.runs && db.rows.runs[r].inbound == s;
      RunsSubmission(db.rows, db.conversations.Keys, r);
      assert RunsThere(db, workspace, r);
    }
    if RunsIn(db, workspace) {
      var r :| RunsThere(db, workspace, r);
      RunsSubmission(db.rows, db.conversations.Keys, r);
    }
  }

  lemma SubmissionRuns(t: Tables, convs: set<Id>, s: Id)
    requires RowsOk(t, convs) && s in t.submissions && t.submissions[s].status == Running
    ensures HasRun(t.runs, s)
  {
  }

  lemma RunsSubmission(t: Tables, convs: set<Id>, r: Id)
    requires RowsOk(t, convs) && r in t.runs
    ensures t.runs[r].inbound in t.submissions
    ensures t.submissions[t.runs[r].inbound].status == t.runs[r].status && t.submissions[t.runs[r].inbound].conv == t.runs[r].conv
  {
    assert RunOk(t.submissions, t.runs, r);
  }

  /** ReserveWorkspace succeeds exactly when no run of the workspace is running
      and nobody holds it; ReleaseWorkspace then restores the store. */
  lemma ReservesWhenIdle(db: Db, workspace: Id)
    requires Valid(db) && workspace != NoId
    ensures Reserve(db, workspace).Ok? <==> !RunsIn(db, workspace) && workspace !in db.reservations
    ensures Reserve(db, workspace).Ok? ==> Release(Reserve(db, workspace).value, workspace) == db
  {
    RunningBySubmission(db, workspace);
    if Reserve(db, workspace).Ok? {
      assert (db.reservations + {workspace}) - {workspace} == db.reservations;
    }
  }

  /** Nothing of a reserved workspace runs or may be claimed, and it cannot be
      reserved again. */
  lemma ReservedIsHeld(db: Db, workspace: Id)
    requires Valid(db) && workspace in db.reservations
    ensures !RunsIn(db, workspace) && Reserve(db, workspace) == Err(WorkspaceBusy)
    ensures forall s | Eligible(db, s) :: db.conversations[db.rows.submissions[s].conv].workspace != workspace
  {
    assert Invariant(db);
    RunningBySubmission(db, workspace);
    if WorkspaceRunning(db, workspace) {
      var s :| && s in db.rows.submissions && db.rows.submissions[s].status == Running
               && db.rows.submissions[s].conv in db.conversations
               && db.conversations[db.rows.submissions[s].conv].workspace == workspace;
      assert InReserved(db, s);
    }
  }

  // ------------------------------------- every other operation keeps them

  lemma AcceptKeeps(db: Db, conv: Id, input: InputSubmission, id: NewId, now: Time)
    requires Accept(db, conv, input, id, now).Ok?
    ensures Accept(db, conv, input, id, now).value.0.reservations == db.reservations
  {
  }

  lemma ClaimOneKeeps(db: Db, s: Id, runId: NewId, now: Time)
    requires s in db.rows.submissions && ClaimOne(db, s, runId, now).Ok?
    ensures ClaimOne(db, s, runId, now).value.0.reservations == db.reservations
  {
  }

  lemma ClaimKeeps(db: Db, runId: NewId, now: Time)
    requires Claim(db, runId, now).Ok?
    ensures Claim(db, runId, now).value.0.reservations == db.reservations
  {
    forall s | IsNext(db, s) && ClaimOne(db, s, runId, now).Ok?
      ensures ClaimOne(db, s, runId, now).value.0.reservations == db.reservations
    {
      ClaimOneKeeps(db, s, runId, now);
    }
  }

  lemma CommitKeeps(db: Db, run: Run, parts: seq<Part>, id: NewId, now: Time)
    requires CommitTurn(db, run, parts, id, now).Ok?
    ensures CommitTurn(db, run, parts, id, now).value.0.reservations == db.reservations
  {
  }

  lemma ToolKeeps(db: Db, run: Run, result: ToolResult, status: ToolStatus, id: NewId, now: Time)
    requires FinishTool(db, run, result, status, id, now).Ok?
    ensures FinishTool(db, run, result, status, id, now).value.0.reservations == db.reservations
  {
  }

  lemma FinishKeeps(db: Db, run: Run, answer: string, id: NewId, now: Time)
    requires FinishRun(db, run, answer, id, now).Ok?
    ensures FinishRun(db, run, answer, id, now).value.0.reservations == db.reservations
  {
  }

  lemma {:induction false} InterruptKeeps(db: Db, run: Run, calls: seq<ToolRow>, ids: nat -> NewId, k: nat, now: Time)
    requires Interrupt(db, run, calls, ids, k, now).Ok?
    ensures Interrupt(db, run, calls, ids, k, now).value.0.reservations == db.reservations
    decreases calls
  {
    if calls != [] {
      ToolKeeps(db, run, InterruptedResult(calls[0]), Interrupted, ids(k), now);
      InterruptKeeps(FinishTool(db, run, InterruptedResult(calls[0]), Interrupted, ids(k), now).value.0, run, calls[1..], ids, k + 1, now);
    }
  }

  lemma EndKeeps(db: Db, run: Run, ending: Ending, ids: nat -> NewId, now: Time)
    requires EndRun(db, run, ending, ids, now).Ok?
    ensures EndRun(db, run, ending, ids, now).value.0.reservations == db.reservations
  {
    InterruptKeeps(db, run, RequestedCalls(ToolsOf(db.rows, run.id)), ids, 0, now);
  }

  lemma NoteKeeps(db: Db, op: Op, db': Db)
    requires (op.OpProgress? || op.OpAgent? || op.OpCreate?) && Apply(db, op) == Ok(db')
    ensures db'.reservations == db.reservations
  {
  }

  lemma ToolOpKeeps(db: Db, op: Op, db': Db)
    requires (op.OpCompleteTool? || op.OpDenyTool?) && Apply(db, op) == Ok(db')
    ensures db'.reservations == db.reservations
  {
    ToolKeeps(db, op.run, op.result, if op.OpDenyTool? then Denied else if op.result.ok then Succeeded else Faulted, op.newId, op.now);
  }

  lemma RunOpKeeps(db: Db, op: Op, db': Db)
    requires (op.OpAccept? || op.OpClaim? || op.OpCommit? || op.OpFinish? || op.OpEnd?) && Apply(db, op) == Ok(db')
    ensures db'.reservations == db.reservations
  {
    match op
    case OpAccept(conv, input, id, now) => AcceptKeeps(db, conv, input, id, now);
    case OpClaim(runId, now) => ClaimKeeps(db, runId, now);
    case OpCommit(run, parts, id, now) => CommitKeeps(db, run, parts, id, now);
    case OpFinish(run, answer, id, now) => FinishKeeps(db, run, answer, id, now);
    case OpEnd(run, ending, ids, now) => EndKeeps(db, run, ending, ids, now);
  }

  lemma ApplyKeeps(db: Db, op: Op, db': Db, workspace: Id)
    requires Apply(db, op) == Ok(db') && op != OpRelease(workspace) && workspace in db.reservations
    ensures workspace in db'.reservations
  {
    if op.OpProgress? || op.OpAgent? || op.OpCreate? {
      NoteKeeps(db, op, db');
    } else if op.OpCompleteTool? || op.OpDenyTool? {
      ToolOpKeeps(db, op, db');
    } else if !op.OpReserve? && !op.OpRelease? {
      RunOpKeeps(db, op, db');
    }
  }

  /** A reservation holds whatever happens until it is released: nothing of its
      workspace runs or may be claimed, and nobody else can reserve it. */
  lemma {:induction false} HeldUntilReleased(db: Db, ops: seq<Op>, workspace: Id)
    requires Valid(db) && workspace in db.reservations && OpRelease(workspace) !in ops
    ensures var later := RunOps(db, ops);
            && workspace in later.reservations && !RunsIn(later, workspace) && Reserve(later, workspace) == Err(WorkspaceBusy)
            && (forall s | Eligible(later, s) :: later.conversations[later.rows.submissions[s].conv].workspace != workspace)
    decreases ops
  {
    if ops == [] {
      ReservedIsHeld(db, workspace);
    } else if Protocol(db, ops[0]) && Apply(db, ops[0]).Ok? {
      var next := Apply(db, ops[0]).value;
      ApplyEffect(db, ops[0], next);
      ApplyKeeps(db, ops[0], next, workspace);
      HeldUntilReleased(next, ops[1..], workspace);
    } else {
      HeldUntilReleased(db, ops[1..], workspace);
    }
  }

  /** What would be eligible if only the reservation did not stand in the way. */
  ghost predicate WaitsForRelease(db: Db, workspace: Id, s: Id) {
    && s in db.rows.submissions && db.rows.submissions[s].status == Queued
    && db.rows.submissions[s].conv in db.conversations
    && !RunningIn(db.rows, db.rows.submissions[s].conv)
    && !LockHeld(db, db.conversations[db.rows.submissions[s].conv].lock)
    && db.conversations[db.rows.submissions[s].conv].workspace == workspace
  }

  /** Releasing opens exactly the workspace that was released. */
  lemma ReleaseOpens(db: Db, workspace: Id, s: Id)
    requires workspace in db.reservations
    ensures Eligible(Release(db, workspace), s) <==> Eligible(db, s) || WaitsForRelease(db, workspace, s)
  {
  }
}
