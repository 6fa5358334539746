/** What holds of the store after any sequence of transactions. */
module StoreTheorems {
  import opened Wrappers
  import opened Events
  import opened Store
  import opened StoreInvariant
  import opened StoreSteps

  /** The entry speaks of rows of its own conversation. */
  ghost predicate About(t: Tables, conv: Id, e: Event) {
    && e.conv == conv && Sound(e)
    && (e.run == NoId || (e.run in t.runs && t.runs[e.run].conv == conv))
    && e.inbound in t.submissions && t.submissions[e.inbound].conv == conv
  }

  ghost predicate AllAbout(t: Tables, conv: Id, events: seq<Event>) {
    forall i | 0 <= i < |events| :: About(t, conv, events[i])
  }

  /** The entries carry the identity of `run`. */
  ghost predicate Named(run: Run, e: Event) {
    true == (e.conv == run.conv && e.run == run.id && e.inbound == run.inbound && Sound(e))
  }

  ghost predicate AllNamed(run: Run, events: seq<Event>) {
    forall i | 0 <= i < |events| :: Named(run, events[i])
  }

  lemma {:induction false} InterruptNames(db: Db, run: Run, calls: seq<ToolRow>, ids: nat -> NewId, k: nat, now: Time, db': Db, events: seq<Event>)
    requires Interrupt(db, run, calls, ids, k, now) == Ok((db', events))
    ensures AllNamed(run, events)
    decreases calls
  {
    if calls != [] {
      var (db1, event) := FinishTool(db, run, InterruptedResult(calls[0]), Interrupted, ids(k), now).value;
      var (_, rest) := Interrupt(db1, run, calls[1..], ids, k + 1, now).value;
      InterruptNames(db1, run, calls[1..], ids, k + 1, now, db', rest);
      assert events == [event] + rest;
    }
  }

  lemma EndRunNames(db: Db, run: Run, ending: Ending, ids: nat -> NewId, now: Time, db': Db, events: seq<Event>)
    requires EndRun(db, run, ending, ids, now) == Ok((db', events))
    ensures AllNamed(run, events)
  {
    var calls := RequestedCalls(ToolsOf(db.rows, run.id));
    var (db1, first) := Interrupt(db, run, calls, ids, 0, now).value;
    InterruptNames(db, run, calls, ids, 0, now, db1, first);
  }

  lemma FinishRunNames(db: Db, run: Run, answer: string, outputId: NewId, now: Time, db': Db, events: seq<Event>)
    requires FinishRun(db, run, answer, outputId, now) == Ok((db', events))
    ensures AllNamed(run, events)
  {
  }

  lemma ClaimNames(db: Db, id: Id, runId: NewId, now: Time, db': Db, claim: Claimed)
    requires id in db.rows.submissions
    requires ClaimOne(db, id, runId, now) == Ok((db', claim))
    ensures AllNamed(claim.run, claim.events)
  {
  }

  lemma NamedAreAbout(t: Tables, events: seq<Event>, run: Run)
    requires AllNamed(run, events)
    requires run.id in t.runs && t.runs[run.id].conv == run.conv
    requires run.inbound in t.submissions && t.submissions[run.inbound].conv == run.conv
    ensures AllAbout(t, run.conv, events)
  {
    forall i | 0 <= i < |events|
      ensures About(t, run.conv, events[i])
    {
      assert Named(run, events[i]);
    }
  }

  /** What one transaction does to a conversation: it appends entries that
      speak of that conversation and that replay to its change of rows. */
  ghost predicate Advances(db: Db, db': Db, conv: Id, events: seq<Event>) {
    true == (Commits(db, db', conv, events) && Grows(db.rows, db'.rows) && AllAbout(db'.rows, conv, events))
  }

  /** What any transaction does: it advances one conversation, or touches
      neither rows nor log. */
  ghost predicate Effect(db: Db, db': Db) {
    || (db'.rows == db.rows && db'.log == db.log)
    || (exists conv, events :: Advances(db, db', conv, events))
  }

  lemma RunAbout(db: Db, db': Db, run: Run, events: seq<Event>)
    requires Valid(db) && FromClaim(db, run) && Grows(db.rows, db'.rows) && AllNamed(run, events)
    ensures AllAbout(db'.rows, run.conv, events)
  {
    RunFacts(db, run);
    NamedAreAbout(db'.rows, events, run);
  }

  lemma AcceptAdvances(db: Db, conv: Id, input: InputSubmission, id: NewId, now: Time, db': Db, event: Event)
    requires Valid(db) && ValidInput(input)
    requires InsertAccepted(db, conv, input, id, now) == Ok((db', event))
    ensures Valid(db') && Advances(db, db', conv, [event])
  {
    AcceptStep(db, conv, input, id, now);
  }

  lemma ClaimAdvances(db: Db, id: Id, runId: NewId, now: Time, db': Db, claim: Claimed)
    requires Valid(db) && Eligible(db, id)
    requires ClaimOne(db, id, runId, now) == Ok((db', claim))
    ensures Valid(db') && Advances(db, db', claim.run.conv, claim.events)
  {
    ClaimCommits(db, id, runId, now, db', claim);
    ClaimKeepsValid(db, id, runId, now, db', claim.events);
    ClaimNames(db, id, runId, now, db', claim);
    NamedAreAbout(db'.rows, claim.events, claim.run);
  }

  lemma CommitTurnAdvances(db: Db, run: Run, parts: seq<Part>, outputId: NewId, now: Time, db': Db, event: Event)
    requires Valid(db) && FromClaim(db, run) && db.rows.runs[run.id].status !in {Failed, Stopped}
    requires CommitTurn(db, run, parts, outputId, now) == Ok((db', event))
    ensures Valid(db') && Advances(db, db', run.conv, [event])
  {
    CommitTurnStep(db, run, parts, outputId, now);
    NormalizedHaveObjects(parts);
    RunAbout(db, db', run, [event]);
  }

  lemma {:induction false} NormalizedHaveObjects(parts: seq<Part>)
    requires NormalizeParts(parts).Ok?
    ensures ObjectArguments(NormalizeParts(parts).value)
  {
    if parts != [] {
      NormalizedHaveObjects(parts[1..]);
    }
  }

  lemma FinishToolAdvances(db: Db, run: Run, result: ToolResult, status: ToolStatus, outcomeId: NewId, now: Time, db': Db, event: Event)
    requires Valid(db) && FromClaim(db, run) && status != Requested
    requires FinishTool(db, run, result, status, outcomeId, now) == Ok((db', event))
    ensures Valid(db') && Advances(db, db', run.conv, [event])
  {
    FinishToolStep(db, run, result, status, outcomeId, now, db', event);
    RunAbout(db, db', run, [event]);
  }

  lemma FinishRunAdvances(db: Db, run: Run, answer: string, outputId: NewId, now: Time, db': Db, events: seq<Event>)
    requires Valid(db) && FromClaim(db, run) && db.rows.runs[run.id].status == Running
    requires FinishRun(db, run, answer, outputId, now) == Ok((db', events))
    ensures Valid(db') && Advances(db, db', run.conv, events)
  {
    FinishRunCommits(db, run, answer, outputId, now, db', events);
    EndKeepsValid(db, run.id, Completed, "", now, db', run.conv, events);
    FinishRunNames(db, run, answer, outputId, now, db', events);
    RunAbout(db, db', run, events);
  }

  lemma EndRunAdvances(db: Db, run: Run, ending: Ending, ids: nat -> NewId, now: Time, db': Db, events: seq<Event>)
    requires Valid(db) && FromClaim(db, run) && db.rows.runs[run.id].status == Running
    requires EndRun(db, run, ending, ids, now) == Ok((db', events))
    ensures Valid(db') && Advances(db, db', run.conv, events)
  {
    EndRunStep(db, run, ending, ids, now, db', events);
    EndRunNames(db, run, ending, ids, now, db', events);
    RunAbout(db, db', run, events);
  }

  lemma NoteAdvances(db: Db, run: Run, e: Event, db': Db, event: Event)
    requires Valid(db) && FromClaim(db, run) && (e.body.EnvironmentProgress? || e.body.AgentFact?)
    requires Named(run, e)
    requires AppendEvent(db, e) == Ok((db', event))
    ensures Valid(db') && Advances(db, db', run.conv, [event])
  {
    NoteStep(db, e, db', event);
    RunAbout(db, db', run, [event]);
  }

  lemma AcceptEffect(db: Db, op: Op, db': Db)
    requires Valid(db) && op.OpAccept? && Apply(db, op) == Ok(db')
    ensures Valid(db') && Effect(db, db')
  {
    if !KeyTaken(db.rows, op.conv, op.input.key) {
      var (_, event) := InsertAccepted(db, op.conv, op.input, op.newId, op.now).value;
      AcceptAdvances(db, op.conv, op.input, op.newId, op.now, db', event);
    }
  }

  lemma ClaimEffect(db: Db, op: Op, db': Db)
    requires Valid(db) && op.OpClaim? && Apply(db, op) == Ok(db')
    ensures Valid(db') && Effect(db, db')
  {
    var (_, result) := Claim(db, op.runId, op.now).value;
    if result.Some? {
      var id :| IsNext(db, id) && ClaimOne(db, id, op.runId, op.now) == Ok((db', result.value));
      ClaimAdvances(db, id, op.runId, op.now, db', result.value);
    }
  }

  lemma CommitEffect(db: Db, op: Op, db': Db)
    requires Valid(db) && op.OpCommit? && Protocol(db, op) && Apply(db, op) == Ok(db')
    ensures Valid(db') && Effect(db, db')
  {
    var (_, event) := CommitTurn(db, op.run, op.parts, op.newId, op.now).value;
    CommitTurnAdvances(db, op.run, op.parts, op.newId, op.now, db', event);
  }

  lemma ToolEffect(db: Db, op: Op, db': Db)
    requires Valid(db) && (op.OpCompleteTool? || op.OpDenyTool?) && Protocol(db, op) && Apply(db, op) == Ok(db')
    ensures Valid(db') && Effect(db, db')
  {
    var status := if op.OpDenyTool? then Denied else if op.result.ok then Succeeded else Faulted;
    var (_, event) := FinishTool(db, op.run, op.result, status, op.newId, op.now).value;
    FinishToolAdvances(db, op.run, op.result, status, op.newId, op.now, db', event);
  }

  lemma FinishEffect(db: Db, op: Op, db': Db)
    requires Valid(db) && op.OpFinish? && Protocol(db, op) && Apply(db, op) == Ok(db')
    ensures Valid(db') && Effect(db, db')
  {
    var (_, events) := FinishRun(db, op.run, op.answer, op.newId, op.now).value;
    FinishRunAdvances(db, op.run, op.answer, op.newId, op.now, db', events);
  }

  lemma EndEffect(db: Db, op: Op, db': Db)
    requires Valid(db) && op.OpEnd? && Protocol(db, op) && Apply(db, op) == Ok(db')
    ensures Valid(db') && Effect(db, db')
  {
    var (_, events) := EndRun(db, op.run, op.ending, op.ids, op.now).value;
    EndRunAdvances(db, op.run, op.ending, op.ids, op.now, db', events);
  }

  lemma NoteEffect(db: Db, op: Op, db': Db)
    requires Valid(db) && (op.OpProgress? || op.OpAgent?) && Protocol(db, op) && Apply(db, op) == Ok(db')
    ensures Valid(db') && Effect(db, db')
  {
    var body := if op.OpProgress? then EnvironmentProgress(op.step, op.message) else AgentFact(op.name);
    var e := Event(0, op.run.conv, op.run.id, op.run.inbound, op.now, body);
    var (_, event) := AppendEvent(db, e).value;
    NoteAdvances(db, op.run, e, db', event);
  }

  /** Every transaction that follows the protocol keeps the invariant. */
  lemma ApplyEffect(db: Db, op: Op, db': Db)
    requires Valid(db) && Protocol(db, op) && Apply(db, op) == Ok(db')
    ensures Valid(db') && Effect(db, db')
  {
    match op
    case OpCreate(id, agent, workspace, lock) => CreateStep(db, id, agent, workspace, lock, db');
    case OpAccept(_, _, _, _) => AcceptEffect(db, op, db');
    case OpClaim(_, _) => ClaimEffect(db, op, db');
    case OpCommit(_, _, _, _) => CommitEffect(db, op, db');
    case OpCompleteTool(_, _, _, _) => ToolEffect(db, op, db');
    case OpDenyTool(_, _, _, _) => ToolEffect(db, op, db');
    case OpFinish(_, _, _, _) => FinishEffect(db, op, db');
    case OpEnd(_, _, _, _) => EndEffect(db, op, db');
    case OpProgress(_, _, _, _) => NoteEffect(db, op, db');
    case OpAgent(_, _, _) => NoteEffect(db, op, db');
    case OpReserve(workspace) => ReserveStep(db, workspace, db');
    case OpRelease(workspace) => ReleaseStep(db, workspace);
  }

  /** The invariant holds after every run of the store. */
  lemma {:induction false} RunOpsValid(db: Db, ops: seq<Op>)
    requires Valid(db)
    ensures Valid(RunOps(db, ops))
    decreases ops
  {
    if ops != [] {
      if Protocol(db, ops[0]) && Apply(db, ops[0]).Ok? {
        ApplyEffect(db, ops[0], Apply(db, ops[0]).value);
        RunOpsValid(Apply(db, ops[0]).value, ops[1..]);
      } else {
        RunOpsValid(db, ops[1..]);
      }
    }
  }
}
