/** Exactly when the transactions of a reachable store commit, and which
    submission a claim takes (runtime/sqlite/store.go). */
module StoreCommits {
  import opened Wrappers
  import opened Events
  import opened Store
  import opened StoreInvariant
  import opened StoreSteps
  import opened StoreProgress
  import opened StoreMeaning
  import opened Rebuild

  // --------------------------------------------------------------- claims

  /** `u` runs in the conversation of `s`, or holds its lock. */
  ghost predicate Blocks(db: Db, u: Id, s: Id) {
    && u in db.rows.submissions && db.rows.submissions[u].status == Running
    && s in db.rows.submissions && db.rows.submissions[s].conv in db.conversations
    && var conv, other := db.rows.submissions[s].conv, db.rows.submissions[u].conv;
       other == conv || (other in db.conversations && db.conversations[other].lock == db.conversations[conv].lock)
  }

  /** A queued submission that nothing running and no restore keeps back. */
  ghost predicate Waits(db: Db, s: Id) {
    && s in db.rows.submissions && db.rows.submissions[s].status == Queued && db.rows.submissions[s].conv in db.conversations
    && (forall u :: !Blocks(db, u, s))
    && db.conversations[db.rows.submissions[s].conv].workspace !in db.reservations
  }

  lemma WaitsIsEligible(db: Db, s: Id)
    ensures Waits(db, s) <==> Eligible(db, s)
  {
    if Waits(db, s) {
      if RunningIn(db.rows, db.rows.submissions[s].conv) {
        var u :| u in db.rows.submissions && db.rows.submissions[u].conv == db.rows.submissions[s].conv && db.rows.submissions[u].status == Running;
        assert Blocks(db, u, s);
      }
      if LockHeld(db, db.conversations[db.rows.submissions[s].conv].lock) {
        var u :| && u in db.rows.submissions && db.rows.submissions[u].status == Running && db.rows.submissions[u].conv in db.conversations
                 && db.conversations[db.rows.submissions[u].conv].lock == db.conversations[db.rows.submissions[s].conv].lock;
        assert Blocks(db, u, s);
      }
    }
  }

  /** Accepted earlier, or at the same time under a smaller id. */
  predicate InFront(t: Tables, s: Id, u: Id)
    requires s in t.submissions && u in t.submissions
  {
    || t.submissions[s].acceptedAt < t.submissions[u].acceptedAt
    || (t.submissions[s].acceptedAt == t.submissions[u].acceptedAt && s < u)
  }

  /** ClaimRunnable takes the first submission that waits; it takes nothing
      exactly when none does. */
  lemma ClaimTakesFirst(db: Db, runId: NewId, now: Time)
    requires Valid(db) && Rebuildable(db) && runId !in db.rows.runs
    ensures Claim(db, runId, now).Ok?
    ensures var (db', claim) := Claim(db, runId, now).value;
            match claim
            case None => db' == db && forall s :: !Waits(db, s)
            case Some(claimed) =>
              && Waits(db, claimed.run.inbound)
              && forall u | Waits(db, u) && u != claimed.run.inbound :: InFront(db.rows, claimed.run.inbound, u)
  {
    ClaimTakesEarliest(db, runId, now);
    forall s
      ensures Waits(db, s) <==> Eligible(db, s)
    {
      WaitsIsEligible(db, s);
    }
  }

  // --------------------------------------------------------------- appends

  lemma AppendCommits(db: Db, rows: Tables, e: Event)
    requires LogOk(db) && e.conv in db.conversations
    ensures AppendEvent(db.(rows := rows), e).Ok? <==> MessageId(e) == NoId || !HasMessage(LogOf(db, e.conv), MessageId(e))
  {
    if Appendable(db, e) {
      var _, _ := AppendWithRows(db, rows, e);
    } else {
      var prior :| prior in LogOf(db, e.conv) && MessageId(prior) == MessageId(e);
      assert MessageId(e.(cursor := db.conversations[e.conv].next)) == MessageId(e);
    }
  }

  lemma ValidLog(db: Db, run: Run)
    requires Valid(db) && FromClaim(db, run)
    ensures LogOk(db) && run.conv in db.conversations
  {
    RunFacts(db, run);
    assert Invariant(db);
  }

  // ---------------------------------------------------------------- inputs

  predicate Visible(s: string) {
    exists c :: c in s && c !in {' ', '\t', '\n', '\r'}
  }

  /** A key, an adapter, some text, and for an agent's message where it comes
      from. */
  predicate Acceptable(input: InputSubmission) {
    && Visible(input.key) && Visible(input.source.adapter)
    && |input.parts| > 0 && (forall i | 0 <= i < |input.parts| :: input.parts[i].kind == "text" && |input.parts[i].text| > 0)
    && input.source.kind in {"human", "system", "agent"}
    && (input.source.kind == "agent" ==> |input.source.conversation| > 0 && |input.source.agent| > 0 && |input.causation| > 0)
  }

  lemma ValidIsAcceptable(input: InputSubmission)
    ensures ValidInput(input) <==> Acceptable(input)
  {
    assert Visible(input.key) <==> !Blank(input.key);
    assert Visible(input.source.adapter) <==> !Blank(input.source.adapter);
    if ValidInput(input) {
      assert forall i | 0 <= i < |input.parts| :: input.parts[i] in input.parts;
    }
  }

  /** The conversation takes the input under this id. */
  ghost predicate TakesInput(db: Db, conv: Id, input: InputSubmission, id: Id) {
    && conv in db.conversations && db.conversations[conv].agent == input.target && input.revision != ""
    && id !in db.rows.submissions && !HasMessage(LogOf(db, conv), id)
  }

  /** Accept. */
  lemma AcceptCommits(db: Db, conv: Id, input: InputSubmission, id: NewId, now: Time)
    requires Valid(db)
    ensures Accept(db, conv, input, id, now).Ok? <==>
              Acceptable(input) && ((exists s :: HasKey(db.rows, s, conv, input.key)) || TakesInput(db, conv, input, id))
  {
    ValidIsAcceptable(input);
    assert LogOk(db) by { assert Invariant(db); }
    if s :| HasKey(db.rows, s, conv, input.key) {
      assert KeyTaken(db.rows, conv, input.key);
    } else {
      InsertCommits(db, conv, input, id, now);
    }
  }

  lemma InsertCommits(db: Db, conv: Id, input: InputSubmission, id: NewId, now: Time)
    requires LogOk(db) && forall s :: !HasKey(db.rows, s, conv, input.key)
    ensures !KeyTaken(db.rows, conv, input.key)
    ensures InsertAccepted(db, conv, input, id, now).Ok? <==> TakesInput(db, conv, input, id)
  {
    if KeyTaken(db.rows, conv, input.key) {
      var s :| s in db.rows.submissions && db.rows.submissions[s].conv == conv && db.rows.submissions[s].key == input.key;
      assert HasKey(db.rows, s, conv, input.key);
    }
    var inserted := InsertSubmission(db.rows, db.conversations.Keys, id, Submission(conv, input.key, input.revision, Queued, "", now));
    if conv in db.conversations && inserted.Ok? {
      AppendCommits(db, inserted.value, Event(0, conv, NoId, id, now, InputAccepted(input)));
    }
  }

  // ----------------------------------------------------------------- turns

  predicate Storable(part: Part) {
    match part
    case Text(text) => |text| > 0
    case ToolCall(call, kind, arguments) => |call| > 0 && |kind| > 0 && !arguments.NotAnObject?
    case _ => false
  }

  ghost predicate AllStorable(parts: seq<Part>) {
    forall i: nat | i < |parts| :: Storable(parts[i])
  }

  ghost predicate CallsAt(parts: seq<Part>, i: nat, call: string) {
    i < |parts| && parts[i].ToolCall? && parts[i].call == call
  }

  ghost predicate Calls(parts: seq<Part>, call: string) {
    exists i: nat :: CallsAt(parts, i, call)
  }

  ghost predicate HasRow(rows: seq<ToolRow>, call: string) {
    exists row :: row in rows && row.call == call
  }

  /** No call of the turn is named twice or was named by an earlier one. */
  ghost predicate NewCalls(rows: seq<ToolRow>, parts: seq<Part>) {
    && (forall i: nat, j: nat, call: string :: CallsAt(parts, i, call) && CallsAt(parts, j, call) ==> i == j)
    && (forall call: string :: Calls(parts, call) ==> !HasRow(rows, call))
  }

  lemma {:induction false} NormalizeCommits(parts: seq<Part>)
    ensures NormalizeParts(parts).Ok? <==> AllStorable(parts)
  {
    if parts != [] {
      NormalizeCommits(parts[1..]);
      assert Storable(parts[0]) <==> NormalizePart(parts[0]).Ok?;
      if AllStorable(parts) {
        assert forall i: nat | i < |parts[1..]| :: parts[1..][i] == parts[i + 1];
      }
      if Storable(parts[0]) && AllStorable(parts[1..]) {
        forall i: nat | i < |parts|
          ensures Storable(parts[i])
        {
          assert i > 0 ==> parts[i] == parts[1..][i - 1];
        }
      }
    }
  }

  lemma FirstIsNew(rows: seq<ToolRow>, parts: seq<Part>, row: ToolRow)
    requires parts != []
    requires parts[0].ToolCall? ==> row.call == parts[0].call
    ensures parts[0].ToolCall? ==> (NewCalls(rows, parts) <==> !HasRow(rows, row.call) && NewCalls(rows + [row], parts[1..]))
    ensures !parts[0].ToolCall? ==> (NewCalls(rows, parts) <==> NewCalls(rows, parts[1..]))
  {
    var rest := parts[1..];
    assert forall i: nat, call: string :: CallsAt(rest, i, call) <==> CallsAt(parts, i + 1, call);
    assert forall i: nat, call: string :: i > 0 ==> (CallsAt(parts, i, call) <==> CallsAt(rest, i - 1, call));
    if parts[0].ToolCall? {
      assert CallsAt(parts, 0, parts[0].call);
      assert forall call: string :: HasRow(rows + [row], call) <==> HasRow(rows, call) || call == row.call by {
        assert row in rows + [row];
      }
    }
  }

  lemma {:induction false} InsertsCommit(t: Tables, convs: set<Id>, run: Run, parts: seq<Part>, now: Time)
    requires run.conv in convs && run.id in t.runs
    ensures InsertTools(t, convs, run.conv, run.id, run.inbound, parts, now).Ok? <==> NewCalls(ToolsOf(t, run.id), parts)
    decreases parts
  {
    if parts != [] {
      var row := if parts[0].ToolCall? then ToolRow(parts[0].call, run.conv, run.id, run.inbound, parts[0].kind, Requested, now)
                 else ToolRow("", run.conv, run.id, run.inbound, "", Requested, now);
      FirstIsNew(ToolsOf(t, run.id), parts, row);
      if !parts[0].ToolCall? {
        InsertsCommit(t, convs, run, parts[1..], now);
      } else {
        var inserted := InsertTool(t, convs, row);
        assert inserted.Ok? <==> !HasRow(ToolsOf(t, run.id), row.call);
        if inserted.Ok? {
          InsertsCommit(inserted.value, convs, run, parts[1..], now);
        }
      }
    }
  }

  lemma SameCalls(parts: seq<Part>, stored: seq<Part>)
    requires AllStoredAs(parts, stored)
    ensures forall i: nat, call: string :: CallsAt(stored, i, call) <==> CallsAt(parts, i, call)
  {
    forall i: nat, call: string
      ensures CallsAt(stored, i, call) <==> CallsAt(parts, i, call)
    {
      assert i < |parts| ==> StoredAs(parts[i], stored[i]);
    }
  }

  lemma {:induction false} SomeCall(parts: seq<Part>)
    ensures ToolParts(parts) != [] <==> exists call: string :: Calls(parts, call)
  {
    if parts != [] {
      var rest := parts[1..];
      SomeCall(rest);
      assert forall i: nat, call: string :: CallsAt(rest, i, call) <==> CallsAt(parts, i + 1, call);
      if parts[0].ToolCall? {
        assert CallsAt(parts, 0, parts[0].call);
        assert Calls(parts, parts[0].call);
      } else {
        assert forall i: nat, call: string :: CallsAt(parts, i, call) ==> i > 0 && CallsAt(rest, i - 1, call);
        assert forall call: string :: Calls(parts, call) <==> Calls(rest, call);
      }
    }
  }

  lemma SameNewCalls(rows: seq<ToolRow>, parts: seq<Part>, stored: seq<Part>)
    requires AllStoredAs(parts, stored)
    ensures NewCalls(rows, stored) <==> NewCalls(rows, parts)
    ensures forall call: string :: Calls(stored, call) <==> Calls(parts, call)
  {
    SameCalls(parts, stored);
  }

  lemma StoredTurnCommits(db: Db, run: Run, stored: seq<Part>, outputId: NewId, now: Time)
    requires Valid(db) && FromClaim(db, run)
    ensures var appended := AppendEvent(db, Event(0, run.conv, run.id, run.inbound, now,
                                                  AssistantCommitted(AssistantOutput(outputId, stored, false))));
            && (appended.Ok? <==> !HasMessage(LogOf(db, run.conv), outputId))
            && (appended.Ok? ==>
                  var db1 := appended.value.0;
                  InsertTools(db1.rows, db1.conversations.Keys, run.conv, run.id, run.inbound, stored, now).Ok?
                  <==> NewCalls(ToolsOf(db.rows, run.id), stored))
  {
    ValidLog(db, run);
    var e := Event(0, run.conv, run.id, run.inbound, now, AssistantCommitted(AssistantOutput(outputId, stored, false)));
    AppendCommits(db, db.rows, e);
    if AppendEvent(db, e).Ok? {
      var (db1, event) := AppendEvent(db, e).value;
      StoredEntry(db, db.rows, e, db1, event);
      InsertsCommit(db1.rows, db1.conversations.Keys, run, stored, now);
    }
  }

  /** CommitAssistantTurn. */
  lemma CommitCommits(db: Db, run: Run, parts: seq<Part>, outputId: NewId, now: Time)
    requires Valid(db) && FromClaim(db, run)
    ensures CommitTurn(db, run, parts, outputId, now).Ok? <==>
              && AllStorable(parts) && (exists call: string :: Calls(parts, call))
              && NewCalls(ToolsOf(db.rows, run.id), parts) && !HasMessage(LogOf(db, run.conv), outputId)
  {
    NormalizeCommits(parts);
    if AllStorable(parts) {
      var stored := NormalizeParts(parts).value;
      NormalizedAreStored(parts);
      SameNewCalls(ToolsOf(db.rows, run.id), parts, stored);
      SomeCall(stored);
      StoredTurnCommits(db, run, stored, outputId, now);
    }
  }

  // ------------------------------------------------- outcomes and endings

  ghost predicate AwaitsOutcome(rows: seq<ToolRow>, call: string) {
    exists i: nat :: IsRequested(rows, call, i)
  }

  /** ToolCompleted and ToolDenied: only a requested call has an outcome. */
  lemma ToolCommits(db: Db, run: Run, result: ToolResult, id: NewId, now: Time)
    requires Valid(db) && FromClaim(db, run)
    ensures var taken := AwaitsOutcome(ToolsOf(db.rows, run.id), result.call) && !HasMessage(LogOf(db, run.conv), id);
            && (ToolCompleted(db, run, result, id, now).Ok? <==> taken)
            && (ToolDenied(db, run, result, id, now).Ok? <==> taken && !result.ok)
  {
    FinishCommits(db, run, result, if result.ok then Succeeded else Faulted, id, now);
    FinishCommits(db, run, result, ToolStatus.Denied, id, now);
  }

  lemma FinishCommits(db: Db, run: Run, result: ToolResult, status: ToolStatus, id: NewId, now: Time)
    requires Valid(db) && FromClaim(db, run)
    ensures FinishTool(db, run, result, status, id, now).Ok? <==>
              AwaitsOutcome(ToolsOf(db.rows, run.id), result.call) && !HasMessage(LogOf(db, run.conv), id)
  {
    ValidLog(db, run);
    var tools := ToolsOf(db.rows, run.id);
    var i := RequestedIndex(tools, result.call);
    if i < |tools| {
      assert IsRequested(tools, result.call, i);
      AppendCommits(db, SetTool(db.rows, run.id, i, status, now),
                    Event(0, run.conv, run.id, run.inbound, now,
                          ToolOutcomeRecorded(ToolOutcome(id, result.call, tools[i].kind, status, result))));
    }
  }

  /** The rows and the two entries of FinishRun. */
  lemma AnswerRows(db: Db, run: Run, answer: string, outputId: NewId, now: Time) returns (rows: Tables, output: Event, ended: Event)
    ensures output.conv == run.conv && ended.conv == run.conv && MessageId(output) == outputId && MessageId(ended) == NoId
    ensures FinishRun(db, run, answer, outputId, now).Ok? <==>
              var first := AppendEvent(db.(rows := rows), output);
              first.Ok? && AppendEvent(first.value.0, ended).Ok?
  {
    var submitted :=
      if run.inbound in db.rows.submissions
      then SetSubmission(db.rows, run.inbound, Completed, db.rows.submissions[run.inbound].error)
      else db.rows;
    rows := if run.id in submitted.runs then SetRun(submitted, run.id, Completed, submitted.runs[run.id].error, now) else submitted;
    output := Event(0, run.conv, run.id, run.inbound, now, AssistantCommitted(AssistantOutput(outputId, [Text(answer)], true)));
    ended := Event(0, run.conv, run.id, run.inbound, now, RunCompleted(run.(status := Completed, completedAt := Some(now))));
  }

  lemma TwoCommit(db: Db, rows: Tables, e: Event, f: Event)
    requires LogOk(db) && e.conv in db.conversations && f.conv == e.conv && MessageId(e) != NoId && MessageId(f) == NoId
    ensures (var first := AppendEvent(db.(rows := rows), e); first.Ok? && AppendEvent(first.value.0, f).Ok?)
            <==> !HasMessage(LogOf(db, e.conv), MessageId(e))
  {
    AppendCommits(db, rows, e);
    if !HasMessage(LogOf(db, e.conv), MessageId(e)) {
      var db1, stored := AppendWithRows(db, rows, e);
      NoMessageAppends(db1, f);
      AppendSucceeds(db1, f);
    }
  }

  /** FinishRun: nothing but a used id stands in its way. */
  lemma AnswerCommits(db: Db, run: Run, answer: string, outputId: NewId, now: Time)
    requires Valid(db) && FromClaim(db, run)
    ensures FinishRun(db, run, answer, outputId, now).Ok? <==> !HasMessage(LogOf(db, run.conv), outputId)
  {
    ValidLog(db, run);
    var rows, output, ended := AnswerRows(db, run, answer, outputId, now);
    TwoCommit(db, rows, output, ended);
  }

  /** AppendEnvironmentProgress and AppendAgentEvent. */
  lemma NoteCommits(db: Db, run: Run, step: string, message: string, name: string, now: Time)
    requires Valid(db) && FromClaim(db, run)
    ensures AppendProgress(db, run, step, message, now).Ok? <==> RunLives(db, run) && run.conv != NoId && |step| > 0 && |message| > 0
    ensures AppendAgent(db, run, name, now).Ok? <==> RunLives(db, run) && run.conv != NoId
  {
    ValidLog(db, run);
    RunFacts(db, run);
    assert db.(rows := db.rows) == db;
    AppendCommits(db, db.rows, Event(0, run.conv, run.id, run.inbound, now, EnvironmentProgress(step, message)));
    AppendCommits(db, db.rows, Event(0, run.conv, run.id, run.inbound, now, AgentFact(name)));
  }
}
