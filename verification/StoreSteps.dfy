/** Each transaction keeps the invariant, and replaying the events it appends
    on the tables it found yields the tables it left. */
module StoreSteps {
  import opened Wrappers
  import opened Events
  import opened Store
  import opened Replay
  import opened StoreInvariant

  ghost predicate Replays(convs: set<Id>, st: Index, events: seq<Event>, st': Index) {
    ReplayAll(convs, st, events) == Ok(st')
  }

  /** `events` went to the log of `conv`, and replaying them takes the index
      from `st` to `st'`. */
  ghost predicate Steps(db: Db, db': Db, conv: Id, events: seq<Event>, st: Index, st': Index) {
    Appended(db, db', conv, events) && forall convs | convs == db.conversations.Keys :: Replays(convs, st, events, st')
  }

  /** `events` went to the log of `conv` and stand for the change of rows. */
  ghost predicate Commits(db: Db, db': Db, conv: Id, events: seq<Event>) {
    Steps(db, db', conv, events, Index(db.rows, map[]), Index(db'.rows, map[]))
  }

  lemma StepsTrans(a: Db, b: Db, c: Db, conv: Id, xs: seq<Event>, ys: seq<Event>, s0: Index, s1: Index, s2: Index)
    requires Steps(a, b, conv, xs, s0, s1) && Steps(b, c, conv, ys, s1, s2)
    ensures Steps(a, c, conv, xs + ys, s0, s2)
  {
    AppendedTrans(a, b, c, conv, xs, ys);
    assert Replays(a.conversations.Keys, s0, xs, s1) && Replays(b.conversations.Keys, s1, ys, s2);
    ReplayAppend(a.conversations.Keys, s0, xs, ys);
  }

  /** Rows only accumulate, and keep their conversation. */
  ghost predicate Grows(t: Tables, t': Tables) {
    true == (
      && (forall s | s in t.submissions :: s in t'.submissions && t'.submissions[s].conv == t.submissions[s].conv)
      && (forall r | r in t.runs :: r in t'.runs && t'.runs[r].conv == t.runs[r].conv))
  }

  lemma PairIsConcat<T>(x: T, y: T)
    ensures [x] + [y] == [x, y]
  {
  }

  lemma ReplayOne(convs: set<Id>, st: Index, e: Event)
    ensures ReplayAll(convs, st, [e]) == ReplayEvent(convs, st, e)
  {
    assert [e][..0] == [];
    assert ReplayAll(convs, st, [e][..0]) == Ok(st);
  }

  lemma {:induction false} ReplayToolsCursor(t: Tables, convs: set<Id>, e: Event, k: nat, parts: seq<Part>)
    ensures ReplayTools(t, convs, e.(cursor := k), parts) == ReplayTools(t, convs, e, parts)
    decreases parts
  {
    if parts != [] {
      if !parts[0].ToolCall? {
        ReplayToolsCursor(t, convs, e, k, parts[1..]);
      } else {
        var row := ToolRow(parts[0].call, e.conv, e.run, e.inbound, parts[0].kind, Requested, e.createdAt);
        var inserted := InsertTool(t, convs, row);
        if inserted.Ok? {
          ReplayToolsCursor(inserted.value, convs, e, k, parts[1..]);
        }
      }
    }
  }

  lemma ReplayIgnoresCursor(convs: set<Id>, st: Index, e: Event, k: nat)
    ensures ReplayEvent(convs, st, e.(cursor := k)) == ReplayEvent(convs, st, e)
  {
    if e.body.AssistantCommitted? {
      ReplayToolsCursor(st.rows, convs, e, k, e.body.output.parts);
    }
  }

  lemma OneEntry(db: Db, e: Event, db': Db, stored: Event, st: Index, st': Index)
    requires LogOk(db)
    requires AppendEvent(db, e) == Ok((db', stored))
    requires ReplayEvent(db.conversations.Keys, st, e) == Ok(st')
    ensures LogOk(db') && db'.rows == db.rows
    ensures Steps(db, db', e.conv, [stored], st, st')
    ensures stored == e.(cursor := stored.cursor)
  {
    AppendEventEffect(db, e);
    ReplayIgnoresCursor(db.conversations.Keys, st, e, stored.cursor);
    ReplayOne(db.conversations.Keys, st, stored);
  }

  lemma RowsLeaveLog(db: Db, rows: Tables)
    requires LogOk(db)
    ensures LogOk(db.(rows := rows))
  {
    var mid := db.(rows := rows);
    assert forall c :: LogOf(mid, c) == LogOf(db, c);
    assert forall c | c in mid.conversations :: ConversationOk(db, c) && ConversationOk(mid, c);
  }

  /** The rows play no part in Steps. */
  lemma StepsFrom(db: Db, rows: Tables, db': Db, conv: Id, events: seq<Event>, st: Index, st': Index)
    requires Steps(db.(rows := rows), db', conv, events, st, st')
    ensures Steps(db, db', conv, events, st, st')
  {
    assert forall c :: LogOf(db.(rows := rows), c) == LogOf(db, c);
    assert Replays(db.conversations.Keys, st, events, st');
  }

  /** A transaction that sets the rows and appends one entry. */
  lemma OneEntryStep(db: Db, rows: Tables, e: Event)
    requires LogOk(db)
    requires AppendEvent(db.(rows := rows), e).Ok?
    requires ReplayEvent(db.conversations.Keys, Index(db.rows, map[]), e) == Ok(Index(rows, map[]))
    ensures var (db', stored) := AppendEvent(db.(rows := rows), e).value;
            && LogOk(db') && db'.rows == rows
            && Commits(db, db', e.conv, [stored])
            && stored == e.(cursor := stored.cursor)
  {
    var (db', stored) := AppendEvent(db.(rows := rows), e).value;
    RowsLeaveLog(db, rows);
    OneEntry(db.(rows := rows), e, db', stored, Index(db.rows, map[]), Index(rows, map[]));
    StepsFrom(db, rows, db', e.conv, [stored], Index(db.rows, map[]), Index(rows, map[]));
  }

  /** The same for two entries that belong together. */
  lemma TwoEntriesStep(db: Db, rows: Tables, e: Event, f: Event, mid: Index, db1: Db, first: Event, db2: Db, second: Event)
    requires LogOk(db) && e.conv == f.conv
    requires AppendEvent(db.(rows := rows), e) == Ok((db1, first))
    requires AppendEvent(db1, f) == Ok((db2, second))
    requires ReplayEvent(db.conversations.Keys, Index(db.rows, map[]), e) == Ok(mid)
    requires ReplayEvent(db.conversations.Keys, mid, f) == Ok(Index(rows, map[]))
    ensures LogOk(db2) && db2.rows == rows
    ensures Commits(db, db2, e.conv, [first, second])
    ensures first == e.(cursor := first.cursor) && second == f.(cursor := second.cursor)
  {
    RowsLeaveLog(db, rows);
    OneEntry(db.(rows := rows), e, db1, first, Index(db.rows, map[]), mid);
    OneEntry(db1, f, db2, second, mid, Index(rows, map[]));
    StepsTrans(db.(rows := rows), db1, db2, e.conv, [first], [second], Index(db.rows, map[]), mid, Index(rows, map[]));
    PairIsConcat(first, second);
    StepsFrom(db, rows, db2, e.conv, [first, second], Index(db.rows, map[]), Index(rows, map[]));
  }

  ghost predicate NothingStarts(t: Tables, t': Tables) {
    forall s | s in t'.submissions && t'.submissions[s].status == Running ::
      && s in t.submissions && t.submissions[s].status == Running
      && t'.submissions[s].conv == t.submissions[s].conv
  }

  lemma StaysExclusive(db: Db, db': Db, conv: Id, events: seq<Event>)
    requires Exclusive(db) && Commits(db, db', conv, events) && NothingStarts(db.rows, db'.rows)
    ensures Exclusive(db')
  {
    ExclusiveStays(db, db');
  }

  // ------------------------------------------------------------- Accept

  lemma InsertSubmissionKeeps(t: Tables, convs: set<Id>, id: NewId, row: Submission)
    requires RowsOk(t, convs) && Settled(t)
    requires row.status == Queued && row.error == ""
    requires InsertSubmission(t, convs, id, row).Ok?
    ensures var t' := InsertSubmission(t, convs, id, row).value;
            && RowsOk(t', convs) && Settled(t') && NothingStarts(t, t') && Grows(t, t')
            && t'.submissions == t.submissions[id := row]
  {
    InsertedSubmissionsOk(t, convs, id, row);
    InsertedRunsOk(t, convs, id, row);
    InsertedRunsNothing(t.submissions, id, row);
  }

  lemma InsertedSubmissionsOk(t: Tables, convs: set<Id>, id: NewId, row: Submission)
    requires SubmissionsOk(t.submissions, convs) && row.status == Queued && row.error == "" && InsertSubmission(t, convs, id, row).Ok?
    ensures SubmissionsOk(t.submissions[id := row], convs)
  {
    var subs := t.submissions[id := row];
    forall s, u | SameKey(subs, s, u)
      ensures s == u
    {
      assert s != id && u != id ==> SameKey(t.submissions, s, u);
    }
    assert forall s | s in t.submissions :: SubmissionOk(t.submissions, convs, s);
  }

  lemma InsertedRunsOk(t: Tables, convs: set<Id>, id: NewId, row: Submission)
    requires RunsOk(t.submissions, t.runs) && row.status == Queued && InsertSubmission(t, convs, id, row).Ok?
    ensures RunsOk(t.submissions[id := row], t.runs)
  {
    assert forall r | r in t.runs :: RunOk(t.submissions, t.runs, r);
  }

  lemma InsertedRunsNothing(subs: map<Id, Submission>, id: NewId, row: Submission)
    requires OneRunning(subs) && row.status == Queued
    ensures OneRunning(subs[id := row])
  {
    assert forall s, u :: BothRunning(subs[id := row], s, u) ==> BothRunning(subs, s, u);
  }

  /** Accept with a new key: one queued row, one input.accepted entry. */
  lemma AcceptStep(db: Db, conv: Id, input: InputSubmission, id: NewId, now: Time)
    requires Valid(db) && ValidInput(input)
    requires InsertAccepted(db, conv, input, id, now).Ok?
    ensures var (db', event) := InsertAccepted(db, conv, input, id, now).value;
            && Valid(db') && Commits(db, db', conv, [event]) && Grows(db.rows, db'.rows)
            && id in db'.rows.submissions && db'.rows.submissions[id].conv == conv
            && event.conv == conv && event.run == NoId && event.inbound == id && event.body.InputAccepted?
  {
    assert Invariant(db);
    var row := Submission(conv, input.key, input.revision, Queued, "", now);
    var rows := InsertSubmission(db.rows, db.conversations.Keys, id, row).value;
    var e := Event(0, conv, NoId, id, now, InputAccepted(input));
    OneEntryStep(db, rows, e);
    InsertSubmissionKeeps(db.rows, db.conversations.Keys, id, row);
    var (db', event) := AppendEvent(db.(rows := rows), e).value;
    StaysExclusive(db, db', conv, [event]);
  }

  // -------------------------------------------------------------- Claim

  function ClaimedRow(t: Tables, id: Id, now: Time): RunRow
    requires id in t.submissions
  {
    RunRow(t.submissions[id].conv, id, t.submissions[id].revision, Running, "", now, None)
  }

  /** The rows after submission `id` became run `runId`. */
  function ClaimedTables(t: Tables, id: Id, runId: Id, now: Time): Tables
    requires id in t.submissions
  {
    t.(submissions := t.submissions[id := t.submissions[id].(status := Running)],
       runs := t.runs[runId := ClaimedRow(t, id, now)])
  }

  lemma ClaimKeepsSubmissions(t: Tables, convs: set<Id>, id: Id, runId: NewId, now: Time)
    requires RowsOk(t, convs)
    requires id in t.submissions && t.submissions[id].status == Queued && !RunningIn(t, t.submissions[id].conv)
    ensures var t' := ClaimedTables(t, id, runId, now);
            SubmissionsOk(t'.submissions, convs) && OneRunning(t'.submissions)
  {
    var t' := ClaimedTables(t, id, runId, now);
    assert forall s | s in t.submissions :: SubmissionOk(t.submissions, convs, s);
    assert forall s, u :: SameKey(t'.submissions, s, u) ==> SameKey(t.submissions, s, u);
    forall s, u | BothRunning(t'.submissions, s, u) && t'.submissions[s].conv == t'.submissions[u].conv
      ensures s == u
    {
      assert s != id && u != id ==> BothRunning(t.submissions, s, u);
    }
  }

  lemma ClaimKeepsRun(t: Tables, convs: set<Id>, id: Id, runId: NewId, now: Time, r: Id)
    requires RowsOk(t, convs)
    requires id in t.submissions && t.submissions[id].status == Queued && runId !in t.runs
    requires r in ClaimedTables(t, id, runId, now).runs
    ensures RunOk(ClaimedTables(t, id, runId, now).submissions, ClaimedTables(t, id, runId, now).runs, r)
    ensures r != runId ==> r in t.runs && t.runs[r].inbound != id
  {
    assert SubmissionOk(t.submissions, convs, id);
    assert r in t.runs ==> RunOk(t.submissions, t.runs, r);
  }

  lemma ClaimKeepsRuns(t: Tables, convs: set<Id>, id: Id, runId: NewId, now: Time)
    requires RowsOk(t, convs)
    requires id in t.submissions && t.submissions[id].status == Queued && runId !in t.runs
    ensures RunsOk(ClaimedTables(t, id, runId, now).submissions, ClaimedTables(t, id, runId, now).runs)
  {
    var t' := ClaimedTables(t, id, runId, now);
    forall r | r in t'.runs
      ensures RunOk(t'.submissions, t'.runs, r) && (r != runId ==> t.runs[r].inbound != id)
    {
      ClaimKeepsRun(t, convs, id, runId, now, r);
    }
    forall r, q | SharedInput(t'.runs, r, q)
      ensures r == q
    {
      assert r != runId && q != runId ==> SharedInput(t.runs, r, q);
    }
    forall s | s in t'.submissions && t'.submissions[s].status != Queued
      ensures HasRun(t'.runs, s)
    {
      if s == id {
        assert t'.runs[runId].inbound == id;
      } else {
        var r :| r in t.runs && t.runs[r].inbound == s;
        assert t'.runs[r].inbound == s;
      }
    }
  }

  lemma ClaimKeepsTools(t: Tables, id: Id, runId: NewId, now: Time)
    requires ToolsOk(t) && Settled(t)
    requires id in t.submissions && runId !in t.runs
    ensures var t' := ClaimedTables(t, id, runId, now);
            ToolsOk(t') && Settled(t')
  {
    var t' := ClaimedTables(t, id, runId, now);
    assert forall r :: ToolsOf(t', r) == ToolsOf(t, r);
  }

  lemma ClaimReplays(t: Tables, convs: set<Id>, id: Id, runId: NewId, now: Time)
    requires RowsOk(t, convs)
    requires id in t.submissions && t.submissions[id].status == Queued
    requires StartSubmission(t, id).Ok?
    requires InsertRun(StartSubmission(t, id).value, convs, runId, ClaimedRow(t, id, now)).Ok?
    ensures var queued := t.submissions[id];
            var run := Run(runId, queued.conv, id, queued.revision, Running, "", now, None);
            var e := Event(0, queued.conv, runId, id, now, InputAdmitted);
            var f := Event(0, queued.conv, runId, id, now, RunStarted(run));
            var st := ReplayEvent(convs, Index(t, map[]), e);
            && st.Ok?
            && ReplayEvent(convs, st.value, f) == Ok(Index(ClaimedTables(t, id, runId, now), map[]))
  {
    var queued := t.submissions[id];
    assert SubmissionOk(t.submissions, convs, id);
    var e := Event(0, queued.conv, runId, id, now, InputAdmitted);
    var st := ReplayEvent(convs, Index(t, map[]), e);
    var key := (queued.conv, id);
    assert st == Ok(Index(t, map[key := runId]));
    assert map[key := runId] - {key} == map[];
  }

  lemma ClaimKeepsRows(t: Tables, convs: set<Id>, id: Id, runId: NewId, now: Time)
    requires RowsOk(t, convs) && Settled(t)
    requires id in t.submissions && t.submissions[id].status == Queued && !RunningIn(t, t.submissions[id].conv)
    requires runId !in t.runs
    ensures RowsOk(ClaimedTables(t, id, runId, now), convs) && Settled(ClaimedTables(t, id, runId, now))
  {
    ClaimKeepsSubmissions(t, convs, id, runId, now);
    ClaimKeepsRuns(t, convs, id, runId, now);
    ClaimKeepsTools(t, id, runId, now);
  }

  lemma ClaimCommits(db: Db, id: Id, runId: NewId, now: Time, db': Db, claim: Claimed)
    requires Valid(db) && Eligible(db, id)
    requires ClaimOne(db, id, runId, now) == Ok((db', claim))
    ensures LogOk(db') && Commits(db, db', claim.run.conv, claim.events)
    ensures claim.run == Run(runId, db.rows.submissions[id].conv, id, db.rows.submissions[id].revision, Running, "", now, None)
    ensures db'.rows == ClaimedTables(db.rows, id, runId, now) && runId !in db.rows.runs
  {
    assert Invariant(db);
    var queued := db.rows.submissions[id];
    var rows := ClaimedTables(db.rows, id, runId, now);
    var e := Event(0, queued.conv, runId, id, now, InputAdmitted);
    var f := Event(0, queued.conv, runId, id, now, RunStarted(claim.run));
    ClaimReplays(db.rows, db.conversations.Keys, id, runId, now);
    var (db1, first) := AppendEvent(db.(rows := rows), e).value;
    var (_, second) := AppendEvent(db1, f).value;
    var mid := ReplayEvent(db.conversations.Keys, Index(db.rows, map[]), e).value;
    TwoEntriesStep(db, rows, e, f, mid, db1, first, db', second);
  }

  lemma ClaimKeepsValid(db: Db, id: Id, runId: NewId, now: Time, db': Db, events: seq<Event>)
    requires Valid(db) && Eligible(db, id) && runId !in db.rows.runs
    requires LogOk(db') && Commits(db, db', db.rows.submissions[id].conv, events)
    requires db'.rows == ClaimedTables(db.rows, id, runId, now)
    ensures Valid(db')
  {
    assert Invariant(db);
    ClaimKeepsRows(db.rows, db.conversations.Keys, id, runId, now);
    ClaimExclusive(db, db', id, runId, now, events);
  }

  lemma ClaimExclusive(db: Db, db': Db, id: Id, runId: NewId, now: Time, events: seq<Event>)
    requires Exclusive(db) && Eligible(db, id)
    requires Commits(db, db', db.rows.submissions[id].conv, events)
    requires db'.rows == ClaimedTables(db.rows, id, runId, now)
    ensures Exclusive(db')
  {
    forall s, u | SharedLock(db', s, u)
      ensures s == u
    {
      assert s != id && u != id ==> SharedLock(db, s, u);
    }
    forall s
      ensures !InReserved(db', s)
    {
      assert s != id ==> (InReserved(db', s) ==> InReserved(db, s));
    }
  }

  // -------------------------------------------------- CommitAssistantTurn

  ghost predicate PartsNamed(parts: seq<Part>) {
    forall p | p in parts && p.ToolCall? :: p.call != "" && p.kind != ""
  }

  lemma {:induction false} NormalizedAreNamed(parts: seq<Part>)
    requires NormalizeParts(parts).Ok?
    ensures PartsNamed(NormalizeParts(parts).value)
  {
    if parts != [] {
      NormalizedAreNamed(parts[1..]);
    }
  }

  lemma {:induction false} InsertToolsReplay(t: Tables, convs: set<Id>, e: Event, parts: seq<Part>)
    requires PartsNamed(parts) && e.run != NoId
    ensures ReplayTools(t, convs, e, parts) == InsertTools(t, convs, e.conv, e.run, e.inbound, parts, e.createdAt)
    decreases parts
  {
    if parts != [] {
      if !parts[0].ToolCall? {
        InsertToolsReplay(t, convs, e, parts[1..]);
      } else {
        var row := ToolRow(parts[0].call, e.conv, e.run, e.inbound, parts[0].kind, Requested, e.createdAt);
        var inserted := InsertTool(t, convs, row);
        if inserted.Ok? {
          InsertToolsReplay(inserted.value, convs, e, parts[1..]);
        }
      }
    }
  }

  /** Only the calls of one run change. */
  ghost predicate ToolsChange(t: Tables, t': Tables, run: Id) {
    && t'.submissions == t.submissions && t'.runs == t.runs
    && (forall r | r != run :: ToolsOf(t', r) == ToolsOf(t, r))
    && (forall r | r in t'.tools :: r in t.tools || r == run)
  }

  lemma ToolsChangeKeeps(t: Tables, t': Tables, convs: set<Id>, run: Id)
    requires RowsOk(t, convs) && Settled(t) && ToolsChange(t, t', run)
    requires run in t.runs && ToolRowsOk(ToolsOf(t', run), run, t.runs[run])
    requires t.runs[run].status in {Failed, Stopped} ==> NoneRequested(ToolsOf(t', run))
    ensures RowsOk(t', convs) && Settled(t') && NothingStarts(t, t')
  {
    assert ToolsOk(t') by {
      assert forall r | r in t'.tools :: t'.tools[r] == ToolsOf(t', r);
    }
  }

  lemma InsertToolGrows(t: Tables, convs: set<Id>, row: ToolRow)
    requires row.run in t.runs && ToolRowsOk(ToolsOf(t, row.run), row.run, t.runs[row.run])
    requires row.conv == t.runs[row.run].conv && row.inbound == t.runs[row.run].inbound && row.call != "" && row.kind != ""
    requires InsertTool(t, convs, row).Ok?
    ensures var t' := InsertTool(t, convs, row).value;
            ToolsChange(t, t', row.run) && ToolRowsOk(ToolsOf(t', row.run), row.run, t.runs[row.run])
  {
    var t' := InsertTool(t, convs, row).value;
    var before, after := ToolsOf(t, row.run), ToolsOf(t', row.run);
    assert after == before + [row];
    assert forall k | 0 <= k < |before| :: before[k] in before && before[k].call != row.call;
    forall i: nat, j: nat | SameCall(after, i, j)
      ensures i == j
    {
      if i < |before| && j < |before| {
        assert SameCall(before, i, j);
      }
    }
  }

  lemma {:induction false} InsertToolsGrow(t: Tables, convs: set<Id>, conv: Id, run: Id, inbound: Id, parts: seq<Part>, now: Time)
    requires run in t.runs && ToolRowsOk(ToolsOf(t, run), run, t.runs[run])
    requires conv == t.runs[run].conv && inbound == t.runs[run].inbound && PartsNamed(parts)
    requires InsertTools(t, convs, conv, run, inbound, parts, now).Ok?
    ensures var t' := InsertTools(t, convs, conv, run, inbound, parts, now).value;
            ToolsChange(t, t', run) && ToolRowsOk(ToolsOf(t', run), run, t.runs[run])
    decreases parts
  {
    if parts != [] {
      if !parts[0].ToolCall? {
        InsertToolsGrow(t, convs, conv, run, inbound, parts[1..], now);
      } else {
        var row := ToolRow(parts[0].call, conv, run, inbound, parts[0].kind, Requested, now);
        InsertToolGrows(t, convs, row);
        InsertToolsGrow(InsertTool(t, convs, row).value, convs, conv, run, inbound, parts[1..], now);
      }
    }
  }

  lemma RowsCommute(db: Db, rows: Tables, e: Event)
    requires AppendEvent(db, e).Ok?
    ensures var (db', stored) := AppendEvent(db, e).value;
            AppendEvent(db.(rows := rows), e) == Ok((db'.(rows := rows), stored))
  {
    assert LogOf(db.(rows := rows), e.conv) == LogOf(db, e.conv);
  }

  lemma RunFacts(db: Db, run: Run)
    requires Valid(db) && FromClaim(db, run)
    ensures RunOk(db.rows.submissions, db.rows.runs, run.id)
    ensures ToolRowsOk(ToolsOf(db.rows, run.id), run.id, db.rows.runs[run.id])
    ensures SubmissionOk(db.rows.submissions, db.conversations.Keys, run.inbound)
  {
    assert Invariant(db);
  }

  /** Running runs belong to different conversations. */
  lemma RunningApart(db: Db, r: Id, q: Id)
    requires Valid(db) && r in db.rows.runs && q in db.rows.runs && r != q
    requires db.rows.runs[r].status == Running && db.rows.runs[q].status == Running
    ensures db.rows.runs[r].conv != db.rows.runs[q].conv
  {
    assert Invariant(db);
    assert RunOk(db.rows.submissions, db.rows.runs, r) && RunOk(db.rows.submissions, db.rows.runs, q);
    if db.rows.runs[r].conv == db.rows.runs[q].conv {
      assert BothRunning(db.rows.submissions, db.rows.runs[r].inbound, db.rows.runs[q].inbound);
      assert SharedInput(db.rows.runs, r, q);
    }
  }

  lemma CommitTurnReplays(db: Db, run: Run, parts: seq<Part>, e: Event, rows: Tables)
    requires Valid(db) && FromClaim(db, run) && PartsNamed(parts)
    requires e.conv == run.conv && e.run == run.id && e.inbound == run.inbound
    requires e.body.AssistantCommitted? && e.body.output.parts == parts
    requires InsertTools(db.rows, db.conversations.Keys, run.conv, run.id, run.inbound, parts, e.createdAt) == Ok(rows)
    ensures ReplayEvent(db.conversations.Keys, Index(db.rows, map[]), e) == Ok(Index(rows, map[]))
    ensures ToolsChange(db.rows, rows, run.id)
    ensures ToolRowsOk(ToolsOf(rows, run.id), run.id, db.rows.runs[run.id])
  {
    assert Invariant(db);
    RunFacts(db, run);
    InsertToolsReplay(db.rows, db.conversations.Keys, e, parts);
    InsertToolsGrow(db.rows, db.conversations.Keys, run.conv, run.id, run.inbound, parts, e.createdAt);
  }

  /** A committed tool turn: its requested rows and one output entry. */
  lemma CommitTurnStep(db: Db, run: Run, parts: seq<Part>, outputId: NewId, now: Time)
    requires Valid(db) && FromClaim(db, run) && db.rows.runs[run.id].status !in {Failed, Stopped}
    requires CommitTurn(db, run, parts, outputId, now).Ok?
    ensures var (db', event) := CommitTurn(db, run, parts, outputId, now).value;
            && Valid(db') && Commits(db, db', run.conv, [event])
            && ToolsChange(db.rows, db'.rows, run.id)
  {
    assert Invariant(db);
    var normalized := NormalizeParts(parts).value;
    var e := Event(0, run.conv, run.id, run.inbound, now, AssistantCommitted(AssistantOutput(outputId, normalized, false)));
    var (db', event) := CommitTurn(db, run, parts, outputId, now).value;
    NormalizedAreNamed(parts);
    AppendEventShape(db, e);
    CommitTurnReplays(db, run, normalized, e, db'.rows);
    RowsCommute(db, db'.rows, e);
    OneEntryStep(db, db'.rows, e);
    ToolsChangeKeeps(db.rows, db'.rows, db.conversations.Keys, run.id);
    StaysExclusive(db, db', run.conv, [event]);
  }

  // ------------------------------------------------------- tool outcomes

  lemma SetToolKeepsRows(rows: seq<ToolRow>, id: Id, run: RunRow, i: nat, status: ToolStatus, now: Time)
    requires i < |rows| && ToolRowsOk(rows, id, run)
    ensures ToolRowsOk(rows[i := rows[i].(status := status, updatedAt := now)], id, run)
  {
    var rows' := rows[i := rows[i].(status := status, updatedAt := now)];
    assert forall a: nat, b: nat :: SameCall(rows', a, b) ==> SameCall(rows, a, b);
  }

  lemma SetToolKeeps(t: Tables, convs: set<Id>, run: Id, i: nat, status: ToolStatus, now: Time)
    requires RowsOk(t, convs) && Settled(t) && run in t.runs
    requires i < |ToolsOf(t, run)| && status != Requested
    ensures var t' := SetTool(t, run, i, status, now);
            RowsOk(t', convs) && Settled(t') && NothingStarts(t, t') && ToolsChange(t, t', run)
  {
    var t' := SetTool(t, run, i, status, now);
    assert ToolRowsOk(ToolsOf(t, run), run, t.runs[run]);
    SetToolKeepsRows(ToolsOf(t, run), run, t.runs[run], i, status, now);
    ToolsChangeKeeps(t, t', convs, run);
  }

  lemma OutcomeReplays(db: Db, run: Run, i: nat, e: Event)
    requires Valid(db) && FromClaim(db, run)
    requires e.conv == run.conv && e.run == run.id && e.body.ToolOutcomeRecorded?
    requires i < |ToolsOf(db.rows, run.id)| && i == RequestedIndex(ToolsOf(db.rows, run.id), e.body.outcome.call)
    requires e.body.outcome.kind == ToolsOf(db.rows, run.id)[i].kind && e.body.outcome.status != Requested
    ensures ReplayEvent(db.conversations.Keys, Index(db.rows, map[]), e)
            == Ok(Index(SetTool(db.rows, run.id, i, e.body.outcome.status, e.createdAt), map[]))
  {
    RunFacts(db, run);
  }

  /** toolFinishedTx: one row gets its outcome, one outcome entry. */
  lemma FinishToolStep(db: Db, run: Run, result: ToolResult, status: ToolStatus, outcomeId: NewId, now: Time, db': Db, event: Event)
    requires Valid(db) && FromClaim(db, run) && status != Requested
    requires FinishTool(db, run, result, status, outcomeId, now) == Ok((db', event))
    ensures Valid(db') && Commits(db, db', run.conv, [event])
    ensures ToolsChange(db.rows, db'.rows, run.id)
    ensures var tools := ToolsOf(db.rows, run.id);
            var i := RequestedIndex(tools, result.call);
            i < |tools| && ToolsOf(db'.rows, run.id) == tools[i := tools[i].(status := status, updatedAt := now)]
  {
    assert Invariant(db);
    var tools := ToolsOf(db.rows, run.id);
    var i := RequestedIndex(tools, result.call);
    var e := Event(0, run.conv, run.id, run.inbound, now,
                   ToolOutcomeRecorded(ToolOutcome(outcomeId, result.call, tools[i].kind, status, result)));
    OutcomeReplays(db, run, i, e);
    OneEntryStep(db, SetTool(db.rows, run.id, i, status, now), e);
    SetToolKeeps(db.rows, db.conversations.Keys, run.id, i, status, now);
    StaysExclusive(db, db', run.conv, [event]);
  }

  // ------------------------------------------------------------ endings

  predicate Terminal(status: RunStatus) {
    status != Queued && status != Running
  }

  /** The rows after run `r` and its submission ended. */
  function EndedTables(t: Tables, r: Id, status: RunStatus, error: string, at: Time): Tables
    requires r in t.runs
  {
    SetSubmission(SetRun(t, r, status, error, at), t.runs[r].inbound, status, error)
  }

  lemma EndKeepsRuns(t: Tables, convs: set<Id>, r: Id, status: RunStatus, error: string, at: Time)
    requires RowsOk(t, convs) && r in t.runs && Terminal(status)
    ensures var t' := EndedTables(t, r, status, error, at);
            RunsOk(t'.submissions, t'.runs)
  {
    var t' := EndedTables(t, r, status, error, at);
    forall q | q in t'.runs
      ensures RunOk(t'.submissions, t'.runs, q)
    {
      EndKeepsRun(t, convs, r, status, error, at, q);
    }
    SameInputs(t.runs, t'.runs);
    forall s | s in t'.submissions && t'.submissions[s].status != Queued
      ensures HasRun(t'.runs, s)
    {
      EndKeepsHasRun(t, r, status, error, at, s);
    }
  }

  lemma EndKeepsRun(t: Tables, convs: set<Id>, r: Id, status: RunStatus, error: string, at: Time, q: Id)
    requires RowsOk(t, convs) && r in t.runs && Terminal(status) && q in t.runs
    ensures var t' := EndedTables(t, r, status, error, at);
            q in t'.runs && RunOk(t'.submissions, t'.runs, q)
  {
    assert RunOk(t.submissions, t.runs, r) && RunOk(t.submissions, t.runs, q);
    assert SharedInput(t.runs, q, r) ==> q == r;
  }

  lemma SameInputs(runs: map<Id, RunRow>, runs': map<Id, RunRow>)
    requires runs'.Keys == runs.Keys && forall q | q in runs :: runs'[q].inbound == runs[q].inbound
    ensures forall p, q :: SharedInput(runs', p, q) <==> SharedInput(runs, p, q)
    ensures forall s :: HasRun(runs', s) <==> HasRun(runs, s)
  {
    forall s ensures HasRun(runs', s) <==> HasRun(runs, s) {
      if q :| q in runs && runs[q].inbound == s { assert runs'[q].inbound == s; }
      if q :| q in runs' && runs'[q].inbound == s { assert runs[q].inbound == s; }
    }
  }

  lemma EndKeepsHasRun(t: Tables, r: Id, status: RunStatus, error: string, at: Time, s: Id)
    requires r in t.runs && RunsOk(t.submissions, t.runs)
    requires var t' := EndedTables(t, r, status, error, at);
             s in t'.submissions && t'.submissions[s].status != Queued
    ensures HasRun(EndedTables(t, r, status, error, at).runs, s)
  {
    SameInputs(t.runs, EndedTables(t, r, status, error, at).runs);
    if s == t.runs[r].inbound {
      assert HasRun(t.runs, s);
    }
  }

  lemma EndKeepsSubmissions(t: Tables, convs: set<Id>, r: Id, status: RunStatus, error: string, at: Time)
    requires RowsOk(t, convs) && r in t.runs && Terminal(status)
    ensures var t' := EndedTables(t, r, status, error, at);
            SubmissionsOk(t'.submissions, convs)
  {
    var t' := EndedTables(t, r, status, error, at);
    assert forall s | s in t.submissions :: SubmissionOk(t.submissions, convs, s);
    assert forall s, u :: SameKey(t'.submissions, s, u) ==> SameKey(t.submissions, s, u);
  }

  lemma EndStartsNothing(t: Tables, r: Id, status: RunStatus, error: string, at: Time)
    requires OneRunning(t.submissions) && r in t.runs && Terminal(status)
    ensures var t' := EndedTables(t, r, status, error, at);
            OneRunning(t'.submissions) && NothingStarts(t, t')
  {
    var t' := EndedTables(t, r, status, error, at);
    assert forall s, u :: BothRunning(t'.submissions, s, u) ==> BothRunning(t.submissions, s, u);
  }

  lemma EndKeepsTools(t: Tables, convs: set<Id>, r: Id, status: RunStatus, error: string, at: Time)
    requires RowsOk(t, convs) && Settled(t) && r in t.runs
    requires status in {Failed, Stopped} ==> NoneRequested(ToolsOf(t, r))
    ensures var t' := EndedTables(t, r, status, error, at);
            ToolsOk(t') && Settled(t')
  {
    var t' := EndedTables(t, r, status, error, at);
    assert forall q :: ToolsOf(t', q) == ToolsOf(t, q);
  }

  lemma EndKeepsRows(t: Tables, convs: set<Id>, r: Id, status: RunStatus, error: string, at: Time)
    requires RowsOk(t, convs) && Settled(t) && r in t.runs && Terminal(status)
    requires status in {Failed, Stopped} ==> NoneRequested(ToolsOf(t, r))
    ensures var t' := EndedTables(t, r, status, error, at);
            RowsOk(t', convs) && Settled(t') && NothingStarts(t, t')
  {
    EndKeepsRuns(t, convs, r, status, error, at);
    EndKeepsSubmissions(t, convs, r, status, error, at);
    EndStartsNothing(t, r, status, error, at);
    EndKeepsTools(t, convs, r, status, error, at);
  }

  /** A terminal entry replays exactly when the run was still running. */
  lemma EndReplays(db: Db, run: Run, e: Event, ended: Run)
    requires Valid(db) && FromClaim(db, run)
    requires e.conv == run.conv && e.run == run.id && e.inbound == run.inbound
    requires ended == run.(status := ended.status, error := ended.error, completedAt := ended.completedAt)
    requires ended.completedAt.Some?
    requires || (e.body == RunCompleted(ended) && ended.status == Completed)
             || (e.body == RunFailed(ended) && ended.status == Failed)
             || (e.body == RunStopped(ended) && ended.status == Stopped)
    ensures var replayed := ReplayEvent(db.conversations.Keys, Index(db.rows, map[]), e);
            && (replayed.Ok? <==> db.rows.runs[run.id].status == Running)
            && (replayed.Ok? ==>
                  replayed.value == Index(EndedTables(db.rows, run.id, ended.status, ended.error, ended.completedAt.value), map[]))
  {
    assert Invariant(db);
    RunFacts(db, run);
  }

  lemma AnswerReplays(convs: set<Id>, st: Index, e: Event, answer: string, id: Id)
    requires e.body == AssistantCommitted(AssistantOutput(id, [Text(answer)], true))
    ensures ReplayEvent(convs, st, e) == Ok(st)
  {
    assert [Text(answer)][1..] == [];
    assert ReplayTools(st.rows, convs, e, [Text(answer)][1..]) == Ok(st.rows);
    assert ReplayTools(st.rows, convs, e, [Text(answer)]) == Ok(st.rows);
  }

  /** FinishRun of a running run: its answer and its end, two entries. */
  lemma FinishRunCommits(db: Db, run: Run, answer: string, outputId: NewId, now: Time, db': Db, events: seq<Event>)
    requires Valid(db) && FromClaim(db, run) && db.rows.runs[run.id].status == Running
    requires FinishRun(db, run, answer, outputId, now) == Ok((db', events))
    ensures LogOk(db') && Commits(db, db', run.conv, events)
    ensures db'.rows == EndedTables(db.rows, run.id, Completed, "", now)
  {
    assert Invariant(db);
    RunFacts(db, run);
    var rows := EndedTables(db.rows, run.id, Completed, "", now);
    var ended := run.(status := Completed, completedAt := Some(now));
    var e := Event(0, run.conv, run.id, run.inbound, now, AssistantCommitted(AssistantOutput(outputId, [Text(answer)], true)));
    var f := Event(0, run.conv, run.id, run.inbound, now, RunCompleted(ended));
    var convs := db.conversations.Keys;
    AnswerReplays(convs, Index(db.rows, map[]), e, answer, outputId);
    EndReplays(db, run, f, ended);
    var (db1, first) := AppendEvent(db.(rows := rows), e).value;
    var (_, second) := AppendEvent(db1, f).value;
    TwoEntriesStep(db, rows, e, f, Index(db.rows, map[]), db1, first, db', second);
  }

  lemma EndKeepsValid(db: Db, r: Id, status: RunStatus, error: string, at: Time, db': Db, conv: Id, events: seq<Event>)
    requires Valid(db) && r in db.rows.runs && Terminal(status)
    requires status in {Failed, Stopped} ==> NoneRequested(ToolsOf(db.rows, r))
    requires LogOk(db') && Commits(db, db', conv, events)
    requires db'.rows == EndedTables(db.rows, r, status, error, at)
    ensures Valid(db')
  {
    assert Invariant(db);
    EndKeepsRows(db.rows, db.conversations.Keys, r, status, error, at);
    StaysExclusive(db, db', conv, events);
  }

  /** How many calls still wait for an outcome. */
  lemma {:induction false} RequestedCallsNone(tools: seq<ToolRow>)
    ensures RequestedCalls(tools) == [] <==> NoneRequested(tools)
  {
    if tools != [] {
      RequestedCallsNone(tools[1..]);
      assert NoneRequested(tools) <==> tools[0].status != Requested && NoneRequested(tools[1..]) by {
        assert forall i | 0 < i < |tools| :: tools[i] == tools[1..][i - 1];
      }
    }
  }

  /** Resolving the first requested call leaves the later ones. */
  lemma {:induction false} ResolveFirst(tools: seq<ToolRow>, id: Id, run: RunRow, status: ToolStatus, now: Time)
    requires ToolRowsOk(tools, id, run) && status != Requested && RequestedCalls(tools) != []
    ensures var i := RequestedIndex(tools, RequestedCalls(tools)[0].call);
            && i < |tools| && tools[i] == RequestedCalls(tools)[0]
            && RequestedCalls(tools[i := tools[i].(status := status, updatedAt := now)]) == RequestedCalls(tools)[1..]
  {
    var first := RequestedCalls(tools)[0];
    var i := RequestedIndex(tools, first.call);
    if tools[0].status == Requested {
      assert tools[0 := tools[0].(status := status, updatedAt := now)][1..] == tools[1..];
      assert RequestedCalls(tools) == [tools[0]] + RequestedCalls(tools[1..]);
    } else {
      TailRowsOk(tools, id, run);
      ResolveFirst(tools[1..], id, run, status, now);
      var k := RequestedIndex(tools[1..], first.call);
      var later := tools[i := tools[i].(status := status, updatedAt := now)];
      assert i == k + 1;
      assert later[1..] == tools[1..][k := tools[1..][k].(status := status, updatedAt := now)];
    }
  }

  lemma TailRowsOk(tools: seq<ToolRow>, id: Id, run: RunRow)
    requires ToolRowsOk(tools, id, run) && tools != []
    ensures ToolRowsOk(tools[1..], id, run)
  {
    assert forall a: nat, b: nat :: SameCall(tools[1..], a, b) ==> SameCall(tools, a + 1, b + 1);
  }

  lemma NothingCommits(db: Db, conv: Id)
    requires conv in db.conversations
    ensures Commits(db, db, conv, [])
  {
  }

  lemma ClaimSurvives(db: Db, db': Db, run: Run)
    requires FromClaim(db, run) && db'.rows.runs == db.rows.runs
    ensures FromClaim(db', run)
  {
  }

  /** interruptRequestedToolsTx: every waiting call is resolved, and nothing
      but the calls of this run changes. */
  lemma {:induction false} InterruptStep(db: Db, run: Run, calls: seq<ToolRow>, ids: nat -> NewId, k: nat, now: Time, db': Db, events: seq<Event>)
    requires Valid(db) && FromClaim(db, run) && run.conv in db.conversations
    requires calls == RequestedCalls(ToolsOf(db.rows, run.id))
    requires Interrupt(db, run, calls, ids, k, now) == Ok((db', events))
    ensures Valid(db') && Commits(db, db', run.conv, events)
    ensures ToolsChange(db.rows, db'.rows, run.id) && NoneRequested(ToolsOf(db'.rows, run.id))
    decreases calls
  {
    if calls == [] {
      NothingCommits(db, run.conv);
      RequestedCallsNone(ToolsOf(db.rows, run.id));
    } else {
      var result := InterruptedResult(calls[0]);
      var (db1, event) := FinishTool(db, run, result, Interrupted, ids(k), now).value;
      RunFacts(db, run);
      ResolveFirst(ToolsOf(db.rows, run.id), run.id, db.rows.runs[run.id], Interrupted, now);
      FinishToolStep(db, run, result, Interrupted, ids(k), now, db1, event);
      InterruptRest(db, run, calls, ids, k, now, db1, event, db', events);
    }
  }

  lemma {:induction false} InterruptRest(db: Db, run: Run, calls: seq<ToolRow>, ids: nat -> NewId, k: nat, now: Time,
                                         db1: Db, event: Event, db': Db, events: seq<Event>)
    requires FromClaim(db, run) && run.conv in db.conversations && calls != []
    requires Interrupt(db, run, calls, ids, k, now) == Ok((db', events))
    requires FinishTool(db, run, InterruptedResult(calls[0]), Interrupted, ids(k), now) == Ok((db1, event))
    requires Valid(db1) && Commits(db, db1, run.conv, [event]) && ToolsChange(db.rows, db1.rows, run.id)
    requires calls[1..] == RequestedCalls(ToolsOf(db1.rows, run.id))
    ensures Valid(db') && Commits(db, db', run.conv, events)
    ensures ToolsChange(db.rows, db'.rows, run.id) && NoneRequested(ToolsOf(db'.rows, run.id))
    decreases calls, 0
  {
    var (_, rest) := Interrupt(db1, run, calls[1..], ids, k + 1, now).value;
    ClaimSurvives(db, db1, run);
    InterruptStep(db1, run, calls[1..], ids, k + 1, now, db', rest);
    CommitsTrans(db, db1, db', run.conv, [event], rest);
  }

  lemma CommitsTrans(a: Db, b: Db, c: Db, conv: Id, xs: seq<Event>, ys: seq<Event>)
    requires Commits(a, b, conv, xs) && Commits(b, c, conv, ys)
    ensures Commits(a, c, conv, xs + ys)
  {
    StepsTrans(a, b, c, conv, xs, ys, Index(a.rows, map[]), Index(b.rows, map[]), Index(c.rows, map[]));
  }

  lemma EndRunCommits(db: Db, run: Run, ending: Ending, now: Time, db1: Db, e: Event, db': Db, event: Event)
    requires Valid(db1) && FromClaim(db1, run) && db1.rows.runs[run.id].status == Running
    requires var ended := run.(status := EndStatus(ending), error := EndMessage(ending), completedAt := Some(now));
             e == Event(0, run.conv, run.id, run.inbound, now, EndBody(ending, ended))
    requires AppendEvent(db1.(rows := EndedTables(db1.rows, run.id, EndStatus(ending), EndMessage(ending), now)), e)
             == Ok((db', event))
    ensures LogOk(db') && Commits(db1, db', run.conv, [event])
    ensures db'.rows == EndedTables(db1.rows, run.id, EndStatus(ending), EndMessage(ending), now)
  {
    assert Invariant(db1);
    var ended := run.(status := EndStatus(ending), error := EndMessage(ending), completedAt := Some(now));
    EndReplays(db1, run, e, ended);
    OneEntryStep(db1, EndedTables(db1.rows, run.id, EndStatus(ending), EndMessage(ending), now), e);
  }

  /** endRun of a running run: its waiting calls interrupted, then its end. */
  lemma EndRunStep(db: Db, run: Run, ending: Ending, ids: nat -> NewId, now: Time, db': Db, events: seq<Event>)
    requires Valid(db) && FromClaim(db, run) && db.rows.runs[run.id].status == Running
    requires EndRun(db, run, ending, ids, now) == Ok((db', events))
    ensures Valid(db') && Commits(db, db', run.conv, events)
    ensures db'.rows.runs == EndedTables(db.rows, run.id, EndStatus(ending), EndMessage(ending), now).runs
    ensures db'.rows.submissions == EndedTables(db.rows, run.id, EndStatus(ending), EndMessage(ending), now).submissions
    ensures NoneRequested(ToolsOf(db'.rows, run.id))
  {
    RunFacts(db, run);
    var calls := RequestedCalls(ToolsOf(db.rows, run.id));
    var (db1, first) := Interrupt(db, run, calls, ids, 0, now).value;
    InterruptStep(db, run, calls, ids, 0, now, db1, first);
    EndRunRest(db, run, ending, now, db1, first, db', events);
  }

  lemma EndRunRest(db: Db, run: Run, ending: Ending, now: Time, db1: Db, first: seq<Event>, db': Db, events: seq<Event>)
    requires FromClaim(db, run) && db.rows.runs[run.id].status == Running
    requires Valid(db1) && Commits(db, db1, run.conv, first) && ToolsChange(db.rows, db1.rows, run.id)
    requires NoneRequested(ToolsOf(db1.rows, run.id))
    requires var ended := run.(status := EndStatus(ending), error := EndMessage(ending), completedAt := Some(now));
             var e := Event(0, run.conv, run.id, run.inbound, now, EndBody(ending, ended));
             var rows := SetRun(SetSubmission(db1.rows, run.inbound, EndStatus(ending), EndMessage(ending)),
                                run.id, EndStatus(ending), EndMessage(ending), now);
             var last := AppendEvent(db1.(rows := rows), e);
             last.Ok? && last.value.0 == db' && events == first + [last.value.1]
    ensures Valid(db') && Commits(db, db', run.conv, events)
    ensures db'.rows == EndedTables(db1.rows, run.id, EndStatus(ending), EndMessage(ending), now)
  {
    assert Invariant(db1);
    ClaimSurvives(db, db1, run);
    var ended := run.(status := EndStatus(ending), error := EndMessage(ending), completedAt := Some(now));
    var e := Event(0, run.conv, run.id, run.inbound, now, EndBody(ending, ended));
    var event := events[|events| - 1];
    EndRunCommits(db, run, ending, now, db1, e, db', event);
    EndKeepsValid(db1, run.id, EndStatus(ending), EndMessage(ending), now, db', run.conv, [event]);
    CommitsTrans(db, db1, db', run.conv, first, [event]);
  }

  // ------------------------------------- entries that change no index row

  lemma NoteCommits(db: Db, e: Event, db': Db, event: Event)
    requires Valid(db) && (e.body.EnvironmentProgress? || e.body.AgentFact?)
    requires AppendEvent(db, e) == Ok((db', event))
    ensures LogOk(db') && Commits(db, db', e.conv, [event]) && db'.rows == db.rows
    ensures event == e.(cursor := event.cursor)
  {
    assert Invariant(db);
    OneEntry(db, e, db', event, Index(db.rows, map[]), Index(db.rows, map[]));
  }

  lemma NoteKeepsValid(db: Db, db': Db, conv: Id, events: seq<Event>)
    requires Valid(db) && LogOk(db') && Commits(db, db', conv, events) && db'.rows == db.rows
    ensures Valid(db')
  {
    assert Invariant(db);
    StaysExclusive(db, db', conv, events);
  }

  /** AppendEnvironmentProgress and AppendAgentEvent only append. */
  lemma NoteStep(db: Db, e: Event, db': Db, event: Event)
    requires Valid(db) && (e.body.EnvironmentProgress? || e.body.AgentFact?)
    requires AppendEvent(db, e) == Ok((db', event))
    ensures Valid(db') && Commits(db, db', e.conv, [event]) && db'.rows == db.rows
    ensures event == e.(cursor := event.cursor)
  {
    NoteCommits(db, e, db', event);
    NoteKeepsValid(db, db', e.conv, [event]);
  }

  // ------------------------------------------------- outside conversations

  lemma CreateKeepsLog(db: Db, id: Id, conversation: Conversation)
    requires LogOk(db) && id !in db.conversations && conversation.next == 1
    ensures LogOk(db.(conversations := db.conversations[id := conversation]))
  {
    var db' := db.(conversations := db.conversations[id := conversation]);
    assert forall c :: LogOf(db', c) == LogOf(db, c);
    assert forall c | c in db.conversations :: ConversationOk(db, c);
  }

  lemma CreateKeepsRows(t: Tables, convs: set<Id>, id: Id)
    requires RowsOk(t, convs)
    ensures RowsOk(t, convs + {id})
  {
    assert forall s | s in t.submissions :: SubmissionOk(t.submissions, convs, s);
  }

  lemma CreateKeepsExclusive(db: Db, id: Id, conversation: Conversation)
    requires Exclusive(db) && SubmissionsOk(db.rows.submissions, db.conversations.Keys) && id !in db.conversations
    ensures Exclusive(db.(conversations := db.conversations[id := conversation]))
  {
    var db' := db.(conversations := db.conversations[id := conversation]);
    assert forall s | s in db.rows.submissions :: SubmissionOk(db.rows.submissions, db.conversations.Keys, s);
    assert forall s, u :: SharedLock(db', s, u) ==> SharedLock(db, s, u);
    assert forall s :: InReserved(db', s) ==> InReserved(db, s);
  }

  lemma CreateStep(db: Db, id: Id, agent: string, workspace: Id, lock: string, db': Db)
    requires Valid(db)
    requires CreateConversation(db, id, agent, workspace, lock) == Ok(db')
    ensures Valid(db')
  {
    assert Invariant(db);
    var conversation := Conversation(agent, workspace, lock, 1);
    CreateKeepsLog(db, id, conversation);
    CreateKeepsRows(db.rows, db.conversations.Keys, id);
    CreateKeepsExclusive(db, id, conversation);
    assert db'.conversations.Keys == db.conversations.Keys + {id};
  }

  lemma ReserveStep(db: Db, workspace: Id, db': Db)
    requires Valid(db) && Reserve(db, workspace) == Ok(db')
    ensures Valid(db')
  {
    assert Invariant(db);
    ReservationsAside(db, db');
    assert forall s :: InReserved(db', s) ==> InReserved(db, s);
  }

  /** Reservations concern neither the log nor the locks. */
  lemma ReservationsAside(db: Db, db': Db)
    requires LogOk(db) && db' == db.(reservations := db'.reservations)
    ensures LogOk(db') && forall s, u :: SharedLock(db', s, u) <==> SharedLock(db, s, u)
  {
    assert forall c :: LogOf(db', c) == LogOf(db, c);
    assert forall c | c in db.conversations :: ConversationOk(db, c) && ConversationOk(db', c);
  }

  lemma ReleaseStep(db: Db, workspace: Id)
    requires Valid(db)
    ensures Valid(Release(db, workspace))
  {
    assert Invariant(db);
    var db' := Release(db, workspace);
    ReservationsAside(db, db');
    assert forall s :: InReserved(db', s) ==> InReserved(db, s);
  }
}
