/** What a rebuild installs from any log that it accepts, damaged ones
    included (runtime/sqlite/rebuild.go): consistent tables, each row of which
    some entries of the log account for. */
module RebuildSoundness {
  import opened Wrappers
  import opened Events
  import opened Store
  import opened Replay
  import opened StoreInvariant
  import opened Rebuild
  import opened RebuildTheorems

  // ---------------------------------------------------------- consistency

  /** A run and its submission agree, and the submission left the queue. */
  ghost predicate Paired(subs: map<Id, Submission>, runs: map<Id, RunRow>, r: Id)
    requires r in runs
  {
    && runs[r].inbound in subs
    && var s := subs[runs[r].inbound];
       s.conv == runs[r].conv && s.revision == runs[r].revision && s.status == runs[r].status && s.error == runs[r].error && s.status != Queued
  }

  ghost predicate RunsPaired(subs: map<Id, Submission>, runs: map<Id, RunRow>) {
    && (forall r | r in runs :: Paired(subs, runs, r))
    && (forall r, q :: SharedInput(runs, r, q) ==> r == q)
    && (forall s | s in subs && subs[s].status != Queued :: HasRun(runs, s))
  }

  ghost predicate DistinctCalls(rows: seq<ToolRow>, run: Id) {
    && (forall i | 0 <= i < |rows| :: rows[i].run == run && rows[i].call != "" && rows[i].kind != "")
    && (forall i: nat, j: nat :: SameCall(rows, i, j) ==> i == j)
  }

  /** No key twice, one running submission a conversation, one run for each
      submission that left the queue, and no call twice in a run. */
  ghost predicate Consistent(t: Tables, convs: set<Id>) {
    && SubmissionsOk(t.submissions, convs) && OneRunning(t.submissions) && RunsPaired(t.submissions, t.runs)
    && (forall r | r in t.tools :: r in t.runs && DistinctCalls(t.tools[r], r))
  }

  lemma InsertedSubmissions(subs: map<Id, Submission>, convs: set<Id>, id: Id, row: Submission)
    requires SubmissionsOk(subs, convs) && OneRunning(subs) && id !in subs && row.status == Queued && row.error == ""
    requires id != NoId && row.conv in convs && row.revision != ""
    requires forall s | s in subs && subs[s].conv == row.conv :: subs[s].key != row.key
    ensures SubmissionsOk(subs[id := row], convs) && OneRunning(subs[id := row])
  {
    var subs' := subs[id := row];
    forall s, u | SameKey(subs', s, u)
      ensures s == u
    {
      assert s != id && u != id ==> SameKey(subs, s, u);
    }
    assert forall s, u :: BothRunning(subs', s, u) ==> BothRunning(subs, s, u);
  }

  lemma InsertedRuns(subs: map<Id, Submission>, runs: map<Id, RunRow>, id: Id, row: Submission)
    requires RunsPaired(subs, runs) && id !in subs && row.status == Queued
    ensures RunsPaired(subs[id := row], runs)
  {
    assert forall r | r in runs :: Paired(subs, runs, r);
  }

  lemma AcceptedShape(convs: set<Id>, st: Index, e: Event, row: Submission)
    requires e.body.InputAccepted? && ReplayEvent(convs, st, e).Ok?
    requires row == Submission(e.conv, e.body.input.key, e.body.input.revision, Queued, "", e.createdAt)
    ensures e.inbound !in st.rows.submissions && e.inbound != NoId && row.conv in convs && row.revision != ""
    ensures !KeyTaken(st.rows, row.conv, row.key)
    ensures ReplayEvent(convs, st, e).value == st.(rows := st.rows.(submissions := st.rows.submissions[e.inbound := row]))
  {
  }

  lemma AcceptedConsistent(convs: set<Id>, st: Index, e: Event)
    requires Consistent(st.rows, convs) && e.body.InputAccepted? && ReplayEvent(convs, st, e).Ok?
    ensures Consistent(ReplayEvent(convs, st, e).value.rows, convs)
  {
    var row := Submission(e.conv, e.body.input.key, e.body.input.revision, Queued, "", e.createdAt);
    AcceptedShape(convs, st, e, row);
    InsertedSubmissions(st.rows.submissions, convs, e.inbound, row);
    InsertedRuns(st.rows.submissions, st.rows.runs, e.inbound, row);
  }

  lemma StartedSubmissions(subs: map<Id, Submission>, convs: set<Id>, id: Id)
    requires SubmissionsOk(subs, convs) && OneRunning(subs) && id in subs && subs[id].status == Queued
    requires forall s | s in subs && subs[s].conv == subs[id].conv :: subs[s].status != Running
    ensures SubmissionsOk(subs[id := subs[id].(status := Running)], convs) && OneRunning(subs[id := subs[id].(status := Running)])
  {
    var subs' := subs[id := subs[id].(status := Running)];
    forall s, u | SameKey(subs', s, u)
      ensures s == u
    {
      assert SameKey(subs, s, u);
    }
    forall s, u | BothRunning(subs', s, u) && subs'[s].conv == subs'[u].conv
      ensures s == u
    {
      assert s != id && u != id ==> BothRunning(subs, s, u);
    }
  }

  lemma StartedRuns(subs: map<Id, Submission>, runs: map<Id, RunRow>, id: Id, r: Id, row: RunRow)
    requires RunsPaired(subs, runs) && id in subs && subs[id].status == Queued && subs[id].error == "" && r !in runs
    requires row.inbound == id && row.conv == subs[id].conv && row.revision == subs[id].revision && row.status == Running && row.error == ""
    ensures RunsPaired(subs[id := subs[id].(status := Running)], runs[r := row])
  {
    var subs', runs' := subs[id := subs[id].(status := Running)], runs[r := row];
    forall q | q in runs'
      ensures Paired(subs', runs', q)
    {
      assert q != r ==> Paired(subs, runs, q);
    }
    forall p, q | SharedInput(runs', p, q)
      ensures p == q
    {
      assert p != r && q != r ==> SharedInput(runs, p, q);
      assert p != r ==> Paired(subs, runs, p);
      assert q != r ==> Paired(subs, runs, q);
    }
    forall s | s in subs' && subs'[s].status != Queued
      ensures HasRun(runs', s)
    {
      if s != id {
        var q :| q in runs && runs[q].inbound == s;
        assert runs'[q].inbound == s;
      } else {
        assert runs'[r].inbound == s;
      }
    }
  }

  lemma StartRefuses(convs: set<Id>, st: Index, e: Event)
    requires e.body.RunStarted? && ReplayEvent(convs, st, e).Ok?
    ensures var run := e.body.run;
            && run.inbound in st.rows.submissions && st.rows.submissions[run.inbound].status == Queued
            && st.rows.submissions[run.inbound].conv == e.conv && st.rows.submissions[run.inbound].revision == run.revision
            && run.status == Running && run.id !in st.rows.runs
    ensures forall s | s in st.rows.submissions && st.rows.submissions[s].conv == e.conv :: st.rows.submissions[s].status != Running
  {
  }

  lemma StartedConsistent(convs: set<Id>, st: Index, e: Event)
    requires Consistent(st.rows, convs) && e.body.RunStarted? && ReplayEvent(convs, st, e).Ok?
    ensures Consistent(ReplayEvent(convs, st, e).value.rows, convs)
  {
    var run := e.body.run;
    StartRefuses(convs, st, e);
    StartedShape(convs, st, e);
    assert SubmissionOk(st.rows.submissions, convs, run.inbound);
    StartedSubmissions(st.rows.submissions, convs, run.inbound);
    StartedRuns(st.rows.submissions, st.rows.runs, run.inbound, run.id,
                RunRow(e.conv, run.inbound, run.revision, run.status, "", run.startedAt, None));
  }

  lemma EndedSubmissions(subs: map<Id, Submission>, convs: set<Id>, id: Id, status: RunStatus, error: string)
    requires SubmissionsOk(subs, convs) && OneRunning(subs) && id in subs && status !in {Queued, Running}
    ensures var subs' := subs[id := subs[id].(status := status, error := error)]; SubmissionsOk(subs', convs) && OneRunning(subs')
  {
    var subs' := subs[id := subs[id].(status := status, error := error)];
    assert forall s, u :: SameKey(subs', s, u) ==> SameKey(subs, s, u);
    assert forall s, u :: BothRunning(subs', s, u) ==> BothRunning(subs, s, u);
  }

  lemma EndedRuns(subs: map<Id, Submission>, runs: map<Id, RunRow>, r: Id, row: RunRow, status: RunStatus, error: string)
    requires RunsPaired(subs, runs) && r in runs && status !in {Queued, Running}
    requires row == runs[r].(status := status, error := error, completedAt := row.completedAt)
    ensures var id := runs[r].inbound;
            id in subs && RunsPaired(subs[id := subs[id].(status := status, error := error)], runs[r := row])
  {
    assert Paired(subs, runs, r);
    var id := runs[r].inbound;
    var subs', runs' := subs[id := subs[id].(status := status, error := error)], runs[r := row];
    forall q | q in runs'
      ensures Paired(subs', runs', q)
    {
      assert Paired(subs, runs, q);
      assert SharedInput(runs, r, q) ==> r == q;
    }
    assert forall p, q :: SharedInput(runs', p, q) ==> SharedInput(runs, p, q);
    forall s | s in subs' && subs'[s].status != Queued
      ensures HasRun(runs', s)
    {
      if s != id {
        var q :| q in runs && runs[q].inbound == s;
        assert runs'[q].inbound == s;
      } else {
        assert runs'[r].inbound == s;
      }
    }
  }

  lemma EndRefuses(convs: set<Id>, st: Index, e: Event)
    requires IsEnding(e) && ReplayEvent(convs, st, e).Ok?
    ensures var run := e.body.run;
            && run.id in st.rows.runs && st.rows.runs[run.id].status == Running && st.rows.runs[run.id].conv == e.conv
            && run.inbound in st.rows.submissions && st.rows.submissions[run.inbound].status == Running
            && st.rows.submissions[run.inbound].conv == e.conv
  {
  }

  /** The submission that ends is the run's own: only it runs in there. */
  lemma EndsItsOwn(t: Tables, convs: set<Id>, r: Id, id: Id)
    requires Consistent(t, convs) && r in t.runs && t.runs[r].status == Running
    requires id in t.submissions && t.submissions[id].status == Running && t.submissions[id].conv == t.runs[r].conv
    ensures t.runs[r].inbound == id
  {
    assert Paired(t.submissions, t.runs, r);
    assert BothRunning(t.submissions, t.runs[r].inbound, id);
  }

  lemma EndedConsistent(convs: set<Id>, st: Index, e: Event)
    requires Consistent(st.rows, convs) && IsEnding(e) && ReplayEvent(convs, st, e).Ok?
    ensures Consistent(ReplayEvent(convs, st, e).value.rows, convs)
  {
    var run := e.body.run;
    EndRefuses(convs, st, e);
    EndedShape(convs, st, e);
    EndsItsOwn(st.rows, convs, run.id, run.inbound);
    EndedSubmissions(st.rows.submissions, convs, run.inbound, EndingStatus(e), run.error);
    EndedRuns(st.rows.submissions, st.rows.runs, run.id,
              st.rows.runs[run.id].(status := EndingStatus(e), error := run.error, completedAt := Some(run.completedAt.value)),
              EndingStatus(e), run.error);
  }

  lemma InsertedConsistent(t: Tables, convs: set<Id>, row: ToolRow)
    requires Consistent(t, convs) && InsertTool(t, convs, row).Ok? && row.call != "" && row.kind != ""
    ensures Consistent(InsertTool(t, convs, row).value, convs)
  {
    var rows, rows' := ToolsOf(t, row.run), ToolsOf(t, row.run) + [row];
    assert row.run in t.tools ==> DistinctCalls(t.tools[row.run], row.run);
    forall i: nat, j: nat | SameCall(rows', i, j)
      ensures i == j
    {
      assert i < |rows| && j < |rows| ==> SameCall(rows, i, j);
      assert i < |rows| ==> rows[i] in rows;
      assert j < |rows| ==> rows[j] in rows;
    }
    assert DistinctCalls(rows', row.run);
  }

  lemma {:induction false} ToolsConsistent(t: Tables, convs: set<Id>, e: Event, parts: seq<Part>)
    requires Consistent(t, convs) && ReplayTools(t, convs, e, parts).Ok?
    ensures Consistent(ReplayTools(t, convs, e, parts).value, convs)
    decreases parts
  {
    if parts != [] {
      if parts[0].ToolCall? {
        var row := ToolRow(parts[0].call, e.conv, e.run, e.inbound, parts[0].kind, Requested, e.createdAt);
        InsertedConsistent(t, convs, row);
        ToolsConsistent(InsertTool(t, convs, row).value, convs, e, parts[1..]);
      } else {
        ToolsConsistent(t, convs, e, parts[1..]);
      }
    }
  }

  lemma SetConsistent(t: Tables, convs: set<Id>, run: Id, i: nat, status: ToolStatus, now: Time)
    requires Consistent(t, convs) && i < |ToolsOf(t, run)|
    ensures Consistent(SetTool(t, run, i, status, now), convs)
  {
    var rows, rows' := ToolsOf(t, run), ToolsOf(SetTool(t, run, i, status, now), run);
    assert DistinctCalls(rows, run);
    assert forall j: nat, k: nat :: SameCall(rows', j, k) ==> SameCall(rows, j, k);
    assert DistinctCalls(rows', run);
  }

  lemma OutcomeConsistent(convs: set<Id>, st: Index, e: Event)
    requires Consistent(st.rows, convs) && e.body.ToolOutcomeRecorded? && ReplayEvent(convs, st, e).Ok?
    ensures Consistent(ReplayEvent(convs, st, e).value.rows, convs)
  {
    var i := RequestedIndex(ToolsOf(st.rows, e.run), e.body.outcome.call);
    OutcomeShape(convs, st, e, i);
    SetConsistent(st.rows, convs, e.run, i, e.body.outcome.status, e.createdAt);
  }

  lemma OutcomeShape(convs: set<Id>, st: Index, e: Event, i: nat)
    requires e.body.ToolOutcomeRecorded? && ReplayEvent(convs, st, e).Ok?
    requires i == RequestedIndex(ToolsOf(st.rows, e.run), e.body.outcome.call)
    ensures i < |ToolsOf(st.rows, e.run)|
    ensures ReplayEvent(convs, st, e).value == st.(rows := SetTool(st.rows, e.run, i, e.body.outcome.status, e.createdAt))
  {
  }

  lemma EventConsistent(convs: set<Id>, st: Index, e: Event)
    requires Consistent(st.rows, convs) && ReplayEvent(convs, st, e).Ok?
    ensures Consistent(ReplayEvent(convs, st, e).value.rows, convs)
  {
    match e.body
    case InputAccepted(_) => AcceptedConsistent(convs, st, e);
    case RunStarted(_) => StartedConsistent(convs, st, e);
    case AssistantCommitted(output) => ToolsConsistent(st.rows, convs, e, output.parts);
    case ToolOutcomeRecorded(_) => OutcomeConsistent(convs, st, e);
    case RunCompleted(_) => EndedConsistent(convs, st, e);
    case RunFailed(_) => EndedConsistent(convs, st, e);
    case RunStopped(_) => EndedConsistent(convs, st, e);
    case _ =>
  }

  lemma {:induction false} ReplayConsistent(convs: set<Id>, events: seq<Event>)
    requires ReplayAll(convs, Cleared, events).Ok?
    ensures Consistent(ReplayAll(convs, Cleared, events).value.rows, convs)
    decreases |events|
  {
    if events != [] {
      var n := |events| - 1;
      ReplayConsistent(convs, events[..n]);
      EventConsistent(convs, ReplayAll(convs, Cleared, events[..n]).value, events[n]);
    }
  }

  // ----------------------------------------------------------- provenance

  predicate Accepts(e: Event, s: Id, row: Submission) {
    && e.body.InputAccepted? && e.inbound == s && e.conv == row.conv && e.createdAt == row.acceptedAt
    && e.body.input.key == row.key && e.body.input.revision == row.revision
  }

  predicate Admits(e: Event, conv: Id, inbound: Id, r: Id) {
    e.body.InputAdmitted? && e.conv == conv && e.inbound == inbound && e.run == r
  }

  predicate Starts(e: Event, r: Id, row: RunRow) {
    && e.body.RunStarted? && e.conv == row.conv && e.inbound == row.inbound && e.run == r && e.body.run.id == r
    && e.body.run.revision == row.revision && e.body.run.startedAt == row.startedAt
  }

  predicate Ends(e: Event, r: Id, row: RunRow) {
    && e.conv == row.conv && e.run == r
    && match e.body
       case RunCompleted(run) => row.status == Completed && row.error == run.error && row.completedAt == run.completedAt
       case RunFailed(run) => row.status == Failed && row.error == run.error && row.completedAt == run.completedAt
       case RunStopped(run) => row.status == Stopped && row.error == run.error && row.completedAt == run.completedAt
       case _ => false
  }

  ghost predicate WasAccepted(events: seq<Event>, s: Id, row: Submission) {
    exists i | 0 <= i < |events| :: Accepts(events[i], s, row)
  }

  ghost predicate WasAdmitted(events: seq<Event>, conv: Id, inbound: Id, r: Id) {
    exists i | 0 <= i < |events| :: Admits(events[i], conv, inbound, r)
  }

  ghost predicate WasStarted(events: seq<Event>, r: Id, row: RunRow) {
    exists i | 0 <= i < |events| :: Starts(events[i], r, row)
  }

  ghost predicate WasEnded(events: seq<Event>, r: Id, row: RunRow) {
    exists i | 0 <= i < |events| :: Ends(events[i], r, row)
  }

  /** A run was started by an entry, after an admission unless its id is empty;
      and it is running, or ended as an entry says. */
  ghost predicate RunLogged(events: seq<Event>, r: Id, row: RunRow) {
    && WasStarted(events, r, row) && (r != NoId ==> WasAdmitted(events, row.conv, row.inbound, r))
    && (if row.status == Running then row.error == "" && row.completedAt.None? else WasEnded(events, r, row))
  }

  ghost predicate Logged(events: seq<Event>, st: Index) {
    && (forall s | s in st.rows.submissions :: WasAccepted(events, s, st.rows.submissions[s]))
    && (forall r | r in st.rows.runs :: RunLogged(events, r, st.rows.runs[r]))
    && (forall key | key in st.admitted :: WasAdmitted(events, key.0, key.1, st.admitted[key]))
  }

  lemma LaterAccepted(events: seq<Event>, e: Event, s: Id, row: Submission)
    requires WasAccepted(events, s, row) || Accepts(e, s, row)
    ensures WasAccepted(events + [e], s, row)
  {
    if Accepts(e, s, row) {
      assert (events + [e])[|events|] == e;
    } else {
      var i :| 0 <= i < |events| && Accepts(events[i], s, row);
      assert (events + [e])[i] == events[i];
    }
  }

  lemma LaterAdmitted(events: seq<Event>, e: Event, conv: Id, inbound: Id, r: Id)
    requires WasAdmitted(events, conv, inbound, r) || Admits(e, conv, inbound, r)
    ensures WasAdmitted(events + [e], conv, inbound, r)
  {
    if Admits(e, conv, inbound, r) {
      assert (events + [e])[|events|] == e;
    } else {
      var i :| 0 <= i < |events| && Admits(events[i], conv, inbound, r);
      assert (events + [e])[i] == events[i];
    }
  }

  lemma LaterStarted(events: seq<Event>, e: Event, r: Id, row: RunRow)
    requires WasStarted(events, r, row) || Starts(e, r, row)
    ensures WasStarted(events + [e], r, row)
  {
    if Starts(e, r, row) {
      assert (events + [e])[|events|] == e;
    } else {
      var i :| 0 <= i < |events| && Starts(events[i], r, row);
      assert (events + [e])[i] == events[i];
    }
  }

  lemma LaterEnded(events: seq<Event>, e: Event, r: Id, row: RunRow)
    requires WasEnded(events, r, row) || Ends(e, r, row)
    ensures WasEnded(events + [e], r, row)
  {
    if Ends(e, r, row) {
      assert (events + [e])[|events|] == e;
    } else {
      var i :| 0 <= i < |events| && Ends(events[i], r, row);
      assert (events + [e])[i] == events[i];
    }
  }

  lemma LaterRun(events: seq<Event>, e: Event, r: Id, row: RunRow)
    requires RunLogged(events, r, row)
    ensures RunLogged(events + [e], r, row)
  {
    LaterStarted(events, e, r, row);
    if r != NoId { LaterAdmitted(events, e, row.conv, row.inbound, r); }
    if row.status != Running { LaterEnded(events, e, r, row); }
  }

  /** What was logged still is. */
  lemma LaterLogged(events: seq<Event>, st: Index, e: Event)
    requires Logged(events, st)
    ensures Logged(events + [e], st)
  {
    forall s | s in st.rows.submissions
      ensures WasAccepted(events + [e], s, st.rows.submissions[s])
    {
      LaterAccepted(events, e, s, st.rows.submissions[s]);
    }
    forall r | r in st.rows.runs
      ensures RunLogged(events + [e], r, st.rows.runs[r])
    {
      LaterRun(events, e, r, st.rows.runs[r]);
    }
    forall key | key in st.admitted
      ensures WasAdmitted(events + [e], key.0, key.1, st.admitted[key])
    {
      LaterAdmitted(events, e, key.0, key.1, st.admitted[key]);
    }
  }

  lemma StartLogged(events: seq<Event>, convs: set<Id>, st: Index, e: Event)
    requires Logged(events, st) && e.body.RunStarted? && ReplayEvent(convs, st, e).Ok?
    ensures var run := e.body.run;
            RunLogged(events + [e], run.id, RunRow(e.conv, run.inbound, run.revision, Running, "", run.startedAt, None))
  {
    var run := e.body.run;
    var row := RunRow(e.conv, run.inbound, run.revision, Running, "", run.startedAt, None);
    LaterStarted(events, e, run.id, row);
    if run.id != NoId {
      assert (e.conv, run.inbound) in st.admitted && st.admitted[(e.conv, run.inbound)] == run.id;
      LaterAdmitted(events, e, e.conv, run.inbound, run.id);
    }
  }

  lemma EndLogged(events: seq<Event>, convs: set<Id>, st: Index, e: Event)
    requires Logged(events, st) && IsEnding(e) && ReplayEvent(convs, st, e).Ok?
    ensures var run := e.body.run;
            && run.id in st.rows.runs && run.completedAt.Some?
            && RunLogged(events + [e], run.id,
                         st.rows.runs[run.id].(status := EndingStatus(e), error := run.error, completedAt := Some(run.completedAt.value)))
  {
    var run := e.body.run;
    EndedShape(convs, st, e);
    var row := st.rows.runs[run.id];
    var row' := row.(status := EndingStatus(e), error := run.error, completedAt := Some(run.completedAt.value));
    var i :| 0 <= i < |events| && Starts(events[i], run.id, row);
    assert Starts(events[i], run.id, row');
    LaterStarted(events, e, run.id, row');
    if run.id != NoId { LaterAdmitted(events, e, row.conv, row.inbound, run.id); }
    assert Ends(e, run.id, row');
    LaterEnded(events, e, run.id, row');
  }

  lemma SameStatics(events: seq<Event>, s: Id, row: Submission, row': Submission)
    requires WasAccepted(events, s, row) && row' == row.(status := row'.status, error := row'.error)
    ensures WasAccepted(events, s, row')
  {
    var i :| 0 <= i < |events| && Accepts(events[i], s, row);
    assert Accepts(events[i], s, row');
  }

  /** The submission and the run of a run event, changed as it says. */
  lemma RunEventLogged(events: seq<Event>, st: Index, st': Index, r: Id, inbound: Id)
    requires Logged(events, st) && inbound in st.rows.submissions && inbound in st'.rows.submissions && r in st'.rows.runs
    requires var row := st.rows.submissions[inbound];
             st'.rows.submissions[inbound] == row.(status := st'.rows.submissions[inbound].status, error := st'.rows.submissions[inbound].error)
    requires st'.rows.submissions == st.rows.submissions[inbound := st'.rows.submissions[inbound]]
    requires st'.rows.runs == st.rows.runs[r := st'.rows.runs[r]] && RunLogged(events, r, st'.rows.runs[r])
    requires forall key | key in st'.admitted :: key in st.admitted && st'.admitted[key] == st.admitted[key]
    ensures Logged(events, st')
  {
    SameStatics(events, inbound, st.rows.submissions[inbound], st'.rows.submissions[inbound]);
  }

  lemma EventLogged(events: seq<Event>, convs: set<Id>, st: Index, e: Event)
    requires Logged(events, st) && ReplayEvent(convs, st, e).Ok?
    ensures Logged(events + [e], ReplayEvent(convs, st, e).value)
  {
    LaterLogged(events, st, e);
    if e.body.InputAccepted? {
      AcceptedLogged(events, convs, st, e);
    } else if e.body.InputAdmitted? {
      LaterAdmitted(events, e, e.conv, e.inbound, e.run);
    } else if e.body.AssistantCommitted? {
      ReplayToolsRows(st.rows, convs, e, e.body.output.parts);
    } else if e.body.RunStarted? {
      StartLogged(events, convs, st, e);
      StartedShape(convs, st, e);
      StartRefuses(convs, st, e);
      RunEventLogged(events + [e], st, ReplayEvent(convs, st, e).value, e.body.run.id, e.body.run.inbound);
    } else if IsEnding(e) {
      EndLogged(events, convs, st, e);
      EndedShape(convs, st, e);
      RunEventLogged(events + [e], st, ReplayEvent(convs, st, e).value, e.body.run.id, e.body.run.inbound);
    }
  }

  lemma AcceptedLogged(events: seq<Event>, convs: set<Id>, st: Index, e: Event)
    requires Logged(events + [e], st) && e.body.InputAccepted? && ReplayEvent(convs, st, e).Ok?
    ensures Logged(events + [e], ReplayEvent(convs, st, e).value)
  {
    var row := Submission(e.conv, e.body.input.key, e.body.input.revision, Queued, "", e.createdAt);
    AcceptedShape(convs, st, e, row);
    LaterAccepted(events, e, e.inbound, row);
  }

  lemma {:induction false} ReplayLogged(convs: set<Id>, events: seq<Event>)
    requires ReplayAll(convs, Cleared, events).Ok?
    ensures Logged(events, ReplayAll(convs, Cleared, events).value)
    decreases |events|
  {
    if events != [] {
      var n := |events| - 1;
      ReplayLogged(convs, events[..n]);
      EventLogged(events[..n], convs, ReplayAll(convs, Cleared, events[..n]).value, events[n]);
      assert events[..n] + [events[n]] == events;
    }
  }

  /** Whatever `rows` a rebuild accepts, the tables it installs are consistent:
      keys, running submissions, runs and calls are as unique as the schema
      and the transactions make them, and each submission agrees with its run.
      Each row comes from entries of `rows`; only a run without an id can have
      started without an admission. */
  lemma RebuildIsSound(db: Db, rows: seq<Event>)
    requires RebuildFrom(db, rows).Ok?
    ensures var t := RebuildFrom(db, rows).value.rows;
            && Consistent(t, db.conversations.Keys)
            && (forall s | s in t.submissions :: WasAccepted(rows, s, t.submissions[s]))
            && (forall r | r in t.runs :: RunLogged(rows, r, t.runs[r]))
  {
    ReplayConsistent(db.conversations.Keys, rows);
    ReplayLogged(db.conversations.Keys, rows);
  }

  // ------------------------------------------------- starts and admissions

  /** All that a run start asks for besides its admission. */
  ghost predicate StartFits(convs: set<Id>, st: Index, e: Event) {
    && e.body.RunStarted?
    && var run := e.body.run;
    && run.id == e.run && run.conv == e.conv && run.inbound == e.inbound && run.status == Running
    && run.inbound in st.rows.submissions && run.id !in st.rows.runs && e.conv in convs && run.revision != ""
    && var row := st.rows.submissions[run.inbound];
    && row.conv == e.conv && row.revision == run.revision && row.status == Queued
    && forall s | s in st.rows.submissions && st.rows.submissions[s].conv == e.conv :: st.rows.submissions[s].status != Running
  }

  /** A start needs its admission, exactly when its run has an id. */
  lemma StartNeedsAdmission(convs: set<Id>, st: Index, e: Event)
    requires StartFits(convs, st, e) && forall key | key in st.admitted :: st.admitted[key] != NoId
    ensures var run, key := e.body.run, (e.conv, e.inbound);
            ReplayEvent(convs, st, e).Ok? <==> if run.id == NoId then key !in st.admitted else key in st.admitted && st.admitted[key] == run.id
  {
    assert !RunningIn(st.rows, e.conv);
  }

  /** A log that rebuilds although its run was never admitted. */
  lemma UnadmittedStart()
    ensures var input := InputSubmission("k", [TextPart("text", "hi")], Source("human", "web", "", ""), "", "a", "v1");
            var run := Run(NoId, 1, 2, "v1", Running, "", 0, None);
            var rows := [Event(1, 1, NoId, 2, 0, InputAccepted(input)), Event(2, 1, NoId, 2, 0, RunStarted(run))];
            var db := EmptyDb.(conversations := map[1 := Conversation("a", 1, "l", 3)]);
            && (forall e | e in rows :: !e.body.InputAdmitted?)
            && RebuildFrom(db, rows).Ok? && NoId in RebuildFrom(db, rows).value.rows.runs
  {
    var input := InputSubmission("k", [TextPart("text", "hi")], Source("human", "web", "", ""), "", "a", "v1");
    var run := Run(NoId, 1, 2, "v1", Running, "", 0, None);
    var accepted := Event(1, 1, NoId, 2, 0, InputAccepted(input));
    var rows := [accepted, Event(2, 1, NoId, 2, 0, RunStarted(run))];
    var convs: set<Id> := {1};
    var st := Index(EmptyTables.(submissions := map[2 := Submission(1, "k", "v1", Queued, "", 0)]), map[]);
    assert 'k' in input.key && 'w' in input.source.adapter;
    assert ReplayEvent(convs, Cleared, accepted) == Ok(st);
    assert rows[..1] == [accepted] && [accepted][..0] == [];
    assert ReplayAll(convs, Cleared, [accepted]) == Ok(st);
    StartNeedsAdmission(convs, st, rows[1]);
    StartedShape(convs, st, rows[1]);
    assert ReplayAll(convs, Cleared, rows) == ReplayEvent(convs, st, rows[1]);
    var conversations: map<Id, Conversation> := map[1 := Conversation("a", 1, "l", 3)];
    assert conversations.Keys == convs;
  }
}
