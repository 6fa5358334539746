/** Store.View of a reachable store never fails, and shows what the index
    tables hold (runtime/sqlite/store.go, runtime/projection.go). */
module Snapshots {
  import opened Wrappers
  import opened Events
  import opened Store
  import opened Replay
  import opened StoreInvariant
  import opened StoreSteps
  import opened StoreTheorems
  import opened Rebuild
  import opened RebuildTheorems
  import Projection
  import PT = ProjectionTheorems

  type View = Projection.View

  /** The public entries of a log, in cursor order. */
  function PublicOf(log: seq<Event>): seq<Event>
    decreases |log|
  {
    if log == [] then []
    else
      var n := |log| - 1;
      if Public(log[n]) then PublicOf(log[..n]) + [log[n]] else PublicOf(log[..n])
  }

  datatype SnapshotError = NoConversation | Unreadable(error: Projection.ViewError)

  /** Store.View. Its cursor counts the private entries too. */
  function Snapshot(db: Db, conv: Id): Result<View, SnapshotError> {
    if conv !in db.conversations then Err(NoConversation)
    else
      match Projection.Project(conv, PublicOf(LogOf(db, conv)))
      case Err(error) => Err(Unreadable(error))
      case Ok(view) =>
        var next := db.conversations[conv].next;
        Ok(if next > 0 then view.(cursor := next - 1) else view)
  }

  // -------------------------------------------------- what a view shows

  predicate SubmissionShows(item: Projection.SubmissionView, row: Submission) {
    && item.conv == row.conv && item.revision == row.revision && item.status == row.status
    && item.error == row.error && item.acceptedAt == row.acceptedAt
  }

  ghost predicate SubmissionShown(items: seq<Projection.SubmissionView>, rows: map<Id, Submission>, s: Id) {
    var i := Projection.SubmissionIndex(items, s);
    if s in rows then i < |items| && SubmissionShows(items[i], rows[s]) else i == |items|
  }

  ghost predicate SubmissionsShown(items: seq<Projection.SubmissionView>, rows: map<Id, Submission>) {
    forall s :: SubmissionShown(items, rows, s)
  }

  function RowOf(tool: Projection.ToolView): ToolRow {
    ToolRow(tool.call, tool.conv, tool.run, tool.inbound, tool.kind, tool.status, tool.updatedAt)
  }

  /** The rows a view's tool calls stand for, per run and in order. */
  function RowsOf(items: seq<Projection.ToolView>, run: Id): seq<ToolRow>
    decreases |items|
  {
    if items == [] then []
    else
      var n := |items| - 1;
      if items[n].run == run then RowsOf(items[..n], run) + [RowOf(items[n])] else RowsOf(items[..n], run)
  }

  ghost predicate ToolsShown(items: seq<Projection.ToolView>, t: Tables) {
    forall run :: RowsOf(items, run) == ToolsOf(t, run)
  }

  /** The active run is the one running row, if any. */
  ghost predicate ActiveShown(active: Option<Run>, runs: map<Id, RunRow>) {
    match active
    case None => forall q | q in runs :: runs[q].status != Running
    case Some(run) =>
      && run.id in runs && runs[run.id].status == Running
      && run.conv == runs[run.id].conv && run.inbound == runs[run.id].inbound
      && run.revision == runs[run.id].revision && run.startedAt == runs[run.id].startedAt
      && forall q | q in runs && runs[q].status == Running :: q == run.id
  }

  ghost predicate NoticesEnded(events: seq<Event>, runs: map<Id, RunRow>) {
    forall r :: PT.FromEvent(events, Projection.Notice(r)) ==> r in runs && runs[r].status in {Failed, Stopped}
  }

  /** What replaying one conversation keeps. */
  ghost predicate PartOk(st: Index, c: Id) {
    && SubmissionsOk(st.rows.submissions, {c}) && OneRunning(st.rows.submissions) && RunsOk(st.rows.submissions, st.rows.runs)
    && (forall k | k in st.admitted :: st.admitted[k] != NoId)
  }

  // ------------------------------------------------------ accepted inputs

  lemma AcceptedPart(st: Index, c: Id, e: Event)
    requires PartOk(st, c) && e.body.InputAccepted? && ReplayEvent({c}, st, e).Ok?
    ensures PartOk(ReplayEvent({c}, st, e).value, c)
  {
    var bare := st.rows.(tools := map[]);
    var row := Submission(e.conv, e.body.input.key, e.body.input.revision, Queued, "", e.createdAt);
    assert Settled(bare);
    InsertSubmissionKeeps(bare, {c}, e.inbound, row);
  }

  lemma AcceptedShown(view: View, st: Index, c: Id, e: Event)
    requires SubmissionsShown(view.submissions, st.rows.submissions)
    requires e.conv == c && e.body.InputAccepted? && ReplayEvent({c}, st, e).Ok?
    ensures Projection.ProjectStep(c, view, e).Ok?
    ensures SubmissionsShown(Projection.ProjectStep(c, view, e).value.submissions, ReplayEvent({c}, st, e).value.rows.submissions)
  {
    assert SubmissionShown(view.submissions, st.rows.submissions, e.inbound);
    var item := Projection.QueuedView(e);
    var rows := ReplayEvent({c}, st, e).value.rows.submissions;
    forall s
      ensures SubmissionShown(view.submissions + [item], rows, s)
    {
      assert SubmissionShown(view.submissions, st.rows.submissions, s);
      Projection.FirstIndexSnoc(view.submissions, item, (x: Projection.SubmissionView) => x.id == s);
    }
  }

  // ----------------------------------------------------------- run events

  lemma MovedShown(items: seq<Projection.SubmissionView>, rows: map<Id, Submission>, s: Id, status: RunStatus, error: string)
    requires SubmissionsShown(items, rows) && s in rows
    ensures var i := Projection.SubmissionIndex(items, s);
            && i < |items|
            && SubmissionsShown(items[i := items[i].(status := status, error := error)],
                                rows[s := rows[s].(status := status, error := error)])
  {
    assert SubmissionShown(items, rows, s);
    var i := Projection.SubmissionIndex(items, s);
    var items' := items[i := items[i].(status := status, error := error)];
    var rows' := rows[s := rows[s].(status := status, error := error)];
    forall u
      ensures SubmissionShown(items', rows', u)
    {
      assert SubmissionShown(items, rows, u);
      Projection.FirstIndexUpdate(items, i, items'[i], (x: Projection.SubmissionView) => x.id == u);
    }
  }

  lemma StartedPart(st: Index, c: Id, e: Event)
    requires PartOk(st, c) && e.conv == c && e.body.RunStarted? && Sound(e) && ReplayEvent({c}, st, e).Ok?
    ensures PartOk(ReplayEvent({c}, st, e).value, c)
  {
    var run := e.body.run;
    var bare := st.rows.(tools := map[]);
    StartedShape({c}, st, e);
    assert SubmissionOk(st.rows.submissions, {c}, run.inbound);
    assert st.admitted[(e.conv, run.inbound)] == run.id;
    ClaimKeepsSubmissions(bare, {c}, run.inbound, run.id, run.startedAt);
    ClaimKeepsRuns(bare, {c}, run.inbound, run.id, run.startedAt);
  }

  /** A run that is running has a running submission. */
  lemma RunningRunRuns(st: Index, c: Id, q: Id)
    requires PartOk(st, c) && q in st.rows.runs
    ensures var s := st.rows.runs[q].inbound;
            s in st.rows.submissions && st.rows.submissions[s].conv == c && st.rows.runs[q].conv == c
            && st.rows.submissions[s].status == st.rows.runs[q].status && st.rows.submissions[s].error == st.rows.runs[q].error
  {
    assert RunOk(st.rows.submissions, st.rows.runs, q);
    assert SubmissionOk(st.rows.submissions, {c}, st.rows.runs[q].inbound);
  }

  lemma StartedShown(view: View, st: Index, c: Id, e: Event)
    requires PartOk(st, c) && e.conv == c && e.body.RunStarted? && Sound(e) && ReplayEvent({c}, st, e).Ok?
    requires SubmissionsShown(view.submissions, st.rows.submissions)
    ensures Projection.ProjectStep(c, view, e).Ok?
    ensures var view', st' := Projection.ProjectStep(c, view, e).value, ReplayEvent({c}, st, e).value;
            SubmissionsShown(view'.submissions, st'.rows.submissions) && ActiveShown(view'.activeRun, st'.rows.runs)
  {
    var run := e.body.run;
    StartedShape({c}, st, e);
    forall q | q in st.rows.runs
      ensures st.rows.runs[q].status != Running
    {
      RunningRunRuns(st, c, q);
    }
    assert SubmissionShown(view.submissions, st.rows.submissions, run.inbound);
    assert SubmissionOk(st.rows.submissions, {c}, run.inbound);
    StartedMoves(view.submissions, st.rows.submissions, run);
  }

  lemma StartedMoves(items: seq<Projection.SubmissionView>, rows: map<Id, Submission>, run: Run)
    requires SubmissionsShown(items, rows) && run.inbound in rows && rows[run.inbound].error == ""
    ensures var i := Projection.SubmissionIndex(items, run.inbound);
            && i < |items|
            && SubmissionsShown(items[i := items[i].(status := Running, error := "")],
                                rows[run.inbound := rows[run.inbound].(status := Running)])
  {
    MovedShown(items, rows, run.inbound, Running, "");
    assert rows[run.inbound].(status := Running) == rows[run.inbound].(status := Running, error := "");
  }

  lemma EndsItsSubmission(st: Index, c: Id, e: Event)
    requires PartOk(st, c) && e.conv == c && IsEnding(e) && ReplayEvent({c}, st, e).Ok?
    ensures e.body.run.id in st.rows.runs && st.rows.runs[e.body.run.id].inbound == e.body.run.inbound
    ensures st.rows.runs[e.body.run.id].status == Running
  {
    EndedShape({c}, st, e);
    RunningRunRuns(st, c, e.body.run.id);
    assert BothRunning(st.rows.submissions, st.rows.runs[e.body.run.id].inbound, e.body.run.inbound);
  }

  lemma EndedPart(st: Index, c: Id, e: Event)
    requires PartOk(st, c) && e.conv == c && IsEnding(e) && ReplayEvent({c}, st, e).Ok?
    ensures PartOk(ReplayEvent({c}, st, e).value, c)
  {
    var run := e.body.run;
    var bare := st.rows.(tools := map[]);
    EndedShape({c}, st, e);
    EndsItsSubmission(st, c, e);
    EndKeepsRuns(bare, {c}, run.id, EndingStatus(e), run.error, run.completedAt.value);
    EndKeepsSubmissions(bare, {c}, run.id, EndingStatus(e), run.error, run.completedAt.value);
    EndStartsNothing(bare, run.id, EndingStatus(e), run.error, run.completedAt.value);
  }

  lemma EndedShown(view: View, st: Index, c: Id, e: Event)
    requires PartOk(st, c) && e.conv == c && IsEnding(e) && ReplayEvent({c}, st, e).Ok?
    requires SubmissionsShown(view.submissions, st.rows.submissions) && ActiveShown(view.activeRun, st.rows.runs)
    ensures Projection.ProjectStep(c, view, e).Ok?
    ensures var view', st' := Projection.ProjectStep(c, view, e).value, ReplayEvent({c}, st, e).value;
            SubmissionsShown(view'.submissions, st'.rows.submissions) && ActiveShown(view'.activeRun, st'.rows.runs)
  {
    EndingFacts(view, st, c, e);
    EndingProjects(view, c, e);
    EndedRowsShown(view, st, c, e, EndedIndex(st, e.body.run, EndingStatus(e)));
  }

  /** What makes an ending of the log apply to view and rows. */
  lemma EndingFacts(view: View, st: Index, c: Id, e: Event)
    requires PartOk(st, c) && e.conv == c && IsEnding(e) && ReplayEvent({c}, st, e).Ok?
    requires SubmissionsShown(view.submissions, st.rows.submissions)
    ensures var run := e.body.run;
            && e.run != NoId && run.completedAt.Some? && run.id in st.rows.runs && st.rows.runs[run.id].status == Running
            && run.inbound in st.rows.submissions && EndingStatus(e) == run.status && run.status != Running
            && ReplayEvent({c}, st, e).value == EndedIndex(st, run, EndingStatus(e))
            && Projection.SubmissionIndex(view.submissions, run.inbound) < |view.submissions|
  {
    EndedShape({c}, st, e);
    EndsItsSubmission(st, c, e);
    EndedRunNamed(st, c, e);
    assert SubmissionShown(view.submissions, st.rows.submissions, e.body.run.inbound);
  }

  lemma EndedRowsShown(view: View, st: Index, c: Id, e: Event, st': Index)
    requires IsEnding(e) && SubmissionsShown(view.submissions, st.rows.submissions) && ActiveShown(view.activeRun, st.rows.runs)
    requires e.body.run.completedAt.Some? && e.body.run.id in st.rows.runs && e.body.run.inbound in st.rows.submissions
    requires st.rows.runs[e.body.run.id].status == Running && EndingStatus(e) == e.body.run.status != Running
    requires st' == EndedIndex(st, e.body.run, EndingStatus(e))
    ensures var i := Projection.SubmissionIndex(view.submissions, e.body.run.inbound);
            && i < |view.submissions|
            && SubmissionsShown(view.submissions[i := view.submissions[i].(status := e.body.run.status, error := e.body.run.error)],
                                st'.rows.submissions)
    ensures ActiveShown(None, st'.rows.runs)
  {
    var run := e.body.run;
    MovedShown(view.submissions, st.rows.submissions, run.inbound, run.status, run.error);
    EndedActive(view.activeRun, st.rows.runs, run.id, st'.rows.runs);
  }

  /** Projecting an ending moves its submission and clears the active run. */
  lemma EndingProjects(view: View, c: Id, e: Event)
    requires e.conv == c && IsEnding(e) && e.run != NoId
    requires Projection.SubmissionIndex(view.submissions, e.body.run.inbound) < |view.submissions|
    ensures Projection.ProjectStep(c, view, e).Ok?
    ensures var i, view' := Projection.SubmissionIndex(view.submissions, e.body.run.inbound), Projection.ProjectStep(c, view, e).value;
            && view'.submissions == view.submissions[i := view.submissions[i].(status := e.body.run.status, error := e.body.run.error)]
            && view'.activeRun == None
  {
  }

  lemma EndedActive(active: Option<Run>, runs: map<Id, RunRow>, r: Id, runs': map<Id, RunRow>)
    requires ActiveShown(active, runs) && r in runs && runs[r].status == Running
    requires r in runs' && runs' == runs[r := runs'[r]] && runs'[r].status != Running
    ensures ActiveShown(None, runs')
  {
  }

  lemma EndedRunNamed(st: Index, c: Id, e: Event)
    requires PartOk(st, c) && e.conv == c && IsEnding(e) && ReplayEvent({c}, st, e).Ok?
    ensures e.run != NoId
  {
    EndedShape({c}, st, e);
    assert RunOk(st.rows.submissions, st.rows.runs, e.body.run.id);
  }

  // ----------------------------------------------------------- tool calls

  lemma RowsOfSnoc(items: seq<Projection.ToolView>, item: Projection.ToolView, run: Id)
    ensures RowsOf(items + [item], run) == RowsOf(items, run) + (if item.run == run then [RowOf(item)] else [])
  {
    assert (items + [item])[..|items|] == items;
  }

  /** A tool call is shown exactly when its run has a row for it. */
  lemma {:induction false} ShownHasRow(items: seq<Projection.ToolView>, run: Id, call: string)
    ensures Projection.ToolIndex(items, run, call) < |items| <==> exists row :: row in RowsOf(items, run) && row.call == call
    decreases |items|
  {
    if items != [] {
      var n := |items| - 1;
      ShownHasRow(items[..n], run, call);
      assert items == items[..n] + [items[n]];
      Projection.FirstIndexSnoc(items[..n], items[n], (t: Projection.ToolView) => t.run == run && t.call == call);
      if items[n].run == run && items[n].call == call {
        assert RowOf(items[n]) in RowsOf(items, run);
      }
    }
  }

  lemma InsertShown(items: seq<Projection.ToolView>, t: Tables, convs: set<Id>, item: Projection.ToolView)
    requires ToolsShown(items, t) && InsertTool(t, convs, RowOf(item)).Ok?
    ensures Projection.ToolIndex(items, item.run, item.call) == |items|
    ensures ToolsShown(items + [item], InsertTool(t, convs, RowOf(item)).value)
  {
    assert RowsOf(items, item.run) == ToolsOf(t, item.run);
    ShownHasRow(items, item.run, item.call);
    forall run
      ensures RowsOf(items + [item], run) == ToolsOf(InsertTool(t, convs, RowOf(item)).value, run)
    {
      RowsOfSnoc(items, item, run);
      assert RowsOf(items, run) == ToolsOf(t, run);
    }
  }

  lemma {:induction false} PartsShown(items: seq<Projection.ToolView>, t: Tables, convs: set<Id>, e: Event, parts: seq<Part>)
    requires ToolsShown(items, t) && ReplayTools(t, convs, e, parts).Ok?
    ensures Projection.AddTools(items, e, parts).Ok?
    ensures ToolsShown(Projection.AddTools(items, e, parts).value, ReplayTools(t, convs, e, parts).value)
    decreases parts
  {
    if parts != [] {
      if parts[0].ToolCall? {
        var item := Projection.RequestedTool(e, parts[0]);
        InsertShown(items, t, convs, item);
        PartsShown(items + [item], InsertTool(t, convs, RowOf(item)).value, convs, e, parts[1..]);
      } else {
        PartsShown(items, t, convs, e, parts[1..]);
      }
    }
  }

  /** The tool call behind a row. */
  lemma {:induction false} RowsSource(items: seq<Projection.ToolView>, run: Id, i: nat) returns (k: nat)
    requires i < |RowsOf(items, run)|
    ensures k < |items| && items[k].run == run && RowOf(items[k]) == RowsOf(items, run)[i] && |RowsOf(items[..k], run)| == i
    decreases |items|
  {
    var n := |items| - 1;
    if i < |RowsOf(items[..n], run)| {
      k := RowsSource(items[..n], run, i);
      assert items[..n][..k] == items[..k];
    } else {
      k := n;
    }
  }

  lemma {:induction false} RowsUpdate(items: seq<Projection.ToolView>, k: nat, item: Projection.ToolView, run: Id)
    requires k < |items| && item.run == items[k].run
    ensures var j := |RowsOf(items[..k], item.run)|;
            if run == item.run then j < |RowsOf(items, run)| && RowsOf(items[k := item], run) == RowsOf(items, run)[j := RowOf(item)]
            else RowsOf(items[k := item], run) == RowsOf(items, run)
    decreases |items|
  {
    var n := |items| - 1;
    if k < n {
      RowsUpdate(items[..n], k, item, run);
      assert items[..n][..k] == items[..k];
      assert items[k := item][..n] == items[..n][k := item];
    } else {
      assert items[k := item][..n] == items[..n];
    }
  }

  lemma OutcomeShown(items: seq<Projection.ToolView>, st: Index, convs: set<Id>, e: Event, outcome: ToolOutcome)
    requires ToolsShown(items, st.rows) && PT.ToolsDistinct(items)
    requires ReplayOutcome(st, e, outcome).Ok?
    ensures var k := Projection.ToolIndex(items, e.run, outcome.call);
            && k < |items|
            && ToolsShown(items[k := Projection.Resolved(items[k], e, outcome)], ReplayOutcome(st, e, outcome).value.rows)
  {
    var run := e.run;
    var rows := ToolsOf(st.rows, run);
    assert RowsOf(items, run) == rows;
    var i := RequestedIndex(rows, outcome.call);
    var k := RowsSource(items, run, i);
    assert rows[i] in RowsOf(items, run) && rows[i].call == outcome.call;
    ShownHasRow(items, run, outcome.call);
    assert PT.SameTool(items, k, Projection.ToolIndex(items, run, outcome.call));
    var after := items[k := Projection.Resolved(items[k], e, outcome)];
    forall r
      ensures RowsOf(after, r) == ToolsOf(ReplayOutcome(st, e, outcome).value.rows, r)
    {
      RowsUpdate(items, k, after[k], r);
      assert RowsOf(items, r) == ToolsOf(st.rows, r);
    }
  }

  // ------------------------------------------------------- the whole log

  /** The view shows what the index holds of one conversation. */
  ghost predicate Shown(view: View, st: Index, c: Id) {
    && PartOk(st, c)
    && SubmissionsShown(view.submissions, st.rows.submissions)
    && ToolsShown(view.tools, st.rows)
    && ActiveShown(view.activeRun, st.rows.runs)
  }

  lemma OtherRowsStay(convs: set<Id>, st: Index, e: Event)
    requires ReplayEvent(convs, st, e).Ok?
    ensures var st' := ReplayEvent(convs, st, e).value;
            && (e.body.AssistantCommitted? || e.body.ToolOutcomeRecorded? || e.body.InputAdmitted? || !Indexed(e) ==>
                  st'.rows.submissions == st.rows.submissions && st'.rows.runs == st.rows.runs)
            && (!e.body.AssistantCommitted? && !e.body.ToolOutcomeRecorded? ==> forall r :: ToolsOf(st'.rows, r) == ToolsOf(st.rows, r))
            && (!e.body.InputAdmitted? ==> forall k | k in st'.admitted :: k in st.admitted && st'.admitted[k] == st.admitted[k])
            && (e.body.InputAdmitted? ==> forall k | k in st'.admitted :: st'.admitted[k] == e.run || (k in st.admitted && st'.admitted[k] == st.admitted[k]))
  {
    if e.body.AssistantCommitted? {
      ReplayToolsRows(st.rows, convs, e, e.body.output.parts);
    }
  }

  lemma StepKeepsPart(st: Index, c: Id, e: Event)
    requires PartOk(st, c) && e.conv == c && Sound(e) && ReplayEvent({c}, st, e).Ok?
    ensures PartOk(ReplayEvent({c}, st, e).value, c)
  {
    match e.body
    case InputAccepted(_) => AcceptedPart(st, c, e);
    case RunStarted(_) => StartedPart(st, c, e);
    case RunCompleted(_) => EndedPart(st, c, e);
    case RunFailed(_) => EndedPart(st, c, e);
    case RunStopped(_) => EndedPart(st, c, e);
    case _ => OtherRowsStay({c}, st, e);
  }

  lemma ContentShown(view: View, st: Index, c: Id, e: Event)
    requires Shown(view, st, c) && PT.ToolsDistinct(view.tools)
    requires e.conv == c && Sound(e) && (e.body.AssistantCommitted? || e.body.ToolOutcomeRecorded?) && ReplayEvent({c}, st, e).Ok?
    ensures Projection.ProjectStep(c, view, e).Ok?
    ensures Shown(Projection.ProjectStep(c, view, e).value, ReplayEvent({c}, st, e).value, c)
  {
    OtherRowsStay({c}, st, e);
    StepKeepsPart(st, c, e);
    if e.body.AssistantCommitted? {
      PartsShown(view.tools, st.rows, {c}, e, e.body.output.parts);
    } else {
      OutcomeShown(view.tools, st, {c}, e, e.body.outcome);
    }
  }

  lemma RunEventShown(view: View, st: Index, c: Id, e: Event)
    requires Shown(view, st, c)
    requires e.conv == c && Sound(e) && (e.body.RunStarted? || IsEnding(e)) && ReplayEvent({c}, st, e).Ok?
    ensures Projection.ProjectStep(c, view, e).Ok?
    ensures Shown(Projection.ProjectStep(c, view, e).value, ReplayEvent({c}, st, e).value, c)
  {
    OtherRowsStay({c}, st, e);
    StepKeepsPart(st, c, e);
    if e.body.RunStarted? {
      StartedShown(view, st, c, e);
    } else {
      EndedShown(view, st, c, e);
    }
    RunToolsStay(c, view, e);
  }

  lemma RunToolsStay(c: Id, view: View, e: Event)
    requires (e.body.RunStarted? || IsEnding(e)) && Projection.ProjectStep(c, view, e).Ok?
    ensures Projection.ProjectStep(c, view, e).value.tools == view.tools
  {
  }

  lemma InputShown(view: View, st: Index, c: Id, e: Event)
    requires Shown(view, st, c) && e.conv == c && e.body.InputAccepted? && ReplayEvent({c}, st, e).Ok?
    ensures Projection.ProjectStep(c, view, e).Ok?
    ensures Shown(Projection.ProjectStep(c, view, e).value, ReplayEvent({c}, st, e).value, c)
  {
    AcceptedPart(st, c, e);
    AcceptedShown(view, st, c, e);
    AcceptedRuns(st, c, e);
  }

  /** One public entry: if the rebuild can replay it, the snapshot can show it. */
  lemma StepShown(view: View, st: Index, c: Id, e: Event)
    requires Shown(view, st, c) && PT.ToolsDistinct(view.tools)
    requires e.conv == c && Sound(e) && Public(e) && ReplayEvent({c}, st, e).Ok?
    ensures Projection.ProjectStep(c, view, e).Ok?
    ensures Shown(Projection.ProjectStep(c, view, e).value, ReplayEvent({c}, st, e).value, c)
  {
    if e.body.AssistantCommitted? || e.body.ToolOutcomeRecorded? {
      ContentShown(view, st, c, e);
    } else if e.body.RunStarted? || IsEnding(e) {
      RunEventShown(view, st, c, e);
    } else if e.body.InputAccepted? {
      InputShown(view, st, c, e);
    } else {
      OtherRowsStay({c}, st, e);
      StepKeepsPart(st, c, e);
    }
  }

  lemma AcceptedRuns(st: Index, c: Id, e: Event)
    requires e.body.InputAccepted? && ReplayEvent({c}, st, e).Ok?
    ensures ReplayEvent({c}, st, e).value.rows.runs == st.rows.runs
  {
  }

  lemma {:induction false} PublicSubset(log: seq<Event>, e: Event)
    requires e in PublicOf(log)
    ensures e in log && Public(e)
    decreases |log|
  {
    var n := |log| - 1;
    if e in PublicOf(log[..n]) {
      PublicSubset(log[..n], e);
    }
  }

  lemma EndedStays(convs: set<Id>, st: Index, e: Event)
    requires ReplayEvent(convs, st, e).Ok?
    ensures var st' := ReplayEvent(convs, st, e).value;
            forall r | r in st.rows.runs && st.rows.runs[r].status in {Failed, Stopped} ::
              r in st'.rows.runs && st'.rows.runs[r].status in {Failed, Stopped}
  {
    if e.body.RunStarted? {
      StartedShape(convs, st, e);
    } else if IsEnding(e) {
      EndedShape(convs, st, e);
    } else {
      OtherRowsStay(convs, st, e);
    }
  }

  lemma NoticesStep(st: Index, c: Id, events: seq<Event>, e: Event)
    requires NoticesEnded(events, st.rows.runs) && ReplayEvent({c}, st, e).Ok?
    ensures NoticesEnded(events, ReplayEvent({c}, st, e).value.rows.runs)
    ensures NoticesEnded(events + [e], ReplayEvent({c}, st, e).value.rows.runs)
  {
    EndedStays({c}, st, e);
    var runs := ReplayEvent({c}, st, e).value.rows.runs;
    forall r | PT.FromEvent(events + [e], Projection.Notice(r))
      ensures r in runs && runs[r].status in {Failed, Stopped}
    {
      var i :| 0 <= i < |events + [e]| && Projection.HasMessage((events + [e])[i])
               && Projection.MessageKeyOf((events + [e])[i]) == Projection.Notice(r);
      if i < |events| {
        assert events[i] == (events + [e])[i];
        assert PT.FromEvent(events, Projection.Notice(r));
      } else {
        EndedShape({c}, st, e);
      }
    }
  }

  /** A new public entry brings a message id the log does not have. */
  lemma NewKey(log: seq<Event>, c: Id, st: Index)
    requires LogWellFormed(log, c) && log != []
    requires var e := log[|log| - 1];
             Projection.HasMessage(e) && Sound(e) && ReplayEvent({c}, st, e).Ok?
    requires NoticesEnded(PublicOf(log[..|log| - 1]), st.rows.runs)
    ensures !PT.FromEvent(PublicOf(log[..|log| - 1]), Projection.MessageKeyOf(log[|log| - 1]))
  {
    var n := |log| - 1;
    var e := log[n];
    var head := PublicOf(log[..n]);
    var key := Projection.MessageKeyOf(e);
    if PT.FromEvent(head, key) {
      if key.Notice? {
        EndedShape({c}, st, e);
        assert false;
      } else {
        var i :| 0 <= i < |head| && Projection.HasMessage(head[i]) && Projection.MessageKeyOf(head[i]) == key;
        PublicSubset(log[..n], head[i]);
        var j :| 0 <= j < n && log[j] == head[i];
        assert SameMessage(log, j, n);
        assert false;
      }
    }
  }

  lemma ExtendPublic(c: Id, head: seq<Event>, e: Event)
    requires PT.PublicLog(c, head)
    requires e.cursor > 0 && PT.Renderable(e) && (forall x | x in head :: x.cursor < e.cursor)
    requires Projection.HasMessage(e) ==> !PT.FromEvent(head, Projection.MessageKeyOf(e))
    requires Projection.ProjectStep(c, Projection.Project(c, head).value, e).Ok?
    ensures PT.PublicLog(c, head + [e])
    ensures Projection.Project(c, head + [e]) == Projection.ProjectStep(c, Projection.Project(c, head).value, e)
  {
    ExtendKeys(head, e);
    ExtendProject(c, head, e);
    ExtendCursors(head, e);
  }

  lemma ExtendProject(c: Id, head: seq<Event>, e: Event)
    requires Projection.Project(c, head).Ok?
    ensures Projection.Project(c, head + [e]) == Projection.ProjectStep(c, Projection.Project(c, head).value, e)
  {
    assert (head + [e])[..|head|] == head;
  }

  lemma ExtendCursors(head: seq<Event>, e: Event)
    requires forall i | 0 <= i < |head| :: head[i].cursor > 0 && PT.Renderable(head[i])
    requires forall i, j | 0 <= i < j < |head| :: head[i].cursor < head[j].cursor
    requires e.cursor > 0 && PT.Renderable(e) && (forall x | x in head :: x.cursor < e.cursor)
    ensures var log := head + [e];
            && (forall i | 0 <= i < |log| :: log[i].cursor > 0 && PT.Renderable(log[i]))
            && (forall i, j | 0 <= i < j < |log| :: log[i].cursor < log[j].cursor)
  {
  }

  lemma ExtendKeys(head: seq<Event>, e: Event)
    requires forall i: nat, j: nat :: PT.SameKey(head, i, j) ==> i == j
    requires Projection.HasMessage(e) ==> !PT.FromEvent(head, Projection.MessageKeyOf(e))
    ensures forall i: nat, j: nat :: PT.SameKey(head + [e], i, j) ==> i == j
  {
    forall i: nat, j: nat | PT.SameKey(head + [e], i, j)
      ensures i == j
    {
      if i < |head| && j < |head| {
        assert PT.SameKey(head, i, j);
      }
    }
  }

  /** A log that the rebuild accepts is a valid public log, and its snapshot
      shows the rebuilt rows. */
  lemma {:induction false} LogShown(c: Id, log: seq<Event>)
    requires LogWellFormed(log, c) && (forall e | e in log :: Sound(e)) && ReplayAll({c}, Cleared, log).Ok?
    ensures PT.PublicLog(c, PublicOf(log))
    ensures Shown(Projection.Project(c, PublicOf(log)).value, ReplayAll({c}, Cleared, log).value, c)
    ensures NoticesEnded(PublicOf(log), ReplayAll({c}, Cleared, log).value.rows.runs)
    decreases |log|
  {
    if log != [] {
      var n := |log| - 1;
      assert forall i: nat, j: nat :: SameMessage(log[..n], i, j) ==> SameMessage(log, i, j);
      LogShown(c, log[..n]);
      LogShownStep(c, log);
    }
  }

  lemma LogShownStep(c: Id, log: seq<Event>)
    requires LogWellFormed(log, c) && (forall e | e in log :: Sound(e)) && ReplayAll({c}, Cleared, log).Ok? && log != []
    requires var head := log[..|log| - 1];
             && PT.PublicLog(c, PublicOf(head))
             && Shown(Projection.Project(c, PublicOf(head)).value, ReplayAll({c}, Cleared, head).value, c)
             && NoticesEnded(PublicOf(head), ReplayAll({c}, Cleared, head).value.rows.runs)
    ensures PT.PublicLog(c, PublicOf(log))
    ensures Shown(Projection.Project(c, PublicOf(log)).value, ReplayAll({c}, Cleared, log).value, c)
    ensures NoticesEnded(PublicOf(log), ReplayAll({c}, Cleared, log).value.rows.runs)
  {
    var n := |log| - 1;
    var e := log[n];
    var head := PublicOf(log[..n]);
    var view, st := Projection.Project(c, head).value, ReplayAll({c}, Cleared, log[..n]).value;
    assert Sound(e);
    NoticesStep(st, c, head, e);
    if Public(e) {
      PT.FoldsAgree(c, head);
      StepShown(view, st, c, e);
      if Projection.HasMessage(e) {
        NewKey(log, c, st);
      }
      forall x | x in head
        ensures x.cursor < e.cursor
      {
        PublicSubset(log[..n], x);
      }
      TerminalRenders(st, c, e);
      ExtendPublic(c, head, e);
    } else {
      OtherRowsStay({c}, st, e);
      StepKeepsPart(st, c, e);
    }
  }

  lemma TerminalRenders(st: Index, c: Id, e: Event)
    requires Sound(e) && ReplayEvent({c}, st, e).Ok?
    ensures PT.Renderable(e)
  {
  }

  // ---------------------------------------------------- reachable stores

  lemma LogIsSound(db: Db, c: Id)
    requires Rebuildable(db)
    ensures forall e | e in LogOf(db, c) :: Sound(e)
  {
    assert ConvRebuilt(db, c);
    assert forall i | 0 <= i < |LogOf(db, c)| :: About(db.rows, c, LogOf(db, c)[i]);
  }

  lemma SnapshotShown(db: Db, c: Id)
    requires Valid(db) && Rebuildable(db) && c in db.conversations
    ensures PT.PublicLog(c, PublicOf(LogOf(db, c)))
    ensures ConvIndex(db, c).Ok? && Shown(Projection.Project(c, PublicOf(LogOf(db, c))).value, ConvIndex(db, c).value, c)
  {
    assert Invariant(db);
    assert ConversationOk(db, c) && ConvRebuilt(db, c);
    LogIsSound(db, c);
    LogShown(c, LogOf(db, c));
  }

  /** The public log of every reachable store is valid: View never fails, and
      the two folds agree on it however it is split. */
  lemma ReachableLogIsPublic(ops: seq<Op>, c: Id)
    requires c in RunOps(EmptyDb, ops).conversations
    ensures PT.PublicLog(c, PublicOf(LogOf(RunOps(EmptyDb, ops), c)))
    ensures Snapshot(RunOps(EmptyDb, ops), c).Ok?
  {
    EmptyIsValid();
    EmptyIsRebuildable();
    RunOpsRebuildable(EmptyDb, ops);
    SnapshotShown(RunOps(EmptyDb, ops), c);
  }

  /** The snapshot, which never reads the index tables, shows exactly their
      rows: each submission with its status and error, each run's tool calls
      in order with their status, and the one run that is running. */
  lemma SnapshotShowsRows(ops: seq<Op>, c: Id, s: Id, r: Id)
    requires c in RunOps(EmptyDb, ops).conversations
    ensures var db := RunOps(EmptyDb, ops);
            && Snapshot(db, c).Ok?
            && var view := Snapshot(db, c).value;
            && (s in db.rows.submissions && db.rows.submissions[s].conv == c <==>
                  Projection.SubmissionIndex(view.submissions, s) < |view.submissions|)
            && (s in db.rows.submissions && db.rows.submissions[s].conv == c ==>
                  SubmissionShows(view.submissions[Projection.SubmissionIndex(view.submissions, s)], db.rows.submissions[s]))
            && RowsOf(view.tools, r) ==
                 (if r in db.rows.runs && db.rows.runs[r].conv == c then ToolsOf(db.rows, r) else [])
            && (r in db.rows.runs && db.rows.runs[r].conv == c && db.rows.runs[r].status == Running <==>
                  view.activeRun.Some? && view.activeRun.value.id == r)
  {
    var db := RunOps(EmptyDb, ops);
    EmptyIsValid();
    EmptyIsRebuildable();
    RunOpsRebuildable(EmptyDb, ops);
    SnapshotShown(db, c);
    assert ConvRebuilt(db, c);
    var view, st := Snapshot(db, c).value, ConvIndex(db, c).value;
    assert SubmissionShown(view.submissions, st.rows.submissions, s);
    assert RowsOf(view.tools, r) == ToolsOf(st.rows, r);
    assert Share(Index(db.rows, map[]), st, c);
    ActiveIsRunning(view.activeRun, db.rows.runs, st.rows.runs, c, r);
  }

  lemma ActiveIsRunning(active: Option<Run>, all: map<Id, RunRow>, part: map<Id, RunRow>, c: Id, r: Id)
    requires RunsShare(all, part, c) && ActiveShown(active, part)
    ensures r in all && all[r].conv == c && all[r].status == Running <==> active.Some? && active.value.id == r
  {
  }

  // --------------------------------------------------- catching up

  /** Store.Events: the public entries after a cursor. */
  function EventsAfter(db: Db, conv: Id, after: nat): seq<Event> {
    Past(PublicOf(LogOf(db, conv)), after)
  }

  function Past(events: seq<Event>, after: nat): seq<Event>
    decreases |events|
  {
    if events == [] then []
    else
      var n := |events| - 1;
      if events[n].cursor > after then Past(events[..n], after) + [events[n]] else Past(events[..n], after)
  }

  lemma {:induction false} PastAppend(xs: seq<Event>, ys: seq<Event>, after: nat)
    ensures Past(xs + ys, after) == Past(xs, after) + Past(ys, after)
    decreases |ys|
  {
    if ys == [] {
      assert xs + ys == xs;
    } else {
      var n := |ys| - 1;
      assert (xs + ys)[..|xs + ys| - 1] == xs + ys[..n];
      PastAppend(xs, ys[..n], after);
    }
  }

  lemma {:induction false} PublicAppend(xs: seq<Event>, ys: seq<Event>)
    ensures PublicOf(xs + ys) == PublicOf(xs) + PublicOf(ys)
    decreases |ys|
  {
    if ys == [] {
      assert xs + ys == xs;
    } else {
      var n := |ys| - 1;
      assert (xs + ys)[..|xs + ys| - 1] == xs + ys[..n];
      PublicAppend(xs, ys[..n]);
    }
  }

  lemma {:induction false} PastAll(events: seq<Event>, after: nat)
    requires forall e | e in events :: e.cursor > after
    ensures Past(events, after) == events
    decreases |events|
  {
    if events != [] {
      PastAll(events[..|events| - 1], after);
    }
  }

  lemma {:induction false} PastNone(events: seq<Event>, after: nat)
    requires forall e | e in events :: e.cursor <= after
    ensures Past(events, after) == []
    decreases |events|
  {
    if events != [] {
      PastNone(events[..|events| - 1], after);
    }
  }

  /** What Subscribe delivers past the last cursor of a log is exactly the
      public part of what was appended since. */
  lemma TailAfter(c: Id, log: seq<Event>, tail: seq<Event>)
    requires LogWellFormed(log + tail, c)
    ensures Past(PublicOf(log + tail), |log|) == PublicOf(tail)
  {
    PublicAppend(log, tail);
    PastAppend(PublicOf(log), PublicOf(tail), |log|);
    forall e | e in PublicOf(log)
      ensures e.cursor <= |log|
    {
      PublicSubset(log, e);
      var i :| 0 <= i < |log| && log[i] == e;
      assert (log + tail)[i] == e;
    }
    forall e | e in PublicOf(tail)
      ensures e.cursor > |log|
    {
      PublicSubset(tail, e);
      var i :| 0 <= i < |tail| && tail[i] == e;
      assert (log + tail)[|log| + i] == e;
    }
    PastNone(PublicOf(log), |log|);
    PastAll(PublicOf(tail), |log|);
  }

  lemma LogFacts(db: Db, c: Id)
    requires Valid(db) && c in db.conversations
    ensures LogWellFormed(LogOf(db, c), c) && db.conversations[c].next == |LogOf(db, c)| + 1
  {
    assert Invariant(db);
    assert ConversationOk(db, c);
  }

  /** A client that opens a snapshot, subscribes after its cursor and applies
      what it receives sees the later snapshot, in every field but the cursor,
      which counts only the entries the client was shown. */
  lemma ClientCatchesUp(db: Db, db': Db, c: Id, tail: seq<Event>)
    requires Valid(db) && Rebuildable(db) && Valid(db') && Rebuildable(db')
    requires c in db.conversations && c in db'.conversations && LogOf(db', c) == LogOf(db, c) + tail
    ensures Snapshot(db, c).Ok? && Snapshot(db', c).Ok?
    ensures var seen := Projection.ApplyAll(Snapshot(db, c).value, EventsAfter(db', c, Snapshot(db, c).value.cursor));
            Snapshot(db', c).value == seen.(cursor := Snapshot(db', c).value.cursor)
  {
    LogFacts(db, c);
    LogFacts(db', c);
    SnapshotShown(db, c);
    SnapshotShown(db', c);
    TailAfter(c, LogOf(db, c), tail);
    PublicAppend(LogOf(db, c), tail);
    var head := PublicOf(LogOf(db, c));
    PT.SplitAnywhere(c, head, PublicOf(tail));
    PT.CursorAside(Projection.Project(c, head).value, |LogOf(db, c)|, PublicOf(tail));
  }
}
