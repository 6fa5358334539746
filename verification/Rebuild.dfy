/** rebuildIndexes agrees with the live tables (runtime/sqlite/rebuild.go).

    Live transactions interleave conversations; the rebuild replays one
    conversation after another. Replaying an entry only touches rows of its own
    conversation, so every order that keeps each conversation's entries in
    cursor order rebuilds the same tables. */
module Rebuild {
  import opened Wrappers
  import opened Events
  import opened Store
  import opened Replay
  import opened StoreInvariant
  import opened StoreSteps
  import opened StoreTheorems

  // ------------------------------------------ one conversation's share

  ghost predicate SubsShare(all: map<Id, Submission>, part: map<Id, Submission>, c: Id) {
    && (forall s | s in part :: s in all && all[s] == part[s])
    && (forall s | s in all :: s in part <==> all[s].conv == c)
  }

  ghost predicate RunsShare(all: map<Id, RunRow>, part: map<Id, RunRow>, c: Id) {
    && (forall r | r in part :: r in all && all[r] == part[r])
    && (forall r | r in all :: r in part <==> all[r].conv == c)
  }

  ghost predicate ToolsShare(all: Tables, part: Tables) {
    && (forall r | r in part.tools :: r in part.runs)
    && (forall r | r in all.tools :: r in all.runs)
    && (forall r | r in part.runs :: ToolsOf(all, r) == ToolsOf(part, r) && (r in all.tools <==> r in part.tools))
  }

  ghost predicate AdmittedShare(all: map<(Id, Id), Id>, part: map<(Id, Id), Id>, c: Id) {
    && (forall k | k in part :: k.0 == c && k in all && all[k] == part[k])
    && (forall k | k in all && k.0 == c :: k in part)
  }

  /** `part` is what `all` holds about conversation `c`. */
  ghost predicate Share(all: Index, part: Index, c: Id) {
    && SubsShare(all.rows.submissions, part.rows.submissions, c)
    && RunsShare(all.rows.runs, part.rows.runs, c)
    && ToolsShare(all.rows, part.rows)
    && AdmittedShare(all.admitted, part.admitted, c)
  }

  /** The rows an entry names are not those of another conversation. */
  ghost predicate Owns(t: Tables, c: Id, e: Event) {
    && e.conv == c
    && (e.run in t.runs ==> t.runs[e.run].conv == c)
    && (e.inbound in t.submissions ==> t.submissions[e.inbound].conv == c)
  }

  // ------------------------------------------------- replaying one entry

  /** Replaying `e` on the whole index and on its conversation's share has the
      same effect on that share, and none on any other conversation. */
  ghost predicate SameEffect(all: Index, all': Result<Index, StoreError>, part': Result<Index, StoreError>, c: Id) {
    && (all'.Ok? <==> part'.Ok?)
    && (all'.Ok? ==> Share(all'.value, part'.value, c) && Elsewhere(all, all'.value, c))
  }

  ghost predicate Elsewhere(all: Index, all': Index, c: Id) {
    && Grows(all.rows, all'.rows)
    && (forall s | s in all'.rows.submissions && all'.rows.submissions[s].conv != c ::
          s in all.rows.submissions && all.rows.submissions[s] == all'.rows.submissions[s])
    && (forall r | r in all'.rows.runs && all'.rows.runs[r].conv != c ::
          && r in all.rows.runs && all.rows.runs[r] == all'.rows.runs[r]
          && ToolsOf(all.rows, r) == ToolsOf(all'.rows, r) && (r in all.rows.tools <==> r in all'.rows.tools))
    && (forall r | r in all'.rows.tools :: r in all'.rows.runs)
    && (forall k: (Id, Id) | k.0 != c :: k in all'.admitted <==> k in all.admitted)
    && (forall k: (Id, Id) | k.0 != c && k in all.admitted :: all'.admitted[k] == all.admitted[k])
  }

  lemma FrameAccepted(convs: set<Id>, all: Index, part: Index, c: Id, e: Event)
    requires c in convs && Share(all, part, c) && Owns(all.rows, c, e) && e.body.InputAccepted?
    ensures SameEffect(all, ReplayEvent(convs, all, e), ReplayEvent({c}, part, e), c)
  {
    var input := e.body.input;
    assert KeyTaken(all.rows, c, input.key) <==> KeyTaken(part.rows, c, input.key);
  }

  lemma FrameAdmitted(convs: set<Id>, all: Index, part: Index, c: Id, e: Event)
    requires c in convs && Share(all, part, c) && Owns(all.rows, c, e) && e.body.InputAdmitted?
    ensures SameEffect(all, ReplayEvent(convs, all, e), ReplayEvent({c}, part, e), c)
  {
  }

  lemma SubsShareUpdate(all: map<Id, Submission>, part: map<Id, Submission>, c: Id, s: Id, row: Submission)
    requires SubsShare(all, part, c) && row.conv == c && (s in all ==> all[s].conv == c)
    ensures SubsShare(all[s := row], part[s := row], c)
  {
  }

  lemma RunsShareUpdate(all: map<Id, RunRow>, part: map<Id, RunRow>, c: Id, r: Id, row: RunRow)
    requires RunsShare(all, part, c) && row.conv == c && (r in all ==> all[r].conv == c)
    ensures RunsShare(all[r := row], part[r := row], c)
  {
  }

  lemma FrameStartedOk(convs: set<Id>, all: Index, part: Index, c: Id, e: Event)
    requires c in convs && Share(all, part, c) && Owns(all.rows, c, e) && e.body.RunStarted?
    ensures ReplayEvent(convs, all, e).Ok? <==> ReplayEvent({c}, part, e).Ok?
  {
    assert RunningIn(all.rows, c) <==> RunningIn(part.rows, c);
  }

  /** The index after a run start. */
  function StartedIndex(st: Index, e: Event, run: Run): Index
    requires run.inbound in st.rows.submissions
  {
    var rows := st.rows.(
      submissions := st.rows.submissions[run.inbound := st.rows.submissions[run.inbound].(status := Running)],
      runs := st.rows.runs[run.id := RunRow(e.conv, run.inbound, run.revision, run.status, "", run.startedAt, None)]);
    Index(rows, st.admitted - {(e.conv, run.inbound)})
  }

  lemma StartedShape(convs: set<Id>, st: Index, e: Event)
    requires e.body.RunStarted? && ReplayEvent(convs, st, e).Ok?
    ensures var run := e.body.run;
            && run.id == e.run && run.inbound == e.inbound
            && run.inbound in st.rows.submissions && st.rows.submissions[run.inbound].conv == e.conv
            && run.id !in st.rows.runs
            && ReplayEvent(convs, st, e).value == StartedIndex(st, e, run)
  {
  }

  lemma StartedShare(all: Index, part: Index, c: Id, e: Event, run: Run)
    requires Share(all, part, c) && e.conv == c
    requires run.inbound in part.rows.submissions && run.id !in all.rows.runs && run.id !in part.rows.runs
    ensures run.inbound in all.rows.submissions
    ensures Share(StartedIndex(all, e, run), StartedIndex(part, e, run), c)
  {
    SubsShareUpdate(all.rows.submissions, part.rows.submissions, c, run.inbound,
                    part.rows.submissions[run.inbound].(status := Running));
    RunsShareUpdate(all.rows.runs, part.rows.runs, c, run.id,
                    RunRow(e.conv, run.inbound, run.revision, run.status, "", run.startedAt, None));
    var all', part' := StartedIndex(all, e, run), StartedIndex(part, e, run);
    assert forall r :: ToolsOf(all'.rows, r) == ToolsOf(all.rows, r) && ToolsOf(part'.rows, r) == ToolsOf(part.rows, r);
  }

  lemma StartedElsewhere(all: Index, part: Index, c: Id, e: Event, run: Run)
    requires Share(all, part, c) && e.conv == c
    requires run.inbound in all.rows.submissions && all.rows.submissions[run.inbound].conv == c && run.id !in all.rows.runs
    ensures Elsewhere(all, StartedIndex(all, e, run), c)
  {
    var all' := StartedIndex(all, e, run);
    assert forall r :: ToolsOf(all'.rows, r) == ToolsOf(all.rows, r);
  }

  lemma FrameStarted(convs: set<Id>, all: Index, part: Index, c: Id, e: Event)
    requires c in convs && Share(all, part, c) && Owns(all.rows, c, e) && e.body.RunStarted?
    ensures SameEffect(all, ReplayEvent(convs, all, e), ReplayEvent({c}, part, e), c)
  {
    FrameStartedOk(convs, all, part, c, e);
    if ReplayEvent(convs, all, e).Ok? {
      StartedShape(convs, all, e);
      StartedShape({c}, part, e);
      StartedShare(all, part, c, e, e.body.run);
      StartedElsewhere(all, part, c, e, e.body.run);
    }
  }

  predicate IsEnding(e: Event) {
    e.body.RunCompleted? || e.body.RunFailed? || e.body.RunStopped?
  }

  function EndingStatus(e: Event): RunStatus
    requires IsEnding(e)
  {
    if e.body.RunCompleted? then Completed else if e.body.RunFailed? then Failed else Stopped
  }

  /** The index after a run's end. */
  function EndedIndex(st: Index, run: Run, status: RunStatus): Index
    requires run.id in st.rows.runs && run.inbound in st.rows.submissions && run.completedAt.Some?
  {
    st.(rows := st.rows.(
      submissions := st.rows.submissions[run.inbound := st.rows.submissions[run.inbound].(status := status, error := run.error)],
      runs := st.rows.runs[run.id := st.rows.runs[run.id].(status := status, error := run.error, completedAt := Some(run.completedAt.value))]))
  }

  lemma EndedShape(convs: set<Id>, st: Index, e: Event)
    requires IsEnding(e) && ReplayEvent(convs, st, e).Ok?
    ensures var run := e.body.run;
            && run.id == e.run && run.inbound == e.inbound && run.completedAt.Some?
            && run.id in st.rows.runs && st.rows.runs[run.id].conv == e.conv
            && run.inbound in st.rows.submissions && st.rows.submissions[run.inbound].conv == e.conv
            && ReplayEvent(convs, st, e).value == EndedIndex(st, run, EndingStatus(e))
  {
  }

  lemma FrameEndedOk(convs: set<Id>, all: Index, part: Index, c: Id, e: Event)
    requires Share(all, part, c) && e.conv == c && IsEnding(e)
    ensures ReplayEvent(convs, all, e).Ok? <==> ReplayEvent({c}, part, e).Ok?
  {
  }

  lemma EndedShare(all: Index, part: Index, c: Id, run: Run, status: RunStatus)
    requires Share(all, part, c) && run.completedAt.Some?
    requires run.inbound in part.rows.submissions && run.id in part.rows.runs
    ensures run.inbound in all.rows.submissions && run.id in all.rows.runs
    ensures Share(EndedIndex(all, run, status), EndedIndex(part, run, status), c)
  {
    SubsShareUpdate(all.rows.submissions, part.rows.submissions, c, run.inbound,
                    part.rows.submissions[run.inbound].(status := status, error := run.error));
    RunsShareUpdate(all.rows.runs, part.rows.runs, c, run.id,
                    part.rows.runs[run.id].(status := status, error := run.error, completedAt := Some(run.completedAt.value)));
    var all', part' := EndedIndex(all, run, status), EndedIndex(part, run, status);
    assert forall r :: ToolsOf(all'.rows, r) == ToolsOf(all.rows, r) && ToolsOf(part'.rows, r) == ToolsOf(part.rows, r);
  }

  lemma EndedElsewhere(all: Index, part: Index, c: Id, run: Run, status: RunStatus)
    requires Share(all, part, c) && run.completedAt.Some?
    requires run.inbound in all.rows.submissions && all.rows.submissions[run.inbound].conv == c
    requires run.id in all.rows.runs && all.rows.runs[run.id].conv == c
    ensures Elsewhere(all, EndedIndex(all, run, status), c)
  {
    var all' := EndedIndex(all, run, status);
    assert forall r :: ToolsOf(all'.rows, r) == ToolsOf(all.rows, r);
  }

  lemma FrameEnded(convs: set<Id>, all: Index, part: Index, c: Id, e: Event)
    requires Share(all, part, c) && e.conv == c && IsEnding(e)
    ensures SameEffect(all, ReplayEvent(convs, all, e), ReplayEvent({c}, part, e), c)
  {
    FrameEndedOk(convs, all, part, c, e);
    if ReplayEvent(convs, all, e).Ok? {
      EndedShape(convs, all, e);
      EndedShape({c}, part, e);
      EndedShare(all, part, c, e.body.run, EndingStatus(e));
      EndedElsewhere(all, part, c, e.body.run, EndingStatus(e));
    }
  }

  // --------------------------------------------------- requested tools

  /** Tool rows of one run change the same way on both sides. */
  lemma ToolsShareUpdate(all: Index, part: Index, c: Id, r: Id, rows: seq<ToolRow>)
    requires Share(all, part, c) && r in part.rows.runs
    ensures var all' := all.(rows := all.rows.(tools := all.rows.tools[r := rows]));
            var part' := part.(rows := part.rows.(tools := part.rows.tools[r := rows]));
            Share(all', part', c) && Elsewhere(all, all', c)
  {
    var all' := all.(rows := all.rows.(tools := all.rows.tools[r := rows]));
    var part' := part.(rows := part.rows.(tools := part.rows.tools[r := rows]));
    assert forall q :: ToolsOf(all'.rows, q) == if q == r then rows else ToolsOf(all.rows, q);
    assert forall q :: ToolsOf(part'.rows, q) == if q == r then rows else ToolsOf(part.rows, q);
  }

  lemma ElsewhereTrans(a: Index, b: Index, d: Index, c: Id)
    requires Elsewhere(a, b, c) && Elsewhere(b, d, c)
    ensures Elsewhere(a, d, c)
  {
  }

  lemma ElsewhereRefl(a: Index, part: Index, c: Id)
    requires Share(a, part, c)
    ensures Elsewhere(a, a, c)
  {
  }

  lemma {:induction false} FrameTools(convs: set<Id>, all: Index, part: Index, c: Id, e: Event, parts: seq<Part>)
    requires c in convs && Share(all, part, c) && e.conv == c
    requires e.run in all.rows.runs ==> all.rows.runs[e.run].conv == c
    ensures var onAll, onPart := ReplayTools(all.rows, convs, e, parts), ReplayTools(part.rows, {c}, e, parts);
            && (onAll.Ok? <==> onPart.Ok?)
            && (onAll.Ok? ==> Share(all.(rows := onAll.value), part.(rows := onPart.value), c)
                              && Elsewhere(all, all.(rows := onAll.value), c))
    decreases parts
  {
    if parts == [] {
      assert all.(rows := all.rows) == all && part.(rows := part.rows) == part;
      ElsewhereRefl(all, part, c);
    } else if !parts[0].ToolCall? {
      FrameTools(convs, all, part, c, e, parts[1..]);
    } else {
      var row := ToolRow(parts[0].call, e.conv, e.run, e.inbound, parts[0].kind, Requested, e.createdAt);
      var onAll, onPart := InsertTool(all.rows, convs, row), InsertTool(part.rows, {c}, row);
      InsertFrame(convs, all, part, c, row);
      if onAll.Ok? {
        ToolsShareUpdate(all, part, c, e.run, ToolsOf(part.rows, e.run) + [row]);
        var all', part' := all.(rows := onAll.value), part.(rows := onPart.value);
        FrameTools(convs, all', part', c, e, parts[1..]);
        var rest := ReplayTools(onAll.value, convs, e, parts[1..]);
        if rest.Ok? {
          ElsewhereTrans(all, all', all'.(rows := rest.value), c);
        }
      }
    }
  }

  lemma InsertFrame(convs: set<Id>, all: Index, part: Index, c: Id, row: ToolRow)
    requires c in convs && Share(all, part, c) && row.conv == c
    requires row.run in all.rows.runs ==> all.rows.runs[row.run].conv == c
    ensures InsertTool(all.rows, convs, row).Ok? <==> InsertTool(part.rows, {c}, row).Ok?
    ensures InsertTool(all.rows, convs, row).Ok? ==>
              row.run in part.rows.runs && ToolsOf(all.rows, row.run) == ToolsOf(part.rows, row.run)
  {
  }

  lemma FrameAssistant(convs: set<Id>, all: Index, part: Index, c: Id, e: Event)
    requires c in convs && Share(all, part, c) && Owns(all.rows, c, e) && e.body.AssistantCommitted?
    ensures SameEffect(all, ReplayEvent(convs, all, e), ReplayEvent({c}, part, e), c)
  {
    FrameTools(convs, all, part, c, e, e.body.output.parts);
  }

  lemma OutcomeOk(convs: set<Id>, all: Index, part: Index, c: Id, e: Event)
    requires Share(all, part, c) && Owns(all.rows, c, e) && e.body.ToolOutcomeRecorded?
    ensures ReplayEvent(convs, all, e).Ok? <==> ReplayEvent({c}, part, e).Ok?
    ensures ReplayEvent(convs, all, e).Ok? ==> e.run in part.rows.runs && ToolsOf(all.rows, e.run) == ToolsOf(part.rows, e.run)
  {
    assert e.run in all.rows.runs ==> e.run in part.rows.runs;
  }

  lemma FrameOutcome(convs: set<Id>, all: Index, part: Index, c: Id, e: Event)
    requires c in convs && Share(all, part, c) && Owns(all.rows, c, e) && e.body.ToolOutcomeRecorded?
    ensures SameEffect(all, ReplayEvent(convs, all, e), ReplayEvent({c}, part, e), c)
  {
    OutcomeOk(convs, all, part, c, e);
    if ReplayEvent(convs, all, e).Ok? {
      var tools := ToolsOf(part.rows, e.run);
      var i := RequestedIndex(tools, e.body.outcome.call);
      ToolsShareUpdate(all, part, c, e.run,
                       tools[i := tools[i].(status := e.body.outcome.status, updatedAt := e.createdAt)]);
    }
  }

  /** Replaying an entry commutes with taking its conversation's share. */
  lemma Frame(convs: set<Id>, all: Index, part: Index, c: Id, e: Event)
    requires c in convs && Share(all, part, c) && Owns(all.rows, c, e)
    ensures SameEffect(all, ReplayEvent(convs, all, e), ReplayEvent({c}, part, e), c)
  {
    match e.body
    case InputAccepted(_) => FrameAccepted(convs, all, part, c, e);
    case InputAdmitted => FrameAdmitted(convs, all, part, c, e);
    case RunStarted(_) => FrameStarted(convs, all, part, c, e);
    case AssistantCommitted(_) => FrameAssistant(convs, all, part, c, e);
    case ToolOutcomeRecorded(_) => FrameOutcome(convs, all, part, c, e);
    case RunCompleted(_) => FrameEnded(convs, all, part, c, e);
    case RunFailed(_) => FrameEnded(convs, all, part, c, e);
    case RunStopped(_) => FrameEnded(convs, all, part, c, e);
    case _ => ElsewhereRefl(all, part, c);
  }

  // ------------------------------------------- replaying many entries

  lemma {:induction false} ReplayToolsRows(t: Tables, convs: set<Id>, e: Event, parts: seq<Part>)
    requires ReplayTools(t, convs, e, parts).Ok?
    ensures var t' := ReplayTools(t, convs, e, parts).value;
            t'.submissions == t.submissions && t'.runs == t.runs
    decreases parts
  {
    if parts != [] {
      if !parts[0].ToolCall? {
        ReplayToolsRows(t, convs, e, parts[1..]);
      } else {
        var row := ToolRow(parts[0].call, e.conv, e.run, e.inbound, parts[0].kind, Requested, e.createdAt);
        ReplayToolsRows(InsertTool(t, convs, row).value, convs, e, parts[1..]);
      }
    }
  }

  lemma ReplayGrows(convs: set<Id>, st: Index, e: Event)
    requires ReplayEvent(convs, st, e).Ok?
    ensures Grows(st.rows, ReplayEvent(convs, st, e).value.rows)
  {
    if e.body.AssistantCommitted? {
      ReplayToolsRows(st.rows, convs, e, e.body.output.parts);
    } else if e.body.RunStarted? {
      StartedShape(convs, st, e);
    } else if IsEnding(e) {
      EndedShape(convs, st, e);
    } else if e.body.InputAccepted? {
      AcceptedGrows(convs, st, e);
    }
  }

  lemma AcceptedGrows(convs: set<Id>, st: Index, e: Event)
    requires e.body.InputAccepted? && ReplayEvent(convs, st, e).Ok?
    ensures Grows(st.rows, ReplayEvent(convs, st, e).value.rows)
  {
  }

  lemma GrowsTrans(a: Tables, b: Tables, c: Tables)
    requires Grows(a, b) && Grows(b, c)
    ensures Grows(a, c)
  {
  }

  lemma {:induction false} ReplayAllGrows(convs: set<Id>, st: Index, events: seq<Event>)
    requires ReplayAll(convs, st, events).Ok?
    ensures Grows(st.rows, ReplayAll(convs, st, events).value.rows)
    decreases |events|
  {
    if events != [] {
      var n := |events| - 1;
      var mid := ReplayAll(convs, st, events[..n]).value;
      ReplayAllGrows(convs, st, events[..n]);
      ReplayGrows(convs, mid, events[n]);
      GrowsTrans(st.rows, mid.rows, ReplayEvent(convs, mid, events[n]).value.rows);
    }
  }

  lemma AboutOwns(mid: Tables, final: Tables, c: Id, e: Event)
    requires About(final, c, e) && Grows(mid, final) && NoId !in mid.runs
    ensures Owns(mid, c, e)
  {
  }

  /** Entries of one conversation, replayed on the whole index and on the
      conversation's share. `final` are the rows of a later state. */
  lemma {:induction false} FrameAll(convs: set<Id>, all: Index, part: Index, c: Id, events: seq<Event>, final: Tables)
    requires c in convs && Share(all, part, c) && AllAbout(final, c, events) && NoId !in final.runs
    requires ReplayAll(convs, all, events).Ok? && Grows(ReplayAll(convs, all, events).value.rows, final)
    ensures var all', part' := ReplayAll(convs, all, events), ReplayAll({c}, part, events);
            part'.Ok? && Share(all'.value, part'.value, c) && Elsewhere(all, all'.value, c)
    decreases |events|
  {
    if events == [] {
      ElsewhereRefl(all, part, c);
    } else {
      var n := |events| - 1;
      var e := events[n];
      var mid := ReplayAll(convs, all, events[..n]).value;
      var last := ReplayEvent(convs, mid, e).value;
      ReplayGrows(convs, mid, e);
      GrowsTrans(mid.rows, last.rows, final);
      FrameAll(convs, all, part, c, events[..n], final);
      AboutOwns(mid.rows, final, c, e);
      Frame(convs, mid, ReplayAll({c}, part, events[..n]).value, c, e);
      ElsewhereTrans(all, mid, last, c);
    }
  }

  // ------------------------------------------------- the live invariant

  function ConvIndex(db: Db, c: Id): Result<Index, StoreError> {
    ReplayAll({c}, Cleared, LogOf(db, c))
  }

  /** The log of `c` replays to what the tables hold about `c`. */
  ghost predicate ConvRebuilt(db: Db, c: Id) {
    && ConvIndex(db, c).Ok?
    && ConvIndex(db, c).value.admitted == map[]
    && Share(Index(db.rows, map[]), ConvIndex(db, c).value, c)
    && AllAbout(db.rows, c, LogOf(db, c))
  }

  ghost predicate Rebuildable(db: Db) {
    forall c :: ConvRebuilt(db, c)
  }

  lemma EmptyIsRebuildable()
    ensures Rebuildable(EmptyDb)
  {
  }

  lemma ShareElsewhere(all: Index, all': Index, part: Index, c: Id, d: Id)
    requires Share(all, part, d) && Elsewhere(all, all', c) && c != d
    ensures Share(all', part, d)
  {
  }

  lemma AboutGrows(t: Tables, t': Tables, c: Id, events: seq<Event>)
    requires AllAbout(t, c, events) && Grows(t, t')
    ensures AllAbout(t', c, events)
  {
    assert forall i | 0 <= i < |events| :: About(t, c, events[i]);
  }

  lemma AboutAppend(t: Tables, c: Id, xs: seq<Event>, ys: seq<Event>)
    requires AllAbout(t, c, xs) && AllAbout(t, c, ys)
    ensures AllAbout(t, c, xs + ys)
  {
    forall i | 0 <= i < |xs + ys|
      ensures About(t, c, (xs + ys)[i])
    {
      assert if i < |xs| then About(t, c, xs[i]) else About(t, c, ys[i - |xs|]);
    }
  }

  lemma NoAnonymousRun(db: Db)
    requires Valid(db)
    ensures NoId !in db.rows.runs
  {
    assert Invariant(db);
    assert forall r | r in db.rows.runs :: RunOk(db.rows.submissions, db.rows.runs, r);
  }

  lemma AdvanceFrame(db: Db, db': Db, conv: Id, events: seq<Event>, part: Index)
    requires Valid(db') && Advances(db, db', conv, events)
    requires Share(Index(db.rows, map[]), part, conv)
    ensures ReplayAll({conv}, part, events).Ok?
    ensures Share(Index(db'.rows, map[]), ReplayAll({conv}, part, events).value, conv)
    ensures Elsewhere(Index(db.rows, map[]), Index(db'.rows, map[]), conv)
  {
    var convs := db.conversations.Keys;
    assert Replays(convs, Index(db.rows, map[]), events, Index(db'.rows, map[]));
    NoAnonymousRun(db');
    FrameAll(convs, Index(db.rows, map[]), part, conv, events, db'.rows);
  }

  lemma AdvanceRebuilds(db: Db, db': Db, conv: Id, events: seq<Event>, c: Id)
    requires Valid(db') && Rebuildable(db) && Advances(db, db', conv, events)
    ensures ConvRebuilt(db', c)
  {
    assert ConvRebuilt(db, c) && ConvRebuilt(db, conv);
    AdvanceFrame(db, db', conv, events, ConvIndex(db, conv).value);
    AboutGrows(db.rows, db'.rows, c, LogOf(db, c));
    if c == conv {
      ReplayAppend({c}, Cleared, LogOf(db, c), events);
      AboutAppend(db'.rows, c, LogOf(db, c), events);
    } else {
      ShareElsewhere(Index(db.rows, map[]), Index(db'.rows, map[]), ConvIndex(db, c).value, conv, c);
    }
  }

  /** One transaction keeps the log and the tables in agreement. */
  lemma AdvanceKeeps(db: Db, db': Db, conv: Id, events: seq<Event>)
    requires Valid(db') && Rebuildable(db) && Advances(db, db', conv, events)
    ensures Rebuildable(db')
  {
    forall c
      ensures ConvRebuilt(db', c)
    {
      AdvanceRebuilds(db, db', conv, events, c);
    }
  }
}
