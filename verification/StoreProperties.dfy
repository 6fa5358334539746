/** Consequences of the store's invariant, and the exact conditions of the
    operations that do not check their run's status. */
module StoreProperties {
  import opened Wrappers
  import opened Events
  import opened Store
  import opened Replay
  import opened StoreInvariant
  import opened StoreSteps
  import opened StoreTheorems
  import opened Rebuild
  import opened RebuildTheorems

  // --------------------------------------------------------- exclusion

  /** In every reachable state at most one submission runs per conversation
      and per workspace lock, none runs in a reserved workspace, and no failed
      or stopped run leaves a call in requested state. */
  lemma Exclusion(ops: seq<Op>)
    ensures var db := RunOps(EmptyDb, ops);
            && OneRunning(db.rows.submissions)
            && (forall s, u :: SharedLock(db, s, u) ==> s == u)
            && (forall s :: !InReserved(db, s))
            && Settled(db.rows)
  {
    EmptyIsValid();
    RunOpsValid(EmptyDb, ops);
    assert Invariant(RunOps(EmptyDb, ops));
  }

  /** Committing a turn for a claimed run keeps failed and stopped runs free of
      waiting calls exactly when the run itself has not failed or stopped. */
  lemma LateTurnUnsettles(db: Db, run: Run, parts: seq<Part>, outputId: NewId, now: Time, db': Db, event: Event)
    requires Valid(db) && FromClaim(db, run)
    requires CommitTurn(db, run, parts, outputId, now) == Ok((db', event))
    ensures Settled(db'.rows) <==> db.rows.runs[run.id].status !in {Failed, Stopped}
  {
    if db.rows.runs[run.id].status !in {Failed, Stopped} {
      CommitTurnStep(db, run, parts, outputId, now);
      assert Invariant(db');
    } else {
      var normalized := NormalizeParts(parts).value;
      AppendEventShape(db, Event(0, run.conv, run.id, run.inbound, now,
                                 AssistantCommitted(AssistantOutput(outputId, normalized, false))));
      InsertedWaits(db.rows, db.conversations.Keys, run.conv, run.id, run.inbound, normalized, now);
    }
  }

  lemma {:induction false} InsertedWaits(t: Tables, convs: set<Id>, conv: Id, run: Id, inbound: Id, parts: seq<Part>, now: Time)
    requires InsertTools(t, convs, conv, run, inbound, parts, now).Ok?
    ensures var t' := InsertTools(t, convs, conv, run, inbound, parts, now).value;
            && t'.runs == t.runs && ToolsOf(t, run) <= ToolsOf(t', run)
            && (ToolParts(parts) != [] ==> !NoneRequested(ToolsOf(t', run)))
    decreases parts
  {
    if parts != [] {
      if !parts[0].ToolCall? {
        InsertedWaits(t, convs, conv, run, inbound, parts[1..], now);
      } else {
        var row := ToolRow(parts[0].call, conv, run, inbound, parts[0].kind, Requested, now);
        var t1 := InsertTool(t, convs, row).value;
        InsertedWaits(t1, convs, conv, run, inbound, parts[1..], now);
        var later := ToolsOf(InsertTools(t, convs, conv, run, inbound, parts, now).value, run);
        var n := |ToolsOf(t, run)|;
        assert ToolsOf(t1, run)[n] == row;
        assert later[n].status == Requested;
      }
    }
  }

  // ---------------------------------------------- terminal transactions

  /** `ended` closes the log of its conversation in `rows`: nothing of that
      conversation follows it. */
  lemma LastOf(rows: seq<Event>, c: Id, prefix: seq<Event>, last: Event) returns (k: nat)
    requires Of(rows, c) == prefix + [last]
    ensures k < |rows| && rows[k] == last && Of(rows[..k], c) == prefix
    decreases |rows|
  {
    var n := |rows| - 1;
    if rows[n].conv == c {
      k := n;
      assert Of(rows, c)[..|prefix|] == prefix;
      assert (Of(rows[..n], c) + [rows[n]])[..|Of(rows[..n], c)|] == Of(rows[..n], c);
    } else {
      k := LastOf(rows[..n], c, prefix, last);
      assert rows[..n][..k] == rows[..k];
    }
  }

  lemma {:induction false} FailsOnPrefix(convs: set<Id>, st: Index, rows: seq<Event>, k: nat)
    requires k <= |rows| && ReplayAll(convs, st, rows[..k]).Err?
    ensures ReplayAll(convs, st, rows).Err?
  {
    assert rows == rows[..k] + rows[k..];
    ReplayAppend(convs, st, rows[..k], rows[k..]);
  }

  /** `db'` is `db` with one more terminal entry for `run` in the log. */
  ghost predicate EndLogged(db: Db, db': Db, run: Run, e: Event) {
    && IsEnding(e) && Named(run, e)
    && var ended := e.body.run;
    && ended == run.(status := EndingStatus(e), error := ended.error, completedAt := ended.completedAt)
    && ended.completedAt.Some?
    && db'.conversations.Keys == db.conversations.Keys
    && (forall c :: LogOf(db', c) == if c == run.conv then LogOf(db, c) + [e] else LogOf(db, c))
  }

  lemma SelectedAppend(log: seq<Event>, e: Event)
    requires Indexed(e)
    ensures Selected(log + [e]) == Selected(log) + [e]
  {
    assert (log + [e])[..|log|] == log;
  }

  lemma ReadsUpTo(db: Db, db': Db, run: Run, e: Event, rows: seq<Event>, k: nat)
    requires EndLogged(db, db', run, e) && Listing(db', rows)
    requires k < |rows| && rows[k] == e && Of(rows[..k], run.conv) == Selected(LogOf(db, run.conv))
    ensures Reading(db, rows[..k])
  {
    assert Reading(db', rows);
    ListingReads(db', rows, k);
    forall c
      ensures Of(rows[..k], c) <= Selected(LogOf(db, c))
    {
      assert c != run.conv ==> LogOf(db', c) == LogOf(db, c);
    }
  }

  /** A terminal entry for a run that is not running cannot be replayed on any
      index that holds what the log says about its conversation. */
  lemma EndEntryFails(db: Db, run: Run, e: Event, all: Index)
    requires Valid(db) && Rebuildable(db) && FromClaim(db, run) && db.rows.runs[run.id].status != Running
    requires IsEnding(e) && Named(run, e)
    requires e.body.run == run.(status := EndingStatus(e), error := e.body.run.error, completedAt := e.body.run.completedAt)
    requires e.body.run.completedAt.Some?
    requires ConvIndex(db, run.conv).Ok? && Share(all, ConvIndex(db, run.conv).value, run.conv)
    ensures ReplayEvent(db.conversations.Keys, all, e).Err?
  {
    var c, convs := run.conv, db.conversations.Keys;
    assert ConvRebuilt(db, c);
    EndReplays(db, run, e, e.body.run);
    FrameEnded(convs, Index(db.rows, map[]), ConvIndex(db, c).value, c, e);
    FrameEnded(convs, all, ConvIndex(db, c).value, c, e);
  }

  /** The index after everything but the last entry of a conversation. */
  lemma ReadsWhole(db: Db, rows: seq<Event>, c: Id) returns (all: Index)
    requires Valid(db) && Rebuildable(db) && Reading(db, rows) && Of(rows, c) == Selected(LogOf(db, c))
    ensures ReplayAll(db.conversations.Keys, Cleared, rows) == Ok(all)
    ensures ConvIndex(db, c).Ok? && Share(all, ConvIndex(db, c).value, c)
  {
    PrefixReplays(db, rows, |rows|);
    assert rows[..|rows|] == rows;
    all := ReplayAll(db.conversations.Keys, Cleared, rows).value;
    assert PrefixShare(all, rows, c);
    SelectedReplays({c}, Cleared, LogOf(db, c));
  }

  /** A terminal entry for a run that is not running makes the log
      unreadable: the rebuild fails in every order. */
  lemma SecondEndFails(db: Db, db': Db, run: Run, e: Event, rows: seq<Event>)
    requires Valid(db) && Rebuildable(db) && FromClaim(db, run) && db.rows.runs[run.id].status != Running
    requires EndLogged(db, db', run, e) && Listing(db', rows)
    ensures RebuildFrom(db', rows).Err?
  {
    var convs := db.conversations.Keys;
    SelectedAppend(LogOf(db, run.conv), e);
    var k := LastOf(rows, run.conv, Selected(LogOf(db, run.conv)), e);
    ReadsUpTo(db, db', run, e, rows, k);
    var all := ReadsWhole(db, rows[..k], run.conv);
    EndEntryFails(db, run, e, all);
    assert rows[..k + 1][..k] == rows[..k];
    FailsOnPrefix(convs, Cleared, rows, k + 1);
  }

  /** FinishRun does not look at the run's status. For a claimed run in a
      reachable state, what it commits can be rebuilt if and only if the run
      was still running. */
  lemma FinishRunRebuilds(ops: seq<Op>, run: Run, answer: string, outputId: NewId, now: Time,
                          db': Db, events: seq<Event>, rows: seq<Event>)
    requires var db := RunOps(EmptyDb, ops);
             FromClaim(db, run) && FinishRun(db, run, answer, outputId, now) == Ok((db', events))
    requires Listing(db', rows)
    ensures RebuildFrom(db', rows) == Ok(db') <==> RunOps(EmptyDb, ops).rows.runs[run.id].status == Running
  {
    var db := RunOps(EmptyDb, ops);
    EmptyIsValid();
    EmptyIsRebuildable();
    RunOpsRebuildable(EmptyDb, ops);
    if db.rows.runs[run.id].status == Running {
      FinishRunAdvances(db, run, answer, outputId, now, db', events);
      AdvanceKeeps(db, db', run.conv, events);
      RebuildIsIdentity(db', rows);
    } else {
      var e := Event(0, run.conv, run.id, run.inbound, now, AssistantCommitted(AssistantOutput(outputId, [Text(answer)], true)));
      var db1 := AnswerLogged(db, run, answer, outputId, now, db', events);
      SecondEndFails(db1, db', run, events[1], rows);
    }
  }

  /** The store as if only the answer of a repeated FinishRun were logged. */
  lemma AnswerLogged(db: Db, run: Run, answer: string, outputId: NewId, now: Time, db': Db, events: seq<Event>) returns (db1: Db)
    requires Valid(db) && Rebuildable(db) && FromClaim(db, run)
    requires FinishRun(db, run, answer, outputId, now) == Ok((db', events))
    ensures Valid(db1) && Rebuildable(db1) && db1.rows == db.rows
    ensures |events| == 2 && EndLogged(db1, db', run, events[1])
  {
    var e := Event(0, run.conv, run.id, run.inbound, now, AssistantCommitted(AssistantOutput(outputId, [Text(answer)], true)));
    db1 := AppendEvent(db, e).value.0;
    var output := AppendEvent(db, e).value.1;
    AnswerCommits(db, run, e, answer, outputId, db1, output);
    RunAbout(db, db1, run, [output]);
    AdvanceKeeps(db, db1, run.conv, [output]);
    FinishRunLogs(db, run, answer, outputId, now, db', events, db1);
  }

  lemma AnswerCommits(db: Db, run: Run, e: Event, answer: string, outputId: NewId, db1: Db, output: Event)
    requires Valid(db) && AppendEvent(db, e) == Ok((db1, output)) && Named(run, e)
    requires e.body == AssistantCommitted(AssistantOutput(outputId, [Text(answer)], true))
    ensures Valid(db1) && Commits(db, db1, run.conv, [output]) && db1.rows == db.rows && Named(run, output)
  {
    assert Invariant(db);
    AnswerReplays(db.conversations.Keys, Index(db.rows, map[]), e, answer, outputId);
    OneEntry(db, e, db1, output, Index(db.rows, map[]), Index(db.rows, map[]));
    NoteKeepsValid(db, db1, run.conv, [output]);
  }

  lemma FinishRunLogs(db: Db, run: Run, answer: string, outputId: NewId, now: Time, db': Db, events: seq<Event>, db1: Db)
    requires FromClaim(db, run) && FinishRun(db, run, answer, outputId, now) == Ok((db', events))
    requires var e := Event(0, run.conv, run.id, run.inbound, now, AssistantCommitted(AssistantOutput(outputId, [Text(answer)], true)));
             AppendEvent(db, e).Ok? && AppendEvent(db, e).value.0 == db1
    ensures |events| == 2 && EndLogged(db1, db', run, events[1])
  {
  }

  /** endRun of a run that already ended: its waiting calls, then a second end. */
  lemma EndRunLogs(db: Db, run: Run, ending: Ending, ids: nat -> NewId, now: Time,
                   db': Db, events: seq<Event>) returns (db1: Db)
    requires Valid(db) && Rebuildable(db) && FromClaim(db, run)
    requires EndRun(db, run, ending, ids, now) == Ok((db', events))
    ensures Valid(db1) && Rebuildable(db1) && events != []
    ensures db1.rows.runs == db.rows.runs && EndLogged(db1, db', run, events[|events| - 1])
  {
    var calls := RequestedCalls(ToolsOf(db.rows, run.id));
    var first: seq<Event>;
    db1, first := Interrupt(db, run, calls, ids, 0, now).value.0, Interrupt(db, run, calls, ids, 0, now).value.1;
    RunFacts(db, run);
    InterruptStep(db, run, calls, ids, 0, now, db1, first);
    InterruptNames(db, run, calls, ids, 0, now, db1, first);
    RunAbout(db, db1, run, first);
    AdvanceKeeps(db, db1, run.conv, first);
    EndAppends(db1, run, ending, now, db', first, events);
  }

  lemma EndAppends(db1: Db, run: Run, ending: Ending, now: Time, db': Db, first: seq<Event>, events: seq<Event>)
    requires FromClaim(db1, run)
    requires var ended := run.(status := EndStatus(ending), error := EndMessage(ending), completedAt := Some(now));
             var rows := SetRun(SetSubmission(db1.rows, run.inbound, EndStatus(ending), EndMessage(ending)),
                                run.id, EndStatus(ending), EndMessage(ending), now);
             var last := AppendEvent(db1.(rows := rows), Event(0, run.conv, run.id, run.inbound, now, EndBody(ending, ended)));
             last.Ok? && last.value.0 == db' && events == first + [last.value.1]
    ensures events != [] && EndLogged(db1, db', run, events[|events| - 1])
  {
  }

  /** endRun does not look at the run's status either: the same condition. */
  lemma EndRunRebuilds(ops: seq<Op>, run: Run, ending: Ending, ids: nat -> NewId, now: Time,
                       db': Db, events: seq<Event>, rows: seq<Event>)
    requires var db := RunOps(EmptyDb, ops);
             FromClaim(db, run) && EndRun(db, run, ending, ids, now) == Ok((db', events))
    requires Listing(db', rows)
    ensures RebuildFrom(db', rows) == Ok(db') <==> RunOps(EmptyDb, ops).rows.runs[run.id].status == Running
  {
    var db := RunOps(EmptyDb, ops);
    EmptyIsValid();
    EmptyIsRebuildable();
    RunOpsRebuildable(EmptyDb, ops);
    if db.rows.runs[run.id].status == Running {
      EndRunAdvances(db, run, ending, ids, now, db', events);
      AdvanceKeeps(db, db', run.conv, events);
      RebuildIsIdentity(db', rows);
    } else {
      var db1 := EndRunLogs(db, run, ending, ids, now, db', events);
      SecondEndFails(db1, db', run, events[|events| - 1], rows);
    }
  }
}
