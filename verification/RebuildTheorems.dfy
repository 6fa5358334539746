/** Opening a store rebuilds exactly the tables its transactions left. */
module RebuildTheorems {
  import opened Wrappers
  import opened Events
  import opened Store
  import opened Replay
  import opened StoreInvariant
  import opened StoreSteps
  import opened StoreTheorems
  import opened Rebuild

  // ------------------------------------------------------------ listings

  /** The rows of one conversation in a listing of event rows. */
  function Of(rows: seq<Event>, c: Id): seq<Event>
    decreases |rows|
  {
    if rows == [] then []
    else
      var n := |rows| - 1;
      if rows[n].conv == c then Of(rows[..n], c) + [rows[n]] else Of(rows[..n], c)
  }

  /** The rows the rebuild's SELECT keeps. */
  function Selected(rows: seq<Event>): seq<Event>
    decreases |rows|
  {
    if rows == [] then []
    else
      var n := |rows| - 1;
      if Indexed(rows[n]) then Selected(rows[..n]) + [rows[n]] else Selected(rows[..n])
  }

  /** `rows` lists the selected rows of every log in some order that keeps
      each conversation's cursor order. ORDER BY conversation_id, cursor is
      one such order; the order in which the entries were written is another. */
  ghost predicate Listing(db: Db, rows: seq<Event>) {
    forall c :: Of(rows, c) == Selected(LogOf(db, c))
  }

  /** Part of a listing: of each conversation a prefix was read. */
  ghost predicate Reading(db: Db, rows: seq<Event>) {
    forall c :: Of(rows, c) <= Selected(LogOf(db, c))
  }

  lemma ListingReads(db: Db, rows: seq<Event>, k: nat)
    requires Reading(db, rows) && k <= |rows|
    ensures Reading(db, rows[..k])
  {
    forall c
      ensures Of(rows[..k], c) <= Selected(LogOf(db, c))
    {
      assert rows[..k] + rows[k..] == rows;
      OfAppend(rows[..k], rows[k..], c);
    }
  }

  lemma {:induction false} OfAppend(xs: seq<Event>, ys: seq<Event>, c: Id)
    ensures Of(xs + ys, c) == Of(xs, c) + Of(ys, c)
    decreases |ys|
  {
    if ys == [] {
      assert xs + ys == xs;
    } else {
      var n := |ys| - 1;
      assert (xs + ys)[..|xs + ys| - 1] == xs + ys[..n];
      OfAppend(xs, ys[..n], c);
    }
  }

  lemma {:induction false} SelectedReplays(convs: set<Id>, st: Index, rows: seq<Event>)
    ensures ReplayAll(convs, st, Selected(rows)) == ReplayAll(convs, st, rows)
    decreases |rows|
  {
    if rows != [] {
      var n := |rows| - 1;
      SelectedReplays(convs, st, rows[..n]);
      if Indexed(rows[n]) {
        assert (Selected(rows[..n]) + [rows[n]])[..|Selected(rows)| - 1] == Selected(rows[..n]);
      }
    }
  }

  lemma {:induction false} SelectedSubset(rows: seq<Event>, e: Event)
    requires e in Selected(rows)
    ensures e in rows
    decreases |rows|
  {
    var n := |rows| - 1;
    if e in Selected(rows[..n]) {
      SelectedSubset(rows[..n], e);
    }
  }

  // ------------------------------------------------- replaying a listing

  /** What a prefix of the listing rebuilt about `c`. */
  function PartOf(prefix: seq<Event>, c: Id): Result<Index, StoreError> {
    ReplayAll({c}, Cleared, Of(prefix, c))
  }

  ghost predicate PrefixShare(all: Index, prefix: seq<Event>, c: Id) {
    PartOf(prefix, c).Ok? && Share(all, PartOf(prefix, c).value, c)
  }

  ghost predicate AllShare(all: Index, prefix: seq<Event>) {
    forall c :: PrefixShare(all, prefix, c)
  }

  /** Every part of a listing replays, and to no more than the whole log. */
  lemma PartReplays(db: Db, rows: seq<Event>, k: nat, c: Id)
    requires Rebuildable(db) && Reading(db, rows) && k <= |rows|
    ensures PartOf(rows[..k], c).Ok? && ConvIndex(db, c).Ok?
    ensures Grows(PartOf(rows[..k], c).value.rows, ConvIndex(db, c).value.rows)
  {
    assert ConvRebuilt(db, c);
    ListingReads(db, rows, k);
    var whole, part := Selected(LogOf(db, c)), Of(rows[..k], c);
    assert whole == part + whole[|part|..];
    SelectedReplays({c}, Cleared, LogOf(db, c));
    ReplayAppend({c}, Cleared, part, whole[|part|..]);
    ReplayAllGrows({c}, PartOf(rows[..k], c).value, whole[|part|..]);
  }

  lemma EntryAbout(db: Db, rows: seq<Event>, k: nat)
    requires Valid(db) && Rebuildable(db) && Reading(db, rows) && k < |rows|
    ensures About(db.rows, rows[k].conv, rows[k]) && rows[k].conv in db.conversations
  {
    var e := rows[k];
    var c := e.conv;
    assert ConvRebuilt(db, c);
    assert rows == rows[..k] + [e] + rows[k + 1..];
    OfAppend(rows[..k] + [e], rows[k + 1..], c);
    OfAppend(rows[..k], [e], c);
    assert Of([e], c) == [e];
    assert e in Of(rows, c);
    SelectedSubset(LogOf(db, c), e);
    var i :| 0 <= i < |LogOf(db, c)| && LogOf(db, c)[i] == e;
    assert About(db.rows, c, LogOf(db, c)[i]);
    assert Invariant(db);
  }

  /** Rows of a partial rebuild belong to the conversation the live row does. */
  lemma PrefixOwns(db: Db, rows: seq<Event>, k: nat, all: Index)
    requires Valid(db) && Rebuildable(db) && Reading(db, rows) && k < |rows|
    requires AllShare(all, rows[..k])
    ensures Owns(all.rows, rows[k].conv, rows[k])
  {
    var e := rows[k];
    EntryAbout(db, rows, k);
    NoAnonymousRun(db);
    if e.run in all.rows.runs {
      var d := all.rows.runs[e.run].conv;
      assert PrefixShare(all, rows[..k], d);
      PartReplays(db, rows, k, d);
      assert ConvRebuilt(db, d);
    }
    if e.inbound in all.rows.submissions {
      var d := all.rows.submissions[e.inbound].conv;
      assert PrefixShare(all, rows[..k], d);
      PartReplays(db, rows, k, d);
      assert ConvRebuilt(db, d);
    }
  }

  lemma PrefixStep(db: Db, rows: seq<Event>, k: nat, all: Index)
    requires Valid(db) && Rebuildable(db) && Reading(db, rows) && k < |rows|
    requires AllShare(all, rows[..k])
    ensures var next := ReplayEvent(db.conversations.Keys, all, rows[k]);
            next.Ok? && AllShare(next.value, rows[..k + 1])
  {
    var e := rows[k];
    var c := e.conv;
    PrefixOwns(db, rows, k, all);
    EntryAbout(db, rows, k);
    assert PrefixShare(all, rows[..k], c);
    var part := PartOf(rows[..k], c).value;
    assert rows[..k + 1] == rows[..k] + [e];
    PartReplays(db, rows, k + 1, c);
    assert PartOf(rows[..k + 1], c) == ReplayEvent({c}, part, e) by {
      assert (Of(rows[..k], c) + [e])[..|Of(rows[..k], c)|] == Of(rows[..k], c);
    }
    Frame(db.conversations.Keys, all, part, c, e);
    var next := ReplayEvent(db.conversations.Keys, all, e).value;
    var longer := rows[..k + 1];
    forall d
      ensures PrefixShare(next, longer, d)
    {
      if d != c {
        assert PrefixShare(all, rows[..k], d);
        assert Of(longer, d) == Of(rows[..k], d);
        ShareElsewhere(all, next, PartOf(rows[..k], d).value, c, d);
      }
    }
  }

  lemma {:induction false} PrefixReplays(db: Db, rows: seq<Event>, k: nat)
    requires Valid(db) && Rebuildable(db) && Reading(db, rows) && k <= |rows|
    ensures var all := ReplayAll(db.conversations.Keys, Cleared, rows[..k]);
            all.Ok? && AllShare(all.value, rows[..k])
  {
    if k == 0 {
      assert forall c :: Of(rows[..0], c) == [];
    } else {
      PrefixReplays(db, rows, k - 1);
      assert rows[..k][..k - 1] == rows[..k - 1];
      PrefixStep(db, rows, k - 1, ReplayAll(db.conversations.Keys, Cleared, rows[..k - 1]).value);
    }
  }

  /** `all` holds what the whole log of `c` says about `c`. */
  ghost predicate Whole(all: Index, db: Db, c: Id) {
    ConvIndex(db, c).Ok? && Share(all, ConvIndex(db, c).value, c)
  }

  /** An index is determined by its shares. */
  lemma SharesDetermine(db: Db, all: Index)
    requires Valid(db) && Rebuildable(db)
    requires forall c :: Whole(all, db, c)
    ensures all == Index(db.rows, map[])
  {
    assert Invariant(db);
    forall s | s in all.rows.submissions || s in db.rows.submissions
      ensures s in all.rows.submissions && s in db.rows.submissions && all.rows.submissions[s] == db.rows.submissions[s]
    {
      var c := if s in all.rows.submissions then all.rows.submissions[s].conv else db.rows.submissions[s].conv;
      assert ConvRebuilt(db, c) && Whole(all, db, c);
    }
    RunsDetermined(db, all);
    ToolsDetermined(db, all);
    forall k: (Id, Id)
      ensures k !in all.admitted
    {
      assert ConvRebuilt(db, k.0) && Whole(all, db, k.0);
    }
    assert all.admitted == map[];
    assert all.rows.submissions == db.rows.submissions;
  }

  lemma RunsDetermined(db: Db, all: Index)
    requires Rebuildable(db)
    requires forall c :: Whole(all, db, c)
    ensures all.rows.runs == db.rows.runs
  {
    forall r | r in all.rows.runs || r in db.rows.runs
      ensures r in all.rows.runs && r in db.rows.runs && all.rows.runs[r] == db.rows.runs[r]
    {
      var c := if r in all.rows.runs then all.rows.runs[r].conv else db.rows.runs[r].conv;
      assert ConvRebuilt(db, c) && Whole(all, db, c);
    }
  }

  lemma ToolsDetermined(db: Db, all: Index)
    requires Rebuildable(db)
    requires forall c :: Whole(all, db, c)
    ensures all.rows.tools == db.rows.tools
  {
    RunsDetermined(db, all);
    forall r | r in all.rows.tools || r in db.rows.tools
      ensures r in all.rows.tools && r in db.rows.tools && all.rows.tools[r] == db.rows.tools[r]
    {
      assert ConvRebuilt(db, 0) && Whole(all, db, 0);
      var c := db.rows.runs[r].conv;
      assert ConvRebuilt(db, c) && Whole(all, db, c);
      assert ToolsOf(all.rows, r) == ToolsOf(db.rows, r);
    }
  }

  /** Any listing of the log replays to the live tables. */
  lemma ListingReplays(db: Db, rows: seq<Event>)
    requires Valid(db) && Rebuildable(db) && Listing(db, rows)
    ensures ReplayAll(db.conversations.Keys, Cleared, rows) == Ok(Index(db.rows, map[]))
  {
    assert Reading(db, rows);
    PrefixReplays(db, rows, |rows|);
    assert rows[..|rows|] == rows;
    var all := ReplayAll(db.conversations.Keys, Cleared, rows).value;
    forall c
      ensures Whole(all, db, c)
    {
      assert PrefixShare(all, rows, c);
      assert ConvRebuilt(db, c);
      SelectedReplays({c}, Cleared, LogOf(db, c));
    }
    SharesDetermine(db, all);
  }

  // ------------------------------------------------------------- rebuild

  /** COALESCE(MAX(cursor) + 1, 1) over the rows of one conversation. */
  function NextCursor(log: seq<Event>): nat
    decreases |log|
  {
    if log == [] then 1
    else
      var n := |log| - 1;
      if log[n].cursor + 1 > NextCursor(log[..n]) then log[n].cursor + 1 else NextCursor(log[..n])
  }

  /** The transaction of rebuildIndexes over the selected `rows`. */
  function RebuildFrom(db: Db, rows: seq<Event>): Result<Db, StoreError> {
    var st :- ReplayAll(db.conversations.Keys, Cleared, rows);
    if st.admitted != map[] then Err(Invalid("input admission has no matching run start"))
    else
      Ok(db.(rows := st.rows,
             conversations := map c | c in db.conversations :: db.conversations[c].(next := NextCursor(LogOf(db, c)))))
  }

  lemma {:induction false} NextCursorCounts(log: seq<Event>, c: Id)
    requires LogWellFormed(log, c)
    ensures NextCursor(log) == |log| + 1
    decreases |log|
  {
    if log != [] {
      var n := |log| - 1;
      assert forall i: nat, j: nat :: SameMessage(log[..n], i, j) ==> SameMessage(log, i, j);
      NextCursorCounts(log[..n], c);
    }
  }

  /** Rebuilding changes nothing: rows, next cursors, admissions, all agree. */
  lemma RebuildIsIdentity(db: Db, rows: seq<Event>)
    requires Valid(db) && Rebuildable(db) && Listing(db, rows)
    ensures RebuildFrom(db, rows) == Ok(db)
  {
    ListingReplays(db, rows);
    assert Invariant(db);
    var rebuilt := map c | c in db.conversations :: db.conversations[c].(next := NextCursor(LogOf(db, c)));
    forall c | c in db.conversations
      ensures rebuilt[c] == db.conversations[c]
    {
      assert ConversationOk(db, c);
      NextCursorCounts(LogOf(db, c), c);
    }
    assert rebuilt == db.conversations;
  }

  lemma EffectRebuildable(db: Db, db': Db)
    requires Valid(db') && Rebuildable(db) && Effect(db, db')
    ensures Rebuildable(db')
  {
    if db'.rows == db.rows && db'.log == db.log {
      forall c
        ensures ConvRebuilt(db', c)
      {
        assert ConvRebuilt(db, c);
        assert LogOf(db', c) == LogOf(db, c);
      }
    } else {
      var conv, events :| Advances(db, db', conv, events);
      AdvanceKeeps(db, db', conv, events);
    }
  }

  lemma {:induction false} RunOpsRebuildable(db: Db, ops: seq<Op>)
    requires Valid(db) && Rebuildable(db)
    ensures Valid(RunOps(db, ops)) && Rebuildable(RunOps(db, ops))
    decreases ops
  {
    if ops != [] {
      if Protocol(db, ops[0]) && Apply(db, ops[0]).Ok? {
        var next := Apply(db, ops[0]).value;
        ApplyEffect(db, ops[0], next);
        EffectRebuildable(db, next);
        RunOpsRebuildable(next, ops[1..]);
      } else {
        RunOpsRebuildable(db, ops[1..]);
      }
    }
  }

  /** The main theorem. After any interleaving of transactions over any
      conversations, replaying the log conversation by conversation (or in any
      other order that keeps each conversation's cursor order) succeeds and
      rebuilds exactly the submissions, runs, tool_calls and next cursors. */
  lemma ReopenedStoreIsUnchanged(ops: seq<Op>, rows: seq<Event>)
    requires Listing(RunOps(EmptyDb, ops), rows)
    ensures RebuildFrom(RunOps(EmptyDb, ops), rows) == Ok(RunOps(EmptyDb, ops))
  {
    EmptyIsValid();
    EmptyIsRebuildable();
    RunOpsRebuildable(EmptyDb, ops);
    RebuildIsIdentity(RunOps(EmptyDb, ops), rows);
  }
}
