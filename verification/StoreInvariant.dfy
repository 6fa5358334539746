/** What every transaction of the store keeps, and what its events mean. */
module StoreInvariant {
  import opened Wrappers
  import opened Events
  import opened Store

  // -------------------------------------------------------------- the log

  ghost predicate SameMessage(log: seq<Event>, i: nat, j: nat) {
    i < |log| && j < |log| && MessageId(log[i]) != NoId && MessageId(log[i]) == MessageId(log[j])
  }

  /** Cursors count 1, 2, 3, ... and a message id occurs once. */
  ghost predicate LogWellFormed(log: seq<Event>, conv: Id) {
    && (forall i | 0 <= i < |log| :: log[i].cursor == i + 1 && log[i].conv == conv)
    && (forall i: nat, j: nat :: SameMessage(log, i, j) ==> i == j)
  }

  ghost predicate ConversationOk(db: Db, c: Id)
    requires c in db.conversations
  {
    LogWellFormed(LogOf(db, c), c) && db.conversations[c].next == |LogOf(db, c)| + 1
  }

  ghost predicate LogOk(db: Db) {
    true == (
      && (forall c | c in db.log :: c in db.conversations)
      && (forall c | c in db.conversations :: ConversationOk(db, c)))
  }

  // ------------------------------------------------------------- the rows

  ghost predicate SameKey(subs: map<Id, Submission>, s: Id, u: Id) {
    s in subs && u in subs && subs[s].conv == subs[u].conv && subs[s].key == subs[u].key
  }

  ghost predicate BothRunning(subs: map<Id, Submission>, s: Id, u: Id) {
    s in subs && u in subs && subs[s].status == Running && subs[u].status == Running
  }

  ghost predicate SubmissionOk(subs: map<Id, Submission>, convs: set<Id>, s: Id)
    requires s in subs
  {
    && s != NoId
    && subs[s].conv in convs
    && subs[s].revision != ""
    && (subs[s].status in {Queued, Running} ==> subs[s].error == "")
  }

  ghost predicate SubmissionsOk(subs: map<Id, Submission>, convs: set<Id>) {
    && (forall s | s in subs :: SubmissionOk(subs, convs, s))
    && (forall s, u :: SameKey(subs, s, u) ==> s == u)
  }

  /** At most one running submission per conversation. */
  ghost predicate OneRunning(subs: map<Id, Submission>) {
    forall s, u :: BothRunning(subs, s, u) && subs[s].conv == subs[u].conv ==> s == u
  }

  ghost predicate SharedInput(runs: map<Id, RunRow>, r: Id, q: Id) {
    r in runs && q in runs && runs[r].inbound == runs[q].inbound
  }

  ghost predicate RunOk(subs: map<Id, Submission>, runs: map<Id, RunRow>, r: Id)
    requires r in runs
  {
    && r != NoId
    && runs[r].inbound in subs
    && var s := subs[runs[r].inbound];
    && s.conv == runs[r].conv && s.revision == runs[r].revision
    && s.status == runs[r].status && s.error == runs[r].error && s.status != Queued
  }

  ghost predicate HasRun(runs: map<Id, RunRow>, s: Id) {
    exists r :: r in runs && runs[r].inbound == s
  }

  /** A submission has a run exactly when it left the queue, then exactly one,
      and the two rows agree on status and error. */
  ghost predicate RunsOk(subs: map<Id, Submission>, runs: map<Id, RunRow>) {
    && (forall r | r in runs :: RunOk(subs, runs, r))
    && (forall r, q :: SharedInput(runs, r, q) ==> r == q)
    && (forall s | s in subs && subs[s].status != Queued :: HasRun(runs, s))
  }

  ghost predicate SameCall(rows: seq<ToolRow>, i: nat, j: nat) {
    i < |rows| && j < |rows| && rows[i].call == rows[j].call
  }

  ghost predicate ToolRowsOk(rows: seq<ToolRow>, id: Id, run: RunRow) {
    && (forall i | 0 <= i < |rows| ::
          && rows[i].run == id && rows[i].conv == run.conv && rows[i].inbound == run.inbound
          && rows[i].call != "" && rows[i].kind != "")
    && (forall i: nat, j: nat :: SameCall(rows, i, j) ==> i == j)
  }

  ghost predicate ToolsOk(t: Tables) {
    forall r | r in t.tools :: r in t.runs && ToolRowsOk(t.tools[r], r, t.runs[r])
  }

  ghost predicate NoneRequested(rows: seq<ToolRow>) {
    forall i | 0 <= i < |rows| :: rows[i].status != Requested
  }

  /** A run that failed or was stopped leaves no call waiting for an outcome. */
  ghost predicate Settled(t: Tables) {
    forall r | r in t.runs && t.runs[r].status in {Failed, Stopped} :: NoneRequested(ToolsOf(t, r))
  }

  // ------------------------------------------------------------ exclusion

  ghost predicate SharedLock(db: Db, s: Id, u: Id) {
    && BothRunning(db.rows.submissions, s, u)
    && db.rows.submissions[s].conv in db.conversations && db.rows.submissions[u].conv in db.conversations
    && db.conversations[db.rows.submissions[s].conv].lock == db.conversations[db.rows.submissions[u].conv].lock
  }

  ghost predicate InReserved(db: Db, s: Id) {
    && s in db.rows.submissions && db.rows.submissions[s].status == Running
    && db.rows.submissions[s].conv in db.conversations
    && db.conversations[db.rows.submissions[s].conv].workspace in db.reservations
  }

  /** At most one running submission per workspace lock, and none in a
      reserved workspace. */
  ghost predicate Exclusive(db: Db) {
    true == (
      && (forall s, u :: SharedLock(db, s, u) ==> s == u)
      && (forall s :: !InReserved(db, s)))
  }

  ghost predicate RowsOk(t: Tables, convs: set<Id>) {
    true == (SubmissionsOk(t.submissions, convs) && OneRunning(t.submissions) && RunsOk(t.submissions, t.runs) && ToolsOk(t))
  }

  ghost predicate Invariant(db: Db) {
    LogOk(db) && RowsOk(db.rows, db.conversations.Keys) && Exclusive(db) && Settled(db.rows)
  }

  /** The invariant as lemmas pass it on. The one-point quantifier keeps its
      clauses out of proofs that do not mention Invariant; the larger relations
      below are closed in the same way. */
  ghost predicate Valid(db: Db) {
    forall d | d == db :: Invariant(d)
  }

  lemma EmptyIsValid()
    ensures Valid(EmptyDb)
  {
    assert Invariant(EmptyDb);
  }

  // ------------------------------------------------- appended log entries

  /** `db'` differs from `db` only by `events` at the end of one log, apart
      from the rows. */
  ghost predicate Appended(db: Db, db': Db, conv: Id, events: seq<Event>) {
    true == (
      && conv in db.conversations
      && db'.conversations.Keys == db.conversations.Keys
      && (forall c | c in db.conversations ::
            db'.conversations[c] == db.conversations[c].(next := db'.conversations[c].next))
      && LogOf(db', conv) == LogOf(db, conv) + events
      && (forall c | c != conv :: LogOf(db', c) == LogOf(db, c))
      && db'.reservations == db.reservations)
  }

  lemma AppendWellFormed(log: seq<Event>, conv: Id, e: Event)
    requires LogWellFormed(log, conv)
    requires e.cursor == |log| + 1 && e.conv == conv && !Clash(log, e)
    ensures LogWellFormed(log + [e], conv)
  {
    var log' := log + [e];
    forall i: nat, j: nat | SameMessage(log', i, j)
      ensures i == j
    {
      if i < |log| && j < |log| {
        assert SameMessage(log, i, j);
      }
    }
  }

  lemma AppendEventShape(db: Db, e: Event)
    requires AppendEvent(db, e).Ok?
    ensures var (db', stored) := AppendEvent(db, e).value;
            && Appended(db, db', e.conv, [stored])
            && stored == e.(cursor := db.conversations[e.conv].next)
            && !Clash(LogOf(db, e.conv), stored)
            && db'.conversations[e.conv].next == stored.cursor + 1
            && (forall c | c in db.conversations && c != e.conv :: db'.conversations[c] == db.conversations[c])
            && (forall c | c in db'.log :: c in db.log || c == e.conv)
            && db'.rows == db.rows
  {
  }

  lemma AppendEventEffect(db: Db, e: Event)
    requires LogOk(db)
    requires AppendEvent(db, e).Ok?
    ensures var (db', stored) := AppendEvent(db, e).value;
            && LogOk(db')
            && Appended(db, db', e.conv, [stored])
            && stored == e.(cursor := stored.cursor)
            && db'.rows == db.rows
  {
    var (db', stored) := AppendEvent(db, e).value;
    AppendEventShape(db, e);
    AppendWellFormed(LogOf(db, e.conv), e.conv, stored);
  }

  lemma AppendedTrans(a: Db, b: Db, c: Db, conv: Id, xs: seq<Event>, ys: seq<Event>)
    requires Appended(a, b, conv, xs) && Appended(b, c, conv, ys)
    ensures Appended(a, c, conv, xs + ys)
  {
  }

  /** Nothing starts running when rows that run already ran. */
  lemma ExclusiveStays(db: Db, db': Db)
    requires Exclusive(db)
    requires db'.conversations.Keys == db.conversations.Keys
    requires forall c | c in db.conversations ::
               db'.conversations[c].lock == db.conversations[c].lock && db'.conversations[c].workspace == db.conversations[c].workspace
    requires db'.reservations <= db.reservations
    requires forall s | s in db'.rows.submissions && db'.rows.submissions[s].status == Running ::
               s in db.rows.submissions && db.rows.submissions[s].status == Running
               && db'.rows.submissions[s].conv == db.rows.submissions[s].conv
    ensures Exclusive(db')
  {
    forall s, u | SharedLock(db', s, u)
      ensures s == u
    {
      assert SharedLock(db, s, u);
    }
    forall s
      ensures !InReserved(db', s)
    {
      assert InReserved(db', s) ==> InReserved(db, s);
    }
  }
}
