/** An idle sandbox holds exactly the current checkpoint, whatever fails and
    wherever the server stops; and Start and RestoreWorkspace never touch a
    sandbox that its record still reserves. */
module PlacementSafety {
  import opened Wrappers
  import opened Events
  import opened Placement

  // ------------------------------------------------------------ invariant

  /** The sandbox, if the provider still has it, holds the current checkpoint,
      and nothing can write to it. */
  predicate HoldsCurrent(w: World, id: Id) {
    id !in w.loose && (id in w.sandboxes ==> w.current == Some(w.sandboxes[id]))
  }

  predicate RecordFor(w: World, id: Id, statuses: set<Status>) {
    w.record.Some? && w.record.value.sandbox == id && w.record.value.status in statuses
  }

  /** Idle, or past its expiry. */
  predicate Released(w: World, r: Record) {
    w.record == Some(r) && !Held(w.now, r)
  }

  predicate StartOk(w: World, start: StartStage) {
    match start
    case Locked => true
    case Connecting(r) => w.record == Some(r) && r.status == Idle
    case Reconnected(r) => w.record == Some(r) && r.status == Idle
    case Vanished(r) => w.record == Some(r) && r.status == Idle
    case KillingOld(r) => Released(w, r)
    case RemovingOld(r) => Released(w, r) && r.sandbox !in w.sandboxes
    case Creating => w.record.None?
    case Placing(id) => w.record.None? && id !in w.loose
    case Saving(id) => w.record.None? && HoldsCurrent(w, id)
    case Hosting(id) => RecordFor(w, id, {Active}) && HoldsCurrent(w, id)
    case CleaningUp(id) => id !in w.loose && (w.record.None? || (RecordFor(w, id, {Active}) && HoldsCurrent(w, id)))
    case CleaningRecord(id) => w.record.None? || RecordFor(w, id, {Active})
  }

  predicate SessionOk(w: World, id: Id, failed: bool, session: SessionStage) {
    && (!failed ==> id !in w.loose)
    && match session
       case Open => !failed && RecordFor(w, id, {Active})
       case HostClosed(hostFailed, _) => failed == hostFailed && RecordFor(w, id, {Active})
       case RecoveryReserved(_) => !failed && RecordFor(w, id, {Recovery})
       case Archived(body, _) => !failed && RecordFor(w, id, {Recovery}) && (id in w.sandboxes ==> w.sandboxes[id] == body)
       case Persisted(_) => !failed && RecordFor(w, id, {Recovery}) && HoldsCurrent(w, id)
       case TtlShortened(_) => !failed && RecordFor(w, id, {Recovery}) && HoldsCurrent(w, id)
       case CloseFailed(_) => RecordFor(w, id, {Active, Recovery})
       case Closed => RecordFor(w, id, if failed then {Active, Recovery} else {Active, Recovery, Idle})
  }

  predicate RestoreOk(w: World, restore: RestoreStage) {
    match restore
    case Checking => true
    case KillingIdle(r) => Released(w, r)
    case RemovingIdle(r) => Released(w, r) && r.sandbox !in w.sandboxes
    case Applied => w.record.None?
  }

  predicate ActorOk(w: World, actor: Actor) {
    match actor
    case NoOne => true
    case Starting(_, _, _, start) => StartOk(w, start)
    case InSession(_, _, _, id, failed, session) => SessionOk(w, id, failed, session)
    case Restoring(_, restore) => RestoreOk(w, restore)
  }

  /** An idle sandbox holds exactly the content of the current checkpoint. */
  predicate IdleOk(w: World) {
    w.record.Some? && w.record.value.status == Idle ==> HoldsCurrent(w, w.record.value.sandbox)
  }

  predicate Inv(s: State) {
    && IdleOk(s.w)
    && ActorOk(s.w, s.actor)
    && (JanitorLocks(s.janitor) ==> !StartLocks(s.actor) && !s.actor.InSession?)
  }

  // ---------------------------------------------------------------- steps

  lemma StartKeeps(s: State, step: StartStep)
    requires Inv(s) && NextStart(s, step).Some?
    ensures Inv(NextStart(s, step).value)
  {
  }

  lemma SessionKeeps(s: State, step: SessionStep)
    requires Inv(s) && NextSession(s, step).Some?
    ensures Inv(NextSession(s, step).value)
  {
  }

  lemma RestoreKeeps(s: State, step: RestoreStep)
    requires Inv(s) && NextRestore(s, step).Some?
    ensures Inv(NextRestore(s, step).value)
  {
  }

  lemma JanitorKeeps(s: State, step: JanitorStep)
    requires Inv(s) && NextJanitor(s, step).Some?
    ensures Inv(NextJanitor(s, step).value)
  {
  }

  lemma OutsideKeeps(s: State, step: OutsideStep)
    requires Inv(s) && NextOutside(s, step).Some?
    ensures Inv(NextOutside(s, step).value)
  {
  }

  /** Every step keeps the invariant, a crash included. */
  lemma StepKeeps(s: State, step: Step)
    requires Inv(s) && Next(s, step).Some?
    ensures Inv(Next(s, step).value)
  {
    match step
    case ByStart(x) => StartKeeps(s, x);
    case BySession(x) => SessionKeeps(s, x);
    case ByRestore(x) => RestoreKeeps(s, x);
    case ByJanitor(x) => JanitorKeeps(s, x);
    case Outside(x) => OutsideKeeps(s, x);
  }

  lemma {:induction false} RunsKeep(s: State, steps: seq<Step>)
    requires Initial(s)
    ensures Inv(After(s, steps))
    decreases |steps|
  {
    if steps != [] {
      var n := |steps| - 1;
      RunsKeep(s, steps[..n]);
      if Next(After(s, steps[..n]), steps[n]).Some? {
        StepKeeps(After(s, steps[..n]), steps[n]);
      }
    }
  }

  // ------------------------------------------------------------- theorems

  /** In every reachable state, including after a crash between any two calls,
      a sandbox recorded idle holds exactly the content of its workspace's
      current checkpoint, and nothing can write to it. */
  lemma IdleHoldsTheCheckpoint(s: State, steps: seq<Step>)
    requires Initial(s)
    ensures var w := After(s, steps).w;
            w.record.Some? && w.record.value.status == Idle ==>
              && w.record.value.sandbox !in w.loose
              && (w.record.value.sandbox in w.sandboxes ==> w.current == Some(w.sandboxes[w.record.value.sandbox]))
  {
    RunsKeep(s, steps);
  }

  /** The sandbox of a record that is active or in recovery and not expired. */
  predicate HeldSandbox(w: World, id: Id) {
    w.record.Some? && w.record.value.sandbox == id && Held(w.now, w.record.value)
  }

  /** A sandbox that Start made active itself and whose tools never ran. */
  predicate CleansItsOwn(actor: Actor, id: Id) {
    actor.Starting? && (actor.start == CleaningUp(id) || actor.start == CleaningRecord(id))
  }

  lemma StartRespects(s: State, step: StartStep, id: Id)
    requires Inv(s) && NextStart(s, step).Some? && HeldSandbox(s.w, id) && !CleansItsOwn(s.actor, id)
    ensures NextStart(s, step).value.w == s.w
  {
  }

  lemma RestoreRespects(s: State, step: RestoreStep, id: Id)
    requires Inv(s) && NextRestore(s, step).Some? && HeldSandbox(s.w, id)
    ensures NextRestore(s, step).value.w == s.w
  {
  }

  /** Start and RestoreWorkspace never replace, delete or overwrite an active
      or recovery sandbox before its expiry: while one is held they change
      nothing at all. The one exception is the sandbox that a failing Start
      has just made active itself, before any tool ran in it. */
  lemma HeldIsNeverReplaced(s: State, steps: seq<Step>, step: Step, id: Id)
    requires Initial(s) && (step.ByStart? || step.ByRestore?)
    requires var before := After(s, steps);
             Next(before, step).Some? && HeldSandbox(before.w, id) && !CleansItsOwn(before.actor, id)
    ensures Next(After(s, steps), step).value.w == After(s, steps).w
  {
    RunsKeep(s, steps);
    var before := After(s, steps);
    match step
    case ByStart(x) => StartRespects(before, x, id);
    case ByRestore(x) => RestoreRespects(before, x, id);
  }

  lemma StartLoses(s: State, step: StartStep, id: Id)
    requires Inv(s) && NextStart(s, step).Some? && id in s.w.sandboxes
    requires s.w.record.Some? && s.w.record.value.sandbox == id && s.w.now < s.w.record.value.expiresAt
    requires id !in NextStart(s, step).value.w.sandboxes
    ensures s.w.current == Some(s.w.sandboxes[id])
  {
  }

  lemma RestoreLoses(s: State, step: RestoreStep, id: Id)
    requires Inv(s) && NextRestore(s, step).Some? && id in s.w.sandboxes
    requires s.w.record.Some? && s.w.record.value.sandbox == id && s.w.now < s.w.record.value.expiresAt
    requires id !in NextRestore(s, step).value.w.sandboxes
    ensures s.w.current == Some(s.w.sandboxes[id])
  {
  }

  /** No edits are lost: a recorded, unexpired sandbox that Start or
      RestoreWorkspace deletes holds the current checkpoint. */
  lemma NothingUnsavedIsDeleted(s: State, steps: seq<Step>, step: Step, id: Id)
    requires Initial(s) && (step.ByStart? || step.ByRestore?)
    requires var before := After(s, steps);
             && Next(before, step).Some? && id in before.w.sandboxes
             && before.w.record.Some? && before.w.record.value.sandbox == id && before.w.now < before.w.record.value.expiresAt
             && id !in Next(before, step).value.w.sandboxes
    ensures After(s, steps).w.current == Some(After(s, steps).w.sandboxes[id])
  {
    RunsKeep(s, steps);
    var before := After(s, steps);
    match step
    case ByStart(x) => StartLoses(before, x, id);
    case ByRestore(x) => RestoreLoses(before, x, id);
  }

  /** The record that reserves a sandbox is not the one that was listed. */
  predicate TakenOver(w: World, entry: Record) {
    && w.record.Some? && w.record.value.sandbox == entry.sandbox && w.record != Some(entry)
    && w.record.value.status != Idle && w.now < w.record.value.expiresAt
  }

  /** The janitor deletes a sandbox that its record reserves if and only if
      the record is no longer the one it listed: it changed, for the same
      sandbox, into an active or recovery one that has not expired. A sandbox
      whose record is idle at the kill holds nothing unsaved even so. */
  lemma JanitorDeletesHeld(s: State, steps: seq<Step>, id: Id)
    requires Initial(s)
    requires var before := After(s, steps);
             before.janitor.Killing? && id == before.janitor.entry.sandbox && id in before.w.sandboxes
    ensures var before := After(s, steps);
            var after := Next(before, ByJanitor(CleanListed(true))).value;
            && id !in after.w.sandboxes
            && (HeldSandbox(before.w, id) <==> TakenOver(before.w, before.janitor.entry))
            && (RecordFor(before.w, id, {Idle}) ==> before.w.current == Some(before.w.sandboxes[id]))
  {
    RunsKeep(s, steps);
    ListedStayExpired(s, steps);
  }

  /** So a janitor that reads the record again under the lock, and cleans only
      if it is still the listed one, deletes no reserved sandbox, and of an
      idle one nothing unsaved. */
  lemma FreshReadIsSafe(s: State, steps: seq<Step>)
    requires Initial(s) && After(s, steps).janitor.Killing?
    requires After(s, steps).w.record == Some(After(s, steps).janitor.entry)
    ensures var before := After(s, steps);
            var entry := before.janitor.entry;
            && !HeldSandbox(before.w, entry.sandbox)
            && (entry.status == Idle && entry.sandbox in before.w.sandboxes ==>
                  before.w.current == Some(before.w.sandboxes[entry.sandbox]))
  {
    ListedStayExpired(s, steps);
    IdleHoldsTheCheckpoint(s, steps);
  }

  /** What the janitor listed was idle or expired, and still is. */
  predicate EntryExpired(s: State) {
    match s.janitor
    case Resting => true
    case Listed(entry) => !Held(s.w.now, entry)
    case Killing(entry) => !Held(s.w.now, entry)
    case Forgetting(entry) => !Held(s.w.now, entry)
  }

  lemma EntryStaysExpired(s: State, step: Step)
    requires EntryExpired(s) && Next(s, step).Some?
    ensures EntryExpired(Next(s, step).value)
  {
    match step
    case ByStart(x) => StartKeepsJanitor(s, x);
    case BySession(x) => SessionKeepsJanitor(s, x);
    case ByRestore(x) => RestoreKeepsJanitor(s, x);
    case ByJanitor(x) =>
    case Outside(x) =>
  }

  lemma StartKeepsJanitor(s: State, step: StartStep)
    requires NextStart(s, step).Some?
    ensures NextStart(s, step).value.janitor == s.janitor && NextStart(s, step).value.w.now == s.w.now
  {
  }

  lemma SessionKeepsJanitor(s: State, step: SessionStep)
    requires NextSession(s, step).Some?
    ensures NextSession(s, step).value.janitor == s.janitor && NextSession(s, step).value.w.now == s.w.now
  {
  }

  lemma RestoreKeepsJanitor(s: State, step: RestoreStep)
    requires NextRestore(s, step).Some?
    ensures NextRestore(s, step).value.janitor == s.janitor && NextRestore(s, step).value.w.now == s.w.now
  {
  }

  lemma {:induction false} ListedStayExpired(s: State, steps: seq<Step>)
    requires Initial(s)
    ensures EntryExpired(After(s, steps))
    decreases |steps|
  {
    if steps != [] {
      var n := |steps| - 1;
      ListedStayExpired(s, steps[..n]);
      if Next(After(s, steps[..n]), steps[n]).Some? {
        EntryStaysExpired(After(s, steps[..n]), steps[n]);
      }
    }
  }

  // ------------------------------------------- a stale list can lose edits

  lemma {:induction false} AfterNext(s: State, steps: seq<Step>, step: Step, cur: State, next: State)
    requires After(s, steps) == cur && Next(cur, step) == Some(next)
    ensures After(s, steps + [step]) == next
  {
    assert (steps + [step])[..|steps|] == steps;
  }

  /** A step of the run below. */
  lemma Go(s: State, steps: seq<Step>, cur: State, step: Step) returns (steps': seq<Step>, next: State)
    requires After(s, steps) == cur && Next(cur, step).Some?
    ensures steps' == steps + [step] && next == Next(cur, step).value && After(s, steps') == next
  {
    steps', next := steps + [step], Next(cur, step).value;
    AfterNext(s, steps, step, cur, next);
  }

  const Fresh := State(World(0, None, map[], {}, None), NoOne, Resting)

  // The timeouts of the run below, in microseconds: the default session and
  // idle timeouts, and the fixed recovery window.
  const SessionTimeout := 900_000_000
  const IdleTimeout := 600_000_000
  const RecoveryWindow := 3_600_000_000

  /** An idle entry expires a minute after the idle timeout. */
  const IdleAt0 := Record(7, 0, false, Idle, 0, IdleTimeout, IdleTimeout + 60_000_000)

  /** A first run seeds the workspace with content 5. */
  lemma FirstStart() returns (steps: seq<Step>, cur: State)
    ensures After(Fresh, steps) == cur
    ensures cur == State(World(0, Some(Record(7, 0, false, Active, 1, 0, SessionTimeout)), map[7 := 5], {}, Some(5)),
                         InSession(1, 0, false, 7, false, Open), Resting)
  {
    steps, cur := [], Fresh;
    steps, cur := Go(Fresh, steps, cur, ByStart(BeginStart(1, 0, false)));
    steps, cur := Go(Fresh, steps, cur, ByStart(ReadRecord));
    steps, cur := Go(Fresh, steps, cur, ByStart(Create(7, 0, true)));
    steps, cur := Go(Fresh, steps, cur, ByStart(Place(5, true, true)));
    assert cur.w == World(0, None, map[7 := 5], {}, Some(5));
    steps, cur := Go(Fresh, steps, cur, ByStart(SaveActive(true, SessionTimeout)));
    steps, cur := Go(Fresh, steps, cur, ByStart(StartHost(true)));
  }

  /** It leaves an idle sandbox. */
  lemma FirstClose() returns (steps: seq<Step>, cur: State)
    ensures After(Fresh, steps) == cur
    ensures cur == State(World(0, Some(IdleAt0), map[7 := 5], {}, Some(5)), NoOne, Resting)
  {
    steps, cur := FirstStart();
    steps, cur := Go(Fresh, steps, cur, BySession(CloseHost(false, RecoveryWindow)));
    steps, cur := Go(Fresh, steps, cur, BySession(ReserveRecovery(true, true)));
    steps, cur := Go(Fresh, steps, cur, BySession(Download(true)));
    steps, cur := Go(Fresh, steps, cur, BySession(Persist(true)));
    steps, cur := Go(Fresh, steps, cur, BySession(ShortenTtl(true)));
    steps, cur := Go(Fresh, steps, cur, BySession(SaveIdle(true, IdleTimeout)));
    steps, cur := Go(Fresh, steps, cur, BySession(Finish));
  }

  /** The idle timeout passes, and the janitor lists it. */
  lemma FirstList() returns (steps: seq<Step>, cur: State)
    ensures After(Fresh, steps) == cur
    ensures cur == State(World(IdleTimeout, Some(IdleAt0), map[7 := 5], {}, Some(5)), NoOne, Listed(IdleAt0))
  {
    steps, cur := FirstClose();
    steps, cur := Go(Fresh, steps, cur, Outside(Pass(IdleTimeout)));
    steps, cur := Go(Fresh, steps, cur, ByJanitor(List));
  }

  /** A second run reconnects the sandbox and edits it. */
  lemma SecondStart() returns (steps: seq<Step>, cur: State)
    ensures After(Fresh, steps) == cur
    ensures cur == State(World(IdleTimeout, Some(Record(7, 0, false, Active, 2, 0, IdleTimeout + SessionTimeout)), map[7 := 9], {}, Some(5)),
                         InSession(2, 0, false, 7, false, Open), Listed(IdleAt0))
  {
    steps, cur := FirstList();
    steps, cur := Go(Fresh, steps, cur, ByStart(BeginStart(2, 0, false)));
    steps, cur := Go(Fresh, steps, cur, ByStart(ReadRecord));
    steps, cur := Go(Fresh, steps, cur, ByStart(Connect(Done)));
    steps, cur := Go(Fresh, steps, cur, ByStart(SaveResumed(true, SessionTimeout)));
    steps, cur := Go(Fresh, steps, cur, ByStart(StartHost(true)));
    steps, cur := Go(Fresh, steps, cur, BySession(Edit(9)));
    assert cur.w.sandboxes == map[7 := 9];
  }

  /** It fails to checkpoint and reserves the sandbox for recovery. */
  lemma SecondClose() returns (steps: seq<Step>, cur: State)
    ensures After(Fresh, steps) == cur
    ensures cur == State(World(IdleTimeout, Some(Record(7, 0, false, Recovery, 0, 0, IdleTimeout + RecoveryWindow)), map[7 := 9], {}, Some(5)),
                         NoOne, Listed(IdleAt0))
  {
    steps, cur := SecondStart();
    steps, cur := Go(Fresh, steps, cur, BySession(CloseHost(false, RecoveryWindow)));
    steps, cur := Go(Fresh, steps, cur, BySession(ReserveRecovery(true, true)));
    steps, cur := Go(Fresh, steps, cur, BySession(Download(false)));
    steps, cur := Go(Fresh, steps, cur, BySession(ReserveAgain(true)));
    steps, cur := Go(Fresh, steps, cur, BySession(Finish));
  }

  /** Acting on the idle entry it listed, the janitor deletes the sandbox that
      is now reserved for recovery, an hour before its expiry, and with it
      edits that were never checkpointed. */
  lemma StaleListLosesEdits()
    ensures Initial(Fresh)
    ensures exists steps ::
              var before := After(Fresh, steps);
              var after := Next(before, ByJanitor(CleanListed(true)));
              && HeldSandbox(before.w, 7) && 7 in before.w.sandboxes && before.w.current != Some(before.w.sandboxes[7])
              && after.Some? && 7 !in after.value.w.sandboxes
  {
    var steps, cur := SecondClose();
    steps, cur := Go(Fresh, steps, cur, ByJanitor(TryClean));
    assert Next(cur, ByJanitor(CleanListed(true))).Some?;
    assert HeldSandbox(After(Fresh, steps).w, 7);
  }
}
