/** The E2B placement of one workspace (environment/e2b/provider.go,
    session.go, workspace_state.go): the sandbox that holds its files between
    runs, and the record of it. Each call to the store or to the provider is a
    step of its own and may fail; the server may crash between any two. */
module Placement {
  import opened Wrappers
  import opened Events

  /** What a file tree holds, by its digest. */
  type Content = nat

  datatype Status = Active | Idle | Recovery

  /** A row of execution_environments. */
  datatype Record = Record(
    sandbox: Id, template: Id, network: bool, status: Status, run: Id, idleUntil: Time, expiresAt: Time)

  /** What survives a crash: the clock, the record, the provider's sandboxes,
      those whose tools may still be writing, and the current checkpoint. */
  datatype World = World(
    now: Time, record: Option<Record>, sandboxes: map<Id, Content>, loose: set<Id>, current: Option<Content>)

  /** Start, which holds the workspace's lock throughout. */
  datatype StartStage =
    | Locked
    | Connecting(r: Record)      // reconnecting an idle sandbox
    | Reconnected(r: Record)
    | Vanished(r: Record)        // ... which the provider no longer has
    | KillingOld(r: Record)      // replacing an idle or expired one
    | RemovingOld(r: Record)
    | Creating
    | Placing(id: Id)
    | Saving(id: Id)
    | Hosting(id: Id)            // starting the tools
    | CleaningUp(id: Id)
    | CleaningRecord(id: Id)

  /** A session: open, then Close step by step. `until` is the end of the
      recovery window. */
  datatype SessionStage =
    | Open
    | HostClosed(failed: bool, until: Time)
    | RecoveryReserved(until: Time)
    | Archived(body: Content, until: Time)
    | Persisted(until: Time)
    | TtlShortened(until: Time)
    | CloseFailed(until: Time)
    | Closed

  datatype RestoreStage =
    | Checking                   // holds the lock
    | KillingIdle(r: Record)
    | RemovingIdle(r: Record)
    | Applied                    // the lock is released; to be recorded

  /** Who uses the workspace. The store admits one run or one restore at a
      time. */
  datatype Actor =
    | NoOne
    | Starting(run: Id, template: Id, network: bool, start: StartStage)
    | InSession(run: Id, template: Id, network: bool, sandbox: Id, failed: bool, session: SessionStage)
    | Restoring(target: Content, restore: RestoreStage)

  /** The janitor acts on a record that it listed earlier. */
  datatype Janitor =
    | Resting
    | Listed(entry: Record)
    | Killing(entry: Record)     // holds the lock
    | Forgetting(entry: Record)

  datatype State = State(w: World, actor: Actor, janitor: Janitor)

  // ------------------------------------------------------------ predicates

  predicate StartLocks(actor: Actor) {
    actor.Starting? || (actor.Restoring? && !actor.restore.Applied?)
  }

  predicate JanitorLocks(janitor: Janitor) {
    janitor.Killing? || janitor.Forgetting?
  }

  predicate LockFree(s: State) {
    !StartLocks(s.actor) && !JanitorLocks(s.janitor)
  }

  /** The record reserves its sandbox: not idle, and before its expiry. */
  predicate Held(now: Time, r: Record) {
    r.status != Idle && now < r.expiresAt
  }

  /** reusableState. */
  predicate Reusable(r: Record, template: Id, network: bool) {
    r.status == Idle && r.template == template && r.network == network
  }

  /** The WHERE clause of ExpiredEnvironmentStates. */
  predicate Expired(now: Time, r: Record) {
    (r.status == Idle && r.idleUntil <= now) || r.expiresAt <= now
  }

  function WithSandbox(w: World, id: Id, content: Content): World {
    w.(sandboxes := w.sandboxes[id := content])
  }

  function WithoutSandbox(w: World, id: Id): World {
    w.(sandboxes := w.sandboxes - {id})
  }

  /** DELETE ... WHERE workspace_id AND environment_id. */
  function Forgotten(w: World, id: Id): World {
    if w.record.Some? && w.record.value.sandbox == id then w.(record := None) else w
  }

  function ActiveRecord(w: World, run: Id, template: Id, network: bool, id: Id, timeout: nat): World {
    w.(record := Some(Record(id, template, network, Active, run, 0, w.now + timeout)))
  }

  function RecoveryRecord(w: World, template: Id, network: bool, id: Id, until: Time): World {
    w.(record := Some(Record(id, template, network, Recovery, 0, 0, until)))
  }

  function IdleRecord(w: World, template: Id, network: bool, id: Id, idleTimeout: nat): World {
    w.(record := Some(Record(id, template, network, Idle, 0, w.now + idleTimeout, w.now + idleTimeout + 60_000_000)))
  }

  // ---------------------------------------------------------------- Start

  /** The outcome of a provider call. */
  datatype Outcome = Done | NotThere | Error

  datatype StartStep =
    | BeginStart(run: Id, template: Id, network: bool)
    | ReadRecord
    | Connect(outcome: Outcome)
    | SaveResumed(ok: bool, timeout: nat)
    | ForgetMissing(ok: bool)
    | KillOld(ok: bool)
    | RemoveOld(ok: bool)
    | Create(id: Id, seed: Content, ok: bool)
    | Place(checkout: Content, recorded: bool, ok: bool)
    | SaveActive(ok: bool, timeout: nat)
    | StartHost(ok: bool)
    | CleanKill(ok: bool)
    | CleanRecord(ok: bool)
    | GiveUp

  function AtStart(s: State, start: StartStage): State {
    if s.actor.Starting? then s.(actor := s.actor.(start := start)) else s
  }

  function Ended(s: State): State {
    s.(actor := NoOne)
  }

  function DoReadRecord(s: State): State
    requires s.actor.Starting?
  {
    match s.w.record
    case None => AtStart(s, Creating)
    case Some(r) =>
      if Held(s.w.now, r) then Ended(s)
      else if Reusable(r, s.actor.template, s.actor.network) then AtStart(s, Connecting(r))
      else AtStart(s, KillingOld(r))
  }

  /** Connect: a sandbox that is gone is replaced, another error ends Start. */
  function DoConnect(s: State, r: Record, outcome: Outcome): State
    requires s.actor.Starting?
  {
    if r.sandbox !in s.w.sandboxes then
      if outcome.Error? then Ended(s) else AtStart(s, Vanished(r))
    else if outcome.Done? then AtStart(s, Reconnected(r))
    else Ended(s)
  }

  function DoSaveResumed(s: State, r: Record, ok: bool, timeout: nat): State
    requires s.actor.Starting?
  {
    if !ok then Ended(s)
    else
      AtStart(s.(w := ActiveRecord(s.w, s.actor.run, r.template, r.network, r.sandbox, timeout)), Hosting(r.sandbox))
  }

  /** placeWorkspace: the current checkpoint, or for a workspace without one a
      checkout that is recorded as its base. */
  function DoPlace(s: State, id: Id, checkout: Content, recorded: bool, ok: bool): State
    requires s.actor.Starting?
  {
    if id !in s.w.sandboxes then AtStart(s, CleaningUp(id))
    else
      match s.w.current
      case Some(content) =>
        if ok then AtStart(s.(w := WithSandbox(s.w, id, content)), Saving(id))
        else AtStart(s.(w := WithSandbox(s.w, id, checkout)), CleaningUp(id))
      case None =>
        var placed := WithSandbox(s.w, id, checkout);
        if !recorded then AtStart(s.(w := placed), CleaningUp(id))
        else AtStart(s.(w := placed.(current := Some(checkout))), if ok then Saving(id) else CleaningUp(id))
  }

  function NextStart(s: State, step: StartStep): Option<State> {
    if step.BeginStart? then
      if s.actor.NoOne? && LockFree(s) then Some(s.(actor := Starting(step.run, step.template, step.network, Locked))) else None
    else if !s.actor.Starting? then None
    else
      match (step, s.actor.start)
      case (ReadRecord, Locked) => Some(DoReadRecord(s))
      case (Connect(outcome), Connecting(r)) => Some(DoConnect(s, r, outcome))
      case (SaveResumed(ok, timeout), Reconnected(r)) => Some(DoSaveResumed(s, r, ok, timeout))
      case (ForgetMissing(ok), Vanished(r)) =>
        Some(if ok then AtStart(s.(w := Forgotten(s.w, r.sandbox)), Creating) else Ended(s))
      case (KillOld(ok), KillingOld(r)) =>
        Some(if ok then AtStart(s.(w := WithoutSandbox(s.w, r.sandbox)), RemovingOld(r)) else Ended(s))
      case (RemoveOld(ok), RemovingOld(r)) =>
        Some(if ok then AtStart(s.(w := Forgotten(s.w, r.sandbox)), Creating) else Ended(s))
      case (Create(id, seed, ok), Creating) =>
        if id in s.w.sandboxes || id in s.w.loose then None
        else Some(if ok then AtStart(s.(w := WithSandbox(s.w, id, seed)), Placing(id)) else Ended(s))
      case (Place(checkout, recorded, ok), Placing(id)) => Some(DoPlace(s, id, checkout, recorded, ok))
      case (SaveActive(ok, timeout), Saving(id)) =>
        Some(if ok then AtStart(s.(w := ActiveRecord(s.w, s.actor.run, s.actor.template, s.actor.network, id, timeout)), Hosting(id))
             else AtStart(s, CleaningUp(id)))
      case (StartHost(ok), Hosting(id)) =>
        Some(if ok then s.(actor := InSession(s.actor.run, s.actor.template, s.actor.network, id, false, Open))
             else AtStart(s, CleaningUp(id)))
      case (CleanKill(ok), CleaningUp(id)) =>
        Some(if ok then AtStart(s.(w := WithoutSandbox(s.w, id)), CleaningRecord(id)) else Ended(s))
      case (CleanRecord(ok), CleaningRecord(id)) => Some(Ended(if ok then s.(w := Forgotten(s.w, id)) else s))
      case (GiveUp, Locked) => Some(Ended(s))
      case _ => None
  }

  // -------------------------------------------------------------- session

  datatype SessionStep =
    | Edit(content: Content)
    | Keepalive(ok: bool, timeout: nat)
    | CloseHost(hostFailed: bool, window: nat)
    | ReserveRecovery(saved: bool, extended: bool)
    | Download(ok: bool)
    | Persist(ok: bool)
    | ShortenTtl(ok: bool)
    | SaveIdle(ok: bool, idleTimeout: nat)
    | ReserveAgain(saved: bool)
    | Finish

  function AtSession(s: State, session: SessionStage): State {
    if s.actor.InSession? then s.(actor := s.actor.(session := session)) else s
  }

  function NextSession(s: State, step: SessionStep): Option<State> {
    if !s.actor.InSession? then None
    else
      var (id, template, network) := (s.actor.sandbox, s.actor.template, s.actor.network);
      match (step, s.actor.session)
      case (Edit(content), Open) => if id in s.w.sandboxes then Some(s.(w := WithSandbox(s.w, id, content))) else None
      case (Keepalive(ok, timeout), Open) =>
        Some(if ok then s.(w := ActiveRecord(s.w, s.actor.run, template, network, id, timeout)) else s)
      case (CloseHost(hostFailed, window), Open) =>
        var left := s.(actor := s.actor.(failed := hostFailed, session := HostClosed(hostFailed, s.w.now + window)));
        Some(if hostFailed then left.(w := s.w.(loose := s.w.loose + {id})) else left)
      case (ReserveRecovery(saved, extended), HostClosed(hostFailed, until)) =>
        var reserved := if saved then s.(w := RecoveryRecord(s.w, template, network, id, until)) else s;
        Some(AtSession(reserved, if saved && extended && !hostFailed then RecoveryReserved(until) else CloseFailed(until)))
      case (Download(ok), RecoveryReserved(until)) =>
        Some(AtSession(s, if ok && id in s.w.sandboxes then Archived(s.w.sandboxes[id], until) else CloseFailed(until)))
      case (Persist(ok), Archived(body, until)) =>
        Some(if ok then AtSession(s.(w := s.w.(current := Some(body))), Persisted(until)) else AtSession(s, CloseFailed(until)))
      case (ShortenTtl(ok), Persisted(until)) => Some(AtSession(s, if ok then TtlShortened(until) else CloseFailed(until)))
      case (SaveIdle(ok, idleTimeout), TtlShortened(until)) =>
        Some(if ok then AtSession(s.(w := IdleRecord(s.w, template, network, id, idleTimeout)), Closed)
             else AtSession(s, CloseFailed(until)))
      case (ReserveAgain(saved), CloseFailed(until)) =>
        Some(AtSession(if saved then s.(w := RecoveryRecord(s.w, template, network, id, until)) else s, Closed))
      case (Finish, Closed) => Some(Ended(s))
      case _ => None
  }

  // -------------------------------------------------------------- restore

  datatype RestoreStep =
    | BeginRestore(target: Content)
    | Check(available: bool)
    | KillIdle(ok: bool)
    | RemoveIdle(ok: bool)
    | RecordRestore(ok: bool)

  function AtRestore(s: State, restore: RestoreStage): State {
    if s.actor.Restoring? then s.(actor := s.actor.(restore := restore)) else s
  }

  function DoCheck(s: State, available: bool): State
    requires s.actor.Restoring?
  {
    if s.w.record.Some? && Held(s.w.now, s.w.record.value) then Ended(s)
    else if !available then Ended(s)
    else if s.w.record.None? then AtRestore(s, Applied)
    else AtRestore(s, KillingIdle(s.w.record.value))
  }

  function NextRestore(s: State, step: RestoreStep): Option<State> {
    if step.BeginRestore? then
      if s.actor.NoOne? && LockFree(s) then Some(s.(actor := Restoring(step.target, Checking))) else None
    else if !s.actor.Restoring? then None
    else
      match (step, s.actor.restore)
      case (Check(available), Checking) => Some(DoCheck(s, available))
      case (KillIdle(ok), KillingIdle(r)) =>
        Some(if ok then AtRestore(s.(w := WithoutSandbox(s.w, r.sandbox)), RemovingIdle(r)) else Ended(s))
      case (RemoveIdle(ok), RemovingIdle(r)) =>
        Some(if ok then AtRestore(s.(w := Forgotten(s.w, r.sandbox)), Applied) else Ended(s))
      case (RecordRestore(ok), Applied) =>
        Some(Ended(if ok then s.(w := s.w.(current := Some(s.actor.target))) else s))
      case _ => None
  }

  // -------------------------------------------------------------- janitor

  datatype JanitorStep = List | TryClean | CleanListed(ok: bool) | ForgetListed(ok: bool)

  function NextJanitor(s: State, step: JanitorStep): Option<State> {
    match (step, s.janitor)
    case (List, Resting) =>
      if s.w.record.Some? && Expired(s.w.now, s.w.record.value) then Some(s.(janitor := Listed(s.w.record.value))) else None
    case (TryClean, Listed(entry)) =>
      Some(s.(janitor := if LockFree(s) && !s.actor.InSession? then Killing(entry) else Resting))
    case (CleanListed(ok), Killing(entry)) =>
      Some(if ok then s.(w := WithoutSandbox(s.w, entry.sandbox), janitor := Forgetting(entry)) else s.(janitor := Resting))
    case (ForgetListed(ok), Forgetting(entry)) =>
      Some(s.(w := if ok then Forgotten(s.w, entry.sandbox) else s.w, janitor := Resting))
    case _ => None
  }

  // ---------------------------------------------------------- the outside

  datatype OutsideStep =
    | Pass(time: nat)
    | Vanish(id: Id)                       // the provider's own time limit
    | LooseEdit(id: Id, content: Content)  // tools that outlived their session
    | Crash

  /** The sandbox whose tools may go on writing after a crash. */
  function Abandoned(actor: Actor): set<Id> {
    match actor
    case InSession(_, _, _, id, failed, session) => if session.Open? || failed then {id} else {}
    case Starting(_, _, _, Hosting(id)) => {id}
    case _ => {}
  }

  function NextOutside(s: State, step: OutsideStep): Option<State> {
    match step
    case Pass(time) => Some(s.(w := s.w.(now := s.w.now + time)))
    case Vanish(id) => Some(s.(w := WithoutSandbox(s.w, id)))
    case LooseEdit(id, content) =>
      if id in s.w.loose && id in s.w.sandboxes then Some(s.(w := WithSandbox(s.w, id, content))) else None
    case Crash => Some(State(s.w.(loose := s.w.loose + Abandoned(s.actor)), NoOne, Resting))
  }

  datatype Step =
    | ByStart(start: StartStep)
    | BySession(session: SessionStep)
    | ByRestore(restore: RestoreStep)
    | ByJanitor(janitor: JanitorStep)
    | Outside(outside: OutsideStep)

  function Next(s: State, step: Step): Option<State> {
    match step
    case ByStart(x) => NextStart(s, x)
    case BySession(x) => NextSession(s, x)
    case ByRestore(x) => NextRestore(s, x)
    case ByJanitor(x) => NextJanitor(s, x)
    case Outside(x) => NextOutside(s, x)
  }

  function After(s: State, steps: seq<Step>): State
    decreases |steps|
  {
    if steps == [] then s
    else
      var before := After(s, steps[..|steps| - 1]);
      var next := Next(before, steps[|steps| - 1]);
      if next.Some? then next.value else before
  }

  /** A workspace that was never placed. */
  predicate Initial(s: State) {
    s.w.record.None? && s.w.sandboxes == map[] && s.w.loose == {} && s.actor.NoOne? && s.janitor.Resting?
  }
}
