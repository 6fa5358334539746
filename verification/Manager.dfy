/** The manager (runtime/manager.go, runtime/scheduler.go,
    runtime/subscriptions.go, runtime/workspaces.go) as a state machine over
    the store. Every lock acquisition, store transaction, channel operation
    and registry update is a step of its own; steps of different threads
    interleave freely. */
module Manager {
  import opened Wrappers
  import opened Events
  import opened Store
  import Snapshots

  /** Each SubmitInput, Subscribe or RestoreWorkspace call is a thread. */
  type Thread = nat

  /** A subscriber's channel: `queue` is buffered, `taken` was received. */
  datatype Subscriber = Subscriber(
    conv: Id, after: nat, last: nat, capacity: nat, taken: seq<Event>, queue: seq<Event>, open: bool)

  /** Who holds a conversation's mutex. */
  datatype Owner =
    | Runner(run: Id)          // emitRunEvent
    | Ender(run: Id)           // the end of work
    | Submitting(t: Thread)    // SubmitInput
    | Subscribing(t: Thread)   // Subscribe
    | Publisher                // dispatch

  /** What the holder of a conversation's mutex has done so far. While
      broadcasting, unsent[0] still has to be offered to `todo`. */
  datatype Section =
    | Entered(owner: Owner)
    | Backlog(owner: Owner, events: seq<Event>)
    | Broadcast(owner: Owner, unsent: seq<Event>, todo: set<Id>)

  /** dispatch and the loop around it. */
  datatype Sched =
    | Waiting
    | Trying
    | Reserved                    // holds a slot
    | Locked                      // ... and claimPublication, for writing
    | Holding(claim: Claimed)     // claimed, not registered
    | Registered(claim: Claimed)
    | Publishing(claim: Claimed)  // in the mutex of its conversation
    | Published(claim: Claimed)
    | Launching(claim: Claimed)   // claimPublication released
    | NothingClaimed              // claimPublication released, slot still held
    | Exited

  datatype WorkStage =
    | Executing
    | Unregistered(stopped: bool)  // the runner has returned
    | Ended                        // the terminal transaction was attempted
    | SlotReleased                 // about to notify

  datatype Work = Work(run: Run, stage: WorkStage)

  datatype ReaderStage =
    | Begun
    | Committed(accepted: bool)    // Accept returned
    | MustNotify
    | Finishing

  /** A call that holds claimPublication for reading. */
  datatype Reader =
    | Submitter(conv: Id, input: InputSubmission, stage: ReaderStage)
    | Watcher(conv: Id, after: nat)

  datatype Restorer = Restoring(workspace: Id) | RestoreReleased

  datatype Active = Active(run: Run, stopped: bool)

  datatype State = State(
    db: Db, max: nat, active: nat, wake: bool, closed: bool, sched: Sched,
    registry: map<Id, Active>, works: map<Id, Work>, readers: map<Thread, Reader>,
    restorers: map<Thread, Restorer>, sections: map<Id, Section>, subs: map<Id, Subscriber>)

  // ------------------------------------------------------------ the store

  /** A transaction's tables, and the events handed to broadcastLocked. */
  datatype Performed = Refused(error: StoreError) | Done(db: Db, events: seq<Event>)

  function Several(result: Result<(Db, seq<Event>), StoreError>): Performed {
    match result
    case Ok((db', events)) => Done(db', events)
    case Err(error) => Refused(error)
  }

  function One(result: Result<(Db, Event), StoreError>): Performed {
    match result
    case Ok((db', event)) => Done(db', [event])
    case Err(error) => Refused(error)
  }

  /** SubmitInput's transaction: a duplicate publishes nothing. */
  ghost function AcceptTx(db: Db, conv: Id, input: InputSubmission, id: NewId, now: Time): Performed {
    match Accept(db, conv, input, id, now)
    case Ok((db', accepted)) => Done(db', if accepted.Fresh? then [accepted.event] else [])
    case Err(error) => Refused(error)
  }

  /** What dispatch's ClaimRunnable returned. */
  datatype Claiming = ClaimError | NothingEligible | Taken(db: Db, claim: Claimed)

  ghost function ClaimTx(db: Db, runId: NewId, now: Time): Claiming {
    match Claim(db, runId, now)
    case Ok((db', None)) => NothingEligible
    case Ok((db', Some(claim))) => Taken(db', claim)
    case Err(_) => ClaimError
  }

  /** The transactions of emitRunEvent. Private entries are not published. */
  function EmitTx(db: Db, op: Op): Performed {
    match op
    case OpCommit(run, parts, id, now) => One(CommitTurn(db, run, parts, id, now))
    case OpCompleteTool(run, result, id, now) => One(ToolCompleted(db, run, result, id, now))
    case OpDenyTool(run, result, id, now) => One(ToolDenied(db, run, result, id, now))
    case OpProgress(run, step, message, now) => One(AppendProgress(db, run, step, message, now))
    case OpAgent(run, name, now) =>
      (match AppendAgent(db, run, name, now)
       case Ok((db', _)) => Done(db', [])
       case Err(error) => Refused(error))
    case _ => Refused(Invalid("unsupported runner event"))
  }

  /** The operations emitRunEvent performs for `run`. */
  predicate EmitOp(op: Op, run: Run) {
    match op
    case OpCommit(r, parts, _, _) => r == run && parts != []
    case OpCompleteTool(r, _, _, _) => r == run
    case OpDenyTool(r, _, _, _) => r == run
    case OpProgress(r, _, _, _) => r == run
    case OpAgent(r, _, _) => r == run
    case _ => false
  }

  /** How the runner returned: its answer, or its error. */
  datatype RunOutcome = Answered(answer: string) | Errored(message: string)

  /** The terminal call of work: an error of a run that was asked to stop is a
      stop, but an answer still completes it. */
  function TerminalTx(db: Db, run: Run, stopped: bool, outcome: RunOutcome, ids: nat -> NewId, now: Time): Performed {
    match outcome
    case Answered(answer) => Several(FinishRun(db, run, answer, ids(0), now))
    case Errored(message) => Several(EndRun(db, run, if stopped then RunStop else RunFailure(message), ids, now))
  }

  /** SubmitInput's own checks: the input is for the conversation's agent at
      the manager's revision. */
  function Addressed(db: Db, conv: Id, input: InputSubmission, agent: string, revision: string): Option<InputSubmission> {
    if conv !in db.conversations then None
    else
      var c := db.conversations[conv];
      if c.agent != agent then None
      else if input.target != "" && input.target != c.agent then None
      else if input.revision != "" && input.revision != revision then None
      else Some(input.(target := c.agent, revision := revision))
  }

  // ---------------------------------------------------------------- steps

  /** Steps of schedule, and dispatch without a claim. */
  datatype LoopStep =
    | Tick
    | Wake
    | Exit
    | ReserveSlot
    | LockClaims
    | ClaimInterrupted
    | ReturnSlot

  /** Steps of dispatch with a claim. */
  datatype PublishStep =
    | Register
    | EnterPublish
    | UnlockClaims
    | Launch

  /** Steps of emitRunEvent and StopRun. */
  datatype EmitStep =
    | EnterEmit(r: Id)
    | Emit(r: Id, op: Op)
    | EmitTransient(r: Id, e: Event)
    | Stop(conv: Id)

  /** Steps of the end of work. */
  datatype EndStep =
    | RunnerReturns(r: Id)
    | EnterEnd(r: Id)
    | Terminate(r: Id, outcome: RunOutcome, ids: nat -> NewId, now: Time)
    | ReleaseSlot(r: Id)
    | NotifyEnded(r: Id)

  /** Steps of SubmitInput. */
  datatype SubmitStep =
    | BeginSubmit(t: Thread, conv: Id, input: InputSubmission)
    | EnterSubmit(t: Thread)
    | AcceptInput(t: Thread, agent: string, revision: string, newId: NewId, now: Time)
    | NotifySubmitted(t: Thread)
    | EndRead(t: Thread)

  /** Steps of Subscribe. */
  datatype WatchStep =
    | BeginWatch(t: Thread, conv: Id, after: nat)
    | EnterWatch(t: Thread)
    | ReadBacklog(t: Thread)
    | Attach(t: Thread, id: Id)

  /** Steps of RestoreWorkspace, CreateConversation and Close. */
  datatype OwnerStep =
    | BeginRestore(t: Thread, workspace: Id)
    | ReleaseRestore(t: Thread)
    | NotifyRestored(t: Thread)
    | Open(id: Id, agent: string, workspace: Id, lock: string)
    | Close

  /** Steps of broadcastLocked and the channels. */
  datatype DeliveryStep =
    | Offer(conv: Id, id: Id)
    | NextEvent(conv: Id)
    | Leave(conv: Id)
    | Receive(id: Id)
    | Detach(id: Id)

  datatype Step =
    | ClaimRun(runId: NewId, now: Time)   // dispatch's transaction
    | InLoop(x: LoopStep)
    | InPublish(p: PublishStep)
    | InEmit(m: EmitStep)
    | InEnd(n: EndStep)
    | InSubmit(u: SubmitStep)
    | InWatch(w: WatchStep)
    | InOwner(o: OwnerStep)
    | InDelivery(v: DeliveryStep)

  predicate WriteLocked(sched: Sched) {
    sched.Locked? || sched.Holding? || sched.Registered? || sched.Publishing? || sched.Published?
  }

  /** The slot that dispatch itself holds. */
  predicate SchedHoldsSlot(sched: Sched) {
    !(sched.Waiting? || sched.Trying? || sched.Exited?)
  }

  predicate WorkHoldsSlot(work: Work) {
    !work.stage.SlotReleased?
  }

  /** The registered subscribers of a conversation. */
  function OpenSubs(subs: map<Id, Subscriber>, conv: Id): set<Id> {
    set i | i in subs && subs[i].open && subs[i].conv == conv
  }

  function StartBroadcast(subs: map<Id, Subscriber>, conv: Id, owner: Owner, events: seq<Event>): Section {
    Broadcast(owner, events, if events == [] then {} else OpenSubs(subs, conv))
  }

  /** broadcastLocked for one event and one subscriber: skip what it has, send
      if the channel has room, drop the subscriber otherwise. */
  function Offered(sub: Subscriber, e: Event): Subscriber {
    if e.cursor != 0 && e.cursor <= sub.last then sub
    else if |sub.queue| < sub.capacity then
      sub.(queue := sub.queue + [e], last := if e.cursor != 0 then e.cursor else sub.last)
    else sub.(open := false)
  }

  /** Subscribe's new channel, filled with the backlog. */
  function NewSubscriber(conv: Id, after: nat, backlog: seq<Event>): Subscriber {
    Subscriber(conv, after, if backlog == [] then after else backlog[|backlog| - 1].cursor, |backlog| + 64, [], backlog, true)
  }

  predicate Owns(s: State, conv: Id, owner: Owner) {
    conv in s.sections && s.sections[conv].owner == owner
  }

  /** The holder of the mutex that has not done its transaction yet. */
  predicate Inside(s: State, conv: Id, owner: Owner) {
    Owns(s, conv, owner) && s.sections[conv].Entered?
  }

  /** A transaction inside the mutex: what it returned is broadcast, unless it
      failed. */
  function Transact(s: State, conv: Id, owner: Owner, performed: Performed): State {
    if performed.Refused? then s.(sections := s.sections[conv := Broadcast(owner, [], {})])
    else
      s.(db := performed.db, sections := s.sections[conv := StartBroadcast(s.subs, conv, owner, performed.events)])
  }

  // ----------------------------------------------------- the scheduler

  function DoTick(s: State): Option<State> {
    if s.sched.Waiting? then Some(s.(sched := Trying)) else None
  }

  function DoWake(s: State): Option<State> {
    if s.sched.Waiting? && s.wake then Some(s.(sched := Trying, wake := false)) else None
  }

  function DoExit(s: State): Option<State> {
    if s.sched.Waiting? && s.closed then Some(s.(sched := Exited)) else None
  }

  function DoReserveSlot(s: State): Option<State> {
    if !s.sched.Trying? then None
    else if s.closed || s.active >= s.max then Some(s.(sched := Waiting))
    else Some(s.(sched := Reserved, active := s.active + 1))
  }

  function DoLockClaims(s: State): Option<State> {
    if s.sched.Reserved? && s.readers == map[] then Some(s.(sched := Locked)) else None
  }

  /** What dispatch makes of ClaimRunnable's result. */
  function Took(s: State, claiming: Claiming): Option<State> {
    match claiming
    case ClaimError => None
    case NothingEligible => Some(s.(sched := NothingClaimed))
    case Taken(db', claim) => Some(s.(db := db', sched := Holding(claim)))
  }

  ghost function DoClaimRun(s: State, runId: NewId, now: Time): Option<State> {
    if !s.sched.Locked? || runId in s.db.rows.runs then None else Took(s, ClaimTx(s.db, runId, now))
  }

  function DoClaimInterrupted(s: State): Option<State> {
    if s.sched.Locked? && s.closed then Some(s.(sched := NothingClaimed)) else None
  }

  function DoRegister(s: State): Option<State> {
    if !s.sched.Holding? then None
    else Some(s.(sched := Registered(s.sched.claim), registry := s.registry[s.sched.claim.run.conv := Active(s.sched.claim.run, false)]))
  }

  function DoEnterPublish(s: State): Option<State> {
    if !s.sched.Registered? || s.sched.claim.run.conv in s.sections then None
    else
      var conv := s.sched.claim.run.conv;
      Some(s.(sched := Publishing(s.sched.claim),
              sections := s.sections[conv := StartBroadcast(s.subs, conv, Publisher, s.sched.claim.events)]))
  }

  function DoUnlockClaims(s: State): Option<State> {
    if s.sched.Published? then Some(s.(sched := Launching(s.sched.claim))) else None
  }

  function DoLaunch(s: State): Option<State> {
    if !s.sched.Launching? then None
    else Some(s.(sched := Trying, works := s.works[s.sched.claim.run.id := Work(s.sched.claim.run, Executing)]))
  }

  function DoReturnSlot(s: State): Option<State> {
    if s.sched.NothingClaimed? && s.active > 0 then Some(s.(sched := Waiting, active := s.active - 1)) else None
  }

  // -------------------------------------------------------------- work

  function DoEnterEmit(s: State, r: Id): Option<State> {
    if r !in s.works || !s.works[r].stage.Executing? || s.works[r].run.conv in s.sections then None
    else Some(s.(sections := s.sections[s.works[r].run.conv := Entered(Runner(r))]))
  }

  function DoEmit(s: State, r: Id, op: Op): Option<State> {
    if r !in s.works || !EmitOp(op, s.works[r].run) || !Inside(s, s.works[r].run.conv, Runner(r)) then None
    else Some(Transact(s, s.works[r].run.conv, Runner(r), EmitTx(s.db, op)))
  }

  function DoEmitTransient(s: State, r: Id, e: Event): Option<State> {
    if r !in s.works || !e.body.Transient? || e.cursor != 0
       || !Inside(s, s.works[r].run.conv, Runner(r)) then None
    else
      var conv := s.works[r].run.conv;
      Some(s.(sections := s.sections[conv := StartBroadcast(s.subs, conv, Runner(r), [e])]))
  }

  function DoRunnerReturns(s: State, r: Id): Option<State> {
    if r !in s.works || !s.works[r].stage.Executing? || Owns(s, s.works[r].run.conv, Runner(r))
       || s.works[r].run.conv !in s.registry then None
    else
      var work := s.works[r];
      Some(s.(works := s.works[r := work.(stage := Unregistered(s.registry[work.run.conv].stopped))],
              registry := s.registry - {work.run.conv}))
  }

  function DoEnterEnd(s: State, r: Id): Option<State> {
    if r !in s.works || !s.works[r].stage.Unregistered? || s.works[r].run.conv in s.sections then None
    else Some(s.(sections := s.sections[s.works[r].run.conv := Entered(Ender(r))]))
  }

  function DoTerminate(s: State, r: Id, outcome: RunOutcome, ids: nat -> NewId, now: Time): Option<State> {
    if r !in s.works || !s.works[r].stage.Unregistered?
       || !Inside(s, s.works[r].run.conv, Ender(r)) then None
    else
      var work := s.works[r];
      Some(Transact(s.(works := s.works[r := work.(stage := Ended)]), work.run.conv, Ender(r),
                    TerminalTx(s.db, work.run, work.stage.stopped, outcome, ids, now)))
  }

  function DoReleaseSlot(s: State, r: Id): Option<State> {
    if r !in s.works || !s.works[r].stage.Ended? || Owns(s, s.works[r].run.conv, Ender(r)) || s.active == 0 then None
    else Some(s.(active := s.active - 1, works := s.works[r := s.works[r].(stage := SlotReleased)]))
  }

  function DoNotifyEnded(s: State, r: Id): Option<State> {
    if r !in s.works || !s.works[r].stage.SlotReleased? then None
    else Some(s.(wake := true, works := s.works - {r}))
  }

  function DoStop(s: State, conv: Id): Option<State> {
    if conv !in s.registry then None
    else Some(s.(registry := s.registry[conv := s.registry[conv].(stopped := true)]))
  }

  // ------------------------------------------------------------- calls

  function DoBeginSubmit(s: State, t: Thread, conv: Id, input: InputSubmission): Option<State> {
    if t in s.readers || WriteLocked(s.sched) || s.closed || conv !in s.db.conversations then None
    else Some(s.(readers := s.readers[t := Submitter(conv, input, Begun)]))
  }

  function DoEnterSubmit(s: State, t: Thread): Option<State> {
    if t !in s.readers || !(s.readers[t].Submitter? && s.readers[t].stage.Begun?) || s.readers[t].conv in s.sections then None
    else Some(s.(sections := s.sections[s.readers[t].conv := Entered(Submitting(t))]))
  }

  ghost function DoAcceptInput(s: State, t: Thread, agent: string, revision: string, newId: NewId, now: Time): Option<State> {
    if t !in s.readers || !(s.readers[t].Submitter? && s.readers[t].stage.Begun?)
       || !Inside(s, s.readers[t].conv, Submitting(t)) then None
    else
      var reader := s.readers[t];
      var addressed := Addressed(s.db, reader.conv, reader.input, agent, revision);
      var performed :=
        if addressed.None? then Refused(Invalid("input")) else AcceptTx(s.db, reader.conv, addressed.value, newId, now);
      var accepted := performed.Done? && performed.events != [];
      Some(Transact(s.(readers := s.readers[t := reader.(stage := Committed(accepted))]), reader.conv, Submitting(t), performed))
  }

  function DoNotifySubmitted(s: State, t: Thread): Option<State> {
    if t !in s.readers || !(s.readers[t].Submitter? && s.readers[t].stage.MustNotify?) then None
    else Some(s.(wake := true, readers := s.readers[t := s.readers[t].(stage := Finishing)]))
  }

  function DoEndRead(s: State, t: Thread): Option<State> {
    if t !in s.readers || Owns(s, s.readers[t].conv, Submitting(t)) || Owns(s, s.readers[t].conv, Subscribing(t))
       || (s.readers[t].Submitter? && !s.readers[t].stage.Finishing?) then None
    else Some(s.(readers := s.readers - {t}))
  }

  function DoBeginWatch(s: State, t: Thread, conv: Id, after: nat): Option<State> {
    if t in s.readers || WriteLocked(s.sched) || s.closed || conv !in s.db.conversations then None
    else Some(s.(readers := s.readers[t := Watcher(conv, after)]))
  }

  function DoEnterWatch(s: State, t: Thread): Option<State> {
    if t !in s.readers || !s.readers[t].Watcher? || s.readers[t].conv in s.sections then None
    else Some(s.(sections := s.sections[s.readers[t].conv := Entered(Subscribing(t))]))
  }

  function DoReadBacklog(s: State, t: Thread): Option<State> {
    if t !in s.readers || !s.readers[t].Watcher?
       || !Inside(s, s.readers[t].conv, Subscribing(t)) then None
    else
      var reader := s.readers[t];
      Some(s.(sections := s.sections[reader.conv := Backlog(Subscribing(t), Snapshots.EventsAfter(s.db, reader.conv, reader.after))]))
  }

  function DoAttach(s: State, t: Thread, id: Id): Option<State> {
    if t !in s.readers || !s.readers[t].Watcher? || id in s.subs
       || !(Owns(s, s.readers[t].conv, Subscribing(t)) && s.sections[s.readers[t].conv].Backlog?) then None
    else
      var reader := s.readers[t];
      Some(s.(sections := s.sections - {reader.conv},
              subs := s.subs[id := NewSubscriber(reader.conv, reader.after, s.sections[reader.conv].events)]))
  }

  function DoBeginRestore(s: State, t: Thread, workspace: Id): Option<State> {
    if t in s.restorers || s.closed || Reserve(s.db, workspace).Err? then None
    else Some(s.(db := Reserve(s.db, workspace).value, restorers := s.restorers[t := Restoring(workspace)]))
  }

  function DoReleaseRestore(s: State, t: Thread): Option<State> {
    if t !in s.restorers || !s.restorers[t].Restoring? then None
    else Some(s.(db := Release(s.db, s.restorers[t].workspace), restorers := s.restorers[t := RestoreReleased]))
  }

  function DoNotifyRestored(s: State, t: Thread): Option<State> {
    if t !in s.restorers || !s.restorers[t].RestoreReleased? then None
    else Some(s.(wake := true, restorers := s.restorers - {t}))
  }

  function DoOpen(s: State, id: Id, agent: string, workspace: Id, lock: string): Option<State> {
    if CreateConversation(s.db, id, agent, workspace, lock).Err? then None
    else Some(s.(db := CreateConversation(s.db, id, agent, workspace, lock).value))
  }

  function DoClose(s: State): Option<State> {
    Some(s.(closed := true))
  }

  // ---------------------------------------------------------- delivery

  function DoOffer(s: State, conv: Id, id: Id): Option<State> {
    if conv !in s.sections || !s.sections[conv].Broadcast? || s.sections[conv].unsent == []
       || id !in s.sections[conv].todo || id !in OpenSubs(s.subs, conv) then None
    else
      var section := s.sections[conv];
      Some(s.(subs := s.subs[id := Offered(s.subs[id], section.unsent[0])],
              sections := s.sections[conv := section.(todo := section.todo - {id})]))
  }

  function DoNextEvent(s: State, conv: Id): Option<State> {
    if conv !in s.sections || !s.sections[conv].Broadcast? || s.sections[conv].unsent == []
       || s.sections[conv].todo * OpenSubs(s.subs, conv) != {} then None
    else
      Some(s.(sections := s.sections[conv := StartBroadcast(s.subs, conv, s.sections[conv].owner, s.sections[conv].unsent[1..])]))
  }

  function DoLeave(s: State, conv: Id): Option<State> {
    if conv !in s.sections || !s.sections[conv].Broadcast? || s.sections[conv].unsent != [] then None
    else
      var owner := s.sections[conv].owner;
      var left := s.(sections := s.sections - {conv});
      if owner.Publisher? then
        if s.sched.Publishing? then Some(left.(sched := Published(s.sched.claim))) else None
      else if owner.Submitting? then Some(left.(readers := Submitted(s.readers, owner.t)))
      else Some(left)
  }

  /** Only a fresh submission is announced to the scheduler. */
  function Submitted(readers: map<Thread, Reader>, t: Thread): map<Thread, Reader> {
    if t in readers && readers[t].Submitter? && readers[t].stage.Committed? then
      readers[t := readers[t].(stage := if readers[t].stage.accepted then MustNotify else Finishing)]
    else readers
  }

  function DoReceive(s: State, id: Id): Option<State> {
    if id !in s.subs || s.subs[id].queue == [] then None
    else Some(s.(subs := s.subs[id := s.subs[id].(taken := s.subs[id].taken + [s.subs[id].queue[0]], queue := s.subs[id].queue[1..])]))
  }

  function DoDetach(s: State, id: Id): Option<State> {
    if id !in s.subs || s.subs[id].conv in s.sections then None
    else Some(s.(subs := s.subs[id := s.subs[id].(open := false)]))
  }

  function NextLoop(s: State, step: LoopStep): Option<State> {
    match step
    case Tick => DoTick(s)
    case Wake => DoWake(s)
    case Exit => DoExit(s)
    case ReserveSlot => DoReserveSlot(s)
    case LockClaims => DoLockClaims(s)
    case ClaimInterrupted => DoClaimInterrupted(s)
    case ReturnSlot => DoReturnSlot(s)
  }

  function NextPublish(s: State, step: PublishStep): Option<State> {
    match step
    case Register => DoRegister(s)
    case EnterPublish => DoEnterPublish(s)
    case UnlockClaims => DoUnlockClaims(s)
    case Launch => DoLaunch(s)
  }

  function NextEmit(s: State, step: EmitStep): Option<State> {
    match step
    case EnterEmit(r) => DoEnterEmit(s, r)
    case Emit(r, op) => DoEmit(s, r, op)
    case EmitTransient(r, e) => DoEmitTransient(s, r, e)
    case Stop(conv) => DoStop(s, conv)
  }

  function NextEnd(s: State, step: EndStep): Option<State> {
    match step
    case RunnerReturns(r) => DoRunnerReturns(s, r)
    case EnterEnd(r) => DoEnterEnd(s, r)
    case Terminate(r, outcome, ids, now) => DoTerminate(s, r, outcome, ids, now)
    case ReleaseSlot(r) => DoReleaseSlot(s, r)
    case NotifyEnded(r) => DoNotifyEnded(s, r)
  }

  ghost function NextSubmit(s: State, step: SubmitStep): Option<State> {
    match step
    case BeginSubmit(t, conv, input) => DoBeginSubmit(s, t, conv, input)
    case EnterSubmit(t) => DoEnterSubmit(s, t)
    case AcceptInput(t, agent, revision, newId, now) => DoAcceptInput(s, t, agent, revision, newId, now)
    case NotifySubmitted(t) => DoNotifySubmitted(s, t)
    case EndRead(t) => DoEndRead(s, t)
  }

  function NextWatch(s: State, step: WatchStep): Option<State> {
    match step
    case BeginWatch(t, conv, after) => DoBeginWatch(s, t, conv, after)
    case EnterWatch(t) => DoEnterWatch(s, t)
    case ReadBacklog(t) => DoReadBacklog(s, t)
    case Attach(t, id) => DoAttach(s, t, id)
  }

  function NextOwner(s: State, step: OwnerStep): Option<State> {
    match step
    case BeginRestore(t, workspace) => DoBeginRestore(s, t, workspace)
    case ReleaseRestore(t) => DoReleaseRestore(s, t)
    case NotifyRestored(t) => DoNotifyRestored(s, t)
    case Open(id, agent, workspace, lock) => DoOpen(s, id, agent, workspace, lock)
    case Close => DoClose(s)
  }

  function NextDelivery(s: State, step: DeliveryStep): Option<State> {
    match step
    case Offer(conv, id) => DoOffer(s, conv, id)
    case NextEvent(conv) => DoNextEvent(s, conv)
    case Leave(conv) => DoLeave(s, conv)
    case Receive(id) => DoReceive(s, id)
    case Detach(id) => DoDetach(s, id)
  }

  /** What a step does, or None when it cannot happen. */
  ghost function Next(s: State, step: Step): Option<State> {
    match step
    case ClaimRun(runId, now) => DoClaimRun(s, runId, now)
    case InLoop(x) => NextLoop(s, x)
    case InPublish(x) => NextPublish(s, x)
    case InEmit(x) => NextEmit(s, x)
    case InEnd(x) => NextEnd(s, x)
    case InSubmit(x) => NextSubmit(s, x)
    case InWatch(x) => NextWatch(s, x)
    case InOwner(x) => NextOwner(s, x)
    case InDelivery(x) => NextDelivery(s, x)
  }

  /** A manager just made by New over a recovered store. */
  predicate Initial(s: State) {
    && (forall r | r in s.db.rows.runs :: s.db.rows.runs[r].status != RunStatus.Running) && s.db.reservations == {}
    && s.active == 0 && s.wake && !s.closed && s.sched == Waiting
    && s.registry == map[] && s.works == map[] && s.readers == map[] && s.restorers == map[]
    && s.sections == map[] && s.subs == map[]
  }

  /** The state after the steps that can happen. */
  ghost function After(s: State, steps: seq<Step>): State
    decreases |steps|
  {
    if steps == [] then s
    else
      var before := After(s, steps[..|steps| - 1]);
      var next := Next(before, steps[|steps| - 1]);
      if next.Some? then next.value else before
  }
}
