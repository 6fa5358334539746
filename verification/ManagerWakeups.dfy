/** Slots are conserved, and no wakeup is lost. */
module ManagerWakeups {
  import opened Wrappers
  import opened Events
  import opened Store
  import opened ManagerStore
  import opened Manager
  import opened ManagerInvariant

  // --------------------------------------------------------------- slots

  ghost predicate Slots(s: State) {
    forall x | x == s :: SlotsOk(x.active, x.max, x.works, x.sched)
  }

  lemma SlotsSame(works: map<Id, Work>, works': map<Id, Work>)
    requires forall r :: (r in works && WorkHoldsSlot(works[r])) <==> (r in works' && WorkHoldsSlot(works'[r]))
    ensures |SlotWorks(works')| == |SlotWorks(works)|
  {
    assert SlotWorks(works') == SlotWorks(works);
  }

  lemma LaunchSlots(s: State, s': State)
    requires ThreadsOk(s) && Slots(s) && DoLaunch(s) == Some(s')
    ensures Slots(s')
  {
    ClaimIsNotAtWork(s);
    assert SlotsOk(s.active, s.max, s.works, s.sched);
    assert SlotWorks(s'.works) == SlotWorks(s.works) + {s.sched.claim.run.id};
  }

  lemma ClaimIsNotAtWork(s: State)
    requires ThreadsOk(s) && HasClaim(s.sched)
    ensures s.sched.claim.run.id !in s.works
  {
    assert Threads(s);
  }

  lemma ReleaseSlots(s: State, r: Id, s': State)
    requires Slots(s) && DoReleaseSlot(s, r) == Some(s')
    ensures Slots(s')
  {
    assert SlotWorks(s'.works) == SlotWorks(s.works) - {r};
  }

  lemma MovedSlots(s: State, s': State)
    requires Slots(s) && s'.works == s.works && s'.max == s.max && s'.active <= s.max
    requires s'.active - SchedSlot(s'.sched) == s.active - SchedSlot(s.sched)
    ensures Slots(s')
  {
    assert SlotsOk(s.active, s.max, s.works, s.sched);
  }

  lemma LoopSlots(s: State, step: LoopStep, s': State)
    requires Slots(s) && NextLoop(s, step) == Some(s')
    ensures Slots(s')
  {
    assert SlotsOk(s.active, s.max, s.works, s.sched);
    LoopActive(s, step, s');
    MovedSlots(s, s');
  }

  lemma LoopActive(s: State, step: LoopStep, s': State)
    requires NextLoop(s, step) == Some(s') && s.active <= s.max
    ensures s'.works == s.works && s'.max == s.max
    ensures s'.active <= s.max && s'.active - SchedSlot(s'.sched) == s.active - SchedSlot(s.sched)
  {
    LoopMoves(s, step, s');
  }

  lemma PublishSlots(s: State, step: PublishStep, s': State)
    requires ThreadsOk(s) && Slots(s) && NextPublish(s, step) == Some(s')
    ensures Slots(s')
  {
    assert SlotsOk(s.active, s.max, s.works, s.sched);
    if step.Launch? {
      LaunchSlots(s, s');
    } else {
      MovedSlots(s, s');
    }
  }

  lemma StageSlots(s: State, r: Id, s': State)
    requires Slots(s) && s'.active == s.active && s'.max == s.max && s'.sched == s.sched && r in s.works
    requires if r in s'.works then s'.works == s.works[r := s'.works[r]] else s'.works == s.works - {r}
    requires (r in s'.works && WorkHoldsSlot(s'.works[r])) <==> WorkHoldsSlot(s.works[r])
    ensures Slots(s')
  {
    SlotsSame(s.works, s'.works);
  }

  lemma EndSlots(s: State, step: EndStep, s': State)
    requires Slots(s) && NextEnd(s, step) == Some(s')
    ensures Slots(s')
  {
    match step
    case RunnerReturns(r) => ReturnedSlots(s, r, s');
    case EnterEnd(_) => StillSlots(s, s');
    case Terminate(r, outcome, ids, now) => TerminateSlots(s, r, outcome, ids, now, s');
    case ReleaseSlot(r) => ReleaseSlots(s, r, s');
    case NotifyEnded(r) => NotifyEndedSlots(s, r, s');
  }

  lemma ReturnedSlots(s: State, r: Id, s': State)
    requires Slots(s) && DoRunnerReturns(s, r) == Some(s')
    ensures Slots(s')
  {
    StageSlots(s, r, s');
  }

  lemma TransactFrame(s: State, conv: Id, owner: Owner, performed: Performed)
    ensures var s' := Transact(s, conv, owner, performed);
            s' == s.(db := s'.db, sections := s'.sections)
  {
  }

  lemma TerminateSlots(s: State, r: Id, outcome: RunOutcome, ids: nat -> NewId, now: Time, s': State)
    requires Slots(s) && DoTerminate(s, r, outcome, ids, now) == Some(s')
    ensures Slots(s')
  {
    var work := s.works[r];
    var mid := s.(works := s.works[r := work.(stage := Ended)]);
    StageSlots(s, r, mid);
    TransactFrame(mid, work.run.conv, Ender(r), TerminalTx(s.db, work.run, work.stage.stopped, outcome, ids, now));
    StillSlots(mid, s');
  }

  lemma NotifyEndedSlots(s: State, r: Id, s': State)
    requires Slots(s) && DoNotifyEnded(s, r) == Some(s')
    ensures Slots(s')
  {
    StageSlots(s, r, s');
  }

  lemma TookSlots(s: State, claiming: Claiming, s': State)
    requires Slots(s) && s.sched.Locked? && Took(s, claiming) == Some(s')
    ensures Slots(s')
  {
  }

  lemma EmitFrame(s: State, step: EmitStep, s': State)
    requires NextEmit(s, step) == Some(s')
    ensures s' == s.(db := s'.db, sections := s'.sections, registry := s'.registry)
    ensures !step.Emit? ==> s'.db == s.db
  {
    match step
    case EnterEmit(_) =>
    case Emit(r, op) => TransactFrame(s, s.works[r].run.conv, Runner(r), EmitTx(s.db, op));
    case EmitTransient(r, e) => TransientFrame(s, r, e, s');
    case Stop(conv) => StopFrame(s, conv, s');
  }

  lemma TransientFrame(s: State, r: Id, e: Event, s': State)
    requires DoEmitTransient(s, r, e) == Some(s')
    ensures s' == s.(sections := s'.sections)
  {
  }

  lemma StopFrame(s: State, conv: Id, s': State)
    requires DoStop(s, conv) == Some(s')
    ensures s' == s.(registry := s'.registry)
  {
  }

  lemma SubmitFrame(s: State, step: SubmitStep, s': State)
    requires NextSubmit(s, step) == Some(s')
    ensures s' == s.(db := s'.db, readers := s'.readers, sections := s'.sections, wake := s'.wake)
  {
    match step
    case BeginSubmit(_, _, _) =>
    case EnterSubmit(_) =>
    case AcceptInput(t, agent, revision, newId, now) => AcceptFrame(s, t, agent, revision, newId, now, s');
    case NotifySubmitted(_) =>
    case EndRead(_) =>
  }

  lemma AcceptFrame(s: State, t: Thread, agent: string, revision: string, newId: NewId, now: Time, s': State)
    requires DoAcceptInput(s, t, agent, revision, newId, now) == Some(s')
    ensures s' == s.(db := s'.db, readers := s'.readers, sections := s'.sections)
  {
  }

  lemma WatchFrame(s: State, step: WatchStep, s': State)
    requires NextWatch(s, step) == Some(s')
    ensures s' == s.(readers := s'.readers, sections := s'.sections, subs := s'.subs)
    ensures forall t | t in s.readers && s.readers[t].Submitter? :: t in s'.readers && s'.readers[t] == s.readers[t]
  {
  }

  lemma OwnerFrame(s: State, step: OwnerStep, s': State)
    requires NextOwner(s, step) == Some(s')
    ensures s' == s.(db := s'.db, restorers := s'.restorers, wake := s'.wake, closed := s'.closed)
  {
  }

  /** What delivery can change besides subscribers and mutexes. */
  ghost predicate DeliveryMove(s: State, s': State) {
    && s' == s.(subs := s'.subs, sections := s'.sections, sched := s'.sched, readers := s'.readers)
    && (s'.sched == s.sched || (s.sched.Publishing? && s'.sched == Published(s.sched.claim)))
    && (s'.readers == s.readers || exists t :: s'.readers == Submitted(s.readers, t))
  }

  lemma OfferMoves(s: State, conv: Id, id: Id, s': State)
    requires DoOffer(s, conv, id) == Some(s')
    ensures DeliveryMove(s, s')
  {
  }

  lemma NextEventMoves(s: State, conv: Id, s': State)
    requires DoNextEvent(s, conv) == Some(s')
    ensures DeliveryMove(s, s')
  {
  }

  lemma LeaveMoves(s: State, conv: Id, s': State)
    requires DoLeave(s, conv) == Some(s')
    ensures DeliveryMove(s, s')
  {
  }

  lemma ReceiveMoves(s: State, id: Id, s': State)
    requires DoReceive(s, id) == Some(s')
    ensures DeliveryMove(s, s')
  {
  }

  lemma DetachMoves(s: State, id: Id, s': State)
    requires DoDetach(s, id) == Some(s')
    ensures DeliveryMove(s, s')
  {
  }

  lemma DeliveryMoves(s: State, step: DeliveryStep, s': State)
    requires NextDelivery(s, step) == Some(s')
    ensures DeliveryMove(s, s')
  {
    match step
    case Offer(conv, id) => OfferMoves(s, conv, id, s');
    case NextEvent(conv) => NextEventMoves(s, conv, s');
    case Leave(conv) => LeaveMoves(s, conv, s');
    case Receive(id) => ReceiveMoves(s, id, s');
    case Detach(id) => DetachMoves(s, id, s');
  }

  lemma DeliverySlots(s: State, step: DeliveryStep, s': State)
    requires Slots(s) && NextDelivery(s, step) == Some(s')
    ensures Slots(s')
  {
    DeliveryMoves(s, step, s');
    assert SlotsOk(s.active, s.max, s.works, s.sched);
    MovedSlots(s, s');
  }

  /** active counts the slots held by dispatch and by the works, and never
      exceeds MaxConcurrent. */
  lemma StepSlots(s: State, step: Step, s': State)
    requires ThreadsOk(s) && Slots(s) && Next(s, step) == Some(s')
    ensures Slots(s')
  {
    match step
    case ClaimRun(runId, now) => TookSlots(s, ClaimTx(s.db, runId, now), s');
    case InLoop(x) => LoopSlots(s, x, s');
    case InPublish(x) => PublishSlots(s, x, s');
    case InEmit(x) => EmitFrame(s, x, s'); StillSlots(s, s');
    case InEnd(x) => EndSlots(s, x, s');
    case InSubmit(x) => SubmitFrame(s, x, s'); StillSlots(s, s');
    case InWatch(x) => WatchFrame(s, x, s'); StillSlots(s, s');
    case InOwner(x) => OwnerFrame(s, x, s'); StillSlots(s, s');
    case InDelivery(x) => DeliverySlots(s, x, s');
  }

  lemma StillSlots(s: State, s': State)
    requires Slots(s) && s'.works == s.works && s'.max == s.max && s'.active == s.active
    requires SchedHoldsSlot(s'.sched) == SchedHoldsSlot(s.sched)
    ensures Slots(s')
  {
    assert SlotsOk(s.active, s.max, s.works, s.sched);
  }

  // -------------------------------------------------------------- wakeups

  ghost predicate CanClaim(db: Db) {
    exists sub :: Eligible(db, sub)
  }

  predicate EndNotifies(works: map<Id, Work>) {
    exists r | r in works :: works[r].stage.Ended? || works[r].stage.SlotReleased?
  }

  predicate SubmitNotifies(readers: map<Thread, Reader>) {
    exists t | t in readers :: readers[t].Submitter? && (readers[t].stage == Committed(true) || readers[t].stage.MustNotify?)
  }

  predicate RestoreNotifies(restorers: map<Thread, Restorer>) {
    exists t | t in restorers :: restorers[t].RestoreReleased?
  }

  /** A wake token is there, or some thread is between its store step and its
      notify. */
  predicate Woken(s: State) {
    s.wake || EndNotifies(s.works) || SubmitNotifies(s.readers) || RestoreNotifies(s.restorers)
  }

  /** The scheduler gave up for want of work, or is waiting with a free slot. */
  predicate Idle(s: State) {
    !s.closed && (s.sched.NothingClaimed? || (s.sched.Waiting? && s.active < s.max))
  }

  /** No wakeup is lost. */
  ghost predicate WakeOk(s: State) {
    forall x | x == s :: (Idle(x) && CanClaim(x.db) ==> Woken(x))
  }

  lemma LoopWake(s: State, step: LoopStep, s': State)
    requires WakeOk(s) && NextLoop(s, step) == Some(s')
    ensures WakeOk(s')
  {
    LoopIdle(s, step, s');
    assert Idle(s) && CanClaim(s.db) ==> Woken(s);
  }

  lemma LoopIdle(s: State, step: LoopStep, s': State)
    requires NextLoop(s, step) == Some(s')
    ensures Idle(s') ==> Idle(s) && s'.db == s.db && s'.wake == s.wake
    ensures s'.works == s.works && s'.readers == s.readers && s'.restorers == s.restorers
  {
    LoopMoves(s, step, s');
  }

  lemma PublishWake(s: State, step: PublishStep, s': State)
    requires NextPublish(s, step) == Some(s')
    ensures WakeOk(s')
  {
    assert !Idle(s');
  }

  /** ClaimRunnable gives nothing only when nothing is eligible. */
  lemma ClaimWake(s: State, runId: NewId, now: Time, s': State)
    requires ThreadsOk(s) && DoClaimRun(s, runId, now) == Some(s')
    ensures WakeOk(s')
  {
    assert Threads(s);
    ClaimFindsAll(s.db, runId, now);
    TookWake(s, ClaimTx(s.db, runId, now), s');
  }

  lemma TookWake(s: State, claiming: Claiming, s': State)
    requires s.sched.Locked? && Took(s, claiming) == Some(s')
    requires claiming.NothingEligible? ==> !CanClaim(s.db)
    ensures WakeOk(s')
  {
    if claiming.NothingEligible? {
      assert s'.db == s.db;
    } else {
      assert s'.sched.Holding?;
    }
  }

  /** A run on its way out will notify. */
  lemma EndWake(s: State, r: Id)
    requires r in s.works && (s.works[r].stage.Ended? || s.works[r].stage.SlotReleased?)
    ensures WakeOk(s)
  {
    assert EndNotifies(s.works);
  }

  /** A step of another kind neither wakes nor needs waking. */
  lemma SameWake(s: State, s': State)
    requires WakeOk(s) && s' == s.(db := s'.db, sections := s'.sections, subs := s'.subs, registry := s'.registry, works := s'.works)
    requires NothingNew(s.db, s'.db) && (EndNotifies(s.works) ==> EndNotifies(s'.works))
    ensures WakeOk(s')
  {
  }

  lemma EmitterIsLive(s: State, r: Id)
    requires ThreadsOk(s) && r in s.works && Inside(s, s.works[r].run.conv, Runner(r))
    ensures StoreOk(s.db) && RunLive(s.db, s.works[r].run)
  {
    assert Threads(s);
    var run := s.works[r].run;
    assert SectionOk(s.sections[run.conv], run.conv, s.works, s.readers, s.sched);
    assert WorkOk(s.db, s.works, r);
  }

  lemma EmitWake(s: State, r: Id, op: Op, s': State)
    requires ThreadsOk(s) && DoEmit(s, r, op) == Some(s')
    ensures NothingNew(s.db, s'.db)
  {
    var run := s.works[r].run;
    EmitterIsLive(s, r);
    EmittedNothingNew(s.db, op, run);
    TransactFrame(s, run.conv, Runner(r), EmitTx(s.db, op));
    assert s'.db == if EmitTx(s.db, op).Done? then EmitTx(s.db, op).db else s.db;
  }

  lemma EmittedNothingNew(db: Db, op: Op, run: Run)
    requires StoreOk(db) && EmitOp(op, run) && RunLive(db, run)
    ensures NothingNew(db, db) && (EmitTx(db, op).Done? ==> NothingNew(db, EmitTx(db, op).db))
  {
    var performed := EmitTx(db, op);
    if performed.Done? {
      EmitKeeps(db, op, run, performed.db, performed.events);
    }
  }

  lemma ReturnsWake(s: State, r: Id, s': State)
    requires DoRunnerReturns(s, r) == Some(s')
    ensures EndNotifies(s.works) ==> EndNotifies(s'.works)
  {
    if EndNotifies(s.works) {
      var q :| q in s.works && (s.works[q].stage.Ended? || s.works[q].stage.SlotReleased?);
      assert q in s'.works && s'.works[q] == s.works[q];
    }
  }

  lemma EmitStepWake(s: State, step: EmitStep, s': State)
    requires ThreadsOk(s) && WakeOk(s) && NextEmit(s, step) == Some(s')
    ensures WakeOk(s')
  {
    EmitFrame(s, step, s');
    if step.Emit? {
      EmitWake(s, step.r, step.op, s');
    }
    SameWake(s, s');
  }

  lemma EndStepWake(s: State, step: EndStep, s': State)
    requires WakeOk(s) && NextEnd(s, step) == Some(s')
    ensures WakeOk(s')
  {
    match step
    case RunnerReturns(r) => ReturnsWake(s, r, s'); SameWake(s, s');
    case EnterEnd(r) => SameWake(s, s');
    case Terminate(r, _, _, _) => EndWake(s', r);
    case ReleaseSlot(r) => EndWake(s', r);
    case NotifyEnded(r) => assert s'.wake;
  }

  /** Readers that will notify still will. */
  lemma ReadersWake(s: State, s': State)
    requires WakeOk(s) && s'.db == s.db && Idle(s') == Idle(s) && s'.works == s.works && s'.restorers == s.restorers
    requires s'.wake || (s.wake == s'.wake && (SubmitNotifies(s.readers) ==> SubmitNotifies(s'.readers)))
    ensures WakeOk(s')
  {
    assert Idle(s) && CanClaim(s.db) ==> Woken(s);
  }

  lemma OtherReadersNotify(readers: map<Thread, Reader>, readers': map<Thread, Reader>, t: Thread)
    requires t in readers && readers[t].Submitter? ==> !(readers[t].stage == Committed(true) || readers[t].stage.MustNotify?)
    requires forall u | u in readers && u != t :: u in readers' && readers'[u] == readers[u]
    ensures SubmitNotifies(readers) ==> SubmitNotifies(readers')
  {
  }

  lemma SubmitWake(s: State, step: SubmitStep, s': State)
    requires ThreadsOk(s) && WakeOk(s) && NextSubmit(s, step) == Some(s')
    ensures WakeOk(s')
  {
    match step
    case AcceptInput(t, agent, revision, newId, now) =>
      var performed := AcceptInputStore(s, t, agent, revision, newId, now, s');
      AcceptWake(s, t, performed, s');
    case NotifySubmitted(t) => ReadersWake(s, s');
    case EnterSubmit(t) => ReadersWake(s, s');
    case BeginSubmit(t, _, _) => OtherReadersNotify(s.readers, s'.readers, t); ReadersWake(s, s');
    case EndRead(t) => OtherReadersNotify(s.readers, s'.readers, t); ReadersWake(s, s');
  }

  lemma WatchWake(s: State, step: WatchStep, s': State)
    requires WakeOk(s) && NextWatch(s, step) == Some(s')
    ensures WakeOk(s')
  {
    WatchFrame(s, step, s');
    ReadersWake(s, s');
  }

  lemma AcceptWake(s: State, t: Thread, performed: Performed, s': State)
    requires ThreadsOk(s) && WakeOk(s) && AcceptedBy(s, t, performed, s') && AcceptedStore(s.db, s.readers[t].conv, performed)
    ensures WakeOk(s')
  {
    if performed.Done? && performed.events != [] {
      assert s'.readers[t].stage == Committed(true);
      assert SubmitNotifies(s'.readers);
    } else {
      OtherReadersNotify(s.readers, s'.readers, t);
      ReadersWake(s, s');
    }
  }

  lemma OwnerWakes(s: State, step: OwnerStep, s': State)
    requires NextOwner(s, step) == Some(s')
    ensures Woken(s) || step.ReleaseRestore? ==> Woken(s')
  {
    if step.ReleaseRestore? {
      assert s'.restorers[step.t].RestoreReleased?;
    } else if RestoreNotifies(s.restorers) {
      var t :| t in s.restorers && s.restorers[t].RestoreReleased?;
      assert !step.NotifyRestored? ==> t in s'.restorers && s'.restorers[t] == s.restorers[t];
    }
  }

  lemma OwnerWake(s: State, step: OwnerStep, s': State)
    requires ThreadsOk(s) && WakeOk(s) && NextOwner(s, step) == Some(s')
    ensures WakeOk(s')
  {
    assert Threads(s);
    OwnerWakes(s, step, s');
    OwnerFrame(s, step, s');
    if step.BeginRestore? {
      ReserveKeeps(s.db, step.workspace, s'.db);
    } else if step.Open? {
      OpenKeeps(s.db, step.id, step.agent, step.workspace, step.lock, s'.db);
    }
  }

  lemma DeliveryWake(s: State, step: DeliveryStep, s': State)
    requires WakeOk(s) && NextDelivery(s, step) == Some(s')
    ensures WakeOk(s')
  {
    DeliveryIdle(s, step, s');
    LeaveNotifies(s, step, s');
    ReadersWake(s, s');
  }

  lemma DeliveryIdle(s: State, step: DeliveryStep, s': State)
    requires NextDelivery(s, step) == Some(s')
    ensures s'.db == s.db && Idle(s') == Idle(s) && s'.works == s.works && s'.restorers == s.restorers && s'.wake == s.wake
  {
    DeliveryMoves(s, step, s');
  }

  lemma LeaveNotifies(s: State, step: DeliveryStep, s': State)
    requires NextDelivery(s, step) == Some(s')
    ensures SubmitNotifies(s.readers) ==> SubmitNotifies(s'.readers)
  {
    DeliveryMoves(s, step, s');
    if SubmitNotifies(s.readers) {
      var t :| t in s.readers && s.readers[t].Submitter? && (s.readers[t].stage == Committed(true) || s.readers[t].stage.MustNotify?);
      assert t in s'.readers && s'.readers[t].Submitter? && (s'.readers[t].stage == Committed(true) || s'.readers[t].stage.MustNotify?);
    }
  }

  /** Every step keeps the wakeup property. */
  lemma StepWake(s: State, step: Step, s': State)
    requires ThreadsOk(s) && WakeOk(s) && Next(s, step) == Some(s')
    ensures WakeOk(s')
  {
    match step
    case ClaimRun(runId, now) => ClaimWake(s, runId, now, s');
    case InLoop(x) => LoopWake(s, x, s');
    case InPublish(x) => PublishWake(s, x, s');
    case InEmit(x) => EmitStepWake(s, x, s');
    case InEnd(x) => EndStepWake(s, x, s');
    case InSubmit(x) => SubmitWake(s, x, s');
    case InWatch(x) => WatchWake(s, x, s');
    case InOwner(x) => OwnerWake(s, x, s');
    case InDelivery(x) => DeliveryWake(s, x, s');
  }
}
