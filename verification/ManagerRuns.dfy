/** Every run of the manager: nothing is lost on the way to a subscriber, no
    wakeup is lost, slots are conserved, and the log still rebuilds the
    tables. */
module ManagerRuns {
  import opened Wrappers
  import opened Events
  import opened Store
  import opened StoreSteps
  import opened RebuildTheorems
  import opened Snapshots
  import opened ManagerStore
  import opened Manager
  import opened ManagerInvariant
  import opened ManagerWakeups
  import opened ManagerDelivery
  import Projection
  import PT = ProjectionTheorems

  // --------------------------------------------------------------- frames

  ghost predicate SameOwed(s: State, s': State) {
    forall c, i :: Owed(s', c, i) == Owed(s, c, i)
  }

  ghost predicate SameWatchers(readers: map<Thread, Reader>, readers': map<Thread, Reader>) {
    forall t :: (t in readers && readers[t].Watcher? <==> t in readers' && readers'[t].Watcher?)
                && (t in readers && readers[t].Watcher? ==> t in readers' && readers'[t] == readers[t])
  }

  lemma KeepServed(s: State, s': State)
    requires DeliveryOk(s) && s'.db.log == s.db.log && s'.subs == s.subs && SameOwed(s, s')
    ensures AllServed(s')
  {
    assert AllServed(s);
    forall i | i in s'.subs
      ensures Served(s', i)
    {
      assert Served(s, i);
      assert LogOf(s'.db, s.subs[i].conv) == LogOf(s.db, s.subs[i].conv);
      assert Owed(s', s.subs[i].conv, i) == Owed(s, s.subs[i].conv, i);
    }
  }

  lemma KeepBacklogs(s: State, s': State)
    requires DeliveryOk(s) && s'.db.log == s.db.log && SameWatchers(s.readers, s'.readers)
    requires forall c | c in s'.sections && s'.sections[c].Backlog? :: c in s.sections && s'.sections[c] == s.sections[c]
    ensures BacklogsOk(s')
  {
    assert BacklogsOk(s);
    forall c | c in s'.sections
      ensures BacklogOk(s', c)
    {
      if s'.sections[c].Backlog? {
        assert BacklogOk(s, c);
        if s'.sections[c].owner.Subscribing? && s'.sections[c].owner.t in s'.readers && s'.readers[s'.sections[c].owner.t].Watcher? {
          assert LogOf(s'.db, s'.readers[s'.sections[c].owner.t].conv) == LogOf(s.db, s'.readers[s'.sections[c].owner.t].conv);
          assert LogOf(s'.db, c) == LogOf(s.db, c);
        }
      }
    }
  }

  /** A step that neither logs nor sends. */
  lemma KeepDelivery(s: State, s': State)
    requires DeliveryOk(s) && s'.db.log == s.db.log && s'.subs == s.subs && SameOwed(s, s') && SameWatchers(s.readers, s'.readers)
    requires forall c | c in s'.sections && s'.sections[c].Backlog? :: c in s.sections && s'.sections[c] == s.sections[c]
    ensures DeliveryOk(s')
  {
    KeepServed(s, s');
    KeepBacklogs(s, s');
  }

  /** One section changes, and still owes the same. */
  ghost predicate SameDebt(s: State, s': State, conv: Id) {
    true == (
      && s'.sched == s.sched && s'.subs == s.subs && s'.db.log == s.db.log
      && (forall c | c != conv :: c in s'.sections <==> c in s.sections)
      && (forall c | c != conv && c in s.sections :: s'.sections[c] == s.sections[c])
      && (forall i :: UnsentTo(s'.sections, conv, i) == UnsentTo(s.sections, conv, i))
      && (conv in s'.sections ==> !s'.sections[conv].Backlog?))
  }

  lemma KeepDebt(s: State, s': State, conv: Id)
    requires DeliveryOk(s) && SameDebt(s, s', conv) && SameWatchers(s.readers, s'.readers)
    ensures DeliveryOk(s')
  {
    forall c, i
      ensures Owed(s', c, i) == Owed(s, c, i)
    {
      assert c != conv ==> UnsentTo(s'.sections, c, i) == UnsentTo(s.sections, c, i);
    }
    KeepDelivery(s, s');
  }

  // --------------------------------------------------------- transactions

  /** A transaction inside the mutex of `conv` that published `events`. */
  ghost predicate Transacted(s: State, s': State, conv: Id, owner: Owner, events: seq<Event>) {
    true == (
      && conv in s.sections && s.sections[conv].Entered?
      && s'.sections == s.sections[conv := StartBroadcast(s.subs, conv, owner, events)]
      && s'.subs == s.subs && s'.sched == s.sched && PendingClaim(s.sched, conv) == []
      && StoreOk(s'.db) && Publishes(s.db, s'.db, conv, events))
  }

  lemma TransactedOwes(s: State, s': State, conv: Id, owner: Owner, events: seq<Event>, i: Id)
    requires Transacted(s, s', conv, owner, events) && i in s.subs
    ensures Owed(s, conv, i) == []
    ensures s.subs[i].open && s.subs[i].conv == conv ==> Owed(s', conv, i) == events
    ensures s.subs[i].conv != conv ==> Owed(s', s.subs[i].conv, i) == Owed(s, s.subs[i].conv, i)
  {
    assert events + [] == events;
  }

  lemma TransactedServes(s: State, s': State, conv: Id, owner: Owner, events: seq<Event>, i: Id)
    requires DeliveryOk(s) && Transacted(s, s', conv, owner, events) && i in s.subs
    ensures Served(s', i)
  {
    assert AllServed(s) && Served(s, i);
    TransactedOwes(s, s', conv, owner, events, i);
    if s.subs[i].conv == conv {
      TransactedGrows(s, s', conv, owner, events, i);
    }
  }

  lemma TransactedGrows(s: State, s': State, conv: Id, owner: Owner, events: seq<Event>, i: Id)
    requires Transacted(s, s', conv, owner, events) && i in s.subs && s.subs[i].conv == conv
    requires SubOk(s.subs[i], [], PublicOf(LogOf(s.db, conv)))
    ensures SubOk(s.subs[i], events, PublicOf(LogOf(s'.db, conv)))
  {
    LogAscends(s'.db, conv);
    GrowKeeps(s.subs[i], [], PublicOf(LogOf(s.db, conv)), events);
    assert [] + events == events;
  }

  lemma TransactedBacklogs(s: State, s': State, conv: Id, owner: Owner, events: seq<Event>)
    requires DeliveryOk(s) && Transacted(s, s', conv, owner, events) && SameWatchers(s.readers, s'.readers)
    ensures BacklogsOk(s')
  {
    assert BacklogsOk(s);
    forall c | c in s'.sections
      ensures BacklogOk(s', c)
    {
      if c != conv {
        assert BacklogOk(s, c);
      }
    }
  }

  lemma TransactedKeeps(s: State, s': State, conv: Id, owner: Owner, events: seq<Event>)
    requires DeliveryOk(s) && Transacted(s, s', conv, owner, events) && SameWatchers(s.readers, s'.readers)
    ensures DeliveryOk(s')
  {
    forall i | i in s'.subs
      ensures Served(s', i)
    {
      TransactedServes(s, s', conv, owner, events, i);
    }
    TransactedBacklogs(s, s', conv, owner, events);
  }

  /** While a run of the conversation is live, dispatch has no claim of that
      conversation to publish: the store's exclusion. */
  lemma NoPendingForRun(s: State, r: Id)
    requires ThreadsOk(s) && r in s.works && RunLive(s.db, s.works[r].run)
    ensures PendingClaim(s.sched, s.works[r].run.conv) == [] && s.works[r].run.conv in s.db.conversations
  {
    assert Threads(s);
    assert WorkOk(s.db, s.works, r);
    RunFacts(s.db, s.works[r].run);
    if HasClaim(s.sched) {
      RunningApart(s.db, r, s.sched.claim.run.id);
    }
  }

  lemma NoPendingForReader(s: State, t: Thread)
    requires ThreadsOk(s) && t in s.readers
    ensures PendingClaim(s.sched, s.readers[t].conv) == [] && s.readers[t].conv in s.db.conversations
  {
    NoReaderWhileLocked(s, t);
  }

  lemma EmitStore(s: State, r: Id, op: Op, s': State) returns (performed: Performed)
    requires ThreadsOk(s) && DoEmit(s, r, op) == Some(s')
    ensures s' == Transact(s, s.works[r].run.conv, Runner(r), performed) && Inside(s, s.works[r].run.conv, Runner(r))
    ensures PendingClaim(s.sched, s.works[r].run.conv) == []
    ensures performed.Done? ==> StoreOk(performed.db) && Publishes(s.db, performed.db, s.works[r].run.conv, performed.events)
    ensures performed.Refused? ==> StoreOk(s.db) && Publishes(s.db, s.db, s.works[r].run.conv, [])
  {
    assert Threads(s);
    var run := s.works[r].run;
    assert SectionOk(s.sections[run.conv], run.conv, s.works, s.readers, s.sched);
    assert WorkOk(s.db, s.works, r);
    NoPendingForRun(s, r);
    performed := EmitTx(s.db, op);
    if performed.Done? {
      EmitKeeps(s.db, op, run, performed.db, performed.events);
    }
    NothingPublished(s.db, run.conv);
  }

  lemma EmitDelivery(s: State, r: Id, op: Op, s': State)
    requires ThreadsOk(s) && DeliveryOk(s) && DoEmit(s, r, op) == Some(s')
    ensures DeliveryOk(s')
  {
    var performed := EmitStore(s, r, op, s');
    TransactKeeps(s, s.works[r].run.conv, Runner(r), performed);
  }

  lemma TransactKeeps(s: State, conv: Id, owner: Owner, performed: Performed)
    requires DeliveryOk(s) && Inside(s, conv, owner) && PendingClaim(s.sched, conv) == []
    requires performed.Done? ==> StoreOk(performed.db) && Publishes(s.db, performed.db, conv, performed.events)
    requires performed.Refused? ==> StoreOk(s.db) && Publishes(s.db, s.db, conv, [])
    ensures DeliveryOk(Transact(s, conv, owner, performed))
  {
    TransactedKeeps(s, Transact(s, conv, owner, performed), conv, owner, if performed.Done? then performed.events else []);
  }

  lemma TerminateDelivery(s: State, r: Id, performed: Performed, s': State)
    requires ThreadsOk(s) && DeliveryOk(s) && Terminated(s, r, performed, s') && RunLive(s.db, s.works[r].run)
    requires performed.Done? ==>
               && StoreOk(performed.db) && RunsStay(s.db, performed.db, r)
               && Publishes(s.db, performed.db, s.works[r].run.conv, performed.events)
    ensures DeliveryOk(s')
  {
    var conv := s.works[r].run.conv;
    NoPendingForRun(s, r);
    if performed.Done? {
      TransactedKeeps(s, s', conv, Ender(r), performed.events);
    } else {
      assert Threads(s);
      NothingPublished(s.db, conv);
      TransactedKeeps(s, s', conv, Ender(r), []);
    }
  }

  lemma AcceptDelivery(s: State, t: Thread, performed: Performed, s': State)
    requires ThreadsOk(s) && DeliveryOk(s) && AcceptedBy(s, t, performed, s') && AcceptedStore(s.db, s.readers[t].conv, performed)
    ensures DeliveryOk(s')
  {
    var conv := s.readers[t].conv;
    NoPendingForReader(s, t);
    if performed.Done? {
      TransactedKeeps(s, s', conv, Submitting(t), performed.events);
    } else {
      assert Threads(s);
      NothingPublished(s.db, conv);
      TransactedKeeps(s, s', conv, Submitting(t), []);
    }
  }

  // --------------------------------------------------------------- claims

  /** A claim's events join what is owed, behind a broadcast still under way. */
  lemma TakenServes(s: State, runId: NewId, now: Time, db': Db, claim: Claimed, i: Id)
    requires ThreadsOk(s) && DeliveryOk(s) && s.sched.Locked? && runId !in s.db.rows.runs && i in s.subs
    requires ClaimTx(s.db, runId, now) == Taken(db', claim)
    ensures Served(s.(db := db', sched := Holding(claim)), i)
  {
    assert Threads(s) && AllServed(s) && Served(s, i);
    ClaimKeeps(s.db, runId, now, db', claim);
    var s' := s.(db := db', sched := Holding(claim));
    var c := s.subs[i].conv;
    var unsent := UnsentTo(s.sections, c, i);
    TakenOwes(s, claim, db', c, i);
    if c == claim.run.conv {
      LogAscends(db', c);
      GrowKeeps(s.subs[i], unsent, PublicOf(LogOf(s.db, c)), claim.events);
    }
  }

  lemma TakenOwes(s: State, claim: Claimed, db': Db, c: Id, i: Id)
    requires s.sched.Locked?
    ensures Owed(s, c, i) == UnsentTo(s.sections, c, i)
    ensures Owed(s.(db := db', sched := Holding(claim)), c, i)
         == UnsentTo(s.sections, c, i) + (if c == claim.run.conv then claim.events else [])
    ensures c != claim.run.conv ==> Owed(s.(db := db', sched := Holding(claim)), c, i) == UnsentTo(s.sections, c, i)
  {
    var unsent := UnsentTo(s.sections, c, i);
    assert unsent + [] == unsent;
  }

  /** No backlog is being read while claimPublication is held for writing. */
  lemma NoBacklogWhileLocked(s: State, c: Id)
    requires ThreadsOk(s) && WriteLocked(s.sched) && c in s.sections
    ensures !s.sections[c].Backlog?
  {
    assert Threads(s);
    assert SectionOk(s.sections[c], c, s.works, s.readers, s.sched);
  }

  lemma TakenKeeps(s: State, runId: NewId, now: Time, db': Db, claim: Claimed)
    requires ThreadsOk(s) && DeliveryOk(s) && s.sched.Locked? && runId !in s.db.rows.runs
    requires ClaimTx(s.db, runId, now) == Taken(db', claim)
    ensures DeliveryOk(s.(db := db', sched := Holding(claim)))
  {
    var s' := s.(db := db', sched := Holding(claim));
    forall i | i in s'.subs
      ensures Served(s', i)
    {
      TakenServes(s, runId, now, db', claim, i);
    }
    forall c | c in s'.sections
      ensures BacklogOk(s', c)
    {
      NoBacklogWhileLocked(s, c);
    }
  }

  lemma TookKeeps(s: State, claiming: Claiming, s': State)
    requires DeliveryOk(s) && s.sched.Locked? && Took(s, claiming) == Some(s')
    requires claiming.Taken? ==> DeliveryOk(s.(db := claiming.db, sched := Holding(claiming.claim)))
    ensures DeliveryOk(s')
  {
    if claiming.NothingEligible? {
      assert SameOwed(s, s');
      KeepDelivery(s, s');
    }
  }

  lemma ClaimDelivery(s: State, runId: NewId, now: Time, s': State)
    requires ThreadsOk(s) && DeliveryOk(s) && DoClaimRun(s, runId, now) == Some(s')
    ensures DeliveryOk(s')
  {
    var claiming := ClaimTx(s.db, runId, now);
    if claiming.Taken? {
      TakenKeeps(s, runId, now, claiming.db, claiming.claim);
    }
    TookKeeps(s, claiming, s');
  }

  lemma PublishDelivery(s: State, step: PublishStep, s': State)
    requires DeliveryOk(s) && NextPublish(s, step) == Some(s')
    ensures DeliveryOk(s')
  {
    if step.EnterPublish? {
      EnterPublishServes(s, s');
      KeepBacklogs(s, s');
    } else {
      PublishOwes(s, step, s');
      KeepDelivery(s, s');
    }
  }

  lemma PublishOwes(s: State, step: PublishStep, s': State)
    requires NextPublish(s, step) == Some(s') && !step.EnterPublish?
    ensures SameOwed(s, s') && s'.db == s.db && s'.subs == s.subs && s'.sections == s.sections && s'.readers == s.readers
  {
  }

  lemma EnterPublishServes(s: State, s': State)
    requires DeliveryOk(s) && DoEnterPublish(s) == Some(s')
    ensures AllServed(s')
  {
    assert AllServed(s);
    forall i | i in s'.subs
      ensures Served(s', i)
    {
      assert Served(s, i);
      EnterPublishOwes(s, s', i);
    }
  }

  lemma EnterPublishOwes(s: State, s': State, i: Id)
    requires DoEnterPublish(s) == Some(s') && i in s.subs
    ensures s.subs[i].open || s.subs[i].conv != s.sched.claim.run.conv ==> Owed(s', s.subs[i].conv, i) == Owed(s, s.subs[i].conv, i)
    ensures s'.subs == s.subs && s'.db == s.db
  {
    var events := s.sched.claim.events;
    assert [] + events == events && events + [] == events;
  }

  lemma LoopDelivery(s: State, step: LoopStep, s': State)
    requires DeliveryOk(s) && NextLoop(s, step) == Some(s')
    ensures DeliveryOk(s')
  {
    LoopMoves(s, step, s');
    PlainDelivery(s, s');
  }

  lemma PlainDelivery(s: State, s': State)
    requires DeliveryOk(s) && PlainMove(s, s')
    ensures DeliveryOk(s')
  {
    assert SameOwed(s, s');
    KeepDelivery(s, s');
  }

  // ----------------------------------------------------- the other threads

  lemma EmitStepDelivery(s: State, step: EmitStep, s': State)
    requires ThreadsOk(s) && DeliveryOk(s) && NextEmit(s, step) == Some(s')
    ensures DeliveryOk(s')
  {
    match step
    case EnterEmit(r) => KeepDebt(s, s', s.works[r].run.conv);
    case Emit(r, op) => EmitDelivery(s, r, op, s');
    case EmitTransient(r, e) => TransientDelivery(s, r, e, s');
    case Stop(_) => OutsideDelivery(s, s');
  }

  /** A live event has no cursor and takes no part in the durable order. */
  lemma TransientDelivery(s: State, r: Id, e: Event, s': State)
    requires DeliveryOk(s) && DoEmitTransient(s, r, e) == Some(s')
    ensures DeliveryOk(s')
  {
    assert AllServed(s);
    var conv := s.works[r].run.conv;
    forall i | i in s'.subs
      ensures Served(s', i)
    {
      assert Served(s, i);
      TransientServes(s, s', conv, e, i);
    }
    KeepBacklogs(s, s');
  }

  lemma TransientServes(s: State, s': State, conv: Id, e: Event, i: Id)
    requires i in s.subs && Served(s, i) && conv in s.sections && s.sections[conv].Entered? && e.cursor == 0
    requires s'.sections == s.sections[conv := StartBroadcast(s.subs, conv, s.sections[conv].owner, [e])]
    requires s'.subs == s.subs && s'.sched == s.sched && s'.db == s.db
    ensures Served(s', i)
  {
    var c := s.subs[i].conv;
    if c == conv {
      var pending := PendingClaim(s.sched, c);
      assert Owed(s, c, i) == [] + pending;
      assert s.subs[i].open ==> Owed(s', c, i) == [e] + pending;
      assert [e][..0] == [];
      assert Durable([e]) == [];
      DurableAppend([e], pending);
      DurableAppend([], pending);
    } else {
      assert Owed(s', c, i) == Owed(s, c, i);
    }
  }

  lemma EndDelivery(s: State, step: EndStep, s': State)
    requires ThreadsOk(s) && DeliveryOk(s) && NextEnd(s, step) == Some(s')
    ensures DeliveryOk(s')
  {
    match step
    case RunnerReturns(r) => OutsideDelivery(s, s');
    case EnterEnd(r) => KeepDebt(s, s', s.works[r].run.conv);
    case Terminate(r, outcome, ids, now) =>
      var performed := TerminateFindsRunning(s, r, outcome, ids, now);
      TerminateDelivery(s, r, performed, s');
    case ReleaseSlot(r) => OutsideDelivery(s, s');
    case NotifyEnded(r) => OutsideDelivery(s, s');
  }

  /** A step outside the mutexes and the channels. */
  lemma OutsideDelivery(s: State, s': State)
    requires DeliveryOk(s) && s'.db.log == s.db.log && s'.subs == s.subs && s'.sections == s.sections && s'.sched == s.sched
    requires SameWatchers(s.readers, s'.readers)
    ensures DeliveryOk(s')
  {
    assert SameOwed(s, s');
    KeepDelivery(s, s');
  }

  lemma SubmitDelivery(s: State, step: SubmitStep, s': State)
    requires ThreadsOk(s) && DeliveryOk(s) && NextSubmit(s, step) == Some(s')
    ensures DeliveryOk(s')
  {
    match step
    case BeginSubmit(t, _, _) => OutsideDelivery(s, s');
    case EnterSubmit(t) => KeepDebt(s, s', s.readers[t].conv);
    case AcceptInput(t, agent, revision, newId, now) =>
      var performed := AcceptInputStore(s, t, agent, revision, newId, now, s');
      AcceptDelivery(s, t, performed, s');
    case NotifySubmitted(t) => OutsideDelivery(s, s');
    case EndRead(t) => EndReadDelivery(s, t, s');
  }

  lemma EndReadDelivery(s: State, t: Thread, s': State)
    requires ThreadsOk(s) && DeliveryOk(s) && DoEndRead(s, t) == Some(s')
    ensures DeliveryOk(s')
  {
    assert SameOwed(s, s');
    KeepServed(s, s');
    assert BacklogsOk(s);
    forall c | c in s'.sections
      ensures BacklogOk(s', c)
    {
      assert BacklogOk(s, c);
    }
  }

  lemma BeginWatchDelivery(s: State, t: Thread, conv: Id, after: nat, s': State)
    requires ThreadsOk(s) && DeliveryOk(s) && DoBeginWatch(s, t, conv, after) == Some(s')
    ensures DeliveryOk(s')
  {
    NewReaderOwnsNothing(s, t);
    assert SameOwed(s, s');
    KeepServed(s, s');
    assert BacklogsOk(s);
    forall c | c in s'.sections
      ensures BacklogOk(s', c)
    {
      assert BacklogOk(s, c);
    }
  }

  lemma ReadBacklogDelivery(s: State, t: Thread, s': State)
    requires DeliveryOk(s) && DoReadBacklog(s, t) == Some(s')
    ensures DeliveryOk(s')
  {
    forall c, i
      ensures Owed(s', c, i) == Owed(s, c, i)
    {
      assert UnsentTo(s'.sections, c, i) == UnsentTo(s.sections, c, i);
    }
    KeepServed(s, s');
    assert BacklogsOk(s);
    forall c | c in s'.sections
      ensures BacklogOk(s', c)
    {
      assert c != s.readers[t].conv ==> BacklogOk(s, c);
    }
  }

  /** Catching up and registering: the backlog read under the mutex is still
      the whole backlog when the subscriber is registered. */
  lemma AttachDelivery(s: State, t: Thread, id: Id, s': State)
    requires ThreadsOk(s) && DeliveryOk(s) && DoAttach(s, t, id) == Some(s')
    ensures DeliveryOk(s')
  {
    var conv := s.readers[t].conv;
    NoPendingForReader(s, t);
    AttachServes(s, t, id, s');
    assert BacklogsOk(s);
    forall c | c in s'.sections
      ensures BacklogOk(s', c)
    {
      assert BacklogOk(s, c);
    }
  }

  lemma AttachServes(s: State, t: Thread, id: Id, s': State)
    requires ThreadsOk(s) && DeliveryOk(s) && DoAttach(s, t, id) == Some(s') && PendingClaim(s.sched, s.readers[t].conv) == []
    ensures AllServed(s')
  {
    assert AllServed(s) && BacklogsOk(s);
    var conv := s.readers[t].conv;
    assert BacklogOk(s, conv);
    assert StoreOk(s.db) by { assert Threads(s); }
    LogAscends(s.db, conv);
    AttachKeeps(conv, s.readers[t].after, PublicOf(LogOf(s.db, conv)));
    forall i | i in s'.subs
      ensures Served(s', i)
    {
      if i == id {
        assert Owed(s', conv, id) == [] + PendingClaim(s.sched, conv);
      } else {
        assert Served(s, i);
        assert Owed(s', s.subs[i].conv, i) == Owed(s, s.subs[i].conv, i);
      }
    }
  }

  lemma WatchDelivery(s: State, step: WatchStep, s': State)
    requires ThreadsOk(s) && DeliveryOk(s) && NextWatch(s, step) == Some(s')
    ensures DeliveryOk(s')
  {
    match step
    case BeginWatch(t, conv, after) => BeginWatchDelivery(s, t, conv, after, s');
    case EnterWatch(t) => KeepDebt(s, s', s.readers[t].conv);
    case ReadBacklog(t) => ReadBacklogDelivery(s, t, s');
    case Attach(t, id) => AttachDelivery(s, t, id, s');
  }

  lemma OwnerDelivery(s: State, step: OwnerStep, s': State)
    requires DeliveryOk(s) && NextOwner(s, step) == Some(s')
    ensures DeliveryOk(s')
  {
    OwnerFrame(s, step, s');
    assert s'.db.log == s.db.log;
    OutsideDelivery(s, s');
  }

  // ------------------------------------------------------------ broadcast

  lemma OfferDelivery(s: State, conv: Id, id: Id, s': State)
    requires ThreadsOk(s) && DeliveryOk(s) && DoOffer(s, conv, id) == Some(s')
    ensures DeliveryOk(s')
  {
    OfferServes(s, conv, id, s');
    OfferOthers(s, conv, id, s');
    KeepBacklogs(s, s');
  }

  lemma OfferShape(s: State, conv: Id, id: Id, s': State)
    requires DoOffer(s, conv, id) == Some(s')
    ensures conv in s.sections && s.sections[conv].Broadcast? && s.sections[conv].unsent != [] && id in s.sections[conv].todo
    ensures id in s.subs && s.subs[id].open && s.subs[id].conv == conv
    ensures s' == s.(subs := s.subs[id := Offered(s.subs[id], s.sections[conv].unsent[0])],
                     sections := s.sections[conv := s.sections[conv].(todo := s.sections[conv].todo - {id})])
  {
  }

  /** Offering an event to one subscriber changes what that one is owed. */
  lemma OfferOwes(s: State, conv: Id, id: Id, s': State, c: Id, i: Id)
    requires DoOffer(s, conv, id) == Some(s')
    ensures c != conv || i != id ==> Owed(s', c, i) == Owed(s, c, i)
    ensures Owed(s, conv, id) != [] && Owed(s, conv, id)[0] == s.sections[conv].unsent[0]
    ensures Owed(s', conv, id) == Owed(s, conv, id)[1..]
  {
    OfferShape(s, conv, id, s');
    var unsent, pending := s.sections[conv].unsent, PendingClaim(s.sched, conv);
    assert (unsent + pending)[1..] == unsent[1..] + pending;
  }

  lemma OfferOthers(s: State, conv: Id, id: Id, s': State)
    requires DeliveryOk(s) && DoOffer(s, conv, id) == Some(s') && Served(s', id)
    ensures AllServed(s')
  {
    assert AllServed(s);
    OfferShape(s, conv, id, s');
    forall i | i in s'.subs
      ensures Served(s', i)
    {
      if i != id {
        assert Served(s, i);
        OfferOwes(s, conv, id, s', s.subs[i].conv, i);
      }
    }
  }

  lemma IsServed(s: State, i: Id)
    requires DeliveryOk(s) && i in s.subs
    ensures Served(s, i)
  {
    assert AllServed(s);
  }

  lemma StoreIsOk(s: State)
    requires ThreadsOk(s)
    ensures StoreOk(s.db)
  {
    assert Threads(s);
  }

  lemma OfferServes(s: State, conv: Id, id: Id, s': State)
    requires ThreadsOk(s) && DeliveryOk(s) && DoOffer(s, conv, id) == Some(s')
    ensures id in s'.subs && Served(s', id)
  {
    OfferShape(s, conv, id, s');
    IsServed(s, id);
    StoreIsOk(s);
    LogAscends(s.db, conv);
    OfferOwes(s, conv, id, s', conv, id);
    OfferKeeps(s.subs[id], Owed(s, conv, id), PublicOf(LogOf(s.db, conv)));
    assert s'.subs[id].conv == conv;
  }

  lemma NextEventDelivery(s: State, conv: Id, s': State)
    requires DeliveryOk(s) && DoNextEvent(s, conv) == Some(s')
    ensures DeliveryOk(s')
  {
    assert AllServed(s);
    forall i | i in s'.subs
      ensures Served(s', i)
    {
      assert Served(s, i);
      assert i !in s.sections[conv].todo * OpenSubs(s.subs, conv);
      assert s.subs[i].conv != conv || s.subs[i].open ==> Owed(s', s.subs[i].conv, i) == Owed(s, s.subs[i].conv, i);
    }
    KeepBacklogs(s, s');
  }

  lemma LeaveShape(s: State, conv: Id, s': State)
    requires DoLeave(s, conv) == Some(s')
    ensures s' == s.(sections := s.sections - {conv}, sched := s'.sched, readers := s'.readers)
    ensures s'.sched == s.sched || (s.sched.Publishing? && s'.sched.Published?)
  {
  }

  lemma LeaveWatchers(s: State, conv: Id, s': State)
    requires DoLeave(s, conv) == Some(s')
    ensures SameWatchers(s.readers, s'.readers)
  {
  }

  lemma LeaveDelivery(s: State, conv: Id, s': State)
    requires DeliveryOk(s) && DoLeave(s, conv) == Some(s')
    ensures DeliveryOk(s')
  {
    LeaveShape(s, conv, s');
    LeaveWatchers(s, conv, s');
    forall c, i
      ensures Owed(s', c, i) == Owed(s, c, i)
    {
      assert UnsentTo(s'.sections, c, i) == UnsentTo(s.sections, c, i);
    }
    KeepDelivery(s, s');
  }

  lemma ReceiveDelivery(s: State, id: Id, s': State)
    requires DeliveryOk(s) && DoReceive(s, id) == Some(s')
    ensures DeliveryOk(s')
  {
    assert AllServed(s) && Served(s, id);
    ReceiveKeeps(s.subs[id], Owed(s, s.subs[id].conv, id), PublicOf(LogOf(s.db, s.subs[id].conv)));
    OneSubDelivery(s, id, s');
  }

  lemma OneSubDelivery(s: State, id: Id, s': State)
    requires DeliveryOk(s) && id in s.subs && id in s'.subs && s' == s.(subs := s.subs[id := s'.subs[id]]) && s'.subs[id].conv == s.subs[id].conv
    requires SubOk(s'.subs[id], Owed(s, s.subs[id].conv, id), PublicOf(LogOf(s.db, s.subs[id].conv)))
    ensures DeliveryOk(s')
  {
    assert AllServed(s);
    forall i | i in s'.subs
      ensures Served(s', i)
    {
      assert Served(s, i);
      assert Owed(s', s.subs[i].conv, i) == Owed(s, s.subs[i].conv, i);
    }
    KeepBacklogs(s, s');
  }

  lemma DetachDelivery(s: State, id: Id, s': State)
    requires DeliveryOk(s) && DoDetach(s, id) == Some(s')
    ensures DeliveryOk(s')
  {
    assert AllServed(s) && Served(s, id);
    DetachKeeps(s.subs[id], Owed(s, s.subs[id].conv, id), PublicOf(LogOf(s.db, s.subs[id].conv)));
    OneSubDelivery(s, id, s');
  }

  lemma DeliveryDelivery(s: State, step: DeliveryStep, s': State)
    requires ThreadsOk(s) && DeliveryOk(s) && NextDelivery(s, step) == Some(s')
    ensures DeliveryOk(s')
  {
    match step
    case Offer(conv, id) => OfferDelivery(s, conv, id, s');
    case NextEvent(conv) => NextEventDelivery(s, conv, s');
    case Leave(conv) => LeaveDelivery(s, conv, s');
    case Receive(id) => ReceiveDelivery(s, id, s');
    case Detach(id) => DetachDelivery(s, id, s');
  }

  /** Every step keeps the delivery property. */
  lemma StepDelivery(s: State, step: Step, s': State)
    requires ThreadsOk(s) && DeliveryOk(s) && Next(s, step) == Some(s')
    ensures DeliveryOk(s')
  {
    match step
    case ClaimRun(runId, now) => ClaimDelivery(s, runId, now, s');
    case InLoop(x) => LoopDelivery(s, x, s');
    case InPublish(x) => PublishDelivery(s, x, s');
    case InEmit(x) => EmitStepDelivery(s, x, s');
    case InEnd(x) => EndDelivery(s, x, s');
    case InSubmit(x) => SubmitDelivery(s, x, s');
    case InWatch(x) => WatchDelivery(s, x, s');
    case InOwner(x) => OwnerDelivery(s, x, s');
    case InDelivery(x) => DeliveryDelivery(s, x, s');
  }

  // ------------------------------------------------------------- all runs

  ghost predicate Good(s: State) {
    ThreadsOk(s) && Slots(s) && WakeOk(s) && DeliveryOk(s)
  }

  lemma InitialGood(s: State)
    requires Initial(s) && StoreOk(s.db)
    ensures Good(s)
  {
    assert Threads(s);
    assert SlotsOk(s.active, s.max, s.works, s.sched);
    assert AllServed(s) && BacklogsOk(s);
  }

  lemma StepGood(s: State, step: Step, s': State)
    requires Good(s) && Next(s, step) == Some(s')
    ensures Good(s')
  {
    StepThreads(s, step, s');
    StepSlots(s, step, s');
    StepWake(s, step, s');
    StepDelivery(s, step, s');
  }

  lemma {:induction false} RunsGood(s: State, steps: seq<Step>)
    requires Initial(s) && StoreOk(s.db)
    ensures Good(After(s, steps))
    decreases |steps|
  {
    if steps == [] {
      InitialGood(s);
    } else {
      var n := |steps| - 1;
      RunsGood(s, steps[..n]);
      if Next(After(s, steps[..n]), steps[n]).Some? {
        StepGood(After(s, steps[..n]), steps[n], After(s, steps));
      }
    }
  }

  // ------------------------------------------------------------- theorems

  /** No subscriber misses an event. In every run, with any interleaving of
      submits, claims, runner events, subscribes and slow readers, the durable
      events a subscriber has in its channel or has taken from it are a prefix
      of the public log past its `after` cursor, in order and without gaps or
      duplicates. While it is registered and no thread is between commit and
      broadcast in its conversation, they are all of it. */
  lemma NoEventIsMissed(s: State, steps: seq<Step>, i: Id)
    requires Initial(s) && StoreOk(s.db) && i in After(s, steps).subs
    ensures var end := After(s, steps);
            var sub := end.subs[i];
            var log := EventsAfter(end.db, sub.conv, sub.after);
            && Durable(sub.taken + sub.queue) <= log
            && (sub.open && sub.conv !in end.sections && PendingClaim(end.sched, sub.conv) == [] ==>
                  Durable(sub.taken + sub.queue) == log)
            && Ascending(Durable(sub.taken + sub.queue))
            && (sub.open ==> |sub.queue| <= sub.capacity)
  {
    var end := After(s, steps);
    RunsGood(s, steps);
    SubscriberMissesNone(end, i);
  }

  lemma SubscriberMissesNone(end: State, i: Id)
    requires ThreadsOk(end) && DeliveryOk(end) && i in end.subs
    ensures var sub := end.subs[i];
            var log := EventsAfter(end.db, sub.conv, sub.after);
            && Durable(sub.taken + sub.queue) <= log
            && (sub.open && sub.conv !in end.sections && PendingClaim(end.sched, sub.conv) == [] ==>
                  Durable(sub.taken + sub.queue) == log)
            && Ascending(Durable(sub.taken + sub.queue))
            && (sub.open ==> |sub.queue| <= sub.capacity)
  {
    IsServed(end, i);
    StoreIsOk(end);
    LogAscends(end.db, end.subs[i].conv);
    PastAscends(PublicOf(LogOf(end.db, end.subs[i].conv)), end.subs[i].after);
  }

  /** Slots are conserved: active is the number of runs that have not given
      theirs back, plus dispatch's own, and at most MaxConcurrent. */
  lemma SlotsAreConserved(s: State, steps: seq<Step>)
    requires Initial(s) && StoreOk(s.db)
    ensures var end := After(s, steps);
            SlotsOk(end.active, end.max, end.works, end.sched)
  {
    RunsGood(s, steps);
  }

  /** No wakeup is lost: whenever the scheduler of an open manager waits with
      a free slot and an eligible submission, a wake token is present or some
      thread is between its store step and its notify. */
  lemma NoWakeupIsLost(s: State, steps: seq<Step>)
    requires Initial(s) && StoreOk(s.db)
    ensures var end := After(s, steps);
            !end.closed && end.sched.Waiting? && end.active < end.max && CanClaim(end.db) ==> Woken(end)
  {
    RunsGood(s, steps);
    var end := After(s, steps);
    assert Idle(end) && CanClaim(end.db) ==> Woken(end);
  }

  /** dispatch never overwrites a live entry of the run registry. */
  lemma RegistryIsNeverOverwritten(s: State, steps: seq<Step>)
    requires Initial(s) && StoreOk(s.db) && After(s, steps).sched.Holding?
    ensures After(s, steps).sched.claim.run.conv !in After(s, steps).registry
  {
    RunsGood(s, steps);
    RegisterIsFresh(After(s, steps));
  }

  /** The protocol the store relies on: when work makes its terminal call, and
      whenever its runner can emit, the store still has the run running; after
      the call the run is gone from the stages that could make another. */
  lemma OneTerminalCall(s: State, steps: seq<Step>, r: Id)
    requires Initial(s) && StoreOk(s.db) && r in After(s, steps).works
    requires var stage := After(s, steps).works[r].stage; stage.Executing? || stage.Unregistered?
    ensures RunLive(After(s, steps).db, After(s, steps).works[r].run)
  {
    RunsGood(s, steps);
    var end := After(s, steps);
    assert Threads(end) && WorkOk(end.db, end.works, r);
  }

  /** So the rebuild theorem holds of every state of the manager. */
  lemma ManagedStoreRebuilds(s: State, steps: seq<Step>, rows: seq<Event>)
    requires Initial(s) && StoreOk(s.db) && Listing(After(s, steps).db, rows)
    ensures RebuildFrom(After(s, steps).db, rows) == Ok(After(s, steps).db)
  {
    RunsGood(s, steps);
    assert Threads(After(s, steps));
    RebuildIsIdentity(After(s, steps).db, rows);
  }

  // --------------------------------------------------------- client views

  /** A client that opened a snapshot when the log of its conversation was
      `head`, subscribed after it, and applies what it takes from its channel
      always sees the snapshot of a prefix of the log. */
  lemma ClientSeesAPrefix(s: State, steps: seq<Step>, i: Id, head: seq<Event>, tail: seq<Event>)
    requires Initial(s) && StoreOk(s.db) && i in After(s, steps).subs
    requires var end := After(s, steps);
             && end.subs[i].conv in end.db.conversations
             && LogOf(end.db, end.subs[i].conv) == head + tail && end.subs[i].after == |head|
    ensures var end := After(s, steps);
            var c, got := end.subs[i].conv, Durable(end.subs[i].taken);
            && Projection.Project(c, PublicOf(head)).Ok?
            && PublicOf(head) + got <= PublicOf(LogOf(end.db, c))
            && Projection.Project(c, PublicOf(head) + got)
               == Ok(Projection.ApplyAll(Projection.Project(c, PublicOf(head)).value, got))
  {
    var end := After(s, steps);
    var sub := end.subs[i];
    var got := Durable(sub.taken);
    NoEventIsMissed(s, steps, i);
    DurableAppend(sub.taken, sub.queue);
    RunsGood(s, steps);
    StoreIsOk(end);
    TakenFolds(end.db, sub.conv, head, tail, got);
  }

  /** The same for one store and what was taken of its events. */
  lemma TakenFolds(db: Db, c: Id, head: seq<Event>, tail: seq<Event>, got: seq<Event>)
    requires StoreOk(db) && c in db.conversations && LogOf(db, c) == head + tail && got <= EventsAfter(db, c, |head|)
    ensures Projection.Project(c, PublicOf(head)).Ok? && PublicOf(head) + got <= PublicOf(LogOf(db, c))
    ensures Projection.Project(c, PublicOf(head) + got)
            == Ok(Projection.ApplyAll(Projection.Project(c, PublicOf(head)).value, got))
  {
    LogFacts(db, c);
    TailAfter(c, head, tail);
    PublicAppend(head, tail);
    SnapshotShown(db, c);
    PrefixFolds(c, PublicOf(head), PublicOf(tail), got);
  }

  lemma PrefixFolds(c: Id, head: seq<Event>, tail: seq<Event>, got: seq<Event>)
    requires PT.PublicLog(c, head + tail) && got <= tail
    ensures Projection.Project(c, head).Ok? && head + got <= head + tail
    ensures Projection.Project(c, head + got) == Ok(Projection.ApplyAll(Projection.Project(c, head).value, got))
  {
    var all := head + tail;
    assert all[..|head + got|] == head + got;
    PT.PrefixIsPublic(c, all, |head + got|);
    PT.SplitAnywhere(c, head, got);
  }
}
