/** What becomes of each event that is offered to a subscriber, when one is
    dropped, and which inputs the manager takes (runtime/subscriptions.go,
    runtime/manager.go). */
module ManagerOffers {
  import opened Wrappers
  import opened Events
  import opened Store
  import opened Snapshots
  import opened ManagerStore
  import opened Manager
  import opened ManagerInvariant
  import opened ManagerDelivery
  import opened ManagerRuns

  // ------------------------------------------------------------- one offer

  /** A durable event that the subscriber has skipped past. */
  predicate NotWanted(sub: Subscriber, e: Event) {
    e.cursor != 0 && e.cursor <= sub.after
  }

  /** It is skipped, sent, or finds the channel full, which costs the
      subscriber its place but nothing that it has. */
  predicate Handled(sub: Subscriber, e: Event, sub': Subscriber) {
    if NotWanted(sub, e) then sub' == sub
    else if |sub.queue| < sub.capacity then
      sub'.last == (if e.cursor != 0 then e.cursor else sub.last) && sub' == sub.(queue := sub.queue + [e], last := sub'.last)
    else sub' == sub.(open := false)
  }

  lemma OfferHere(s: State, conv: Id, id: Id, s': State)
    requires ThreadsOk(s) && DeliveryOk(s) && DoOffer(s, conv, id) == Some(s')
    ensures conv in s.sections && s.sections[conv].Broadcast? && s.sections[conv].unsent != []
    ensures id in s.subs && s.subs[id].open && s.subs[id].conv == conv
    ensures s'.subs == s.subs[id := s'.subs[id]] && Handled(s.subs[id], s.sections[conv].unsent[0], s'.subs[id])
  {
    OfferShape(s, conv, id, s');
    IsServed(s, id);
    StoreIsOk(s);
    LogAscends(s.db, conv);
    OfferOwes(s, conv, id, s', conv, id);
    Wants(s.subs[id], Owed(s, conv, id), PublicOf(LogOf(s.db, conv)));
  }

  /** Over every run, an event that is offered to a subscriber goes to the end
      of its channel, live events included. It is skipped exactly when the
      subscriber started behind it; and only a full channel costs the
      subscriber its place. No other subscriber is affected. */
  lemma OfferMeans(s: State, steps: seq<Step>, conv: Id, id: Id, e': State)
    requires Initial(s) && StoreOk(s.db) && Next(After(s, steps), InDelivery(Offer(conv, id))) == Some(e')
    ensures var e := After(s, steps);
            && conv in e.sections && e.sections[conv].Broadcast? && e.sections[conv].unsent != []
            && id in e.subs && e.subs[id].open && e.subs[id].conv == conv
            && e'.subs == e.subs[id := e'.subs[id]] && Handled(e.subs[id], e.sections[conv].unsent[0], e'.subs[id])
  {
    RunsGood(s, steps);
    OfferHere(After(s, steps), conv, id, e');
  }

  /** What is owed and past the starting cursor was not sent before. */
  lemma Wants(sub: Subscriber, owed: seq<Event>, all: seq<Event>)
    requires InStep(sub, owed, all) && owed != [] && Ascending(all)
    ensures owed[0].cursor != 0 ==> (owed[0].cursor <= sub.last <==> owed[0].cursor <= sub.after)
  {
    OwedHead(owed, sub.after);
    PastMembers(all, sub.after);
    PastAscends(all, sub.after);
    if owed[0].cursor != 0 {
      NewToSubscriber(Got(sub), owed[0], Past(Durable(owed[1..]), sub.after), Past(all, sub.after), sub.last, sub.after);
    }
  }

  /** Subscribe starts with what the log has past `after`, and room for 64 more. */
  lemma AttachMeans(e: State, t: Thread, id: Id, e': State)
    requires Next(e, InWatch(Attach(t, id))) == Some(e') && DeliveryOk(e)
    ensures id !in e.subs && t in e.readers && e.readers[t].Watcher? && e'.subs.Keys == e.subs.Keys + {id}
    ensures var sub := e'.subs[id];
            && sub.conv == e.readers[t].conv && sub.after == e.readers[t].after && sub.open && sub.taken == []
            && sub.queue == EventsAfter(e.db, sub.conv, sub.after) && sub.capacity == |sub.queue| + 64
    ensures forall i | i in e.subs :: e'.subs[i] == e.subs[i]
  {
    assert BacklogsOk(e);
    assert BacklogOk(e, e.readers[t].conv);
  }

  // --------------------------------------------------------------- drops

  /** Nobody is dropped. */
  ghost predicate KeepsPlaces(e: State, e': State) {
    forall i | i in e.subs && e.subs[i].open :: i in e'.subs && e'.subs[i].open
  }

  lemma LoopPlaces(e: State, step: LoopStep, e': State)
    requires NextLoop(e, step) == Some(e')
    ensures KeepsPlaces(e, e')
  {
    LoopMoves(e, step, e');
    PlainPlaces(e, e');
  }

  lemma PlainPlaces(e: State, e': State)
    requires PlainMove(e, e')
    ensures KeepsPlaces(e, e')
  {
  }

  lemma PublishPlaces(e: State, step: PublishStep, e': State)
    requires NextPublish(e, step) == Some(e')
    ensures KeepsPlaces(e, e')
  {
  }

  lemma TransactPlaces(e: State, e1: State, conv: Id, owner: Owner, performed: Performed)
    requires e1.subs == e.subs
    ensures KeepsPlaces(e, Transact(e1, conv, owner, performed))
  {
  }

  lemma EmitPlaces(e: State, step: EmitStep, e': State)
    requires NextEmit(e, step) == Some(e')
    ensures KeepsPlaces(e, e')
  {
    match step
    case EnterEmit(_) =>
    case Emit(r, op) => TransactPlaces(e, e, e.works[r].run.conv, Runner(r), EmitTx(e.db, op));
    case EmitTransient(_, _) =>
    case Stop(_) =>
  }

  lemma TerminatePlaces(e: State, r: Id, performed: Performed)
    requires r in e.works
    ensures KeepsPlaces(e, Transact(e.(works := e.works[r := e.works[r].(stage := Ended)]), e.works[r].run.conv, Ender(r), performed))
  {
    TransactPlaces(e, e.(works := e.works[r := e.works[r].(stage := Ended)]), e.works[r].run.conv, Ender(r), performed);
  }

  lemma WorkPlaces(e: State, r: Id, e': State)
    requires DoRunnerReturns(e, r) == Some(e') || DoEnterEnd(e, r) == Some(e') || DoReleaseSlot(e, r) == Some(e') || DoNotifyEnded(e, r) == Some(e')
    ensures KeepsPlaces(e, e')
  {
  }

  lemma EndPlaces(e: State, step: EndStep, e': State)
    requires NextEnd(e, step) == Some(e')
    ensures KeepsPlaces(e, e')
  {
    match step
    case Terminate(r, outcome, ids, now) =>
      TerminatePlaces(e, r, TerminalTx(e.db, e.works[r].run, e.works[r].stage.stopped, outcome, ids, now));
    case RunnerReturns(r) => WorkPlaces(e, r, e');
    case EnterEnd(r) => WorkPlaces(e, r, e');
    case ReleaseSlot(r) => WorkPlaces(e, r, e');
    case NotifyEnded(r) => WorkPlaces(e, r, e');
  }

  lemma AcceptPlaces(e: State, t: Thread, agent: string, revision: string, newId: NewId, now: Time, e': State)
    requires DoAcceptInput(e, t, agent, revision, newId, now) == Some(e')
    ensures KeepsPlaces(e, e')
  {
  }

  lemma SubmitPlaces(e: State, step: SubmitStep, e': State)
    requires NextSubmit(e, step) == Some(e')
    ensures KeepsPlaces(e, e')
  {
    match step
    case AcceptInput(t, agent, revision, newId, now) => AcceptPlaces(e, t, agent, revision, newId, now, e');
    case _ =>
  }

  lemma WatchPlaces(e: State, step: WatchStep, e': State)
    requires NextWatch(e, step) == Some(e')
    ensures KeepsPlaces(e, e')
  {
  }

  lemma OwnerPlaces(e: State, step: OwnerStep, e': State)
    requires NextOwner(e, step) == Some(e')
    ensures KeepsPlaces(e, e')
  {
  }

  lemma DeliveryPlaces(e: State, step: DeliveryStep, e': State)
    requires NextDelivery(e, step) == Some(e') && !step.Offer? && !step.Detach?
    ensures KeepsPlaces(e, e')
  {
  }

  lemma TookPlaces(e: State, claiming: Claiming, e': State)
    requires Took(e, claiming) == Some(e')
    ensures KeepsPlaces(e, e')
  {
  }

  lemma StepPlaces(e: State, step: Step, e': State)
    requires Next(e, step) == Some(e') && !(step.InDelivery? && (step.v.Offer? || step.v.Detach?))
    ensures KeepsPlaces(e, e')
  {
    match step
    case ClaimRun(runId, now) => TookPlaces(e, ClaimTx(e.db, runId, now), e');
    case InLoop(x) => LoopPlaces(e, x, e');
    case InPublish(x) => PublishPlaces(e, x, e');
    case InEmit(x) => EmitPlaces(e, x, e');
    case InEnd(x) => EndPlaces(e, x, e');
    case InSubmit(x) => SubmitPlaces(e, x, e');
    case InWatch(x) => WatchPlaces(e, x, e');
    case InOwner(x) => OwnerPlaces(e, x, e');
    case InDelivery(x) => DeliveryPlaces(e, x, e');
  }

  lemma DetachShape(e: State, id: Id, e': State)
    requires DoDetach(e, id) == Some(e')
    ensures id in e.subs && e'.subs == e.subs[id := e.subs[id].(open := false)]
  {
  }

  lemma OfferOne(e: State, conv: Id, id: Id, e': State, i: Id)
    requires ThreadsOk(e) && DeliveryOk(e) && DoOffer(e, conv, id) == Some(e')
    requires i in e.subs && e.subs[i].open && !(i in e'.subs && e'.subs[i].open)
    ensures i == id && |e.subs[i].queue| >= e.subs[i].capacity
  {
    OfferHere(e, conv, id, e');
  }

  /** Why a subscriber lost its place. */
  predicate LostPlace(e: State, step: Step, i: Id)
    requires i in e.subs
  {
    || step == InDelivery(Detach(i))
    || (step.InDelivery? && step.v.Offer? && step.v.id == i && |e.subs[i].queue| >= e.subs[i].capacity)
  }

  lemma LostHere(e: State, step: Step, e': State, i: Id)
    requires ThreadsOk(e) && DeliveryOk(e) && Next(e, step) == Some(e')
    requires i in e.subs && e.subs[i].open && !(i in e'.subs && e'.subs[i].open)
    ensures LostPlace(e, step, i)
  {
    if !(step.InDelivery? && (step.v.Offer? || step.v.Detach?)) {
      StepPlaces(e, step, e');
    } else if step.v.Offer? {
      OfferOne(e, step.v.conv, step.v.id, e', i);
    } else {
      DetachShape(e, step.v.id, e');
    }
  }

  /** Over every run, a subscriber loses its place only by leaving, or when an
      event that it wants finds its channel full. */
  lemma DroppedWhenFull(s: State, steps: seq<Step>, step: Step, e': State, i: Id)
    requires Initial(s) && StoreOk(s.db) && Next(After(s, steps), step) == Some(e')
    requires i in After(s, steps).subs && After(s, steps).subs[i].open && !(i in e'.subs && e'.subs[i].open)
    ensures LostPlace(After(s, steps), step, i)
  {
    RunsGood(s, steps);
    LostHere(After(s, steps), step, e', i);
  }

  // -------------------------------------------------------------- inputs

  /** The input is for the agent that this manager runs, at its revision. */
  predicate ForThisManager(db: Db, conv: Id, input: InputSubmission, agent: string, revision: string) {
    && conv in db.conversations && db.conversations[conv].agent == agent
    && (input.target == "" || input.target == agent) && (input.revision == "" || input.revision == revision)
  }

  /** SubmitInput stores exactly the inputs that are for this manager and that
      the store accepts, each with the agent and revision that will run it. */
  lemma SubmitMeans(e: State, t: Thread, agent: string, revision: string, newId: NewId, now: Time, e': State)
    requires Next(e, InSubmit(AcceptInput(t, agent, revision, newId, now))) == Some(e')
    ensures t in e.readers && e.readers[t].Submitter?
    ensures var conv, input := e.readers[t].conv, e.readers[t].input;
            var stored := input.(target := agent, revision := revision);
            if !ForThisManager(e.db, conv, input, agent, revision) then e'.db == e.db
            else
              match Accept(e.db, conv, stored, newId, now)
              case Ok((db', accepted)) => e'.db == db'
              case Err(_) => e'.db == e.db
  {
    AcceptShape(e, t, agent, revision, newId, now, e');
  }

  lemma AcceptShape(e: State, t: Thread, agent: string, revision: string, newId: NewId, now: Time, e': State)
    requires DoAcceptInput(e, t, agent, revision, newId, now) == Some(e')
    ensures t in e.readers && e.readers[t].Submitter?
    ensures var addressed := Addressed(e.db, e.readers[t].conv, e.readers[t].input, agent, revision);
            e'.db == if addressed.None? || AcceptTx(e.db, e.readers[t].conv, addressed.value, newId, now).Refused? then e.db
                     else AcceptTx(e.db, e.readers[t].conv, addressed.value, newId, now).db
  {
  }
}
