/** What every step of the manager keeps: who may run, who holds what, and
    that the registry, the slots and the store agree. */
module ManagerInvariant {
  import opened Wrappers
  import opened Events
  import opened Store
  import opened StoreSteps
  import opened ManagerStore
  import opened Manager

  // ------------------------------------------------------------ threads

  predicate RunLive(db: Db, run: Run) {
    FromClaim(db, run) && db.rows.runs[run.id].status == Running
  }

  predicate HasClaim(sched: Sched) {
    sched.Holding? || sched.Registered? || sched.Publishing? || sched.Published? || sched.Launching?
  }

  /** Between registering a claim and starting its work. */
  predicate HasRegistered(sched: Sched) {
    sched.Registered? || sched.Publishing? || sched.Published? || sched.Launching?
  }

  /** A run that work has not ended yet is running in the store: its terminal
      call is still to come, and it is the only one. */
  ghost predicate WorkOk(db: Db, works: map<Id, Work>, r: Id)
    requires r in works
  {
    && works[r].run.id == r && FromClaim(db, works[r].run)
    && (works[r].stage.Executing? || works[r].stage.Unregistered? ==> RunLive(db, works[r].run))
  }

  ghost predicate WorksOk(db: Db, works: map<Id, Work>, sched: Sched) {
    && (forall r | r in works :: WorkOk(db, works, r))
    && (HasClaim(sched) ==> RunLive(db, sched.claim.run) && sched.claim.run.id !in works)
  }

  ghost predicate EntryOk(registry: map<Id, Active>, works: map<Id, Work>, sched: Sched, c: Id)
    requires c in registry
  {
    var run := registry[c].run;
    && run.conv == c
    && (|| (run.id in works && works[run.id] == Work(run, Executing))
        || (HasRegistered(sched) && sched.claim.run == run))
  }

  /** The registry holds exactly the runs that can still be stopped. */
  ghost predicate RegistryOk(registry: map<Id, Active>, works: map<Id, Work>, sched: Sched) {
    && (forall c | c in registry :: EntryOk(registry, works, sched, c))
    && (forall r | r in works && works[r].stage.Executing? ::
          works[r].run.conv in registry && registry[works[r].run.conv].run == works[r].run)
    && (HasRegistered(sched) ==> sched.claim.run.conv in registry && registry[sched.claim.run.conv].run == sched.claim.run)
  }

  ghost predicate SectionOk(section: Section, c: Id, works: map<Id, Work>, readers: map<Thread, Reader>, sched: Sched) {
    match section.owner
    case Runner(r) => r in works && works[r].run.conv == c && works[r].stage.Executing? && !section.Backlog?
    case Ender(r) =>
      && r in works && works[r].run.conv == c && !section.Backlog?
      && (if section.Entered? then works[r].stage.Unregistered? else works[r].stage.Ended?)
    case Submitting(t) =>
      && t in readers && readers[t].Submitter? && readers[t].conv == c && !section.Backlog?
      && (if section.Entered? then readers[t].stage.Begun? else readers[t].stage.Committed?)
    case Subscribing(t) => t in readers && readers[t].Watcher? && readers[t].conv == c && !section.Broadcast?
    case Publisher => sched.Publishing? && sched.claim.run.conv == c && section.Broadcast?
  }

  /** Whoever holds a conversation's mutex is where the mutex says. */
  ghost predicate SectionsOk(sections: map<Id, Section>, works: map<Id, Work>, readers: map<Thread, Reader>, sched: Sched) {
    forall c | c in sections :: SectionOk(sections[c], c, works, readers, sched)
  }

  /** claimPublication is held for writing or for reading, never both. */
  predicate ReadersOk(sched: Sched, readers: map<Thread, Reader>) {
    WriteLocked(sched) ==> readers == map[]
  }

  /** Readers belong to conversations of the store. */
  predicate ReadersKnown(db: Db, readers: map<Thread, Reader>) {
    forall t | t in readers :: readers[t].conv in db.conversations
  }

  function SlotWorks(works: map<Id, Work>): set<Id> {
    set r | r in works && WorkHoldsSlot(works[r])
  }

  /** Slots are conserved, and at most MaxConcurrent. */
  predicate SlotsOk(active: nat, max: nat, works: map<Id, Work>, sched: Sched) {
    active == |SlotWorks(works)| + (if SchedHoldsSlot(sched) then 1 else 0) && active <= max
  }

  ghost predicate Threads(s: State) {
    true == (
      && StoreOk(s.db)
      && WorksOk(s.db, s.works, s.sched)
      && RegistryOk(s.registry, s.works, s.sched)
      && SectionsOk(s.sections, s.works, s.readers, s.sched)
      && ReadersOk(s.sched, s.readers)
      && ReadersKnown(s.db, s.readers))
  }

  /** The invariant as lemmas pass it on. */
  ghost predicate ThreadsOk(s: State) {
    forall x | x == s :: Threads(x)
  }

  // ------------------------------------------------------- store changes

  /** Every known run keeps its identity; those other than `r` keep running. */
  lemma RunsStayLive(db: Db, db': Db, r: Id, run: Run)
    requires RunsStay(db, db', r) && FromClaim(db, run)
    ensures FromClaim(db', run)
    ensures run.id != r && RunLive(db, run) ==> RunLive(db', run)
  {
    assert run.id in db.rows.runs;
  }

  lemma SameRunsStay(db: Db, db': Db, r: Id)
    requires db'.rows.runs == db.rows.runs
    ensures RunsStay(db, db', r)
  {
  }

  lemma WorksStay(db: Db, db': Db, works: map<Id, Work>, sched: Sched)
    requires WorksOk(db, works, sched) && db'.rows.runs == db.rows.runs
    ensures WorksOk(db', works, sched)
  {
    assert forall r | r in works :: WorkOk(db, works, r);
  }

  lemma KnownStays(db: Db, db': Db, readers: map<Thread, Reader>)
    requires ReadersKnown(db, readers) && db.conversations.Keys <= db'.conversations.Keys
    ensures ReadersKnown(db', readers)
  {
  }

  // -------------------------------------------------------- the scheduler

  /** dispatch never overwrites a live entry of the registry: when a claim
      is registered, its conversation has none. */
  lemma RegisterIsFresh(s: State)
    requires ThreadsOk(s) && s.sched.Holding?
    ensures s.sched.claim.run.conv !in s.registry
  {
    assert Threads(s);
    var run := s.sched.claim.run;
    if run.conv in s.registry {
      assert EntryOk(s.registry, s.works, s.sched, run.conv);
      var other := s.registry[run.conv].run;
      assert WorkOk(s.db, s.works, other.id);
      RunningApart(s.db, run.id, other.id);
    }
  }

  lemma SchedClaimWorks(s: State, runId: NewId, now: Time, db': Db, claim: Claimed)
    requires ThreadsOk(s) && runId !in s.db.rows.runs && ClaimTx(s.db, runId, now) == Taken(db', claim) && s.sched.Locked?
    ensures StoreOk(db') && WorksOk(db', s.works, Holding(claim)) && ReadersKnown(db', s.readers)
  {
    assert Threads(s);
    ClaimKeeps(s.db, runId, now, db', claim);
    forall r | r in s.works
      ensures WorkOk(db', s.works, r)
    {
      assert WorkOk(s.db, s.works, r);
      RunsStayLive(s.db, db', runId, s.works[r].run);
    }
  }

  /** Steps of dispatch without a claim, and steps that touch only slots,
      wakeups and restores. */
  ghost predicate PlainMove(s: State, s': State) {
    true == (
      && !HasClaim(s.sched) && !HasClaim(s'.sched) && s' == s.(sched := s'.sched, active := s'.active, wake := s'.wake)
      && (WriteLocked(s'.sched) ==> s.readers == map[] || WriteLocked(s.sched)))
  }

  lemma PlainThreads(s: State, s': State)
    requires ThreadsOk(s) && PlainMove(s, s')
    ensures ThreadsOk(s')
  {
    assert Threads(s);
    assert forall r | r in s.works :: WorkOk(s.db, s.works, r);
    assert forall c | c in s.registry :: EntryOk(s.registry, s.works, s.sched, c);
    assert forall c | c in s.sections :: SectionOk(s.sections[c], c, s.works, s.readers, s.sched);
  }

  lemma TookThreads(s: State, runId: NewId, now: Time, claiming: Claiming, s': State)
    requires ThreadsOk(s) && s.sched.Locked? && Took(s, claiming) == Some(s')
    requires claiming.Taken? ==> ThreadsOk(s.(db := claiming.db, sched := Holding(claiming.claim)))
    ensures ThreadsOk(s')
  {
    assert Threads(s);
    if claiming.NothingEligible? {
      PlainThreads(s, s');
    }
  }

  lemma ClaimRunThreads(s: State, runId: NewId, now: Time, s': State)
    requires ThreadsOk(s) && DoClaimRun(s, runId, now) == Some(s')
    ensures ThreadsOk(s')
  {
    var claiming := ClaimTx(s.db, runId, now);
    if claiming.Taken? {
      HoldingThreads(s, runId, now, claiming.db, claiming.claim);
    }
    TookThreads(s, runId, now, claiming, s');
  }

  lemma HoldingThreads(s: State, runId: NewId, now: Time, db': Db, claim: Claimed)
    requires ThreadsOk(s) && runId !in s.db.rows.runs && s.sched.Locked? && ClaimTx(s.db, runId, now) == Taken(db', claim)
    ensures ThreadsOk(s.(db := db', sched := Holding(claim)))
  {
    assert Threads(s);
    SchedClaimWorks(s, runId, now, db', claim);
    HoldingRest(s, claim);
  }

  lemma HoldingRest(s: State, claim: Claimed)
    requires ThreadsOk(s) && s.sched.Locked?
    ensures RegistryOk(s.registry, s.works, Holding(claim)) && SectionsOk(s.sections, s.works, s.readers, Holding(claim))
    ensures ReadersOk(Holding(claim), s.readers)
  {
    assert Threads(s);
    assert forall c | c in s.registry :: EntryOk(s.registry, s.works, s.sched, c);
    assert forall c | c in s.sections :: SectionOk(s.sections[c], c, s.works, s.readers, s.sched);
  }

  /** The scheduler keeps its claim and moves on. */
  lemma ClaimMoves(s: State, sched: Sched)
    requires ThreadsOk(s) && HasRegistered(s.sched) && HasRegistered(sched) && sched.claim == s.sched.claim
    requires WriteLocked(sched) ==> WriteLocked(s.sched)
    ensures WorksOk(s.db, s.works, sched) && RegistryOk(s.registry, s.works, sched) && ReadersOk(sched, s.readers)
  {
    assert Threads(s);
    assert forall r | r in s.works :: WorkOk(s.db, s.works, r);
    assert forall c | c in s.registry :: EntryOk(s.registry, s.works, s.sched, c);
  }

  lemma RegisterThreads(s: State, s': State)
    requires ThreadsOk(s) && DoRegister(s) == Some(s')
    ensures ThreadsOk(s')
  {
    RegisterRegistry(s, s');
    RegisterSections(s, s');
    assert Threads(s);
    assert forall r | r in s.works :: WorkOk(s.db, s.works, r);
  }

  lemma RegisterRegistry(s: State, s': State)
    requires ThreadsOk(s) && DoRegister(s) == Some(s')
    ensures RegistryOk(s'.registry, s'.works, s'.sched)
  {
    assert Threads(s);
    RegisterIsFresh(s);
    forall c | c in s'.registry
      ensures EntryOk(s'.registry, s'.works, s'.sched, c)
    {
      assert c in s.registry ==> EntryOk(s.registry, s.works, s.sched, c);
    }
  }

  lemma RegisterSections(s: State, s': State)
    requires ThreadsOk(s) && DoRegister(s) == Some(s')
    ensures SectionsOk(s'.sections, s'.works, s'.readers, s'.sched)
  {
    assert Threads(s);
    assert forall c | c in s.sections :: SectionOk(s.sections[c], c, s.works, s.readers, s.sched);
  }

  lemma EnterPublishThreads(s: State, s': State)
    requires ThreadsOk(s) && DoEnterPublish(s) == Some(s')
    ensures ThreadsOk(s')
  {
    assert Threads(s);
    ClaimMoves(s, s'.sched);
    forall c | c in s'.sections
      ensures SectionOk(s'.sections[c], c, s'.works, s'.readers, s'.sched)
    {
      assert c in s.sections ==> SectionOk(s.sections[c], c, s.works, s.readers, s.sched);
    }
  }

  lemma UnlockClaimsThreads(s: State, s': State)
    requires ThreadsOk(s) && DoUnlockClaims(s) == Some(s')
    ensures ThreadsOk(s')
  {
    assert Threads(s);
    ClaimMoves(s, s'.sched);
    assert forall c | c in s.sections :: SectionOk(s.sections[c], c, s.works, s.readers, s.sched);
  }

  lemma LaunchThreads(s: State, s': State)
    requires ThreadsOk(s) && DoLaunch(s) == Some(s')
    ensures ThreadsOk(s')
  {
    LaunchRegistry(s, s');
    LaunchWorks(s, s');
    LaunchSections(s, s');
    assert Threads(s);
  }

  lemma LaunchWorks(s: State, s': State)
    requires ThreadsOk(s) && DoLaunch(s) == Some(s')
    ensures WorksOk(s'.db, s'.works, s'.sched)
  {
    assert Threads(s);
    forall r | r in s'.works
      ensures WorkOk(s'.db, s'.works, r)
    {
      assert r in s.works ==> WorkOk(s.db, s.works, r);
    }
  }

  lemma LaunchSections(s: State, s': State)
    requires ThreadsOk(s) && DoLaunch(s) == Some(s')
    ensures SectionsOk(s'.sections, s'.works, s'.readers, s'.sched)
  {
    assert Threads(s);
    assert forall c | c in s.sections :: SectionOk(s.sections[c], c, s.works, s.readers, s.sched);
  }

  lemma LaunchRegistry(s: State, s': State)
    requires ThreadsOk(s) && DoLaunch(s) == Some(s')
    ensures RegistryOk(s'.registry, s'.works, s'.sched)
  {
    assert Threads(s);
    forall c | c in s'.registry
      ensures EntryOk(s'.registry, s'.works, s'.sched, c)
    {
      assert EntryOk(s.registry, s.works, s.sched, c);
    }
  }

  // ----------------------------------------------------------------- work

  /** A step that only changes what the holder of one mutex is doing. */
  lemma SectionThreads(s: State, c: Id, section: Section)
    requires ThreadsOk(s) && SectionOk(section, c, s.works, s.readers, s.sched)
    ensures ThreadsOk(s.(sections := s.sections[c := section]))
  {
    assert Threads(s);
    assert forall d | d in s.sections :: SectionOk(s.sections[d], d, s.works, s.readers, s.sched);
  }

  /** A transaction inside the mutex that leaves the runs' rows alone. */
  lemma TransactThreads(s: State, conv: Id, owner: Owner, performed: Performed)
    requires ThreadsOk(s)
    requires forall unsent, todo :: SectionOk(Broadcast(owner, unsent, todo), conv, s.works, s.readers, s.sched)
    requires performed.Done? ==>
               && StoreOk(performed.db) && performed.db.rows.runs == s.db.rows.runs
               && s.db.conversations.Keys <= performed.db.conversations.Keys
    ensures ThreadsOk(Transact(s, conv, owner, performed))
  {
    assert Threads(s);
    var s' := Transact(s, conv, owner, performed);
    SectionThreads(s, conv, s'.sections[conv]);
    if performed.Done? {
      WorksStay(s.db, s'.db, s.works, s.sched);
      KnownStays(s.db, s'.db, s.readers);
    }
  }

  lemma EmitThreads(s: State, r: Id, op: Op, s': State)
    requires ThreadsOk(s) && DoEmit(s, r, op) == Some(s')
    ensures ThreadsOk(s')
  {
    assert Threads(s);
    var run := s.works[r].run;
    assert SectionOk(s.sections[run.conv], run.conv, s.works, s.readers, s.sched);
    assert WorkOk(s.db, s.works, r);
    var performed := EmitTx(s.db, op);
    if performed.Done? {
      EmitKeeps(s.db, op, run, performed.db, performed.events);
    }
    TransactThreads(s, run.conv, Runner(r), performed);
  }

  lemma EmitTransientThreads(s: State, r: Id, e: Event, s': State)
    requires ThreadsOk(s) && DoEmitTransient(s, r, e) == Some(s')
    ensures ThreadsOk(s')
  {
    assert Threads(s);
    var conv := s.works[r].run.conv;
    assert SectionOk(s.sections[conv], conv, s.works, s.readers, s.sched);
    SectionThreads(s, conv, s'.sections[conv]);
  }

  /** Only its own run leaves a conversation's registry entry: work finds the
      entry it was registered with, and no other run loses one. */
  lemma ReturnsItsOwn(s: State, r: Id)
    requires ThreadsOk(s) && r in s.works && s.works[r].stage.Executing?
    ensures forall q | q in s.works && q != r && s.works[q].stage.Executing? :: s.works[q].run.conv != s.works[r].run.conv
    ensures HasRegistered(s.sched) ==> s.sched.claim.run.conv != s.works[r].run.conv
    ensures s.works[r].run.conv in s.registry && s.registry[s.works[r].run.conv].run == s.works[r].run
  {
    assert Threads(s);
    assert WorkOk(s.db, s.works, r);
    forall q | q in s.works && q != r && s.works[q].stage.Executing?
      ensures s.works[q].run.conv != s.works[r].run.conv
    {
      assert WorkOk(s.db, s.works, q);
    }
  }

  lemma RunnerReturnsThreads(s: State, r: Id, s': State)
    requires ThreadsOk(s) && DoRunnerReturns(s, r) == Some(s')
    ensures ThreadsOk(s')
  {
    StageMoves(s, r, s'.works[r].stage);
    ReturnedRegistry(s, r, s');
    ReturnedSections(s, r, s');
    assert Threads(s);
  }

  lemma ReturnedRegistry(s: State, r: Id, s': State)
    requires ThreadsOk(s) && DoRunnerReturns(s, r) == Some(s')
    ensures RegistryOk(s'.registry, s'.works, s'.sched)
  {
    assert Threads(s);
    ReturnsItsOwn(s, r);
    forall c | c in s'.registry
      ensures EntryOk(s'.registry, s'.works, s'.sched, c)
    {
      assert EntryOk(s.registry, s.works, s.sched, c);
    }
  }

  lemma ReturnedSections(s: State, r: Id, s': State)
    requires ThreadsOk(s) && DoRunnerReturns(s, r) == Some(s')
    ensures SectionsOk(s'.sections, s'.works, s'.readers, s'.sched)
  {
    assert Threads(s);
    forall c | c in s.sections
      ensures SectionOk(s.sections[c], c, s'.works, s.readers, s.sched)
    {
      assert SectionOk(s.sections[c], c, s.works, s.readers, s.sched);
    }
  }

  lemma StageMoves(s: State, r: Id, stage: WorkStage)
    requires ThreadsOk(s) && r in s.works
    requires stage.Executing? || stage.Unregistered? ==> s.works[r].stage.Executing? || s.works[r].stage.Unregistered?
    ensures WorksOk(s.db, s.works[r := s.works[r].(stage := stage)], s.sched)
  {
    assert Threads(s);
    assert forall q | q in s.works :: WorkOk(s.db, s.works, q);
  }

  lemma EnterThreads(s: State, c: Id, owner: Owner)
    requires ThreadsOk(s) && SectionOk(Entered(owner), c, s.works, s.readers, s.sched)
    ensures ThreadsOk(s.(sections := s.sections[c := Entered(owner)]))
  {
    SectionThreads(s, c, Entered(owner));
  }

  /** What a step of work's terminal call did, without the transaction. */
  ghost predicate Terminated(s: State, r: Id, performed: Performed, s': State) {
    && r in s.works && s.works[r].stage.Unregistered? && Inside(s, s.works[r].run.conv, Ender(r))
    && s' == Transact(s.(works := s.works[r := s.works[r].(stage := Ended)]), s.works[r].run.conv, Ender(r), performed)
  }

  /** The one terminal transaction of a claim finds its run running. */
  lemma TerminateFindsRunning(s: State, r: Id, outcome: RunOutcome, ids: nat -> NewId, now: Time) returns (performed: Performed)
    requires ThreadsOk(s) && r in s.works && s.works[r].stage.Unregistered?
    ensures performed == TerminalTx(s.db, s.works[r].run, s.works[r].stage.stopped, outcome, ids, now)
    ensures RunLive(s.db, s.works[r].run)
    ensures performed.Done? ==>
              && StoreOk(performed.db) && RunsStay(s.db, performed.db, r)
              && Publishes(s.db, performed.db, s.works[r].run.conv, performed.events)
  {
    assert Threads(s);
    var work := s.works[r];
    assert WorkOk(s.db, s.works, r);
    performed := TerminalTx(s.db, work.run, work.stage.stopped, outcome, ids, now);
    if performed.Done? {
      TerminalKeeps(s.db, work.run, work.stage.stopped, outcome, ids, now, performed.db, performed.events);
    }
  }

  lemma TerminatedWorks(db: Db, db': Db, works: map<Id, Work>, works': map<Id, Work>, sched: Sched, r: Id)
    requires WorksOk(db, works, sched) && RunsStay(db, db', r) && r in works
    requires works' == works[r := works[r].(stage := Ended)]
    ensures WorksOk(db', works', sched)
  {
    forall q | q in works'
      ensures WorkOk(db', works', q)
    {
      assert WorkOk(db, works, q);
      RunsStayLive(db, db', r, works[q].run);
    }
    if HasClaim(sched) {
      RunsStayLive(db, db', r, sched.claim.run);
    }
  }

  lemma TerminateThreads(s: State, r: Id, performed: Performed, s': State)
    requires ThreadsOk(s) && Terminated(s, r, performed, s')
    requires performed.Done? ==>
              && StoreOk(performed.db) && RunsStay(s.db, performed.db, r)
              && Publishes(s.db, performed.db, s.works[r].run.conv, performed.events)
    ensures ThreadsOk(s')
  {
    assert Threads(s);
    if performed.Refused? {
      SameRunsStay(s.db, s'.db, r);
    }
    TerminatedWorks(s.db, s'.db, s.works, s'.works, s.sched, r);
    KnownStays(s.db, s'.db, s.readers);
    TerminatedRest(s, r, s', s'.sections[s.works[r].run.conv]);
  }

  lemma TerminatedRest(s: State, r: Id, s': State, section: Section)
    requires ThreadsOk(s) && r in s.works && s.works[r].stage.Unregistered? && Inside(s, s.works[r].run.conv, Ender(r))
    requires s' == s.(db := s'.db, works := s.works[r := s.works[r].(stage := Ended)], sections := s'.sections)
    requires section.Broadcast? && section.owner == Ender(r) && s'.sections == s.sections[s.works[r].run.conv := section]
    ensures RegistryOk(s'.registry, s'.works, s'.sched) && SectionsOk(s'.sections, s'.works, s'.readers, s'.sched)
  {
    assert Threads(s);
    forall c | c in s'.registry
      ensures EntryOk(s'.registry, s'.works, s'.sched, c)
    {
      assert EntryOk(s.registry, s.works, s.sched, c);
    }
    forall c | c in s'.sections
      ensures SectionOk(s'.sections[c], c, s'.works, s'.readers, s'.sched)
    {
      assert c in s.sections ==> SectionOk(s.sections[c], c, s.works, s.readers, s.sched);
    }
  }

  /** What moving on from Ended changes. */
  ghost predicate MovesOn(s: State, r: Id, s': State) {
    && r in s.works && (s.works[r].stage.Ended? || s.works[r].stage.SlotReleased?)
    && !Owns(s, s.works[r].run.conv, Ender(r))
    && s' == s.(works := s'.works, active := s'.active, wake := s'.wake)
    && (s'.works == s.works - {r} || s'.works == s.works[r := s.works[r].(stage := SlotReleased)])
  }

  /** A work that has ended moves on, or is gone. */
  lemma EndedThreads(s: State, r: Id, s': State)
    requires ThreadsOk(s) && MovesOn(s, r, s')
    ensures ThreadsOk(s')
  {
    EndedRegistry(s, r, s');
    EndedSections(s, r, s');
    EndedWorks(s, r, s');
    assert Threads(s);
  }

  lemma EndedWorks(s: State, r: Id, s': State)
    requires ThreadsOk(s) && MovesOn(s, r, s')
    ensures WorksOk(s'.db, s'.works, s'.sched)
  {
    assert Threads(s);
    assert forall q | q in s.works :: WorkOk(s.db, s.works, q);
  }

  lemma EndedRegistry(s: State, r: Id, s': State)
    requires ThreadsOk(s) && MovesOn(s, r, s')
    ensures RegistryOk(s'.registry, s'.works, s'.sched)
  {
    assert Threads(s);
    forall c | c in s'.registry
      ensures EntryOk(s'.registry, s'.works, s'.sched, c)
    {
      assert EntryOk(s.registry, s.works, s.sched, c);
    }
  }

  lemma EndedSections(s: State, r: Id, s': State)
    requires ThreadsOk(s) && MovesOn(s, r, s')
    ensures SectionsOk(s'.sections, s'.works, s'.readers, s'.sched)
  {
    assert Threads(s);
    forall c | c in s.sections
      ensures SectionOk(s.sections[c], c, s'.works, s.readers, s.sched)
    {
      assert SectionOk(s.sections[c], c, s.works, s.readers, s.sched);
    }
  }

  lemma NotifyEndedThreads(s: State, r: Id, s': State)
    requires ThreadsOk(s) && DoNotifyEnded(s, r) == Some(s')
    ensures ThreadsOk(s')
  {
    assert Threads(s);
    assert s.works[r].run.conv in s.sections ==>
             SectionOk(s.sections[s.works[r].run.conv], s.works[r].run.conv, s.works, s.readers, s.sched);
    EndedThreads(s, r, s');
  }

  lemma StopThreads(s: State, conv: Id, s': State)
    requires ThreadsOk(s) && DoStop(s, conv) == Some(s')
    ensures ThreadsOk(s')
  {
    StopRegistry(s, conv, s');
    assert Threads(s);
  }

  lemma StopRegistry(s: State, conv: Id, s': State)
    requires ThreadsOk(s) && DoStop(s, conv) == Some(s')
    ensures RegistryOk(s'.registry, s'.works, s'.sched)
  {
    assert Threads(s);
    forall c | c in s'.registry
      ensures EntryOk(s'.registry, s'.works, s'.sched, c)
    {
      assert EntryOk(s.registry, s.works, s.sched, c);
    }
  }

  // ---------------------------------------------------------------- calls

  /** A reader comes, moves on outside the mutex, or goes. */
  lemma ReaderThreads(s: State, t: Thread, s': State)
    requires ThreadsOk(s) && !WriteLocked(s.sched)
    requires s' == s.(readers := s'.readers, wake := s'.wake)
    requires s'.readers == s.readers - {t} || (s'.readers.Keys == s.readers.Keys + {t} && s'.readers[t].conv in s.db.conversations)
    requires forall u | u in s.readers && u != t :: u in s'.readers && s'.readers[u] == s.readers[u]
    requires forall c | c in s.sections :: s.sections[c].owner != Submitting(t) && s.sections[c].owner != Subscribing(t)
    ensures ThreadsOk(s')
  {
    assert Threads(s);
    forall c | c in s.sections
      ensures SectionOk(s.sections[c], c, s.works, s'.readers, s.sched)
    {
      assert SectionOk(s.sections[c], c, s.works, s.readers, s.sched);
    }
  }

  lemma NoReaderWhileLocked(s: State, t: Thread)
    requires ThreadsOk(s) && t in s.readers
    ensures !WriteLocked(s.sched) && s.readers[t].conv in s.db.conversations
  {
    assert Threads(s);
  }

  lemma NewReaderOwnsNothing(s: State, t: Thread)
    requires ThreadsOk(s) && t !in s.readers
    ensures forall c | c in s.sections :: s.sections[c].owner != Submitting(t) && s.sections[c].owner != Subscribing(t)
  {
    assert Threads(s);
    assert forall c | c in s.sections :: SectionOk(s.sections[c], c, s.works, s.readers, s.sched);
  }

  lemma ReaderOwnsOnlyItsOwn(s: State, t: Thread)
    requires ThreadsOk(s) && t in s.readers
    ensures forall c | c in s.sections && c != s.readers[t].conv ::
              s.sections[c].owner != Submitting(t) && s.sections[c].owner != Subscribing(t)
  {
    assert Threads(s);
    assert forall c | c in s.sections :: SectionOk(s.sections[c], c, s.works, s.readers, s.sched);
  }

  lemma NotifySubmittedThreads(s: State, t: Thread, s': State)
    requires ThreadsOk(s) && DoNotifySubmitted(s, t) == Some(s')
    ensures ThreadsOk(s')
  {
    assert Threads(s);
    NoReaderWhileLocked(s, t);
    ReaderOwnsOnlyItsOwn(s, t);
    var c := s.readers[t].conv;
    assert c in s.sections ==> SectionOk(s.sections[c], c, s.works, s.readers, s.sched);
    ReaderThreads(s, t, s');
  }

  lemma EndReadThreads(s: State, t: Thread, s': State)
    requires ThreadsOk(s) && DoEndRead(s, t) == Some(s')
    ensures ThreadsOk(s')
  {
    assert Threads(s);
    NoReaderWhileLocked(s, t);
    ReaderOwnsOnlyItsOwn(s, t);
    ReaderThreads(s, t, s');
  }

  /** What SubmitInput's transaction did, without the transaction. */
  ghost predicate AcceptedBy(s: State, t: Thread, performed: Performed, s': State) {
    && t in s.readers && s.readers[t].Submitter? && s.readers[t].stage.Begun? && Inside(s, s.readers[t].conv, Submitting(t))
    && var accepted := performed.Done? && performed.events != [];
    && s' == Transact(s.(readers := s.readers[t := s.readers[t].(stage := Committed(accepted))]),
                      s.readers[t].conv, Submitting(t), performed)
  }

  ghost predicate AcceptedStore(db: Db, conv: Id, performed: Performed) {
    performed.Done? ==>
      && StoreOk(performed.db) && performed.db.rows.runs == db.rows.runs
      && Publishes(db, performed.db, conv, performed.events)
      && (performed.events == [] ==> performed.db == db)
  }

  lemma AcceptInputStore(s: State, t: Thread, agent: string, revision: string, newId: NewId, now: Time, s': State) returns (performed: Performed)
    requires ThreadsOk(s) && DoAcceptInput(s, t, agent, revision, newId, now) == Some(s')
    ensures AcceptedBy(s, t, performed, s') && AcceptedStore(s.db, s.readers[t].conv, performed)
  {
    assert Threads(s);
    var conv := s.readers[t].conv;
    var addressed := Addressed(s.db, conv, s.readers[t].input, agent, revision);
    performed := if addressed.None? then Refused(Invalid("input")) else AcceptTx(s.db, conv, addressed.value, newId, now);
    if performed.Done? {
      AcceptKeeps(s.db, conv, addressed.value, newId, now, performed.db, performed.events);
    }
  }

  lemma SubmissionThreads(s: State, t: Thread, performed: Performed, s': State)
    requires ThreadsOk(s) && AcceptedBy(s, t, performed, s') && AcceptedStore(s.db, s.readers[t].conv, performed)
    ensures ThreadsOk(s')
  {
    assert Threads(s);
    NoReaderWhileLocked(s, t);
    WorksStay(s.db, s'.db, s.works, s.sched);
    KnownStays(s.db, s'.db, s.readers);
    SubmissionSections(s, t, performed, s');
  }

  lemma SubmissionSections(s: State, t: Thread, performed: Performed, s': State)
    requires ThreadsOk(s) && AcceptedBy(s, t, performed, s')
    ensures SectionsOk(s'.sections, s'.works, s'.readers, s'.sched)
  {
    assert Threads(s);
    ReaderOwnsOnlyItsOwn(s, t);
    forall c | c in s'.sections
      ensures SectionOk(s'.sections[c], c, s'.works, s'.readers, s'.sched)
    {
      assert c in s.sections ==> SectionOk(s.sections[c], c, s.works, s.readers, s.sched);
    }
  }

  // -------------------------------------------------------- reservations

  /** A change of the store outside the conversations' mutexes. */
  lemma StoreThreads(s: State, s': State)
    requires ThreadsOk(s) && StoreOk(s'.db) && s'.db.rows == s.db.rows && s.db.conversations.Keys <= s'.db.conversations.Keys
    requires s' == s.(db := s'.db, restorers := s'.restorers)
    ensures ThreadsOk(s')
  {
    assert Threads(s);
    WorksStay(s.db, s'.db, s.works, s.sched);
    KnownStays(s.db, s'.db, s.readers);
  }

  lemma OwnerThreads(s: State, step: OwnerStep, s': State)
    requires ThreadsOk(s) && NextOwner(s, step) == Some(s')
    ensures ThreadsOk(s')
  {
    assert Threads(s);
    match step
    case BeginRestore(_, workspace) => ReserveKeeps(s.db, workspace, s'.db); StoreThreads(s, s');
    case ReleaseRestore(t) => ReleaseKeeps(s.db, s.restorers[t].workspace); StoreThreads(s, s');
    case Open(id, agent, workspace, lock) => OpenKeeps(s.db, id, agent, workspace, lock, s'.db); StoreThreads(s, s');
    case NotifyRestored(_) => SideThreads(s, s');
    case Close => SideThreads(s, s');
  }

  /** What the threads' invariant does not mention. */
  lemma SideThreads(s: State, s': State)
    requires ThreadsOk(s) && s' == s.(wake := s'.wake, closed := s'.closed, restorers := s'.restorers, subs := s'.subs)
    ensures ThreadsOk(s')
  {
    assert Threads(s);
  }

  // ------------------------------------------------------------- delivery

  /** A mutex is given up. */
  lemma UnlockThreads(s: State, c: Id, s': State)
    requires ThreadsOk(s) && s' == s.(sections := s.sections - {c}, subs := s'.subs)
    ensures ThreadsOk(s')
  {
    assert Threads(s);
    assert forall d | d in s.sections :: SectionOk(s.sections[d], d, s.works, s.readers, s.sched);
  }

  lemma LeaveThreads(s: State, conv: Id, s': State)
    requires ThreadsOk(s) && DoLeave(s, conv) == Some(s')
    ensures ThreadsOk(s')
  {
    assert Threads(s);
    var owner := s.sections[conv].owner;
    assert SectionOk(s.sections[conv], conv, s.works, s.readers, s.sched);
    var left := s.(sections := s.sections - {conv});
    UnlockThreads(s, conv, left);
    match owner {
      case Publisher => PublishedThreads(left, conv, s'.sched);
      case Submitting(t) => LeaveSubmit(s, conv, t, left, s');
      case _ =>
    }
  }

  lemma LeaveSubmit(s: State, conv: Id, t: Thread, left: State, s': State)
    requires ThreadsOk(s) && t in s.readers && s.readers[t].conv == conv && s.readers[t].Submitter?
    requires left == s.(sections := s.sections - {conv}) && ThreadsOk(left) && s' == left.(readers := Submitted(s.readers, t))
    ensures ThreadsOk(s')
  {
    NoReaderWhileLocked(s, t);
    ReaderOwnsOnlyItsOwn(s, t);
    ReaderThreads(left, t, s');
  }

  lemma PublishedThreads(s: State, conv: Id, sched: Sched)
    requires ThreadsOk(s) && s.sched.Publishing? && s.sched.claim.run.conv == conv && conv !in s.sections && sched == Published(s.sched.claim)
    ensures ThreadsOk(s.(sched := sched))
  {
    assert Threads(s);
    ClaimMoves(s, sched);
    PublishedSections(s.sections, s.works, s.readers, s.sched, sched);
  }

  lemma PublishedSections(sections: map<Id, Section>, works: map<Id, Work>, readers: map<Thread, Reader>, sched: Sched, sched': Sched)
    requires SectionsOk(sections, works, readers, sched) && sched.Publishing? && sched.claim.run.conv !in sections
    ensures SectionsOk(sections, works, readers, sched')
  {
    assert forall c | c in sections :: SectionOk(sections[c], c, works, readers, sched);
  }

  lemma BroadcastThreads(s: State, conv: Id, s': State, section: Section)
    requires ThreadsOk(s) && conv in s.sections && s.sections[conv].Broadcast?
    requires section.Broadcast? && section.owner == s.sections[conv].owner
    requires s' == s.(sections := s.sections[conv := section], subs := s'.subs)
    ensures ThreadsOk(s')
  {
    assert Threads(s);
    assert SectionOk(s.sections[conv], conv, s.works, s.readers, s.sched);
    SectionThreads(s, conv, section);
  }

  lemma DeliveryThreads(s: State, step: DeliveryStep, s': State)
    requires ThreadsOk(s) && NextDelivery(s, step) == Some(s')
    ensures ThreadsOk(s')
  {
    match step
    case Offer(conv, id) => BroadcastThreads(s, conv, s', s'.sections[conv]);
    case NextEvent(conv) => BroadcastThreads(s, conv, s', s'.sections[conv]);
    case Leave(conv) => LeaveThreads(s, conv, s');
    case Receive(_) => SideThreads(s, s');
    case Detach(_) => SideThreads(s, s');
  }

  // ------------------------------------------------------------ all steps

  lemma LoopThreads(s: State, step: LoopStep, s': State)
    requires ThreadsOk(s) && NextLoop(s, step) == Some(s')
    ensures ThreadsOk(s')
  {
    LoopMoves(s, step, s');
    PlainThreads(s, s');
  }

  function SchedSlot(sched: Sched): int {
    if SchedHoldsSlot(sched) then 1 else 0
  }

  /** A plain move that takes a slot for the scheduler or gives it back. */
  ghost predicate LoopMove(s: State, s': State) {
    && PlainMove(s, s')
    && (s.active <= s.max ==> s'.active <= s.max)
    && s'.active - SchedSlot(s'.sched) == s.active - SchedSlot(s.sched)
  }

  lemma TickMoves(s: State, s': State)
    requires DoTick(s) == Some(s')
    ensures LoopMove(s, s')
  {
  }

  lemma WakeMoves(s: State, s': State)
    requires DoWake(s) == Some(s')
    ensures LoopMove(s, s')
  {
  }

  lemma ExitMoves(s: State, s': State)
    requires DoExit(s) == Some(s')
    ensures LoopMove(s, s')
  {
  }

  lemma ReserveSlotMoves(s: State, s': State)
    requires DoReserveSlot(s) == Some(s')
    ensures LoopMove(s, s')
  {
    if s.closed || s.active >= s.max {
      NoSlotMoves(s, s');
    } else {
      SlotMoves(s, s');
    }
  }

  lemma NoSlotMoves(s: State, s': State)
    requires s.sched.Trying? && s' == s.(sched := Waiting)
    ensures LoopMove(s, s')
  {
  }

  lemma SlotMoves(s: State, s': State)
    requires s.sched.Trying? && s.active < s.max && s' == s.(sched := Reserved, active := s.active + 1)
    ensures LoopMove(s, s')
  {
  }

  lemma LockClaimsMoves(s: State, s': State)
    requires DoLockClaims(s) == Some(s')
    ensures LoopMove(s, s')
  {
  }

  lemma ClaimInterruptedMoves(s: State, s': State)
    requires DoClaimInterrupted(s) == Some(s')
    ensures LoopMove(s, s')
  {
  }

  lemma ReturnSlotMoves(s: State, s': State)
    requires DoReturnSlot(s) == Some(s')
    ensures LoopMove(s, s')
  {
  }

  lemma LoopMoves(s: State, step: LoopStep, s': State)
    requires NextLoop(s, step) == Some(s')
    ensures LoopMove(s, s')
  {
    match step
    case Tick => TickMoves(s, s');
    case Wake => WakeMoves(s, s');
    case Exit => ExitMoves(s, s');
    case ReserveSlot => ReserveSlotMoves(s, s');
    case LockClaims => LockClaimsMoves(s, s');
    case ClaimInterrupted => ClaimInterruptedMoves(s, s');
    case ReturnSlot => ReturnSlotMoves(s, s');
  }

  lemma PublishThreads(s: State, step: PublishStep, s': State)
    requires ThreadsOk(s) && NextPublish(s, step) == Some(s')
    ensures ThreadsOk(s')
  {
    match step
    case Register => RegisterThreads(s, s');
    case EnterPublish => EnterPublishThreads(s, s');
    case UnlockClaims => UnlockClaimsThreads(s, s');
    case Launch => LaunchThreads(s, s');
  }

  lemma EmitStepThreads(s: State, step: EmitStep, s': State)
    requires ThreadsOk(s) && NextEmit(s, step) == Some(s')
    ensures ThreadsOk(s')
  {
    match step
    case EnterEmit(r) => assert Threads(s) && WorkOk(s.db, s.works, r); EnterThreads(s, s.works[r].run.conv, Runner(r));
    case Emit(r, op) => EmitThreads(s, r, op, s');
    case EmitTransient(r, e) => EmitTransientThreads(s, r, e, s');
    case Stop(conv) => StopThreads(s, conv, s');
  }

  lemma EndThreads(s: State, step: EndStep, s': State)
    requires ThreadsOk(s) && NextEnd(s, step) == Some(s')
    ensures ThreadsOk(s')
  {
    match step
    case RunnerReturns(r) => RunnerReturnsThreads(s, r, s');
    case EnterEnd(r) => EnterThreads(s, s.works[r].run.conv, Ender(r));
    case Terminate(r, outcome, ids, now) =>
      var performed := TerminateFindsRunning(s, r, outcome, ids, now);
      TerminateThreads(s, r, performed, s');
    case ReleaseSlot(r) => EndedThreads(s, r, s');
    case NotifyEnded(r) => NotifyEndedThreads(s, r, s');
  }

  lemma SubmitThreads(s: State, step: SubmitStep, s': State)
    requires ThreadsOk(s) && NextSubmit(s, step) == Some(s')
    ensures ThreadsOk(s')
  {
    match step
    case BeginSubmit(t, conv, input) => NewReaderOwnsNothing(s, t); ReaderThreads(s, t, s');
    case EnterSubmit(t) => EnterThreads(s, s.readers[t].conv, Submitting(t));
    case AcceptInput(t, agent, revision, newId, now) =>
      var performed := AcceptInputStore(s, t, agent, revision, newId, now, s');
      SubmissionThreads(s, t, performed, s');
    case NotifySubmitted(t) => NotifySubmittedThreads(s, t, s');
    case EndRead(t) => EndReadThreads(s, t, s');
  }

  lemma WatchThreads(s: State, step: WatchStep, s': State)
    requires ThreadsOk(s) && NextWatch(s, step) == Some(s')
    ensures ThreadsOk(s')
  {
    match step
    case BeginWatch(t, conv, after) => NewReaderOwnsNothing(s, t); ReaderThreads(s, t, s');
    case EnterWatch(t) => EnterThreads(s, s.readers[t].conv, Subscribing(t));
    case ReadBacklog(t) => SectionThreads(s, s.readers[t].conv, s'.sections[s.readers[t].conv]);
    case Attach(t, id) => UnlockThreads(s, s.readers[t].conv, s');
  }

  /** Every step keeps the threads, their locks, the registry and the store
      in agreement. */
  lemma StepThreads(s: State, step: Step, s': State)
    requires ThreadsOk(s) && Next(s, step) == Some(s')
    ensures ThreadsOk(s')
  {
    match step
    case ClaimRun(runId, now) => ClaimRunThreads(s, runId, now, s');
    case InLoop(x) => LoopThreads(s, x, s');
    case InPublish(x) => PublishThreads(s, x, s');
    case InEmit(x) => EmitStepThreads(s, x, s');
    case InEnd(x) => EndThreads(s, x, s');
    case InSubmit(x) => SubmitThreads(s, x, s');
    case InWatch(x) => WatchThreads(s, x, s');
    case InOwner(x) => OwnerThreads(s, x, s');
    case InDelivery(x) => DeliveryThreads(s, x, s');
  }
}
