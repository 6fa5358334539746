/** How a run of the manager ends (runtime/scheduler.go, work): by what its
    runner returned, and by whether it was asked to stop while it was active. */
module ManagerEndings {
  import opened Wrappers
  import opened Events
  import opened Store
  import opened StoreInvariant
  import opened StoreMeaning
  import opened ManagerStore
  import opened Manager
  import opened ManagerInvariant
  import opened ManagerRuns

  // ------------------------------------------------------- what happened

  /** Step a registers run r. */
  ghost predicate Registers(s: State, steps: seq<Step>, a: nat, r: Id) {
    a < |steps| && steps[a] == InPublish(Register) && After(s, steps[..a]).sched.Holding? && After(s, steps[..a]).sched.claim.run.id == r
  }

  /** At step c the runner of r returns. */
  ghost predicate Returns(s: State, steps: seq<Step>, c: nat, r: Id) {
    c < |steps| && steps[c] == InEnd(RunnerReturns(r)) && Next(After(s, steps[..c]), steps[c]).Some?
  }

  /** Step b asks the active run of the conversation to stop. */
  ghost predicate Stops(s: State, steps: seq<Step>, b: nat, conv: Id) {
    b < |steps| && steps[b] == InEmit(Stop(conv)) && Next(After(s, steps[..b]), steps[b]).Some?
  }

  ghost predicate StopBetween(s: State, steps: seq<Step>, conv: Id, a: nat, c: nat) {
    exists b: nat :: a < b < c && Stops(s, steps, b, conv)
  }

  /** Since a, run r is registered and its runner has not returned. */
  ghost predicate ActiveSince(s: State, steps: seq<Step>, r: Id, a: nat) {
    Registers(s, steps, a, r) && forall x: nat | a < x :: !Registers(s, steps, x, r) && !Returns(s, steps, x, r)
  }

  /** Run r was last registered at a, and then its runner returned at c. */
  ghost predicate ActiveFromTo(s: State, steps: seq<Step>, r: Id, a: nat, c: nat) {
    && Registers(s, steps, a, r) && a < c && Returns(s, steps, c, r)
    && forall x: nat | a < x :: !Registers(s, steps, x, r) && (x != c ==> !Returns(s, steps, x, r))
  }

  /** The entry of r: since a, it was asked to stop exactly when it says so. */
  ghost predicate StopKnown(s: State, steps: seq<Step>, r: Id, conv: Id, stopped: bool) {
    exists a: nat :: ActiveSince(s, steps, r, a) && (stopped <==> StopBetween(s, steps, conv, a, |steps|))
  }

  /** What work read when the runner of r returned. */
  ghost predicate ReturnKnown(s: State, steps: seq<Step>, r: Id, conv: Id, stopped: bool) {
    exists a: nat, c: nat :: ActiveFromTo(s, steps, r, a, c) && (stopped <==> StopBetween(s, steps, conv, a, c))
  }

  // ----------------------------------------------------------- one more step

  lemma SameBefore(s: State, steps: seq<Step>, step: Step, x: nat, r: Id, conv: Id)
    requires x < |steps|
    ensures Registers(s, steps + [step], x, r) <==> Registers(s, steps, x, r)
    ensures Returns(s, steps + [step], x, r) <==> Returns(s, steps, x, r)
    ensures Stops(s, steps + [step], x, conv) <==> Stops(s, steps, x, conv)
  {
    assert (steps + [step])[..x] == steps[..x];
  }

  lemma AllSameBefore(s: State, steps: seq<Step>, step: Step, r: Id, conv: Id)
    ensures forall x: nat | x < |steps| :: Registers(s, steps + [step], x, r) <==> Registers(s, steps, x, r)
    ensures forall x: nat | x < |steps| :: Returns(s, steps + [step], x, r) <==> Returns(s, steps, x, r)
    ensures forall x: nat | x < |steps| :: Stops(s, steps + [step], x, conv) <==> Stops(s, steps, x, conv)
  {
    forall x: nat | x < |steps|
      ensures Registers(s, steps + [step], x, r) <==> Registers(s, steps, x, r)
      ensures Returns(s, steps + [step], x, r) <==> Returns(s, steps, x, r)
      ensures Stops(s, steps + [step], x, conv) <==> Stops(s, steps, x, conv)
    {
      SameBefore(s, steps, step, x, r, conv);
    }
  }

  /** The new step is none of r's. */
  ghost predicate NotOf(s: State, steps: seq<Step>, step: Step, r: Id) {
    !Registers(s, steps + [step], |steps|, r) && !Returns(s, steps + [step], |steps|, r)
  }

  lemma SinceStays(s: State, steps: seq<Step>, step: Step, r: Id, a: nat)
    requires ActiveSince(s, steps, r, a) && NotOf(s, steps, step, r)
    ensures ActiveSince(s, steps + [step], r, a)
  {
    AllSameBefore(s, steps, step, r, 0);
  }

  lemma StopsStay(s: State, steps: seq<Step>, step: Step, conv: Id, a: nat, c: nat)
    requires c <= |steps|
    ensures StopBetween(s, steps + [step], conv, a, c) <==> StopBetween(s, steps, conv, a, c)
  {
    AllSameBefore(s, steps, step, 0, conv);
    if StopBetween(s, steps, conv, a, c) {
      var b: nat :| a < b < c && Stops(s, steps, b, conv);
      assert Stops(s, steps + [step], b, conv);
    }
  }

  lemma OneMoreStop(s: State, steps: seq<Step>, step: Step, conv: Id, a: nat)
    requires a < |steps|
    ensures var longer := steps + [step];
            StopBetween(s, longer, conv, a, |longer|) <==> StopBetween(s, steps, conv, a, |steps|) || Stops(s, longer, |steps|, conv)
  {
    var longer := steps + [step];
    StopsStay(s, steps, step, conv, a, |steps|);
    if StopBetween(s, longer, conv, a, |steps|) {
      var b: nat :| a < b < |steps| && Stops(s, longer, b, conv);
      assert a < b < |longer|;
    }
  }

  lemma StopKnownStays(s: State, steps: seq<Step>, step: Step, r: Id, conv: Id, stopped: bool)
    requires StopKnown(s, steps, r, conv, stopped) && NotOf(s, steps, step, r)
    ensures StopKnown(s, steps + [step], r, conv, stopped || Stops(s, steps + [step], |steps|, conv))
  {
    var a: nat :| ActiveSince(s, steps, r, a) && (stopped <==> StopBetween(s, steps, conv, a, |steps|));
    SinceStays(s, steps, step, r, a);
    OneMoreStop(s, steps, step, conv, a);
  }

  lemma FromToStays(s: State, steps: seq<Step>, step: Step, r: Id, a: nat, c: nat)
    requires ActiveFromTo(s, steps, r, a, c) && NotOf(s, steps, step, r)
    ensures ActiveFromTo(s, steps + [step], r, a, c)
  {
    AllSameBefore(s, steps, step, r, 0);
  }

  lemma ReturnKnownStays(s: State, steps: seq<Step>, step: Step, r: Id, conv: Id, stopped: bool)
    requires ReturnKnown(s, steps, r, conv, stopped) && NotOf(s, steps, step, r)
    ensures ReturnKnown(s, steps + [step], r, conv, stopped)
  {
    var a: nat, c: nat :| ActiveFromTo(s, steps, r, a, c) && (stopped <==> StopBetween(s, steps, conv, a, c));
    FromToStays(s, steps, step, r, a, c);
    StopsStay(s, steps, step, conv, a, c);
  }

  lemma JustRegistered(s: State, steps: seq<Step>, step: Step, r: Id, conv: Id)
    requires Registers(s, steps + [step], |steps|, r)
    ensures StopKnown(s, steps + [step], r, conv, false)
  {
    assert ActiveSince(s, steps + [step], r, |steps|);
  }

  lemma JustReturned(s: State, steps: seq<Step>, step: Step, r: Id, conv: Id, stopped: bool)
    requires StopKnown(s, steps, r, conv, stopped) && Returns(s, steps + [step], |steps|, r)
    ensures ReturnKnown(s, steps + [step], r, conv, stopped)
  {
    var longer := steps + [step];
    var a: nat :| ActiveSince(s, steps, r, a) && (stopped <==> StopBetween(s, steps, conv, a, |steps|));
    AllSameBefore(s, steps, step, r, conv);
    StopsStay(s, steps, step, conv, a, |steps|);
    assert !Registers(s, longer, |steps|, r);
    assert ActiveFromTo(s, longer, r, a, |steps|);
  }

  // ------------------------------------------------------------ invariant

  /** What the registry says of a conversation is what happened. */
  ghost predicate EntryKnown(s: State, steps: seq<Step>, now: State, c: Id)
    requires c in now.registry
  {
    StopKnown(s, steps, now.registry[c].run.id, c, now.registry[c].stopped)
  }

  ghost predicate WorkKnown(s: State, steps: seq<Step>, now: State, r: Id)
    requires r in now.works
  {
    now.works[r].stage.Unregistered? ==> ReturnKnown(s, steps, r, now.works[r].run.conv, now.works[r].stage.stopped)
  }

  ghost predicate HistoryKnown(s: State, steps: seq<Step>, now: State) {
    && (forall c | c in now.registry :: EntryKnown(s, steps, now, c))
    && (forall r | r in now.works :: WorkKnown(s, steps, now, r))
  }

  /** Steps that leave the registry alone, and returned runners where they are. */
  predicate Aside(e: State, e': State) {
    && e'.registry == e.registry
    && forall r | r in e'.works && e'.works[r].stage.Unregistered? :: r in e.works && e.works[r] == e'.works[r]
  }

  predicate Registering(step: Step) {
    step == InPublish(Register) || (step.InEnd? && step.n.RunnerReturns?) || (step.InEmit? && step.m.Stop?)
  }

  lemma LoopAside(e: State, step: LoopStep, e': State)
    requires NextLoop(e, step) == Some(e')
    ensures Aside(e, e')
  {
    LoopMoves(e, step, e');
    PlainAside(e, e');
  }

  lemma PlainAside(e: State, e': State)
    requires PlainMove(e, e')
    ensures Aside(e, e')
  {
  }

  lemma PublishAside(e: State, step: PublishStep, e': State)
    requires NextPublish(e, step) == Some(e') && !step.Register?
    ensures Aside(e, e')
  {
  }

  lemma EmitAside(e: State, step: EmitStep, e': State)
    requires NextEmit(e, step) == Some(e') && !step.Stop?
    ensures Aside(e, e')
  {
    match step
    case EnterEmit(_) =>
    case Emit(r, op) => TransactAside(e, e, e.works[r].run.conv, Runner(r), EmitTx(e.db, op));
    case EmitTransient(_, _) =>
    case Stop(_) =>
  }

  lemma EnterEndAside(e: State, r: Id, e': State)
    requires DoEnterEnd(e, r) == Some(e')
    ensures Aside(e, e')
  {
  }

  lemma TransactAside(e: State, e1: State, conv: Id, owner: Owner, performed: Performed)
    requires Aside(e, e1)
    ensures Aside(e, Transact(e1, conv, owner, performed))
  {
  }

  lemma TerminateAside(e: State, r: Id, performed: Performed)
    requires r in e.works
    ensures Aside(e, Transact(e.(works := e.works[r := e.works[r].(stage := Ended)]), e.works[r].run.conv, Ender(r), performed))
  {
    TransactAside(e, e.(works := e.works[r := e.works[r].(stage := Ended)]), e.works[r].run.conv, Ender(r), performed);
  }

  lemma SlotAside(e: State, r: Id, e': State)
    requires DoReleaseSlot(e, r) == Some(e') || DoNotifyEnded(e, r) == Some(e')
    ensures Aside(e, e')
  {
  }

  lemma EndAside(e: State, step: EndStep, e': State)
    requires NextEnd(e, step) == Some(e') && !step.RunnerReturns?
    ensures Aside(e, e')
  {
    match step
    case EnterEnd(r) => EnterEndAside(e, r, e');
    case Terminate(r, outcome, ids, now) =>
      TerminateAside(e, r, TerminalTx(e.db, e.works[r].run, e.works[r].stage.stopped, outcome, ids, now));
    case ReleaseSlot(r) => SlotAside(e, r, e');
    case NotifyEnded(r) => SlotAside(e, r, e');
  }

  lemma SubmitAside(e: State, step: SubmitStep, e': State)
    requires NextSubmit(e, step) == Some(e')
    ensures Aside(e, e')
  {
    match step
    case AcceptInput(t, agent, revision, newId, now) => AcceptAside(e, t, agent, revision, newId, now, e');
    case _ =>
  }

  lemma AcceptAside(e: State, t: Thread, agent: string, revision: string, newId: NewId, now: Time, e': State)
    requires DoAcceptInput(e, t, agent, revision, newId, now) == Some(e')
    ensures Aside(e, e')
  {
  }

  lemma WatchAside(e: State, step: WatchStep, e': State)
    requires NextWatch(e, step) == Some(e')
    ensures Aside(e, e')
  {
  }

  lemma OwnerAside(e: State, step: OwnerStep, e': State)
    requires NextOwner(e, step) == Some(e')
    ensures Aside(e, e')
  {
  }

  lemma DeliveryAside(e: State, step: DeliveryStep, e': State)
    requires NextDelivery(e, step) == Some(e')
    ensures Aside(e, e')
  {
  }

  lemma TookAside(e: State, claiming: Claiming, e': State)
    requires Took(e, claiming) == Some(e')
    ensures Aside(e, e')
  {
  }

  lemma ClaimAside(e: State, runId: NewId, now: Time, e': State)
    requires DoClaimRun(e, runId, now) == Some(e')
    ensures Aside(e, e')
  {
    TookAside(e, ClaimTx(e.db, runId, now), e');
  }

  lemma StepAside(e: State, step: Step, e': State)
    requires Next(e, step) == Some(e') && !Registering(step)
    ensures Aside(e, e')
  {
    match step
    case ClaimRun(runId, now) => ClaimAside(e, runId, now, e');
    case InLoop(x) => LoopAside(e, x, e');
    case InPublish(x) => PublishAside(e, x, e');
    case InEmit(x) => EmitAside(e, x, e');
    case InEnd(x) => EndAside(e, x, e');
    case InSubmit(x) => SubmitAside(e, x, e');
    case InWatch(x) => WatchAside(e, x, e');
    case InOwner(x) => OwnerAside(e, x, e');
    case InDelivery(x) => DeliveryAside(e, x, e');
  }

  // ---------------------------------------------------------------- steps

  lemma AsideKeeps(s: State, steps: seq<Step>, step: Step, e: State, e': State)
    requires HistoryKnown(s, steps, e) && Aside(e, e') && After(s, steps) == e
    requires forall r :: NotOf(s, steps, step, r)
    requires forall c :: !Stops(s, steps + [step], |steps|, c)
    ensures HistoryKnown(s, steps + [step], e')
  {
    forall c | c in e'.registry
      ensures EntryKnown(s, steps + [step], e', c)
    {
      assert EntryKnown(s, steps, e, c);
      StopKnownStays(s, steps, step, e.registry[c].run.id, c, e.registry[c].stopped);
    }
    forall r | r in e'.works
      ensures WorkKnown(s, steps + [step], e', r)
    {
      WorkStays(s, steps, step, e, e', r);
    }
  }

  lemma EntryStays(s: State, steps: seq<Step>, step: Step, e: State, e': State, c: Id)
    requires c in e.registry && c in e'.registry && e'.registry[c] == e.registry[c] && EntryKnown(s, steps, e, c)
    requires NotOf(s, steps, step, e.registry[c].run.id) && !Stops(s, steps + [step], |steps|, c)
    ensures EntryKnown(s, steps + [step], e', c)
  {
    StopKnownStays(s, steps, step, e.registry[c].run.id, c, e.registry[c].stopped);
  }

  lemma WorkStays(s: State, steps: seq<Step>, step: Step, e: State, e': State, r: Id)
    requires r in e'.works && NotOf(s, steps, step, r)
    requires e'.works[r].stage.Unregistered? ==> r in e.works && e.works[r] == e'.works[r] && WorkKnown(s, steps, e, r)
    ensures WorkKnown(s, steps + [step], e', r)
  {
    if e'.works[r].stage.Unregistered? {
      ReturnKnownStays(s, steps, step, r, e'.works[r].run.conv, e'.works[r].stage.stopped);
    }
  }

  /** A step that is none of the three that concern the registry. */
  lemma PlainKeeps(s: State, steps: seq<Step>, step: Step, e: State, e': State)
    requires HistoryKnown(s, steps, e) && After(s, steps) == e && Next(e, step) == Some(e') && !Registering(step)
    ensures HistoryKnown(s, steps + [step], e')
  {
    StepAside(e, step, e');
    PlainIsNone(s, steps, step);
    AsideKeeps(s, steps, step, e, e');
  }

  lemma PlainIsNone(s: State, steps: seq<Step>, step: Step)
    requires !Registering(step)
    ensures forall r :: NotOf(s, steps, step, r)
    ensures forall c :: !Stops(s, steps + [step], |steps|, c)
  {
  }

  /** A step that cannot happen changes nothing. */
  lemma IdleKeeps(s: State, steps: seq<Step>, step: Step, e: State)
    requires HistoryKnown(s, steps, e) && After(s, steps) == e && Next(e, step).None?
    ensures HistoryKnown(s, steps + [step], e)
  {
    assert (steps + [step])[..|steps|] == steps;
    assert step == InPublish(Register) ==> !e.sched.Holding?;
    AsideKeeps(s, steps, step, e, e);
  }

  lemma RegisterOf(s: State, steps: seq<Step>, e: State, r: Id)
    requires After(s, steps) == e && e.sched.Holding?
    ensures var longer := steps + [InPublish(Register)];
            && (Registers(s, longer, |steps|, r) <==> r == e.sched.claim.run.id)
            && !Returns(s, longer, |steps|, r) && !Stops(s, longer, |steps|, r)
  {
    assert (steps + [InPublish(Register)])[..|steps|] == steps;
  }

  /** The run that is registered has no entry and no work yet. */
  lemma RegisterIsNew(e: State)
    requires ThreadsOk(e) && e.sched.Holding?
    ensures e.sched.claim.run.id !in e.works
    ensures forall c | c in e.registry :: e.registry[c].run.id != e.sched.claim.run.id
  {
    assert Threads(e);
    forall c | c in e.registry
      ensures e.registry[c].run.id != e.sched.claim.run.id
    {
      assert EntryOk(e.registry, e.works, e.sched, c);
    }
  }

  lemma RegisterKeeps(s: State, steps: seq<Step>, e: State, e': State)
    requires ThreadsOk(e) && HistoryKnown(s, steps, e) && After(s, steps) == e && DoRegister(e) == Some(e')
    ensures HistoryKnown(s, steps + [InPublish(Register)], e')
  {
    var step := InPublish(Register);
    var id, conv := e.sched.claim.run.id, e.sched.claim.run.conv;
    RegisterIsNew(e);
    forall c | c in e'.registry
      ensures EntryKnown(s, steps + [step], e', c)
    {
      RegisterOf(s, steps, e, e'.registry[c].run.id);
      RegisterOf(s, steps, e, c);
      if c == conv {
        JustRegistered(s, steps, step, id, conv);
      } else {
        assert EntryKnown(s, steps, e, c);
        StopKnownStays(s, steps, step, e.registry[c].run.id, c, e.registry[c].stopped);
      }
    }
    forall r | r in e'.works
      ensures WorkKnown(s, steps + [step], e', r)
    {
      RegisterOf(s, steps, e, r);
      assert WorkKnown(s, steps, e, r);
      WorkStays(s, steps, step, e, e', r);
    }
  }

  lemma StopOf(s: State, steps: seq<Step>, e: State, conv: Id, c: Id)
    requires After(s, steps) == e && conv in e.registry
    ensures NotOf(s, steps, InEmit(Stop(conv)), c)
    ensures Stops(s, steps + [InEmit(Stop(conv))], |steps|, c) <==> c == conv
  {
    assert (steps + [InEmit(Stop(conv))])[..|steps|] == steps;
  }

  lemma StopKeeps(s: State, steps: seq<Step>, conv: Id, e: State, e': State)
    requires HistoryKnown(s, steps, e) && After(s, steps) == e && DoStop(e, conv) == Some(e')
    ensures HistoryKnown(s, steps + [InEmit(Stop(conv))], e')
  {
    var step := InEmit(Stop(conv));
    forall c | c in e'.registry
      ensures EntryKnown(s, steps + [step], e', c)
    {
      StopOf(s, steps, e, conv, e.registry[c].run.id);
      StopOf(s, steps, e, conv, c);
      assert EntryKnown(s, steps, e, c);
      StopKnownStays(s, steps, step, e.registry[c].run.id, c, e.registry[c].stopped);
    }
    forall r | r in e'.works
      ensures WorkKnown(s, steps + [step], e', r)
    {
      StopOf(s, steps, e, conv, r);
      assert WorkKnown(s, steps, e, r);
      WorkStays(s, steps, step, e, e', r);
    }
  }

  lemma ReturnOf(s: State, steps: seq<Step>, e: State, q: Id, r: Id)
    requires After(s, steps) == e && Next(e, InEnd(RunnerReturns(q))).Some?
    ensures var longer := steps + [InEnd(RunnerReturns(q))];
            && !Registers(s, longer, |steps|, r) && !Stops(s, longer, |steps|, r)
            && (Returns(s, longer, |steps|, r) <==> r == q)
  {
    assert (steps + [InEnd(RunnerReturns(q))])[..|steps|] == steps;
  }

  /** Only its own entry is of the run whose runner returns. */
  lemma OneEntry(e: State, q: Id)
    requires ThreadsOk(e) && q in e.works && e.works[q].stage.Executing?
    ensures forall c | c in e.registry && c != e.works[q].run.conv :: e.registry[c].run.id != q
  {
    assert Threads(e);
    forall c | c in e.registry && c != e.works[q].run.conv
      ensures e.registry[c].run.id != q
    {
      assert EntryOk(e.registry, e.works, e.sched, c) && WorkOk(e.db, e.works, q);
    }
  }

  lemma ReturnIsNotOf(s: State, steps: seq<Step>, q: Id, r: Id, c: Id)
    requires r != q
    ensures NotOf(s, steps, InEnd(RunnerReturns(q)), r) && !Stops(s, steps + [InEnd(RunnerReturns(q))], |steps|, c)
  {
  }

  lemma ReturnEntries(s: State, steps: seq<Step>, q: Id, conv: Id, e: State, e': State, c: Id)
    requires e'.registry == e.registry - {conv} && c in e'.registry && e.registry[c].run.id != q
    requires EntryKnown(s, steps, e, c)
    ensures EntryKnown(s, steps + [InEnd(RunnerReturns(q))], e', c)
  {
    ReturnIsNotOf(s, steps, q, e.registry[c].run.id, c);
    EntryStays(s, steps, InEnd(RunnerReturns(q)), e, e', c);
  }

  lemma ReturnedShape(e: State, q: Id, e': State)
    requires DoRunnerReturns(e, q) == Some(e')
    ensures q in e.works && e.works[q].stage.Executing?
    ensures e'.registry == e.registry - {e.works[q].run.conv} && e.works[q].run.conv in e.registry
    ensures e'.works == e.works[q := e.works[q].(stage := Unregistered(e.registry[e.works[q].run.conv].stopped))]
  {
  }

  lemma ReturnedWork(s: State, steps: seq<Step>, q: Id, e: State, e': State)
    requires ThreadsOk(e) && After(s, steps) == e && DoRunnerReturns(e, q) == Some(e')
    requires forall c | c in e.registry :: EntryKnown(s, steps, e, c)
    ensures q in e'.works && WorkKnown(s, steps + [InEnd(RunnerReturns(q))], e', q)
  {
    var step := InEnd(RunnerReturns(q));
    ReturnedShape(e, q, e');
    OwnEntry(e, q);
    var conv := e.works[q].run.conv;
    assert EntryKnown(s, steps, e, conv);
    ReturnOf(s, steps, e, q, q);
    JustReturned(s, steps, step, q, conv, e.registry[conv].stopped);
  }

  lemma OtherWork(s: State, steps: seq<Step>, q: Id, e: State, e': State, r: Id)
    requires r != q && r in e.works && r in e'.works && e'.works[r] == e.works[r] && WorkKnown(s, steps, e, r)
    ensures WorkKnown(s, steps + [InEnd(RunnerReturns(q))], e', r)
  {
    ReturnIsNotOf(s, steps, q, r, 0);
    WorkStays(s, steps, InEnd(RunnerReturns(q)), e, e', r);
  }

  lemma ReturnKeeps(s: State, steps: seq<Step>, q: Id, e: State, e': State)
    requires ThreadsOk(e) && HistoryKnown(s, steps, e) && After(s, steps) == e && DoRunnerReturns(e, q) == Some(e')
    ensures HistoryKnown(s, steps + [InEnd(RunnerReturns(q))], e')
  {
    ReturnedShape(e, q, e');
    OneEntry(e, q);
    forall c | c in e'.registry
      ensures EntryKnown(s, steps + [InEnd(RunnerReturns(q))], e', c)
    {
      ReturnEntries(s, steps, q, e.works[q].run.conv, e, e', c);
    }
    forall r | r in e'.works
      ensures WorkKnown(s, steps + [InEnd(RunnerReturns(q))], e', r)
    {
      if r == q {
        ReturnedWork(s, steps, q, e, e');
      } else {
        OtherWork(s, steps, q, e, e', r);
      }
    }
  }

  lemma OwnEntry(e: State, q: Id)
    requires ThreadsOk(e) && q in e.works && e.works[q].stage.Executing?
    ensures e.works[q].run.conv in e.registry && e.registry[e.works[q].run.conv].run.id == q
  {
    ReturnsItsOwn(e, q);
    assert Threads(e) && WorkOk(e.db, e.works, q);
  }

  lemma StepKnown(s: State, steps: seq<Step>, step: Step, e: State, e': State)
    requires ThreadsOk(e) && HistoryKnown(s, steps, e) && After(s, steps) == e && Next(e, step) == Some(e')
    ensures HistoryKnown(s, steps + [step], e')
  {
    if step == InPublish(Register) {
      RegisterKeeps(s, steps, e, e');
    } else if step.InEnd? && step.n.RunnerReturns? {
      ReturnKeeps(s, steps, step.n.r, e, e');
    } else if step.InEmit? && step.m.Stop? {
      StopKeeps(s, steps, step.m.conv, e, e');
    } else {
      PlainKeeps(s, steps, step, e, e');
    }
  }

  lemma ThreadsAfter(s: State, steps: seq<Step>)
    requires Initial(s) && StoreOk(s.db)
    ensures ThreadsOk(After(s, steps))
  {
    RunsGood(s, steps);
  }

  lemma {:induction false} RunKnown(s: State, steps: seq<Step>)
    requires Initial(s) && StoreOk(s.db)
    ensures HistoryKnown(s, steps, After(s, steps))
    decreases |steps|
  {
    if steps != [] {
      var n := |steps| - 1;
      var e := After(s, steps[..n]);
      RunKnown(s, steps[..n]);
      ThreadsAfter(s, steps[..n]);
      assert steps == steps[..n] + [steps[n]];
      OneMoreKnown(s, steps[..n], steps[n], e);
    }
  }

  lemma OneMoreKnown(s: State, steps: seq<Step>, step: Step, e: State)
    requires ThreadsOk(e) && HistoryKnown(s, steps, e) && After(s, steps) == e
    ensures HistoryKnown(s, steps + [step], After(s, steps + [step]))
  {
    assert (steps + [step])[..|steps|] == steps;
    if Next(e, step).Some? {
      StepKnown(s, steps, step, e, Next(e, step).value);
    } else {
      IdleKeeps(s, steps, step, e);
    }
  }

  // -------------------------------------------------------------- theorem

  /** A Stop for its conversation took effect between the last registration of
      the run and the return of its runner. */
  ghost predicate WasStopped(s: State, steps: seq<Step>, r: Id, conv: Id) {
    exists a: nat, c: nat :: ActiveFromTo(s, steps, r, a, c) && StopBetween(s, steps, conv, a, c)
  }

  lemma OneActivity(s: State, steps: seq<Step>, r: Id, a: nat, c: nat, x: nat, y: nat)
    requires ActiveFromTo(s, steps, r, a, c) && ActiveFromTo(s, steps, r, x, y)
    ensures a == x && c == y
  {
    assert a < x ==> !Registers(s, steps, x, r);
    assert x < a ==> !Registers(s, steps, a, r);
  }

  lemma StoppedMeans(s: State, steps: seq<Step>, r: Id, conv: Id, stopped: bool)
    requires ReturnKnown(s, steps, r, conv, stopped)
    ensures stopped <==> WasStopped(s, steps, r, conv)
  {
    var a: nat, c: nat :| ActiveFromTo(s, steps, r, a, c) && (stopped <==> StopBetween(s, steps, conv, a, c));
    if WasStopped(s, steps, r, conv) {
      var x: nat, y: nat :| ActiveFromTo(s, steps, r, x, y) && StopBetween(s, steps, conv, x, y);
      OneActivity(s, steps, r, a, c, x, y);
    }
  }

  /** The run's row, and the last of the events, say how it ended. */
  ghost predicate EndedWith(db: Db, events: seq<Event>, r: Id, status: RunStatus, error: string) {
    && r in db.rows.runs && db.rows.runs[r].status == status && db.rows.runs[r].error == error
    && events != []
    && match events[|events| - 1].body
       case RunCompleted(run) => status == Completed && run.id == r
       case RunFailed(run) => status == Failed && run.id == r && run.error == error
       case RunStopped(run) => status == Stopped && run.id == r
       case _ => false
  }

  /** How the run of work ends. */
  ghost predicate EndsAs(db: Db, events: seq<Event>, r: Id, outcome: RunOutcome, stopped: bool) {
    match outcome
    case Answered(_) => EndedWith(db, events, r, Completed, "")
    case Errored(message) =>
      if stopped then EndedWith(db, events, r, Stopped, "stopped by request") else EndedWith(db, events, r, Failed, message)
  }

  lemma FinishEndsAs(db: Db, run: Run, answer: string, id: NewId, now: Time, db': Db, events: seq<Event>)
    requires StoreOk(db) && RunLive(db, run) && FinishRun(db, run, answer, id, now) == Ok((db', events))
    ensures EndedWith(db', events, run.id, Completed, "")
  {
    FinishMeans(db, run, answer, id, now, db', events);
  }

  lemma EndEndsAs(db: Db, run: Run, ending: Ending, ids: nat -> NewId, now: Time, db': Db, events: seq<Event>)
    requires StoreOk(db) && RunLive(db, run) && EndRun(db, run, ending, ids, now) == Ok((db', events))
    ensures ending.RunStop? ==> EndedWith(db', events, run.id, Stopped, "stopped by request")
    ensures ending.RunFailure? ==> EndedWith(db', events, run.id, Failed, ending.message)
  {
    EndMeans(db, run, ending, ids, now, db', events);
  }

  lemma TerminalEndsAs(db: Db, run: Run, stopped: bool, outcome: RunOutcome, ids: nat -> NewId, now: Time, db': Db, events: seq<Event>)
    requires StoreOk(db) && RunLive(db, run) && TerminalTx(db, run, stopped, outcome, ids, now) == Done(db', events)
    ensures EndsAs(db', events, run.id, outcome, stopped)
  {
    match outcome
    case Answered(answer) => FinishEndsAs(db, run, answer, ids(0), now, db', events);
    case Errored(message) => EndEndsAs(db, run, if stopped then RunStop else RunFailure(message), ids, now, db', events);
  }

  lemma ReturnedIsLive(e: State, r: Id)
    requires ThreadsOk(e) && r in e.works && e.works[r].stage.Unregistered?
    ensures StoreOk(e.db) && RunLive(e.db, e.works[r].run) && e.works[r].run.id == r
  {
    assert Threads(e) && WorkOk(e.db, e.works, r);
  }

  lemma TransactedShape(e: State, e1: State, conv: Id, owner: Owner, performed: Performed, e': State)
    requires e1.db == e.db && e' == Transact(e1, conv, owner, performed) && e'.db != e.db
    ensures performed.Done? && e'.db == performed.db && conv in e'.sections
    ensures e'.sections[conv].Broadcast? && e'.sections[conv].unsent == performed.events
  {
  }

  lemma AtTerminate(e: State, r: Id, outcome: RunOutcome, ids: nat -> NewId, now: Time, e': State)
    requires ThreadsOk(e) && DoTerminate(e, r, outcome, ids, now) == Some(e') && e'.db != e.db
    ensures r in e.works && e.works[r].stage.Unregistered? && e.works[r].run.conv in e'.sections
    ensures var section := e'.sections[e.works[r].run.conv];
            section.Broadcast? && EndsAs(e'.db, section.unsent, r, outcome, e.works[r].stage.stopped)
  {
    var work := e.works[r];
    var performed := TerminalTx(e.db, work.run, work.stage.stopped, outcome, ids, now);
    ReturnedIsLive(e, r);
    TransactedShape(e, e.(works := e.works[r := work.(stage := Ended)]), work.run.conv, Ender(r), performed, e');
    TerminalEndsAs(e.db, work.run, work.stage.stopped, outcome, ids, now, performed.db, performed.events);
  }

  /** Over every run of the manager, when work's terminal call commits: the run
      is Completed if and only if its runner answered; otherwise it is Stopped
      if and only if it was asked to stop between its registration and the
      return of its runner; otherwise it is Failed with the runner's message.
      The last event handed to the subscribers says the same. */
  lemma RunEndsAsAsked(s: State, steps: seq<Step>, r: Id, outcome: RunOutcome, ids: nat -> NewId, now: Time, e': State)
    requires Initial(s) && StoreOk(s.db)
    requires Next(After(s, steps), InEnd(Terminate(r, outcome, ids, now))) == Some(e') && e'.db != After(s, steps).db
    ensures var e := After(s, steps);
            && r in e.works && e.works[r].run.conv in e'.sections && e'.sections[e.works[r].run.conv].Broadcast?
            && EndsAs(e'.db, e'.sections[e.works[r].run.conv].unsent, r, outcome, WasStopped(s, steps, r, e.works[r].run.conv))
  {
    var e := After(s, steps);
    ThreadsAfter(s, steps);
    RunKnown(s, steps);
    AtTerminate(e, r, outcome, ids, now, e');
    assert WorkKnown(s, steps, e, r);
    StoppedMeans(s, steps, r, e.works[r].run.conv, e.works[r].stage.stopped);
  }

  // ---------------------------------------------------- other transactions

  /** What a runner emits is the store operation of that kind. It appends one
      entry to the log of the run's conversation, and that entry, unless it is
      private, is what subscribers are handed. */
  lemma EmitsItsOwn(db: Db, run: Run, op: Op, db': Db, events: seq<Event>)
    requires EmitOp(op, run) && EmitTx(db, op) == Done(db', events)
    ensures Apply(db, op) == Ok(db')
    ensures exists e: Event :: Appended(db, db', run.conv, [e]) && events == (if e.body.AgentFact? then [] else [e])
                               && (e.body.AgentFact? <==> op.OpAgent?)
  {
    match op
    case OpCommit(_, parts, id, now) => EmitsTurn(db, run, parts, id, now, db', events[0]);
    case OpCompleteTool(_, result, id, now) => EmitsOutcome(db, run, result, if result.ok then Succeeded else Faulted, id, now, db', events[0]);
    case OpDenyTool(_, result, id, now) => EmitsOutcome(db, run, result, Denied, id, now, db', events[0]);
    case OpProgress(_, step, message, now) => EmitsProgress(db, run, step, message, now, db', events[0]);
    case OpAgent(_, name, now) => EmitsAgent(db, run, name, now, db', AppendAgent(db, run, name, now).value.1);
  }

  lemma EmitsTurn(db: Db, run: Run, parts: seq<Part>, id: NewId, now: Time, db': Db, event: Event)
    requires CommitTurn(db, run, parts, id, now) == Ok((db', event))
    ensures Appended(db, db', run.conv, [event]) && event.body.AssistantCommitted?
  {
    CommitMeans(db, run, parts, id, now, db', event);
  }

  lemma EmitsProgress(db: Db, run: Run, step: string, message: string, now: Time, db': Db, event: Event)
    requires AppendProgress(db, run, step, message, now) == Ok((db', event))
    ensures Appended(db, db', run.conv, [event]) && event.body.EnvironmentProgress?
  {
    NoteMeans(db, run, step, message, "", now);
  }

  lemma EmitsAgent(db: Db, run: Run, name: string, now: Time, db': Db, event: Event)
    requires AppendAgent(db, run, name, now) == Ok((db', event))
    ensures Appended(db, db', run.conv, [event]) && event.body.AgentFact?
  {
    NoteMeans(db, run, "", "", name, now);
  }

  lemma EmitsOutcome(db: Db, run: Run, result: ToolResult, status: ToolStatus, id: NewId, now: Time, db': Db, event: Event)
    requires FinishTool(db, run, result, status, id, now) == Ok((db', event))
    ensures Appended(db, db', run.conv, [event]) && event.body.ToolOutcomeRecorded?
  {
    OutcomeMeans(db, run, result, status, id, now, db', event);
  }

  lemma AcceptsItsOwn(db: Db, conv: Id, input: InputSubmission, id: NewId, now: Time, db': Db, events: seq<Event>)
    requires AcceptTx(db, conv, input, id, now) == Done(db', events)
    ensures Apply(db, OpAccept(conv, input, id, now)) == Ok(db')
    ensures (events == [] && db' == db) || (|events| == 1 && Appended(db, db', conv, events) && events[0].body.InputAccepted?)
  {
    AcceptMeans(db, conv, input, id, now, db', Accept(db, conv, input, id, now).value.1);
  }
}
