/** What the runs of a placement come to: the files a session opens on, what
    moves the current checkpoint, and what an undisturbed start, close and
    restore each leave. */
module PlacementOutcomes {
  import opened Wrappers
  import opened Events
  import opened Placement
  import opened PlacementSafety

  // ----------------------------------------------- whose record it is

  predicate RecordsRun(w: World, run: Id, template: Id, network: bool, id: Id) {
    && w.record.Some? && w.record.value.sandbox == id
    && w.record.value.template == template && w.record.value.network == network
    && (w.record.value.status == Active ==> w.record.value.run == run)
  }

  predicate Matches(r: Record, template: Id, network: bool) {
    r.template == template && r.network == network
  }

  /** A run uses only a sandbox of the template and network it asked for. */
  predicate Tied(w: World, actor: Actor) {
    match actor
    case Starting(run, template, network, start) =>
      (match start
       case Connecting(r) => Matches(r, template, network)
       case Reconnected(r) => Matches(r, template, network)
       case Hosting(id) => RecordsRun(w, run, template, network, id)
       case _ => true)
    case InSession(run, template, network, id, _, _) => RecordsRun(w, run, template, network, id)
    case _ => true
  }

  lemma StartTies(s: State, step: StartStep)
    requires Inv(s) && Tied(s.w, s.actor) && NextStart(s, step).Some?
    ensures Tied(NextStart(s, step).value.w, NextStart(s, step).value.actor)
  {
  }

  lemma SessionTies(s: State, step: SessionStep)
    requires Inv(s) && Tied(s.w, s.actor) && NextSession(s, step).Some?
    ensures Tied(NextSession(s, step).value.w, NextSession(s, step).value.actor)
  {
  }

  lemma JanitorTies(s: State, step: JanitorStep)
    requires Inv(s) && Tied(s.w, s.actor) && NextJanitor(s, step).Some?
    ensures Tied(NextJanitor(s, step).value.w, NextJanitor(s, step).value.actor)
  {
  }

  lemma StepTies(s: State, step: Step)
    requires Inv(s) && Tied(s.w, s.actor) && Next(s, step).Some?
    ensures Tied(Next(s, step).value.w, Next(s, step).value.actor)
  {
    match step
    case ByStart(x) => StartTies(s, x);
    case BySession(x) => SessionTies(s, x);
    case ByRestore(x) =>
    case ByJanitor(x) => JanitorTies(s, x);
    case Outside(x) =>
  }

  lemma {:induction false} RunsTie(s: State, steps: seq<Step>)
    requires Initial(s)
    ensures Tied(After(s, steps).w, After(s, steps).actor)
    decreases |steps|
  {
    if steps != [] {
      var n := |steps| - 1;
      RunsTie(s, steps[..n]);
      RunsKeep(s, steps[..n]);
      if Next(After(s, steps[..n]), steps[n]).Some? {
        StepTies(After(s, steps[..n]), steps[n]);
      }
    }
  }

  /** A session opens on the files of the current checkpoint, in a sandbox of
      the template and network its run asked for, which its record reserves
      for that run. */
  lemma SessionOpensOnCurrent(s: State, steps: seq<Step>, step: Step)
    requires Initial(s) && Next(After(s, steps), step).Some?
    requires !After(s, steps).actor.InSession? && Next(After(s, steps), step).value.actor.InSession?
    ensures var before, after := After(s, steps), Next(After(s, steps), step).value;
            var id := after.actor.sandbox;
            && before.actor.Starting? && after.actor.session == Open
            && after.actor.run == before.actor.run
            && after.actor.template == before.actor.template && after.actor.network == before.actor.network
            && RecordsRun(after.w, after.actor.run, after.actor.template, after.actor.network, id)
            && after.w.record.value.status == Active
            && id !in after.w.loose
            && (id in after.w.sandboxes ==> after.w.current == Some(after.w.sandboxes[id]))
  {
    RunsKeep(s, steps);
    RunsTie(s, steps);
  }

  // ------------------------------------------- what moves the checkpoint

  /** The sandbox as it was downloaded, while its checkpoint is recorded. */
  predicate ArchivedNow(s: State, content: Content) {
    && s.actor.InSession? && s.actor.session.Archived? && s.actor.session.body == content
    && (s.actor.sandbox in s.w.sandboxes ==> s.w.sandboxes[s.actor.sandbox] == content)
  }

  /** Only three things move the current checkpoint: a session's checkpoint,
      to the files of its sandbox; a restore, to its target; and the first
      placement of a workspace that has none. */
  lemma CurrentMoves(s: State, steps: seq<Step>, step: Step)
    requires Initial(s) && Next(After(s, steps), step).Some?
    ensures var before, after := After(s, steps), Next(After(s, steps), step).value;
            match step
            case BySession(Persist(true)) => after.w.current.Some? && ArchivedNow(before, after.w.current.value)
            case ByRestore(RecordRestore(true)) => before.actor.Restoring? && after.w.current == Some(before.actor.target)
            case ByStart(Place(checkout, recorded, _)) =>
              if before.w.current.None? && recorded && before.actor.Starting? && before.actor.start.Placing?
                 && before.actor.start.id in before.w.sandboxes
              then after.w.current == Some(checkout)
              else after.w.current == before.w.current
            case _ => after.w.current == before.w.current
  {
    RunsKeep(s, steps);
    match step
    case ByStart(x) =>
      if !x.Place? {
        StartMoves(After(s, steps), x);
      }
    case BySession(x) =>
      if x != Persist(true) {
        SessionMoves(After(s, steps), x);
      }
    case _ =>
  }

  lemma StartMoves(s: State, step: StartStep)
    requires NextStart(s, step).Some? && !step.Place?
    ensures NextStart(s, step).value.w.current == s.w.current
  {
  }

  lemma SessionMoves(s: State, step: SessionStep)
    requires NextSession(s, step).Some? && step != Persist(true)
    ensures NextSession(s, step).value.w.current == s.w.current
  {
  }

  // ------------------------------------------------- undisturbed runs

  /** The next step of a run in which every step is taken. */
  function Then(s: Option<State>, step: Step): Option<State> {
    if s.Some? then Next(s.value, step) else None
  }

  predicate Quiet(s: State) {
    s.actor.NoOne? && s.janitor.Resting?
  }

  /** A run that finds an idle sandbox of its template and network goes on in
      it. */
  lemma IdleIsReused(s: State, run: Id, template: Id, network: bool, timeout: nat)
    requires Quiet(s) && s.w.record.Some? && s.w.record.value.status == Idle && s.w.record.value.sandbox in s.w.sandboxes
    requires s.w.record.value.template == template && s.w.record.value.network == network
    ensures var begun := Then(Then(Some(s), ByStart(BeginStart(run, template, network))), ByStart(ReadRecord));
            var resumed := Then(Then(begun, ByStart(Connect(Done))), ByStart(SaveResumed(true, timeout)));
            var id := s.w.record.value.sandbox;
            Then(resumed, ByStart(StartHost(true))) ==
            Some(State(s.w.(record := Some(Record(id, template, network, Active, run, 0, s.w.now + timeout))),
                       InSession(run, template, network, id, false, Open), Resting))
  {
    var begun := Then(Then(Some(s), ByStart(BeginStart(run, template, network))), ByStart(ReadRecord));
    assert begun == Some(s.(actor := Starting(run, template, network, Connecting(s.w.record.value))));
  }

  /** A run without a recorded sandbox gets a new one that holds the current
      checkpoint. */
  lemma NewHoldsCheckpoint(s: State, run: Id, template: Id, network: bool, timeout: nat, id: Id, seed: Content, checkout: Content)
    requires Quiet(s) && s.w.record.None? && s.w.current.Some? && id !in s.w.sandboxes && id !in s.w.loose
    ensures var begun := Then(Then(Some(s), ByStart(BeginStart(run, template, network))), ByStart(ReadRecord));
            var placed := Then(Then(begun, ByStart(Create(id, seed, true))), ByStart(Place(checkout, true, true)));
            Then(Then(placed, ByStart(SaveActive(true, timeout))), ByStart(StartHost(true))) ==
            Some(State(s.w.(record := Some(Record(id, template, network, Active, run, 0, s.w.now + timeout)),
                            sandboxes := s.w.sandboxes[id := s.w.current.value]),
                       InSession(run, template, network, id, false, Open), Resting))
  {
    var begun := Then(Then(Some(s), ByStart(BeginStart(run, template, network))), ByStart(ReadRecord));
    assert begun == Some(s.(actor := Starting(run, template, network, Creating)));
    PlacesCheckpoint(begun.value, id, seed, checkout);
    var placed := Then(Then(begun, ByStart(Create(id, seed, true))), ByStart(Place(checkout, true, true)));
    OpensPlaced(placed.value, id, timeout);
  }

  lemma OpensPlaced(s: State, id: Id, timeout: nat)
    requires s.actor.Starting? && s.actor.start == Saving(id)
    ensures Then(Then(Some(s), ByStart(SaveActive(true, timeout))), ByStart(StartHost(true))) ==
            Some(s.(w := s.w.(record := Some(Record(id, s.actor.template, s.actor.network, Active, s.actor.run, 0, s.w.now + timeout))),
                    actor := InSession(s.actor.run, s.actor.template, s.actor.network, id, false, Open)))
  {
  }

  lemma PlacesCheckpoint(s: State, id: Id, seed: Content, checkout: Content)
    requires s.actor.Starting? && s.actor.start == Creating && s.w.current.Some? && id !in s.w.sandboxes && id !in s.w.loose
    ensures Then(Then(Some(s), ByStart(Create(id, seed, true))), ByStart(Place(checkout, true, true))) ==
            Some(s.(w := s.w.(sandboxes := s.w.sandboxes[id := s.w.current.value]), actor := s.actor.(start := Saving(id))))
  {
    assert s.w.sandboxes[id := seed][id := s.w.current.value] == s.w.sandboxes[id := s.w.current.value];
  }

  /** An idle sandbox of another template or network, or any sandbox past its
      expiry, is deleted and forgotten before a new one is made. */
  lemma OldIsReplaced(s: State, run: Id, template: Id, network: bool)
    requires Quiet(s) && s.w.record.Some?
    requires if s.w.record.value.status == Idle then !Matches(s.w.record.value, template, network)
             else s.w.record.value.expiresAt <= s.w.now
    ensures var begun := Then(Then(Some(s), ByStart(BeginStart(run, template, network))), ByStart(ReadRecord));
            Then(Then(begun, ByStart(KillOld(true))), ByStart(RemoveOld(true))) ==
            Some(State(s.w.(record := None, sandboxes := s.w.sandboxes - {s.w.record.value.sandbox}),
                       Starting(run, template, network, Creating), Resting))
  {
    var begun := Then(Then(Some(s), ByStart(BeginStart(run, template, network))), ByStart(ReadRecord));
    assert begun == Some(s.(actor := Starting(run, template, network, KillingOld(s.w.record.value))));
  }

  /** A run whose workspace is held starts nothing. */
  lemma HeldRefusesRun(s: State, run: Id, template: Id, network: bool)
    requires Quiet(s) && s.w.record.Some? && s.w.record.value.status != Idle && s.w.now < s.w.record.value.expiresAt
    ensures Then(Then(Some(s), ByStart(BeginStart(run, template, network))), ByStart(ReadRecord)) == Some(s)
  {
  }

  /** A session that closes without a failure leaves its files as the current
      checkpoint, and its sandbox idle with them. */
  lemma CloseSaves(s: State, window: nat, idleTimeout: nat)
    requires s.actor.InSession? && s.actor.session == Open && s.actor.sandbox in s.w.sandboxes
    ensures var closed := Then(Then(Some(s), BySession(CloseHost(false, window))), BySession(ReserveRecovery(true, true)));
            var saved := Then(Then(closed, BySession(Download(true))), BySession(Persist(true)));
            var idle := Then(Then(saved, BySession(ShortenTtl(true))), BySession(SaveIdle(true, idleTimeout)));
            Then(idle, BySession(Finish)) ==
            Some(s.(w := s.w.(current := Some(s.w.sandboxes[s.actor.sandbox]),
                              record := Some(Record(s.actor.sandbox, s.actor.template, s.actor.network, Idle, 0,
                                                    s.w.now + idleTimeout, s.w.now + idleTimeout + 60_000_000))),
                    actor := NoOne))
  {
    var closed := Then(Then(Some(s), BySession(CloseHost(false, window))), BySession(ReserveRecovery(true, true)));
    assert closed == Some(s.(w := s.w.(record := closed.value.w.record),
                             actor := s.actor.(failed := false, session := RecoveryReserved(s.w.now + window))));
  }

  /** A close that cannot checkpoint keeps its sandbox for recovery, with its
      files, until the end of the window that began with it. */
  lemma FailedCloseKeepsFiles(s: State, hostFailed: bool, window: nat)
    requires s.actor.InSession? && s.actor.session == Open && s.actor.sandbox in s.w.sandboxes
    ensures var closed := Then(Then(Some(s), BySession(CloseHost(hostFailed, window))), BySession(ReserveRecovery(true, true)));
            var unsaved := if hostFailed then closed else Then(closed, BySession(Download(false)));
            Then(Then(unsaved, BySession(ReserveAgain(true))), BySession(Finish)) ==
            Some(s.(w := s.w.(record := Some(Record(s.actor.sandbox, s.actor.template, s.actor.network, Recovery, 0, 0, s.w.now + window)),
                              loose := if hostFailed then s.w.loose + {s.actor.sandbox} else s.w.loose),
                    actor := NoOne))
  {
  }

  /** A restore without a failure makes its target current, and leaves no
      sandbox that the next run could go on in. */
  lemma RestoreIsCurrent(s: State, target: Content)
    requires Quiet(s)
    requires s.w.record.Some? ==> s.w.record.value.status == Idle || s.w.record.value.expiresAt <= s.w.now
    ensures var checked := Then(Then(Some(s), ByRestore(BeginRestore(target))), ByRestore(Check(true)));
            var applied := if s.w.record.None? then checked else Then(Then(checked, ByRestore(KillIdle(true))), ByRestore(RemoveIdle(true)));
            Then(applied, ByRestore(RecordRestore(true))) ==
            Some(s.(w := s.w.(record := None, current := Some(target),
                              sandboxes := if s.w.record.None? then s.w.sandboxes else s.w.sandboxes - {s.w.record.value.sandbox})))
  {
  }

  /** A restore is refused while the workspace is held. */
  lemma HeldRefusesRestore(s: State, target: Content, available: bool)
    requires Quiet(s) && s.w.record.Some? && s.w.record.value.status != Idle && s.w.now < s.w.record.value.expiresAt
    ensures Then(Then(Some(s), ByRestore(BeginRestore(target))), ByRestore(Check(available))) == Some(s)
  {
  }
}
