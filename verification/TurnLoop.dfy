/** The turn loop (core.go, Core.Run), whose every step keeps the rules. */
module TurnLoop {
  import opened Wrappers
  import opened Preflight
  import opened Permissions
  import opened TurnRules
  import TurnTheorems

  // ---------------------------------------------------------- environment

  /** The brain's response: its executable calls before a finish action, and
      whether there is one. `parts` says that they match the ordered parts. */
  datatype Response = Response(calls: seq<Call>, finish: bool, parts: bool, reconciled: bool)

  /** Every answer from outside, by position in the trace. */
  datatype World = World(
    maxTurns: nat, checked: bool,
    sinkFails: nat -> bool, cancelled: nat -> bool, hookStops: nat -> bool, reports: nat -> nat,
    respond: nat -> Option<Response>, interpret: nat -> Option<bool>, continues: nat -> bool, returnsNext: nat -> bool)

  /** Nothing outside fails: the brain answers with calls that match its parts,
      no sink refuses an event, and nobody cancels the run. */
  ghost predicate Benign(w: World) {
    forall k: nat :: !w.sinkFails(k) && !w.cancelled(k) && w.interpret(k).Some? && Sensible(w.respond(k))
  }

  predicate Sensible(answer: Option<Response>) {
    && answer.Some?
    && (answer.value.calls != [] || answer.value.finish)
    && (answer.value.calls != [] ==> answer.value.parts && answer.value.reconciled)
  }

  datatype RunError = Failure(step: string)

  /** Where a turn leaves the run. */
  datatype Flow = NextTurn | Over | Failing(step: string)

  function AllowedCalls(allowed: seq<bool>): set<nat> {
    set i | 0 <= i < |allowed| && allowed[i]
  }

  /** Every allowed call waits, runs or has returned. */
  ghost predicate Handling(all: set<nat>, waiting: set<nat>, running: set<nat>, started: set<nat>, returned: set<nat>) {
    && (forall i :: i in all <==> i in waiting || i in started)
    && (forall i :: i in started <==> i in running || i in returned)
    && (forall i | i in running :: i !in returned)
    && (forall i | i in waiting :: i !in started)
  }

  lemma HandlingDone(all: set<nat>, started: set<nat>, returned: set<nat>)
    requires Handling(all, {}, {}, started, returned)
    ensures started == all && returned == all
  {
  }

  /** The run's own bookkeeping agrees with what the monitor saw: OnAgentEnd
      is owed exactly while the agent is open, a closed agent was told that the
      brain finished, and the end reason is that of the closing event. No turn
      was cut short. */
  ghost predicate Tracked(m: Monitor, openTurn: Option<nat>, agentOpen: bool, endReason: EndReason, last: nat) {
    && m.open == openTurn && m.last == last && !m.cut
    && !m.agent.NotStarted? && (agentOpen <==> m.agent.Running?)
    && m.ends == m.continues + (if m.agent.Closed? then 1 else 0)
    && (m.over.Some? ==> endReason == ReasonOf(m.over.value))
    && (m.agent.Closed? ==> m.reason == Some(Finished) && (m.over.Some? ==> m.over.value.FinishEvent?))
  }

  /** Nothing is on record for a turn that is still open. */
  ghost predicate NothingOpen(m: Monitor) {
    m.open.Some? ==> m.turn.recorded.None?
  }

  /** A turn that was opened and has recorded nothing yet. */
  ghost predicate Blank(s: TurnState) {
    s == NewTurn.(response := s.response, finish := s.finish)
  }

  /** A turn whose calls are on record and not yet decided. */
  ghost predicate OnRecord(m: Monitor, turn: nat, calls: seq<Call>, run: seq<Input>) {
    && m.open == Some(turn) && m.over.None?
    && m.turn == NewTurn.(response := Some(calls), finish := m.turn.finish, recorded := Some(run))
    && |run| == |calls|
  }

  /** The same, once some requests were made. */
  ghost predicate Undecided(s: TurnState, calls: seq<Call>) {
    && s.response == Some(calls) && s.recorded.Some? && |s.recorded.value| == |calls|
    && s.allowed == []
  }

  /** A turn whose calls are decided and not yet announced. */
  ghost predicate OnDecision(m: Monitor, turn: nat, run: seq<Input>, allowed: seq<bool>) {
    && m.open == Some(turn) && m.over.None?
    && m.turn.response.Some? && |m.turn.response.value| == |run| == |allowed|
    && m.turn == NewTurn.(response := m.turn.response, finish := m.turn.finish, recorded := m.turn.recorded, asked := m.turn.asked, allowed := allowed)
    && m.turn.recorded == (if run == [] then None else Some(run))
    && (m.stop ==> forall i | 0 <= i < |allowed| :: !allowed[i])
  }

  /** The point of a turn at which its handlers run. */
  ghost predicate ReadyToRun(m: Monitor, turn: nat, run: seq<Input>) {
    && m.open == Some(turn) && m.over.None?
    && m.turn.response.Some? && |m.turn.response.value| == |run| && m.turn.recorded == Some(run)
    && AllDecided(m.turn) && AllAnnounced(m.turn)
    && (m.stop ==> forall i | 0 <= i < |m.turn.allowed| :: !m.turn.allowed[i])
  }

  ghost function Handled(m: Monitor, started: set<nat>, returned: set<nat>): Monitor {
    m.(turn := m.turn.(started := started, returned := returned))
  }

  ghost function AfterEnd(m: Monitor, stop: bool, ended: nat): Monitor {
    m.(stop := stop, turn := m.turn.(ended := ended))
  }

  /** How an Ask was settled, if preflight asked. */
  ghost predicate SettledAs(settled: Decision, first: Decision, requested: bool, ask: AskEnv) {
    && (settled.permission.Allow? || settled.permission.Deny?)
    && (settled.permission.Allow? <==> Permitted(first, requested, ask))
    && (first.permission.Ask? ==> requested)
  }

  lemma InputsAre(denials: map<nat, nat>, calls: seq<Call>, first: seq<CallDecision>, run: seq<Input>)
    requires |first| == |calls| == |run| && AreFirst(denials, calls, first)
    requires forall i | 0 <= i < |run| :: run[i] == first[i].input
    ensures run == Inputs(true, denials, calls)
  {
    forall i | 0 <= i < |run|
      ensures run[i] == Inputs(true, denials, calls)[i]
    {
      assert IsFirst(denials, calls, i, first[i]);
    }
  }

  /** The monitor after one more decision. */
  ghost function AfterDecision(m: Monitor, allow: bool, next: map<nat, nat>): Monitor {
    m.(turn := m.turn.(allowed := m.turn.allowed + [allow]), next := next)
  }

  lemma DecidesRightly(stop: bool, denials: map<nat, nat>, s: TurnState, i: nat, settled: Decision, first: CallDecision, allow: bool)
    requires s.response.Some? && s.recorded.Some? && |s.recorded.value| == |s.response.value| && i == |s.allowed| < |s.response.value|
    requires IsFirst(denials, s.response.value, i, first)
    requires !stop ==> SettledAs(settled, first.decision, i in s.asked, s.response.value[i].ask)
    requires allow <==> !stop && !settled.permission.Deny?
    ensures MayDecide(stop, denials, s, i, s.response.value[i].key, allow)
    ensures allow == Runs(stop, denials, s.response.value)[i]
  {
  }

  ghost predicate AllSettled(settled: seq<Decision>, first: seq<CallDecision>, asked: set<nat>, calls: seq<Call>) {
    && |settled| == |first| == |calls|
    && forall i: nat | i < |calls| :: SettledAs(settled[i], first[i].decision, i in asked, calls[i].ask)
  }

  /** Which calls run: those that may, unless something stopped the run. */
  ghost function Runs(stop: bool, denials: map<nat, nat>, calls: seq<Call>): seq<bool> {
    seq(|calls|, i requires 0 <= i < |calls| => !stop && MayRun(denials, calls[i]))
  }

  lemma OneMore(allowed: seq<bool>, all: seq<bool>)
    requires |allowed| < |all| && allowed == all[..|allowed|]
    ensures allowed + [all[|allowed|]] == all[..|allowed| + 1]
  {
  }

  method Any(s: set<nat>) returns (i: nat)
    requires s != {}
    ensures i in s
  {
    i :| i in s;
  }

  class Core {
    const world: World
    var trace: seq<Item>
    var stop: bool
    var denials: map<nat, nat>
    var openTurn: Option<nat>   // a turn that awaits OnAgentTurnEnd
    var agentOpen: bool         // OnAgentEnd is still to run
    var endReason: EndReason

    constructor (w: World)
      ensures world == w && trace == [] && !stop && denials == map[] && openTurn.None? && !agentOpen
    {
      world, trace, stop, denials, openTurn, agentOpen, endReason := w, [], false, map[], None, false, FailedRun;
    }

    /** What the monitor has seen so far. */
    ghost function Seen(): Option<Monitor>
      reads this
    {
      Watched(world.checked, trace)
    }

    /** The run and the monitor agree on whether a hook asked to stop. */
    ghost predicate Agrees()
      reads this
    {
      Seen().Some? && Seen().value.stop == stop
    }

    /** Something that is not an event, so that no sink can refuse it. */
    method Do(item: Item)
      requires Seen().Some? && May(Seen().value, item)
      modifies this`trace
      ensures Seen() == Some(Next(old(Seen().value), item))
    {
      WatchedNext(world.checked, trace, item);
      trace := trace + [item];
    }

    /** emit: a failing sink stops the run before the next side effect. */
    method Emit(item: Item) returns (ok: bool)
      requires Seen().Some? && May(Seen().value, item)
      modifies this`trace
      ensures Seen() == if ok then Some(Next(old(Seen().value), item)) else old(Seen())
      ensures Benign(world) ==> ok
    {
      if world.sinkFails(|trace|) {
        Do(SinkFailed);
        return false;
      }
      Do(item);
      return true;
    }

    /** reportHooks: hook errors, then messages. */
    method Report(count: nat) returns (ok: bool)
      requires Seen().Some?
      modifies this`trace
      ensures Seen() == old(Seen())
      ensures Benign(world) ==> ok
    {
      for i := 0 to count
        invariant Seen() == old(Seen())
      {
        var sent := Emit(Noise);
        if !sent {
          return false;
        }
      }
      return true;
    }

    /** hookEffects.add, as far as it concerns stopping. */
    method NoteStop(asked: bool)
      requires Agrees()
      modifies this`trace, this`stop
      ensures stop == (old(stop) || asked)
      ensures Seen() == Some(old(Seen().value).(stop := stop))
    {
      if asked {
        Do(StopAsked);
        stop := true;
      }
    }

    /** Hooks of one kind, in registration order, and their report. */
    method RunStep(item: Item) returns (ok: bool)
      requires Agrees() && May(Seen().value, item)
      requires item.Noise? || item.TurnEndHooks? || item.AgentEndHooks?
      modifies this`trace, this`stop
      ensures Seen() == Some(Next(old(Seen().value), item).(stop := stop))
      ensures stop == (old(stop) || world.hookStops(old(|trace|)))
      ensures Benign(world) ==> ok
    {
      var at := |trace|;
      Do(item);
      NoteStop(world.hookStops(at));
      ok := Report(world.reports(at));
    }

    // -------------------------------------------------------- preflight

    /** One permission request. */
    method AskFor(turn: nat, calls: seq<Call>, run: seq<Input>, i: nat, first: Decision) returns (ok: bool, settled: Decision)
      requires Agrees() && Seen().value.open == Some(turn) && Seen().value.over.None? && Seen().value.checked
      requires i < |run| == |calls| && MayAsk(stop, Seen().value.denials, Seen().value.turn, i, run[i])
      requires first.permission.Ask?
      modifies this`trace, this`stop
      ensures Agrees() && Seen() == Some(old(Seen().value).(stop := stop, turn := After(old(Seen().value.turn), Asked(i, run[i]))))
      ensures stop == (old(stop) || AsksStop(calls[i].ask.hooks))
      ensures ok ==> SettledAs(settled, first, true, calls[i].ask)
      ensures Benign(world) ==> ok
    {
      Do(InTurn(turn, Asked(i, run[i])));
      var asksStop: bool;
      settled, asksStop := RequestPermission(calls[i].ask, first);
      NoteStop(asksStop);
      if world.cancelled(|trace|) {
        return false, settled;
      }
      ok := Report(world.reports(|trace|));
    }

    /** The first loop of resolveCalls: each Ask is settled, in call order,
        until a hook asks to stop. */
    method SettleAsks(turn: nat, calls: seq<Call>, run: seq<Input>, first: seq<CallDecision>) returns (ok: bool, settled: seq<Decision>)
      requires Agrees() && Seen().value.checked && OnRecord(Seen().value, turn, calls, run)
      requires |first| == |calls| && AreFirst(Seen().value.denials, calls, first)
      modifies this`trace, this`stop
      ensures Agrees() && Seen() == Some(old(Seen().value).(stop := stop, turn := Seen().value.turn))
      ensures Seen().value.turn == old(Seen().value).turn.(asked := Seen().value.turn.asked)
      ensures old(stop) ==> stop
      ensures ok ==> |settled| == |calls| && (!stop ==> AllSettled(settled, first, Seen().value.turn.asked, calls))
      ensures Benign(world) ==> ok
    {
      ghost var m := Seen().value;
      ghost var asked: set<nat> := {};
      settled := seq(|first|, i requires 0 <= i < |first| => first[i].decision);
      for i := 0 to |calls|
        invariant |settled| == |calls| && Agrees() && (old(stop) ==> stop)
        invariant Seen() == Some(m.(stop := stop, turn := m.turn.(asked := asked)))
        invariant forall k | k in asked :: k < i
        invariant forall k | i <= k < |calls| :: settled[k] == first[k].decision
        invariant !stop ==> forall k | 0 <= k < i :: SettledAs(settled[k], first[k].decision, k in asked, calls[k].ask)
      {
        if stop {
          break;
        }
        assert IsFirst(m.denials, calls, i, first[i]);
        if settled[i].permission.Ask? {
          var decision: Decision;
          ok, decision := AskFor(turn, calls, run, i, settled[i]);
          if !ok {
            return;
          }
          asked := asked + {i};
          settled := settled[i := decision];
        }
      }
      return true, settled;
    }

    /** One decision: counted under the proposed call, then reported. */
    method EmitDecision(turn: nat, calls: seq<Call>, i: nat, settled: seq<Decision>, ghost first: seq<CallDecision>)
      returns (ok: bool, allow: bool)
      requires Agrees() && Seen().value.checked && Seen().value.open == Some(turn) && Seen().value.over.None?
      requires Seen().value.turn.response == Some(calls) && |Seen().value.turn.allowed| == i < |calls|
      requires Seen().value.turn.recorded.Some? && |Seen().value.turn.recorded.value| == |calls|
      requires denials == Seen().value.next && |first| == |calls| && AreFirst(Seen().value.denials, calls, first)
      requires |settled| == |calls| && (!stop ==> AllSettled(settled, first, Seen().value.turn.asked, calls))
      modifies this`trace, this`denials
      ensures denials == CountOne(old(denials), calls[i].key, allow)
      ensures Seen() == if ok then Some(AfterDecision(old(Seen().value), allow, denials)) else old(Seen())
      ensures allow == Runs(stop, old(Seen().value).denials, calls)[i]
      ensures Benign(world) ==> ok
    {
      allow := !stop && !settled[i].permission.Deny?;
      assert IsFirst(Seen().value.denials, calls, i, first[i]);
      DecidesRightly(stop, Seen().value.denials, Seen().value.turn, i, settled[i], first[i], allow);
      denials := CountOne(denials, calls[i].key, allow);
      ok := Emit(InTurn(turn, Decided(i, calls[i].key, allow)));
    }

    /** The second loop of resolveCalls: a stop denies every call that would
        otherwise run, denials are counted under the proposed call, and each
        decision is reported. */
    method EmitDecisions(turn: nat, calls: seq<Call>, settled: seq<Decision>, ghost first: seq<CallDecision>)
      returns (ok: bool, allowed: seq<bool>)
      requires Agrees() && Seen().value.checked && Seen().value.open == Some(turn) && Seen().value.over.None?
      requires Undecided(Seen().value.turn, calls) && denials == Seen().value.denials == Seen().value.next
      requires |first| == |calls| && AreFirst(denials, calls, first)
      requires |settled| == |calls| && (!stop ==> AllSettled(settled, first, Seen().value.turn.asked, calls))
      modifies this`trace, this`denials
      ensures Agrees() && Seen() == Some(old(Seen().value).(turn := Seen().value.turn, next := Seen().value.next))
      ensures Seen().value.turn == old(Seen().value).turn.(allowed := Seen().value.turn.allowed)
      ensures ok ==> |allowed| == |calls| && Seen().value.turn.allowed == allowed
      ensures ok ==> Seen().value.next == denials == CountDenied(old(denials), calls, allowed)
      ensures ok ==> allowed == Runs(stop, old(denials), calls)
      ensures Benign(world) ==> ok
    {
      ghost var m := Seen().value;
      allowed := [];
      for i := 0 to |calls|
        invariant |allowed| == i && denials == CountDenied(m.denials, calls, allowed)
        invariant Seen() == Some(m.(turn := m.turn.(allowed := allowed), next := denials))
        invariant allowed == Runs(stop, m.denials, calls)[..i]
      {
        var allow: bool;
        ok, allow := EmitDecision(turn, calls, i, settled, first);
        if !ok {
          return;
        }
        CountNext(m.denials, calls, allowed, allow);
        OneMore(allowed, Runs(stop, m.denials, calls));
        allowed := allowed + [allow];
      }
      return true, allowed;
    }

    /** resolveCalls: when it succeeds, every call is allowed or denied; it is
        allowed exactly when it may run and nothing stopped the run. */
    method ResolveCalls(turn: nat, calls: seq<Call>, run: seq<Input>, first: seq<CallDecision>) returns (ok: bool, allowed: seq<bool>)
      requires Agrees() && Seen().value.checked && OnRecord(Seen().value, turn, calls, run)
      requires denials == Seen().value.denials == Seen().value.next
      requires |first| == |calls| && AreFirst(denials, calls, first)
      modifies this`trace, this`stop, this`denials
      ensures Agrees() && Seen() == Some(old(Seen().value).(stop := stop, turn := Seen().value.turn, next := Seen().value.next))
      ensures Seen().value.turn == old(Seen().value).turn.(asked := Seen().value.turn.asked, allowed := Seen().value.turn.allowed)
      ensures old(stop) ==> stop
      ensures ok ==> |allowed| == |calls| && Seen().value.turn.allowed == allowed
      ensures ok ==> Seen().value.next == denials == CountDenied(old(denials), calls, allowed)
      ensures ok ==> allowed == Runs(stop, old(denials), calls)
      ensures Benign(world) ==> ok
    {
      var settled: seq<Decision>;
      allowed := [];
      ok, settled := SettleAsks(turn, calls, run, first);
      if !ok {
        return;
      }
      ok, allowed := EmitDecisions(turn, calls, settled, first);
    }

    /** decideCalls for one turn, with what it reports: the calls as they will
        run, and, with start hooks, their first decisions. */
    method DecideTurn(calls: seq<Call>) returns (ok: bool, run: seq<Input>, first: seq<CallDecision>)
      requires Agrees()
      modifies this`trace, this`stop
      ensures Agrees() && Seen() == Some(old(Seen().value).(stop := stop))
      ensures old(stop) ==> stop
      ensures !world.checked ==> stop == old(stop)
      ensures ok ==> run == Inputs(world.checked, denials, calls)
      ensures ok && world.checked ==> |first| == |calls| && AreFirst(denials, calls, first)
      ensures ok && world.checked ==> stop == (old(stop) || OneStops(first))
      ensures Benign(world) ==> ok
    {
      first := [];
      if !world.checked {
        run := seq(|calls|, i requires 0 <= i < |calls| => calls[i].input);
        return true, run, first;
      }
      run := [];
      var asksStop: bool;
      first, asksStop := DecideCalls(calls, denials);
      if world.cancelled(|trace|) {
        return false, run, first;
      }
      NoteStop(asksStop);
      ok := Report(world.reports(|trace|));
      run := seq(|calls|, i requires 0 <= i < |calls| => first[i].input);
      InputsAre(denials, calls, first, run);
    }

    /** Which of the recorded calls run: all, if there is no start hook. */
    method Permit(turn: nat, calls: seq<Call>, run: seq<Input>, first: seq<CallDecision>) returns (ok: bool, allowed: seq<bool>)
      requires Agrees() && !(stop && !world.checked) && Seen().value.checked == world.checked
      requires OnRecord(Seen().value, turn, calls, run) && run != [] && denials == Seen().value.denials == Seen().value.next
      requires world.checked ==> |first| == |calls| && AreFirst(denials, calls, first)
      modifies this`trace, this`stop, this`denials
      ensures Agrees() && Seen() == Some(old(Seen().value).(stop := stop, turn := Seen().value.turn, next := Seen().value.next))
      ensures ok ==> OnDecision(Seen().value, turn, run, allowed) && denials == Seen().value.next
      ensures ok ==> Seen().value.turn.finish == old(Seen().value).turn.finish
      ensures ok ==> if world.checked then allowed == Runs(stop, old(denials), calls)
                     else forall i | 0 <= i < |allowed| :: allowed[i]
      ensures Benign(world) ==> ok
    {
      allowed := [];
      if !world.checked {
        Do(InTurn(turn, Unchecked));
        allowed := seq(|run|, _ => true);
        return true, allowed;
      }
      if world.cancelled(|trace|) {
        return false, allowed;
      }
      ok, allowed := ResolveCalls(turn, calls, run, first);
    }

    /** Preflight and the response event. The calls are recorded as they will
        run before any approval waits on a person; then every call is allowed
        or denied. On failure the turn stays open, and nothing of it ran. */
    method RecordTurn(turn: nat, response: Response) returns (ok: bool, run: seq<Input>, allowed: seq<bool>)
      requires Agrees() && !stop && Seen().value.checked == world.checked
      requires Seen().value.open == Some(turn) && Seen().value.over.None? && Blank(Seen().value.turn)
      requires Seen().value.turn.response == Some(response.calls) && denials == Seen().value.denials == Seen().value.next
      modifies this`trace, this`stop, this`denials
      ensures Agrees() && Seen() == Some(old(Seen().value).(stop := stop, turn := Seen().value.turn, next := Seen().value.next))
      ensures ok ==> run == Inputs(world.checked, old(denials), response.calls) && OnDecision(Seen().value, turn, run, allowed)
      ensures ok ==> denials == Seen().value.next && Seen().value.turn.finish == old(Seen().value).turn.finish
      ensures ok ==> if world.checked then allowed == Runs(stop, old(denials), response.calls)
                     else forall i | 0 <= i < |allowed| :: allowed[i]
      ensures Benign(world) && Sensible(Some(response)) ==> ok
    {
      var first: seq<CallDecision>;
      allowed := [];
      ok, run, first := DecideTurn(response.calls);
      if !ok || response.calls == [] {
        return;
      }
      if !response.reconciled {
        return false, run, allowed;
      }
      ok := Emit(InTurn(turn, Recorded(run)));
      if !ok {
        return;
      }
      ok, allowed := Permit(turn, response.calls, run, first);
    }

    // ------------------------------------------------------- the calls run

    /** action_start for each allowed call. */
    method Announce(turn: nat, run: seq<Input>, allowed: seq<bool>) returns (ok: bool)
      requires Agrees() && run != [] && OnDecision(Seen().value, turn, run, allowed)
      modifies this`trace
      ensures Agrees() && Seen().value == old(Seen().value).(turn := old(Seen().value).turn.(announced := Seen().value.turn.announced))
      ensures ok ==> AllAnnounced(Seen().value.turn)
      ensures Benign(world) ==> ok
    {
      ghost var m := Seen().value;
      ghost var announced: nat := 0;
      for i := 0 to |allowed|
        invariant Seen() == Some(m.(turn := m.turn.(announced := announced)))
        invariant announced <= i
        invariant forall k | announced <= k < i :: !allowed[k]
      {
        if allowed[i] {
          ok := Emit(InTurn(turn, Announced(i, run[i])));
          if !ok {
            return;
          }
          announced := i + 1;
        }
      }
      return true;
    }

    /** The handlers run concurrently, each on its recorded call: they start
        and return in any order. */
    method RunHandlers(turn: nat, run: seq<Input>, allowed: seq<bool>)
      requires Agrees() && ReadyToRun(Seen().value, turn, run) && Seen().value.turn.allowed == allowed
      requires Seen().value.turn.started == {} && Seen().value.turn.returned == {}
      modifies this`trace
      ensures Agrees() && Seen() == Some(Handled(old(Seen().value), AllowedCalls(allowed), AllowedCalls(allowed)))
    {
      ghost var m := Seen().value;
      var waiting: set<nat> := AllowedCalls(allowed);
      var running: set<nat> := {};
      ghost var started: set<nat>, returned: set<nat> := {}, {};
      while waiting != {} || running != {}
        invariant Seen() == Some(Handled(m, started, returned))
        invariant Handling(AllowedCalls(allowed), waiting, running, started, returned)
        decreases |waiting|, |running|
      {
        if waiting != {} && (running == {} || !world.returnsNext(|trace|)) {
          var i := Any(waiting);
          StartHandler(turn, run, i, m, started, returned);
          waiting, running := waiting - {i}, running + {i};
          started := started + {i};
        } else {
          var i := Any(running);
          ReturnHandler(turn, run, i, m, started, returned);
          running := running - {i};
          returned := returned + {i};
        }
      }
      HandlingDone(AllowedCalls(allowed), started, returned);
    }

    method StartHandler(turn: nat, run: seq<Input>, i: nat, ghost m: Monitor, ghost started: set<nat>, ghost returned: set<nat>)
      requires Seen() == Some(Handled(m, started, returned)) && ReadyToRun(m, turn, run)
      requires i < |run| == |m.turn.allowed| && m.turn.allowed[i] && i !in started
      modifies this`trace
      ensures Seen() == Some(Handled(m, started + {i}, returned))
    {
      Do(InTurn(turn, HandlerStarted(i, run[i])));
    }

    method ReturnHandler(turn: nat, run: seq<Input>, i: nat, ghost m: Monitor, ghost started: set<nat>, ghost returned: set<nat>)
      requires Seen() == Some(Handled(m, started, returned)) && ReadyToRun(m, turn, run)
      requires i in started && i !in returned
      modifies this`trace
      ensures Seen() == Some(Handled(m, started, returned + {i}))
    {
      Do(InTurn(turn, HandlerReturned(i)));
    }

    /** OnToolCallEnd and the end event of one call. */
    method EndCall(turn: nat, i: nat, allow: bool) returns (ok: bool)
      requires Agrees() && Seen().value.open == Some(turn) && Seen().value.over.None?
      requires EndsCall(Seen().value.turn, i) && Seen().value.turn.allowed[i] == allow
      modifies this`trace, this`stop
      ensures Agrees() && Seen() == Some(AfterEnd(old(Seen().value), stop, if ok then i + 1 else i))
      ensures old(stop) ==> stop
      ensures Benign(world) ==> ok
    {
      ok := RunStep(Noise);
      if ok {
        ok := Emit(InTurn(turn, if allow then CallEnded(i) else CallDenied(i)));
      }
    }

    /** Each call ends, in call order. */
    method EndCalls(turn: nat, allowed: seq<bool>) returns (ok: bool)
      requires Agrees() && Seen().value.open == Some(turn) && Seen().value.over.None? && Seen().value.turn.ended == 0
      requires AllDecided(Seen().value.turn) && Seen().value.turn.allowed == allowed && AllReturned(Seen().value.turn)
      modifies this`trace, this`stop
      ensures Agrees() && Seen().value == AfterEnd(old(Seen().value), stop, Seen().value.turn.ended)
      ensures ok ==> AllEnded(Seen().value.turn)
      ensures old(stop) ==> stop
      ensures Benign(world) ==> ok
    {
      ghost var m := Seen().value;
      for i := 0 to |allowed|
        invariant Agrees() && Seen() == Some(AfterEnd(m, stop, i))
        invariant old(stop) ==> stop
      {
        ok := EndCall(turn, i, allowed[i]);
        if !ok {
          return;
        }
      }
      return true;
    }

    /** The recorded calls of a turn run and end. */
    method RunCalls(turn: nat, run: seq<Input>, allowed: seq<bool>) returns (ok: bool)
      requires Agrees() && OnDecision(Seen().value, turn, run, allowed)
      modifies this`trace, this`stop
      ensures Agrees() && Seen().value == old(Seen().value).(stop := stop, turn := Seen().value.turn)
      ensures Seen().value.turn == old(Seen().value).turn.(announced := Seen().value.turn.announced, started := Seen().value.turn.started,
                                                           returned := Seen().value.turn.returned, ended := Seen().value.turn.ended)
      ensures ok ==> AllEnded(Seen().value.turn)
      ensures old(stop) ==> stop
      ensures Benign(world) ==> ok
    {
      if run == [] {
        return true;
      }
      ok := Announce(turn, run, allowed);
      if !ok {
        return;
      }
      RunHandlers(turn, run, allowed);
      ok := EndCalls(turn, allowed);
    }

    // ------------------------------------------------------------ the loop

    ghost predicate Tracks(last: nat)
      reads this
    {
      Agrees() && Seen().value.checked == world.checked && Tracked(Seen().value, openTurn, agentOpen, endReason, last)
    }

    /** Between turns: nothing stopped the run, and every denial is counted. */
    ghost predicate Between(last: nat)
      reads this
    {
      && Tracks(last) && !stop && agentOpen && openTurn.None?
      && Seen().value.over.None? && Seen().value.next == denials
      && MayOpen(Seen().value, last + 1)
    }

    /** A turn just opened. */
    ghost predicate Opened(turn: nat)
      reads this
    {
      && Tracks(turn) && !stop && agentOpen && openTurn == Some(turn) && Seen().value.over.None?
      && !Seen().value.quit && Seen().value.turn == NewTurn && denials == Seen().value.denials == Seen().value.next
    }

    /** The brain answered, and nothing of the turn is on record. */
    ghost predicate Consulted(turn: nat, response: Response)
      reads this
    {
      && Tracks(turn) && !stop && agentOpen && openTurn == Some(turn) && Seen().value.over.None?
      && Blank(Seen().value.turn) && Seen().value.turn.response == Some(response.calls) && Seen().value.turn.finish == response.finish
      && !Seen().value.quit && denials == Seen().value.denials == Seen().value.next
      && (response.calls != [] || response.finish)
    }

    /** The turn ended, and the loop has not. */
    ghost predicate Ended(finish: bool)
      reads this
    {
      && Seen().Some? && Seen().value.open.None? && Seen().value.turn.closed && Seen().value.turn.finish == finish
      && !Seen().value.quit
    }

    /** stopRun, and the brain's own stop. */
    method StopRun() returns (flow: Flow)
      requires Agrees() && Seen().value.over.None? && !Seen().value.agent.NotStarted? && (stop || Seen().value.quit)
      modifies this`trace, this`endReason
      ensures !flow.NextTurn? && endReason == StoppedRun
      ensures Seen() == if flow.Over? then Some(old(Seen().value).(over := Some(StoppedEvent))) else old(Seen())
      ensures Benign(world) ==> !flow.Failing?
    {
      endReason := StoppedRun;
      var sent := Emit(LoopOver(StoppedEvent));
      return if sent then Over else Failing("event stopped");
    }

    /** turn_start and OnAgentTurnStart. */
    method OpenTurn(turn: nat) returns (flow: Flow)
      requires turn > 0 && Between(turn - 1)
      modifies this`trace, this`stop, this`openTurn, this`endReason
      ensures Tracks(turn) || (flow.Failing? && Tracks(turn - 1))
      ensures flow.NextTurn? ==> Opened(turn)
      ensures flow.Over? ==> Seen().value.over == Some(StoppedEvent)
      ensures NothingOpen(Seen().value)
      ensures Benign(world) ==> !flow.Failing?
    {
      var ok := Emit(TurnOpened(turn));
      if !ok {
        return Failing("event turn_start");
      }
      openTurn := Some(turn);
      ok := RunStep(Noise);
      if !ok {
        return Failing("agent turn start");
      }
      if stop {
        flow := StopRun();
        return;
      }
      return NextTurn;
    }

    /** The brain's response, once, and OnAssistantResponse. */
    method AskBrain(turn: nat) returns (flow: Flow, response: Response)
      requires Opened(turn)
      modifies this`trace, this`stop, this`endReason
      ensures Tracks(turn) && NothingOpen(Seen().value)
      ensures flow.NextTurn? ==> Consulted(turn, response) && exists k: nat :: world.respond(k) == Some(response)
      ensures flow.Over? ==> Seen().value.over == Some(StoppedEvent)
      ensures Benign(world) ==> !flow.Failing?
    {
      response := Response([], false, false, false);
      var answer := world.respond(|trace|);
      if answer.None? {
        return Failing("brain response"), response;
      }
      response := answer.value;
      Do(InTurn(turn, Responded(response.calls, response.finish)));
      var ok := RunStep(Noise);
      if !ok {
        return Failing("assistant response"), response;
      }
      if stop {
        flow := StopRun();
        return;
      }
      if response.calls == [] && !response.finish {
        return Failing("no actions"), response;
      }
      if response.calls != [] && !response.parts {
        return Failing("assistant parts"), response;
      }
      return NextTurn, response;
    }

    /** The start of a turn up to the brain's response. */
    method Consult(turn: nat) returns (flow: Flow, response: Response)
      requires turn > 0 && Between(turn - 1)
      modifies this`trace, this`stop, this`openTurn, this`endReason
      ensures Tracks(turn) || (flow.Failing? && Tracks(turn - 1))
      ensures flow.NextTurn? ==> Consulted(turn, response) && exists k: nat :: world.respond(k) == Some(response)
      ensures flow.Over? ==> Seen().value.over == Some(StoppedEvent)
      ensures NothingOpen(Seen().value)
      ensures Benign(world) ==> !flow.Failing?
    {
      response := Response([], false, false, false);
      flow := OpenTurn(turn);
      if flow.NextTurn? {
        flow, response := AskBrain(turn);
      }
    }

    /** turn_end and OnAgentTurnEnd. */
    method CloseTurn(turn: nat) returns (ok: bool)
      requires Tracks(turn) && openTurn == Some(turn) && agentOpen && Seen().value.over.None?
      requires Served(Seen().value.turn) && !Seen().value.turn.closed && !Seen().value.quit
      modifies this`trace, this`stop, this`openTurn
      ensures Tracks(turn) && Seen().value.over.None? && Seen().value.next == old(Seen().value).next
      ensures ok ==> openTurn.None? && Ended(old(Seen().value).turn.finish)
      ensures old(stop) ==> stop
      ensures Benign(world) ==> ok
    {
      ok := Emit(InTurn(turn, TurnEnded));
      if !ok {
        return;
      }
      openTurn := None;
      ok := RunStep(TurnEndHooks(turn));
    }

    /** A finished turn: OnAgentEnd, unless a hook asked to stop, and another
        turn when it asks to continue and one is left. */
    method Finish(turn: nat) returns (flow: Flow)
      requires Tracks(turn) && Seen().value.over.None? && openTurn.None? && agentOpen && Ended(true)
      modifies this`trace, this`stop, this`agentOpen, this`endReason
      ensures Tracks(turn) && Seen().value.next == old(Seen().value).next
      ensures flow.NextTurn? ==> agentOpen && turn < world.maxTurns && !stop && Seen().value.over.None?
      ensures flow.NextTurn? ==> Ended(true) && Seen().value.reason == Some(Finished)
      ensures flow.Over? ==> Seen().value.over == Some(FinishEvent)
      ensures !flow.Failing? ==>
                (flow.NextTurn? <==> !old(stop) && !stop && world.continues(old(|trace|)) && turn < world.maxTurns)
      ensures Benign(world) ==> !flow.Failing?
    {
      if !stop {
        agentOpen := false;
        var at := |trace|;
        var ok := RunStep(AgentEndHooks(Finished));
        if !ok {
          return Failing("agent end");
        }
        if world.continues(at) && !stop && turn < world.maxTurns {
          agentOpen := true;
          Do(Continued(turn));
          return NextTurn;
        }
      }
      endReason := Finished;
      var sent := Emit(LoopOver(FinishEvent));
      return if sent then Over else Failing("event finish");
    }

    /** The brain reads each result; then the run goes on, or stops. */
    method Interpret(results: nat) returns (flow: Flow)
      requires Agrees() && Seen().value.over.None? && !Seen().value.agent.NotStarted? && Seen().value.open.None? && !Seen().value.quit
      modifies this`trace, this`endReason
      ensures flow.NextTurn? ==> !stop && Seen() == old(Seen())
      ensures Agrees() && Seen().value == old(Seen().value).(quit := Seen().value.quit, over := Seen().value.over)
      ensures Seen().value.over == if flow.Over? then Some(StoppedEvent) else None
      ensures flow.Over? ==> endReason == StoppedRun
      ensures Benign(world) ==> !flow.Failing?
    {
      var stopped := false;
      for i := 0 to results
        invariant Agrees() && Seen() == Some(old(Seen().value).(quit := stopped))
      {
        var goOn := world.interpret(|trace|);
        if goOn.None? {
          return Failing("brain interpret");
        }
        Do(Interpreted(goOn.value));
        stopped := stopped || !goOn.value;
      }
      if stop || stopped {
        flow := StopRun();
      } else {
        flow := NextTurn;
      }
    }

    /** A turn from preflight to OnAgentTurnEnd. */
    method Serve(turn: nat, response: Response) returns (ok: bool, results: nat)
      requires Consulted(turn, response)
      modifies this`trace, this`stop, this`denials, this`openTurn
      ensures Tracks(turn) && Seen().value.over.None?
      ensures ok ==> openTurn.None? && Seen().value.next == denials && Ended(response.finish)
      ensures Benign(world) && Sensible(Some(response)) ==> ok
    {
      var run: seq<Input>, allowed: seq<bool>;
      results := 0;
      ok, run, allowed := RecordTurn(turn, response);
      if !ok {
        return;
      }
      ok := RunCalls(turn, run, allowed);
      if !ok {
        return;
      }
      results := |run|;
      ok := CloseTurn(turn);
    }

    /** One turn of the loop. Only a failure leaves recorded calls unended. */
    method Turn(turn: nat) returns (flow: Flow)
      requires turn > 0 && Between(turn - 1)
      modifies this
      ensures Tracks(turn) || (flow.Failing? && Tracks(turn - 1))
      ensures flow.NextTurn? ==> Between(turn)
      ensures flow.Over? ==> Seen().value.over.Some? && !Seen().value.over.value.ExhaustedEvent? && NothingOpen(Seen().value)
      ensures Benign(world) ==> !flow.Failing?
    {
      var response: Response;
      flow, response := Consult(turn);
      if !flow.NextTurn? {
        return;
      }
      var ok, results := Serve(turn, response);
      if !ok {
        return Failing("turn");
      }
      if response.finish {
        flow := Finish(turn);
        if !flow.NextTurn? {
          return;
        }
      }
      flow := Interpret(results);
    }

    /** The turns, up to the configured limit. */
    method Loop(first: Flow) returns (flow: Flow, ghost last: nat)
      requires Tracks(0) && NothingOpen(Seen().value)
      requires first.NextTurn? ==> Between(0)
      requires first.Over? ==> Seen().value.over == Some(StoppedEvent)
      modifies this
      ensures Tracks(last) && last <= world.maxTurns && !flow.NextTurn?
      ensures flow.Over? ==> Seen().value.over.Some? && NothingOpen(Seen().value)
      ensures flow.Over? && Seen().value.over == Some(ExhaustedEvent) ==> last == world.maxTurns
      ensures Benign(world) && !first.Failing? ==> !flow.Failing?
    {
      flow, last := first, 0;
      var turn: nat := 0;
      while flow.NextTurn? && turn < world.maxTurns
        invariant Tracks(last) && last <= turn <= world.maxTurns
        invariant Benign(world) && !first.Failing? ==> !flow.Failing?
        invariant flow.NextTurn? ==> last == turn && Between(turn)
        invariant flow.Over? ==> Seen().value.over.Some? && !Seen().value.over.value.ExhaustedEvent? && NothingOpen(Seen().value)
        decreases if flow.NextTurn? then 1 else 0, world.maxTurns - turn
      {
        turn := turn + 1;
        flow := Turn(turn);
        last := if Tracks(turn) then turn else turn - 1;
      }
      if flow.NextTurn? {
        endReason := ExhaustedTurns;
        var sent := Emit(LoopOver(ExhaustedEvent));
        flow := if sent then Over else Failing("event exhausted");
      }
    }

    /** The deferred closing hooks. OnAgentEnd, if it is still owed, is told
        that the run failed, or else how the loop ended. */
    method CloseRun(failure: Result<(), RunError>, ghost last: nat) returns (r: Result<(), RunError>)
      requires Tracks(last)
      requires failure.Ok? ==> Seen().value.over.Some? && NothingOpen(Seen().value)
      modifies this`trace, this`stop
      ensures Seen().Some? && WellClosed(Seen().value) && !Seen().value.agent.NotStarted?
      ensures Seen().value.over == old(Seen().value).over && Seen().value.last == last
      ensures failure.Err? ==> r.Err?
      ensures r.Ok? ==> !Seen().value.cut && Seen().value.reason == Some(ReasonOf(Seen().value.over.value))
      ensures failure.Err? && old(agentOpen) ==> Seen().value.reason == Some(FailedRun)
      ensures Benign(world) && failure.Ok? ==> r.Ok?
    {
      r := failure;
      if openTurn.Some? {
        var ok := RunStep(TurnEndHooks(openTurn.value));
        if !ok && r.Ok? {
          r := Err(Failure("agent turn end"));
        }
      }
      if !agentOpen {
        return;
      }
      var ok := RunStep(AgentEndHooks(if r.Err? then FailedRun else endReason));
      if !ok && r.Ok? {
        r := Err(Failure("agent end"));
      }
    }

    /** From agent_start to the closing hooks. */
    method RunTurns() returns (r: Result<(), RunError>)
      requires trace == [] && !stop && denials == map[] && openTurn.None? && !agentOpen
      modifies this
      ensures Seen().Some? && WellClosed(Seen().value)
      ensures r.Ok? ==> !Seen().value.cut && Seen().value.over.Some? && Seen().value.agent.Closed?
      ensures r.Ok? ==> Seen().value.reason == Some(ReasonOf(Seen().value.over.value))
      ensures r.Ok? && Seen().value.over == Some(ExhaustedEvent) ==> Seen().value.last == world.maxTurns
      ensures Seen().value.last <= world.maxTurns
      ensures Benign(world) ==> r.Ok?
    {
      var ok := Emit(AgentStarted);
      if !ok {
        return Err(Failure("event agent_start"));
      }
      agentOpen := true;
      var flow := NextTurn;
      ok := RunStep(Noise);
      if !ok {
        flow := Failing("agent start");
      } else if stop {
        flow := StopRun();
      }
      ghost var last: nat;
      flow, last := Loop(flow);
      r := if flow.Failing? then Err(Failure(flow.step)) else Ok(());
      r := CloseRun(r, last);
    }

    /** Run. With start hooks, every handler that starts runs an input that
        preflight cleared or that was approved. Whatever fails, is cancelled or
        asks to stop: the monitor accepts every step; every opened turn gets
        OnAgentTurnEnd once; and OnAgentEnd runs once, plus once per honoured
        Continue, if the agent started. When Run reports no error, each
        recorded call was run and ended, or denied; the loop stopped, finished
        or used all its turns; and OnAgentEnd was told which. It reports one
        only if something outside failed. */
    method Run() returns (r: Result<(), RunError>)
      requires trace == [] && !stop && denials == map[] && openTurn.None? && !agentOpen
      modifies this
      ensures Seen().Some? && WellClosed(Seen().value) && Seen().value.last <= world.maxTurns
      ensures world.checked ==> TurnTheorems.EveryHandlerJustified(trace)
      ensures r.Ok? ==> TurnTheorems.NothingForgotten(trace) && Seen().value.over.Some? && Seen().value.agent.Closed?
      ensures r.Ok? ==> Seen().value.reason == Some(ReasonOf(Seen().value.over.value))
      ensures r.Ok? && Seen().value.over == Some(ExhaustedEvent) ==> Seen().value.last == world.maxTurns
      ensures Benign(world) ==> r.Ok?
    {
      r := RunTurns();
      if world.checked {
        TurnTheorems.AllHandlers(trace);
      }
      if r.Ok? {
        TurnTheorems.AllCalls(world.checked, trace);
      }
    }
  }
}
