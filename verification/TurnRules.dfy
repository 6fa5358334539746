/** The rules of the turn loop (core.go, preflight.go): a monitor of what a run
    does, in order. */
module TurnRules {
  import opened Wrappers
  import opened Preflight
  import opened Permissions

  datatype Closing = StoppedEvent | FinishEvent | ExhaustedEvent

  datatype EndReason = Finished | StoppedRun | ExhaustedTurns | FailedRun

  /** What happens inside a turn. Calls are numbered in call order. */
  datatype Act =
    | Responded(calls: seq<Call>, finish: bool)  // the brain's answer: its calls before a finish action
    | Recorded(inputs: seq<Input>)               // assistant_response, with the calls that will run
    | Unchecked                                  // no start hook: every call is allowed
    | Asked(i: nat, input: Input)                // a permission request
    | Decided(i: nat, key: nat, allow: bool)     // action_decision
    | Announced(i: nat, input: Input)            // action_start
    | HandlerStarted(i: nat, input: Input)
    | HandlerReturned(i: nat)
    | CallEnded(i: nat)                          // action_end
    | CallDenied(i: nat)                         // action_denied
    | TurnEnded                                  // turn_end

  /** What a run does to the world, in order. Events reach every checked sink
      before the next step. */
  datatype Item =
    | AgentStarted
    | TurnOpened(turn: nat)                   // turn_start
    | InTurn(turn: nat, act: Act)
    | TurnEndHooks(turn: nat)                 // OnAgentTurnEnd
    | AgentEndHooks(reason: EndReason)        // OnAgentEnd
    | Continued(turn: nat)                    // a Continue that was honoured
    | LoopOver(event: Closing)                // stopped, finish or exhausted
    | Interpreted(goOn: bool)                 // the brain read a result
    | StopAsked                               // a hook asked to stop the run
    | Noise                                   // hooks, hook_error, system_message
    | SinkFailed

  // ------------------------------------------------------------- one turn

  datatype TurnState = TurnState(
    response: Option<seq<Call>>, finish: bool, recorded: Option<seq<Input>>, asked: set<nat>, allowed: seq<bool>, announced: nat,
    started: set<nat>, returned: set<nat>, ended: nat, closed: bool)

  const NewTurn := TurnState(None, false, None, {}, [], 0, {}, {}, 0, false)

  /** The calls as they will run: with start hooks, as preflight left them. */
  function Inputs(checked: bool, denials: map<nat, nat>, calls: seq<Call>): seq<Input> {
    seq(|calls|, i requires 0 <= i < |calls| => if checked then First(denials, calls[i]).input else calls[i].input)
  }

  /** Preflight allowed the call, or asked, and the request was approved. */
  ghost predicate Permitted(first: Decision, requested: bool, ask: AskEnv) {
    first.permission.Allow? || (first.permission.Ask? && requested && Approved(ask))
  }

  ghost predicate IsCall(s: TurnState, i: nat, input: Input) {
    && s.response.Some? && i < |s.response.value|
    && s.recorded.Some? && i < |s.recorded.value| && s.recorded.value[i] == input
  }

  ghost predicate AllDecided(s: TurnState) {
    s.recorded.Some? && |s.allowed| == |s.recorded.value|
  }

  ghost predicate AllAnnounced(s: TurnState) {
    forall k | s.announced <= k < |s.allowed| :: !s.allowed[k]
  }

  ghost predicate AllReturned(s: TurnState) {
    forall i | 0 <= i < |s.allowed| && s.allowed[i] :: i in s.returned
  }

  /** Every call of the turn, allowed or denied, has had its end. */
  ghost predicate AllEnded(s: TurnState) {
    s.recorded.None? || s.ended == |s.recorded.value|
  }

  /** The turn recorded, and ended, what the brain asked for. */
  ghost predicate Served(s: TurnState) {
    && s.response.Some?
    && (s.response.value != [] ==> s.recorded.Some? && |s.recorded.value| == |s.response.value|)
    && AllEnded(s)
  }

  ghost predicate EndsCall(s: TurnState, i: nat) {
    AllDecided(s) && AllReturned(s) && i == s.ended < |s.allowed|
  }

  /** When a call may be asked about: preflight asked, nothing stopped the run,
      and nothing of the turn is decided. */
  ghost predicate MayAsk(stop: bool, denials: map<nat, nat>, s: TurnState, i: nat, input: Input) {
    && !stop && s.allowed == [] && IsCall(s, i, input) && (forall k | k in s.asked :: k < i)
    && First(denials, s.response.value[i]).decision.permission.Ask?
  }

  /** How a call is decided. */
  ghost predicate MayDecide(stop: bool, denials: map<nat, nat>, s: TurnState, i: nat, key: nat, allow: bool) {
    && s.response.Some? && s.recorded.Some? && i == |s.allowed| < |s.recorded.value| && i < |s.response.value|
    && var call := s.response.value[i];
       key == call.key && (allow <==> !stop && Permitted(First(denials, call).decision, i in s.asked, call.ask))
  }

  /** The rules of a turn. The response is recorded as it will run before
      anything is asked; a handler starts only after every call of the turn is
      decided and every allowed one announced, for an allowed call, once, on
      the recorded arguments, and never after a stop. Ends come in call order,
      one per call, after every handler returned. */
  ghost predicate MayAct(checked: bool, stop: bool, denials: map<nat, nat>, s: TurnState, act: Act) {
    match act
    case Responded(_, _) => s.response.None? && s.recorded.None? && !s.closed
    case Recorded(inputs) =>
      s.response.Some? && s.recorded.None? && !s.closed && inputs == Inputs(checked, denials, s.response.value)
    case Unchecked => !checked && s.recorded.Some? && s.allowed == []
    case Asked(i, input) => checked && MayAsk(stop, denials, s, i, input)
    case Decided(i, key, allow) => checked && MayDecide(stop, denials, s, i, key, allow)
    case Announced(i, input) =>
      && AllDecided(s) && IsCall(s, i, input) && s.announced <= i < |s.allowed| && s.allowed[i]
      && (forall k | s.announced <= k < i :: !s.allowed[k])
    case HandlerStarted(i, input) =>
      && !stop && AllDecided(s) && AllAnnounced(s) && IsCall(s, i, input)
      && i < |s.allowed| && s.allowed[i] && i !in s.started
    case HandlerReturned(i) => i in s.started && i !in s.returned
    case CallEnded(i) => EndsCall(s, i) && s.allowed[i]
    case CallDenied(i) => EndsCall(s, i) && !s.allowed[i]
    case TurnEnded => Served(s) && !s.closed
  }

  ghost function After(s: TurnState, act: Act): TurnState {
    match act
    case Responded(calls, finish) => s.(response := Some(calls), finish := finish)
    case Recorded(inputs) => s.(recorded := Some(inputs))
    case Unchecked => s.(allowed := if s.recorded.Some? then seq(|s.recorded.value|, _ => true) else [])
    case Asked(i, _) => s.(asked := s.asked + {i})
    case Decided(_, _, allow) => s.(allowed := s.allowed + [allow])
    case Announced(i, _) => s.(announced := i + 1)
    case HandlerStarted(i, _) => s.(started := s.started + {i})
    case HandlerReturned(i) => s.(returned := s.returned + {i})
    case CallEnded(i) => s.(ended := i + 1)
    case CallDenied(i) => s.(ended := i + 1)
    case TurnEnded => s.(closed := true)
  }

  function Counted(denials: map<nat, nat>, act: Act): map<nat, nat> {
    if act.Decided? then CountOne(denials, act.key, act.allow) else denials
  }

  // -------------------------------------------------------------- the run

  datatype Agent = NotStarted | Running | Closed

  /** What a run has done so far. `turn` is the state of the last opened turn;
      `denials` counts the denials before it and `next` all of them; `quit`
      says that the brain asked to stop; `reason` is what OnAgentEnd was told
      since it opened; `cut` records that some turn was closed
      after its calls were recorded and before all of them had ended. */
  datatype Monitor = Monitor(
    checked: bool, agent: Agent, stop: bool, quit: bool, over: Option<Closing>, open: Option<nat>, last: nat, turn: TurnState,
    denials: map<nat, nat>, next: map<nat, nat>, reason: Option<EndReason>, cut: bool, ends: nat, continues: nat)

  /** `checked` says whether any start hook is registered. */
  function Initial(checked: bool): Monitor {
    Monitor(checked, NotStarted, false, false, None, None, 0, NewTurn, map[], map[], None, false, 0, 0)
  }

  function ReasonOf(event: Closing): EndReason {
    match event
    case StoppedEvent => StoppedRun
    case FinishEvent => Finished
    case ExhaustedEvent => ExhaustedTurns
  }

  /** The last turn ended, and the brain had finished. */
  predicate Finishing(m: Monitor) {
    m.open.None? && m.turn.finish && m.turn.closed
  }

  /** OnAgentEnd is told how the loop ended; before a finish event, that the
      brain finished; and that the run failed, whenever it did. */
  predicate ReasonFits(m: Monitor, reason: EndReason) {
    || reason.FailedRun?
    || (m.over.Some? && reason == ReasonOf(m.over.value))
    || (m.over.None? && reason.Finished? && Finishing(m) && !m.stop)
  }

  predicate MayEnd(m: Monitor, event: Closing) {
    match event
    case StoppedEvent => m.stop || m.quit
    case FinishEvent => Finishing(m) && (m.agent.Closed? || m.stop)
    case ExhaustedEvent => m.open.None? && m.agent.Running? && !m.stop && !m.quit
  }

  /** A turn opens while nothing stopped the run; after a finish, only on a
      Continue. */
  predicate MayOpen(m: Monitor, t: nat) {
    && m.agent.Running? && m.over.None? && m.open.None? && !m.stop && !m.quit && t == m.last + 1
    && (m.turn.finish ==> m.reason == Some(Finished))
  }

  /** The rules of a run. Turns follow one another while nothing stopped it,
      and each is closed once, with OnAgentTurnEnd. */
  ghost predicate May(m: Monitor, item: Item) {
    match item
    case AgentStarted => m.agent.NotStarted?
    case TurnOpened(t) => MayOpen(m, t)
    case InTurn(t, act) => m.open == Some(t) && m.over.None? && MayAct(m.checked, m.stop, m.denials, m.turn, act)
    case TurnEndHooks(t) => m.open == Some(t)
    case AgentEndHooks(reason) => m.agent.Running? && m.open.None? && ReasonFits(m, reason)
    case Continued(t) =>
      m.agent.Closed? && m.over.None? && m.open.None? && !m.stop && t == m.last && m.reason == Some(Finished)
    case LoopOver(event) => !m.agent.NotStarted? && m.over.None? && MayEnd(m, event)
    case Interpreted(_) => m.open.None? && m.over.None?
    case StopAsked => true
    case Noise => true
    case SinkFailed => true
  }

  ghost function Next(m: Monitor, item: Item): Monitor {
    match item
    case AgentStarted => m.(agent := Running)
    case TurnOpened(t) => m.(open := Some(t), last := t, turn := NewTurn, denials := m.next, reason := None)
    case InTurn(_, act) => m.(turn := After(m.turn, act), next := Counted(m.next, act))
    case TurnEndHooks(_) => m.(open := None, cut := m.cut || (m.turn.recorded.Some? && !m.turn.closed))
    case AgentEndHooks(reason) => m.(agent := Closed, ends := m.ends + 1, reason := Some(reason))
    case Continued(_) => m.(agent := Running, continues := m.continues + 1)
    case LoopOver(event) => m.(over := Some(event))
    case Interpreted(goOn) => m.(quit := m.quit || !goOn)
    case StopAsked => m.(stop := true)
    case Noise => m
    case SinkFailed => m
  }

  /** Where the monitor is after a trace, if it accepted every step. */
  ghost function Watched(checked: bool, trace: seq<Item>): Option<Monitor>
    decreases |trace|
  {
    if trace == [] then Some(Initial(checked))
    else
      var before := Watched(checked, trace[..|trace| - 1]);
      if before.Some? && May(before.value, trace[|trace| - 1]) then Some(Next(before.value, trace[|trace| - 1])) else None
  }

  lemma WatchedNext(checked: bool, trace: seq<Item>, item: Item)
    requires Watched(checked, trace).Some? && May(Watched(checked, trace).value, item)
    ensures Watched(checked, trace + [item]) == Some(Next(Watched(checked, trace).value, item))
  {
    assert (trace + [item])[..|trace|] == trace;
  }

  /** After a run: no turn is left open, and once the agent started OnAgentEnd
      ran once, plus once per honoured Continue. */
  predicate WellClosed(m: Monitor) {
    && m.open.None?
    && (m.agent.NotStarted? ==> m.ends == 0)
    && (!m.agent.NotStarted? ==> m.agent.Closed? && m.ends == 1 + m.continues)
  }
}
