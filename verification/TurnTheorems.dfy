/** What every trace that keeps the rules has in common; Core.Run only produces
    such traces. */
module TurnTheorems {
  import opened Wrappers
  import opened Preflight
  import opened PreflightDenials
  import opened Permissions
  import opened TurnRules

  lemma {:induction false} AcceptedPrefix(checked: bool, trace: seq<Item>, k: nat)
    requires Watched(checked, trace).Some? && k <= |trace|
    ensures Watched(checked, trace[..k]).Some?
    decreases |trace|
  {
    if k < |trace| {
      var n := |trace| - 1;
      assert trace[..n][..k] == trace[..k];
      AcceptedPrefix(checked, trace[..n], k);
    } else {
      assert trace[..k] == trace;
    }
  }

  lemma Before(checked: bool, trace: seq<Item>, k: nat) returns (m: Monitor)
    requires Watched(checked, trace).Some? && k < |trace|
    ensures Watched(checked, trace[..k]) == Some(m) && May(m, trace[k])
  {
    AcceptedPrefix(checked, trace, k + 1);
    assert trace[..k + 1][..k] == trace[..k];
    m := Watched(checked, trace[..k]).value;
  }

  // --------------------------------------- what the monitor knows, it saw

  ghost predicate Says(trace: seq<Item>, t: nat, act: Act) {
    InTurn(t, act) in trace
  }

  ghost predicate ResponseKnown(trace: seq<Item>, t: nat, s: TurnState) {
    s.response.Some? ==> Says(trace, t, Responded(s.response.value, s.finish))
  }

  ghost predicate RecordKnown(trace: seq<Item>, checked: bool, denials: map<nat, nat>, t: nat, s: TurnState) {
    && (s.recorded.Some? ==> && Says(trace, t, Recorded(s.recorded.value)) && s.response.Some?
                             && s.recorded.value == Inputs(checked, denials, s.response.value))
    && |s.allowed| <= (if s.recorded.Some? then |s.recorded.value| else 0)
  }

  ghost predicate AskedKnown(trace: seq<Item>, t: nat, s: TurnState) {
    forall i | i in s.asked :: s.recorded.Some? && i < |s.recorded.value| && Says(trace, t, Asked(i, s.recorded.value[i]))
  }

  /** Call i was decided as the rules ask, and the trace says so. */
  ghost predicate DecidedAs(trace: seq<Item>, checked: bool, denials: map<nat, nat>, t: nat, requested: bool, i: nat, call: Call, allow: bool) {
    if checked then Says(trace, t, Decided(i, call.key, allow)) && (allow ==> Permitted(First(denials, call).decision, requested, call.ask))
    else allow && Says(trace, t, Unchecked)
  }

  ghost predicate CallKnown(trace: seq<Item>, checked: bool, denials: map<nat, nat>, t: nat, s: TurnState, i: nat)
    requires i < |s.allowed|
  {
    && s.response.Some? && i < |s.response.value|
    && DecidedAs(trace, checked, denials, t, i in s.asked, i, s.response.value[i], s.allowed[i])
  }

  ghost predicate AllowedKnown(trace: seq<Item>, checked: bool, denials: map<nat, nat>, t: nat, s: TurnState) {
    forall i: nat | i < |s.allowed| :: CallKnown(trace, checked, denials, t, s, i)
  }

  /** Call i had its end: its handler returned, or it was denied. */
  ghost predicate EndSaid(trace: seq<Item>, t: nat, i: nat, allow: bool) {
    if allow then Says(trace, t, HandlerReturned(i)) && Says(trace, t, CallEnded(i)) else Says(trace, t, CallDenied(i))
  }

  ghost predicate EndKnown(trace: seq<Item>, t: nat, s: TurnState) {
    && (forall i | i in s.returned :: Says(trace, t, HandlerReturned(i)))
    && s.ended <= |s.allowed| && (forall i: nat | i < s.ended :: EndSaid(trace, t, i, s.allowed[i]))
    && (s.closed ==> Says(trace, t, TurnEnded) && Served(s))
  }

  ghost predicate TurnKnown(trace: seq<Item>, checked: bool, denials: map<nat, nat>, t: nat, s: TurnState) {
    && ResponseKnown(trace, t, s) && RecordKnown(trace, checked, denials, t, s)
    && AskedKnown(trace, t, s) && AllowedKnown(trace, checked, denials, t, s) && EndKnown(trace, t, s)
  }

  lemma SaysMore(trace: seq<Item>, item: Item)
    ensures forall t: nat, act: Act | Says(trace, t, act) :: Says(trace + [item], t, act)
    ensures item.InTurn? ==> Says(trace + [item], item.turn, item.act)
  {
    assert item in trace + [item];
  }

  lemma RecordNext(trace: seq<Item>, checked: bool, stop: bool, denials: map<nat, nat>, t: nat, s: TurnState, act: Act)
    requires RecordKnown(trace, checked, denials, t, s) && MayAct(checked, stop, denials, s, act)
    ensures RecordKnown(trace + [InTurn(t, act)], checked, denials, t, After(s, act))
  {
    SaysMore(trace, InTurn(t, act));
  }

  lemma AskedNext(trace: seq<Item>, checked: bool, stop: bool, denials: map<nat, nat>, t: nat, s: TurnState, act: Act)
    requires AskedKnown(trace, t, s) && MayAct(checked, stop, denials, s, act)
    ensures AskedKnown(trace + [InTurn(t, act)], t, After(s, act))
  {
    SaysMore(trace, InTurn(t, act));
  }

  lemma AllowedStays(trace: seq<Item>, item: Item, checked: bool, denials: map<nat, nat>, t: nat, s: TurnState, s': TurnState)
    requires AllowedKnown(trace, checked, denials, t, s)
    requires s'.allowed == s.allowed && (s.allowed != [] ==> s'.response == s.response && s'.asked == s.asked)
    ensures AllowedKnown(trace + [item], checked, denials, t, s')
  {
    SaysMore(trace, item);
    forall i: nat | i < |s'.allowed|
      ensures CallKnown(trace + [item], checked, denials, t, s', i)
    {
      assert CallKnown(trace, checked, denials, t, s, i);
    }
  }

  lemma AllowedOneMore(trace: seq<Item>, stop: bool, denials: map<nat, nat>, t: nat, s: TurnState, act: Act)
    requires AllowedKnown(trace, true, denials, t, s)
    requires act.Decided? && MayDecide(stop, denials, s, act.i, act.key, act.allow)
    ensures AllowedKnown(trace + [InTurn(t, act)], true, denials, t, After(s, act))
  {
    var longer := trace + [InTurn(t, act)];
    SaysMore(trace, InTurn(t, act));
    forall i: nat | i < |s.allowed| + 1
      ensures CallKnown(longer, true, denials, t, After(s, act), i)
    {
      if i < |s.allowed| {
        assert CallKnown(trace, true, denials, t, s, i);
      }
    }
  }

  lemma AllowedAll(trace: seq<Item>, denials: map<nat, nat>, t: nat, s: TurnState)
    requires RecordKnown(trace, false, denials, t, s) && s.recorded.Some?
    ensures AllowedKnown(trace + [InTurn(t, Unchecked)], false, denials, t, After(s, Unchecked))
  {
    SaysMore(trace, InTurn(t, Unchecked));
  }

  lemma AllowedNext(trace: seq<Item>, checked: bool, stop: bool, denials: map<nat, nat>, t: nat, s: TurnState, act: Act)
    requires AllowedKnown(trace, checked, denials, t, s) && RecordKnown(trace, checked, denials, t, s)
    requires MayAct(checked, stop, denials, s, act)
    ensures AllowedKnown(trace + [InTurn(t, act)], checked, denials, t, After(s, act))
  {
    if act.Unchecked? {
      AllowedAll(trace, denials, t, s);
    } else if act.Decided? {
      AllowedOneMore(trace, stop, denials, t, s, act);
    } else {
      AllowedStays(trace, InTurn(t, act), checked, denials, t, s, After(s, act));
    }
  }

  lemma EndNext(trace: seq<Item>, checked: bool, stop: bool, denials: map<nat, nat>, t: nat, s: TurnState, act: Act)
    requires EndKnown(trace, t, s) && MayAct(checked, stop, denials, s, act)
    ensures EndKnown(trace + [InTurn(t, act)], t, After(s, act))
  {
    SaysMore(trace, InTurn(t, act));
    var s' := After(s, act);
    forall i: nat | i < s'.ended
      ensures EndSaid(trace + [InTurn(t, act)], t, i, s'.allowed[i])
    {
      if i < s.ended {
        assert EndSaid(trace, t, i, s.allowed[i]);
      }
    }
  }

  lemma TurnNext(trace: seq<Item>, checked: bool, stop: bool, denials: map<nat, nat>, t: nat, s: TurnState, act: Act)
    requires TurnKnown(trace, checked, denials, t, s) && MayAct(checked, stop, denials, s, act)
    ensures TurnKnown(trace + [InTurn(t, act)], checked, denials, t, After(s, act))
  {
    SaysMore(trace, InTurn(t, act));
    RecordNext(trace, checked, stop, denials, t, s, act);
    AskedNext(trace, checked, stop, denials, t, s, act);
    AllowedNext(trace, checked, stop, denials, t, s, act);
    EndNext(trace, checked, stop, denials, t, s, act);
  }

  lemma EndStays(trace: seq<Item>, item: Item, t: nat, s: TurnState)
    requires EndKnown(trace, t, s)
    ensures EndKnown(trace + [item], t, s)
  {
    SaysMore(trace, item);
    forall i: nat | i < s.ended
      ensures EndSaid(trace + [item], t, i, s.allowed[i])
    {
      assert EndSaid(trace, t, i, s.allowed[i]);
    }
  }

  lemma TurnStays(trace: seq<Item>, item: Item, checked: bool, denials: map<nat, nat>, t: nat, s: TurnState)
    requires TurnKnown(trace, checked, denials, t, s)
    ensures TurnKnown(trace + [item], checked, denials, t, s)
  {
    SaysMore(trace, item);
    AllowedStays(trace, item, checked, denials, t, s, s);
    EndStays(trace, item, t, s);
  }

  /** What the monitor knows of the open turn is in the trace. */
  ghost predicate OpenKnown(trace: seq<Item>, m: Monitor) {
    m.open.Some? ==> m.open == Some(m.last) && TurnKnown(trace, m.checked, m.denials, m.last, m.turn)
  }

  lemma OpenKnownNext(trace: seq<Item>, m: Monitor, item: Item)
    requires OpenKnown(trace, m) && May(m, item)
    ensures OpenKnown(trace + [item], Next(m, item))
  {
    if item.InTurn? {
      TurnNext(trace, m.checked, m.stop, m.denials, m.last, m.turn, item.act);
    } else if m.open.Some? {
      TurnStays(trace, item, m.checked, m.denials, m.last, m.turn);
    }
  }

  lemma {:induction false} OpenIsKnown(checked: bool, trace: seq<Item>)
    requires Watched(checked, trace).Some?
    ensures OpenKnown(trace, Watched(checked, trace).value)
    decreases |trace|
  {
    if trace != [] {
      var n := |trace| - 1;
      OpenIsKnown(checked, trace[..n]);
      OpenKnownNext(trace[..n], Watched(checked, trace[..n]).value, trace[n]);
      assert trace == trace[..n] + [trace[n]];
    }
  }

  // ------------------------------------------------- stops and denials

  lemma {:induction false} StopIsSeen(checked: bool, trace: seq<Item>)
    requires Watched(checked, trace).Some?
    ensures StopAsked in trace <==> Watched(checked, trace).value.stop
    decreases |trace|
  {
    if trace != [] {
      var n := |trace| - 1;
      StopIsSeen(checked, trace[..n]);
      StopNext(Watched(checked, trace[..n]).value, trace[n]);
      InLonger(trace[..n], trace[n], StopAsked);
      assert trace == trace[..n] + [trace[n]];
    }
  }

  lemma StopNext(m: Monitor, item: Item)
    requires May(m, item)
    ensures Next(m, item).stop <==> m.stop || item == StopAsked
  {
  }

  lemma InLonger(trace: seq<Item>, item: Item, x: Item)
    ensures x in trace + [item] <==> x in trace || x == item
  {
  }

  predicate Denies(item: Item, key: nat) {
    item.InTurn? && item.act.Decided? && item.act.key == key && !item.act.allow
  }

  /** How often a call was denied. */
  function DenialsIn(trace: seq<Item>, key: nat): nat {
    if trace == [] then 0 else DenialsIn(trace[..|trace| - 1], key) + (if Denies(trace[|trace| - 1], key) then 1 else 0)
  }

  lemma CountedOne(denials: map<nat, nat>, act: Act, t: nat, key: nat)
    ensures Denials(Counted(denials, act), key) == Denials(denials, key) + (if Denies(InTurn(t, act), key) then 1 else 0)
  {
  }

  lemma NextCounts(m: Monitor, item: Item, key: nat)
    requires May(m, item)
    ensures Denials(Next(m, item).next, key) == Denials(m.next, key) + (if Denies(item, key) then 1 else 0)
  {
    if item.InTurn? {
      CountedOne(m.next, item.act, item.turn, key);
    }
  }

  /** The monitor counts the denials in the trace. */
  lemma {:induction false} DenialsAreCounted(checked: bool, trace: seq<Item>, key: nat)
    requires Watched(checked, trace).Some?
    ensures Denials(Watched(checked, trace).value.next, key) == DenialsIn(trace, key)
    decreases |trace|
  {
    if trace != [] {
      var n := |trace| - 1;
      DenialsAreCounted(checked, trace[..n], key);
      NextCounts(Watched(checked, trace[..n]).value, trace[n], key);
    }
  }

  /** The last turn opened at j, with the denials up to there. */
  ghost predicate OpenedAt(trace: seq<Item>, m: Monitor, j: nat, key: nat) {
    j < |trace| && trace[j] == TurnOpened(m.last) && Denials(m.denials, key) == DenialsIn(trace[..j], key)
  }

  lemma OpenedStays(trace: seq<Item>, m: Monitor, item: Item, j: nat, key: nat)
    requires OpenedAt(trace, m, j, key) && May(m, item) && !item.TurnOpened?
    ensures OpenedAt(trace + [item], Next(m, item), j, key)
  {
    assert (trace + [item])[..j] == trace[..j];
  }

  lemma OpenedNow(trace: seq<Item>, m: Monitor, item: Item, key: nat)
    requires May(m, item) && item.TurnOpened? && Denials(m.next, key) == DenialsIn(trace, key)
    ensures OpenedAt(trace + [item], Next(m, item), |trace|, key)
  {
    assert (trace + [item])[..|trace|] == trace;
  }

  lemma WasOpen(m: Monitor, item: Item)
    requires May(m, item) && Next(m, item).open.Some?
    ensures item.TurnOpened? || m.open.Some?
  {
  }

  lemma {:induction false} OpenedSomewhere(checked: bool, trace: seq<Item>, key: nat) returns (j: nat)
    requires Watched(checked, trace).Some? && Watched(checked, trace).value.open.Some?
    ensures OpenedAt(trace, Watched(checked, trace).value, j, key)
    decreases |trace|
  {
    var n := |trace| - 1;
    var m := Watched(checked, trace[..n]).value;
    assert trace == trace[..n] + [trace[n]];
    WasOpen(m, trace[n]);
    if trace[n].TurnOpened? {
      DenialsAreCounted(checked, trace[..n], key);
      j := n;
      OpenedNow(trace[..n], m, trace[n], key);
    } else {
      j := OpenedSomewhere(checked, trace[..n], key);
      OpenedStays(trace[..n], m, trace[n], j, key);
    }
  }

  // ------------------------------------------------- before a handler runs

  /** Call i of the turn, as the brain proposed it. */
  ghost predicate Proposed(trace: seq<Item>, t: nat, i: nat, call: Call) {
    exists calls: seq<Call>, finish: bool :: Says(trace, t, Responded(calls, finish)) && i < |calls| && calls[i] == call
  }

  /** In one of the passes every start hook ran on exactly this input, and
      nothing was raised against it. */
  ghost predicate WasCleared(call: Call, input: Input) {
    exists p | 0 <= p < 8 :: PassInput(call.env, call.input, p) == Some(input) && Cleared(call.env, p, input)
  }

  /** Preflight asked about exactly this input, and the request that was made
      of it was approved. */
  ghost predicate WasApproved(trace: seq<Item>, t: nat, i: nat, call: Call, input: Input) {
    && Decide(call.env, 0, call.input, Nothing).decision.permission.Ask?
    && Says(trace, t, Asked(i, input)) && Approved(call.ask)
  }

  /** When the turn opened, the call had not been denied too often. */
  ghost predicate NotDeniedForGood(trace: seq<Item>, t: nat, key: nat) {
    exists j: nat :: j < |trace| && trace[j] == TurnOpened(t) && DenialsIn(trace[..j], key) < 3
  }

  ghost predicate RunsAsDecided(trace: seq<Item>, t: nat, i: nat, call: Call, input: Input) {
    && input == Decide(call.env, 0, call.input, Nothing).input
    && (WasCleared(call, input) || WasApproved(trace, t, i, call, input))
    && !ExplicitlyDenied(call.env, call.input)
    && NotDeniedForGood(trace, t, call.key)
  }

  ghost predicate Justified(trace: seq<Item>, t: nat, i: nat, input: Input) {
    exists call: Call :: Proposed(trace, t, i, call) && RunsAsDecided(trace, t, i, call, input)
  }

  /** Whenever a handler starts, nothing has asked to stop, and its input was
      cleared or approved. */
  ghost predicate EveryHandlerJustified(trace: seq<Item>) {
    forall k: nat, t: nat, i: nat, input: Input | k < |trace| && trace[k] == InTurn(t, HandlerStarted(i, input)) ::
      StopAsked !in trace[..k] && Justified(trace[..k], t, i, input)
  }

  /** What a permitted call has behind it. */
  lemma PermittedMeans(trace: seq<Item>, denials: map<nat, nat>, t: nat, i: nat, call: Call, requested: bool, input: Input)
    requires Permitted(First(denials, call).decision, requested, call.ask) && input == First(denials, call).input
    requires requested ==> Says(trace, t, Asked(i, input))
    ensures !TooOften(denials, call) && input == Decide(call.env, 0, call.input, Nothing).input
    ensures WasCleared(call, input) || WasApproved(trace, t, i, call, input)
    ensures !ExplicitlyDenied(call.env, call.input)
  {
    if ExplicitlyDenied(call.env, call.input) {
      ExplicitDenyHolds(call.env, call.input);
    }
    if First(denials, call).decision.permission.Allow? {
      AllowMeansCleared(call.env, call.input);
    }
  }

  lemma StartFacts(trace: seq<Item>, m: Monitor, i: nat, input: Input) returns (call: Call)
    requires OpenKnown(trace, m) && m.checked && May(m, InTurn(m.last, HandlerStarted(i, input)))
    ensures !m.stop && Proposed(trace, m.last, i, call)
    ensures Permitted(First(m.denials, call).decision, i in m.turn.asked, call.ask) && input == First(m.denials, call).input
    ensures i in m.turn.asked ==> Says(trace, m.last, Asked(i, input))
  {
    var s := m.turn;
    assert s.recorded.value[i] == input && s.allowed[i];
    assert CallKnown(trace, true, m.denials, m.last, s, i);
    call := s.response.value[i];
    assert Says(trace, m.last, Responded(s.response.value, s.finish));
    assert Inputs(true, m.denials, s.response.value)[i] == First(m.denials, call).input;
  }

  /** With start hooks, a handler runs exactly the input that preflight left of
      a call the brain proposed in this turn: every start hook cleared it, or
      preflight asked and the request was made and approved; and no start hook
      that was asked denied it. Before the turn
      the call was denied fewer times than the limit, and no hook has asked to
      stop the run. */
  lemma HandlerRunsWhatWasCleared(trace: seq<Item>, k: nat, t: nat, i: nat, input: Input)
    requires Watched(true, trace).Some? && k < |trace| && trace[k] == InTurn(t, HandlerStarted(i, input))
    ensures StopAsked !in trace[..k] && Justified(trace[..k], t, i, input)
  {
    var m := Before(true, trace, k);
    OpenIsKnown(true, trace[..k]);
    StopIsSeen(true, trace[..k]);
    CheckedStays(true, trace[..k]);
    var call := StartFacts(trace[..k], m, i, input);
    PermittedMeans(trace[..k], m.denials, t, i, call, i in m.turn.asked, input);
    var j := OpenedSomewhere(true, trace[..k], call.key);
    assert trace[..k][j] == TurnOpened(t);
    assert Proposed(trace[..k], t, i, call) && RunsAsDecided(trace[..k], t, i, call, input);
  }

  lemma AllHandlers(trace: seq<Item>)
    requires Watched(true, trace).Some?
    ensures EveryHandlerJustified(trace)
  {
    forall k: nat, t: nat, i: nat, input: Input | k < |trace| && trace[k] == InTurn(t, HandlerStarted(i, input))
      ensures StopAsked !in trace[..k] && Justified(trace[..k], t, i, input)
    {
      HandlerRunsWhatWasCleared(trace, k, t, i, input);
    }
  }

  lemma {:induction false} CheckedStays(checked: bool, trace: seq<Item>)
    requires Watched(checked, trace).Some?
    ensures Watched(checked, trace).value.checked == checked
    decreases |trace|
  {
    if trace != [] {
      var n := |trace| - 1;
      CheckedStays(checked, trace[..n]);
      CheckedNext(Watched(checked, trace[..n]).value, trace[n]);
    }
  }

  lemma CheckedNext(m: Monitor, item: Item)
    ensures Next(m, item).checked == m.checked
  {
  }

  /** Nobody is asked about a call before the calls of its turn are on record,
      with the input that is asked about; nor after a hook asked to stop. */
  lemma AskedOnRecord(trace: seq<Item>, k: nat, t: nat, i: nat, input: Input)
    requires Watched(true, trace).Some? && k < |trace| && trace[k] == InTurn(t, Asked(i, input))
    ensures StopAsked !in trace[..k]
    ensures exists inputs: seq<Input> :: Says(trace[..k], t, Recorded(inputs)) && i < |inputs| && inputs[i] == input
  {
    var m := Before(true, trace, k);
    OpenIsKnown(true, trace[..k]);
    StopIsSeen(true, trace[..k]);
    assert Says(trace[..k], t, Recorded(m.turn.recorded.value)) && m.turn.recorded.value[i] == input;
  }

  /** The trace says that call i of turn t may run: it was decided, or no
      start hook was there to decide it. */
  ghost predicate SaysAllowed(trace: seq<Item>, t: nat, i: nat) {
    Says(trace, t, Unchecked) || exists key: nat :: Says(trace, t, Decided(i, key, true))
  }

  ghost predicate SaysDecided(trace: seq<Item>, t: nat, i: nat) {
    SaysAllowed(trace, t, i) || exists key: nat :: Says(trace, t, Decided(i, key, false))
  }

  lemma DecisionSaid(trace: seq<Item>, checked: bool, denials: map<nat, nat>, t: nat, s: TurnState, i: nat)
    requires AllowedKnown(trace, checked, denials, t, s) && i < |s.allowed|
    ensures SaysDecided(trace, t, i) && (s.allowed[i] ==> SaysAllowed(trace, t, i))
  {
    assert CallKnown(trace, checked, denials, t, s, i);
  }

  /** A handler starts only for an allowed call, on the input that was
      recorded for it, and only after every call of that turn was decided. */
  lemma HandlerIsLast(checked: bool, trace: seq<Item>, k: nat, t: nat, i: nat, input: Input)
    requires Watched(checked, trace).Some? && k < |trace| && trace[k] == InTurn(t, HandlerStarted(i, input))
    ensures SaysAllowed(trace[..k], t, i)
    ensures exists inputs: seq<Input> :: && Says(trace[..k], t, Recorded(inputs)) && i < |inputs| && inputs[i] == input
                                         && forall j: nat | j < |inputs| :: SaysDecided(trace[..k], t, j)
  {
    var m := Before(checked, trace, k);
    OpenIsKnown(checked, trace[..k]);
    var s := m.turn;
    forall j: nat | j < |s.allowed|
      ensures SaysDecided(trace[..k], t, j) && (s.allowed[j] ==> SaysAllowed(trace[..k], t, j))
    {
      DecisionSaid(trace[..k], m.checked, m.denials, t, s, j);
    }
    assert Says(trace[..k], t, Recorded(s.recorded.value));
  }

  // ------------------------------------------------------- once per turn

  /** Two acts of a turn that may not both happen, or not twice. */
  predicate SameSlot(a: Act, b: Act) {
    match a
    case Responded(_, _) => b.Responded?
    case Recorded(_) => b.Recorded?
    case Unchecked => false
    case Asked(i, _) => b.Asked? && b.i == i
    case Decided(i, _, _) => b.Decided? && b.i == i
    case Announced(i, _) => b.Announced? && b.i == i
    case HandlerStarted(i, _) => b.HandlerStarted? && b.i == i
    case HandlerReturned(i) => b.HandlerReturned? && b.i == i
    case CallEnded(i) => IsEnd(b, i)
    case CallDenied(i) => IsEnd(b, i)
    case TurnEnded => b.TurnEnded? || b.Recorded? || b.Responded?
  }

  predicate IsEnd(act: Act, i: nat) {
    act == CallEnded(i) || act == CallDenied(i)
  }

  /** The turn is past this act. */
  ghost predicate Spent(s: TurnState, act: Act) {
    match act
    case Responded(_, _) => s.response.Some?
    case Recorded(_) => s.recorded.Some?
    case Unchecked => true
    case Asked(i, _) => i in s.asked
    case Decided(i, _, _) => i < |s.allowed|
    case Announced(i, _) => i < s.announced
    case HandlerStarted(i, _) => i in s.started
    case HandlerReturned(i) => i in s.returned
    case CallEnded(i) => i < s.ended
    case CallDenied(i) => i < s.ended
    case TurnEnded => s.closed
  }

  lemma SpentOnce(checked: bool, stop: bool, denials: map<nat, nat>, s: TurnState, done: Act, act: Act)
    requires Spent(s, done) && SameSlot(done, act)
    ensures !MayAct(checked, stop, denials, s, act)
  {
  }

  lemma SpentStays(checked: bool, stop: bool, denials: map<nat, nat>, s: TurnState, act: Act, done: Act)
    requires MayAct(checked, stop, denials, s, act) && (Spent(s, done) || done == act)
    ensures Spent(After(s, act), done)
  {
  }

  /** Everything so far was in an earlier turn, or the open turn is past it. */
  ghost predicate ItemSpent(item: Item, m: Monitor) {
    item.InTurn? ==> item.turn <= m.last && (item.turn == m.last && m.open.Some? ==> Spent(m.turn, item.act))
  }

  ghost predicate AllSpent(trace: seq<Item>, m: Monitor) {
    && (m.open.None? || m.open == Some(m.last))
    && forall k | 0 <= k < |trace| :: ItemSpent(trace[k], m)
  }

  lemma ItemStaysSpent(item: Item, m: Monitor, next: Item)
    requires (m.open.None? || m.open == Some(m.last)) && May(m, next) && (ItemSpent(item, m) || item == next)
    ensures ItemSpent(item, Next(m, next))
  {
    if item.InTurn? && next.InTurn? && (item == next || item.turn == m.last) {
      SpentStays(m.checked, m.stop, m.denials, m.turn, next.act, item.act);
    }
  }

  lemma LastStays(m: Monitor, item: Item)
    requires (m.open.None? || m.open == Some(m.last)) && May(m, item)
    ensures Next(m, item).open.None? || Next(m, item).open == Some(Next(m, item).last)
  {
  }

  lemma AllSpentNext(trace: seq<Item>, m: Monitor, item: Item)
    requires AllSpent(trace, m) && May(m, item)
    ensures AllSpent(trace + [item], Next(m, item))
  {
    LastStays(m, item);
    var longer := trace + [item];
    forall k | 0 <= k < |longer|
      ensures ItemSpent(longer[k], Next(m, item))
    {
      if k < |trace| {
        assert ItemSpent(trace[k], m);
      }
      ItemStaysSpent(longer[k], m, item);
    }
  }

  lemma {:induction false} ItemsAreSpent(checked: bool, trace: seq<Item>)
    requires Watched(checked, trace).Some?
    ensures AllSpent(trace, Watched(checked, trace).value)
    decreases |trace|
  {
    if trace != [] {
      var n := |trace| - 1;
      ItemsAreSpent(checked, trace[..n]);
      AllSpentNext(trace[..n], Watched(checked, trace[..n]).value, trace[n]);
      assert trace == trace[..n] + [trace[n]];
    }
  }

  /** A turn has one answer and one record; each of its calls is asked about,
      decided, announced, run and ended at most once; and ends come in call
      order. */
  lemma OncePerTurn(checked: bool, trace: seq<Item>, j: nat, k: nat, t: nat, a: Act, b: Act)
    requires Watched(checked, trace).Some? && j < k < |trace| && trace[j] == InTurn(t, a) && trace[k] == InTurn(t, b)
    ensures !SameSlot(a, b)
    ensures (a.CallEnded? || a.CallDenied?) && (b.CallEnded? || b.CallDenied?) ==> a.i < b.i
  {
    var m := Before(checked, trace, k);
    ItemsAreSpent(checked, trace[..k]);
    assert ItemSpent(trace[..k][j], m);
    ActIsOpen(m, t, b);
    if SameSlot(a, b) {
      SpentOnce(m.checked, m.stop, m.denials, m.turn, a, b);
      assert false;
    }
  }

  lemma ActIsOpen(m: Monitor, t: nat, act: Act)
    requires May(m, InTurn(t, act))
    ensures m.open == Some(t) && MayAct(m.checked, m.stop, m.denials, m.turn, act)
    ensures act.CallEnded? || act.CallDenied? ==> act.i == m.turn.ended
  {
  }

  // ------------------------------------------------------ uncut runs

  /** Unless a turn was cut short, each turn on record has ended or is open. */
  ghost predicate RecordsEnd(trace: seq<Item>, m: Monitor) {
    forall t: nat, inputs: seq<Input> | Says(trace, t, Recorded(inputs)) :: Says(trace, t, TurnEnded) || (m.open == Some(t) && m.turn.recorded.Some?)
  }

  lemma RecordsEndNext(trace: seq<Item>, m: Monitor, item: Item)
    requires OpenKnown(trace, m) && RecordsEnd(trace, m) && May(m, item) && !Next(m, item).cut
    ensures RecordsEnd(trace + [item], Next(m, item))
  {
    var longer, m' := trace + [item], Next(m, item);
    SaysMore(trace, item);
    forall t: nat, inputs: seq<Input> | Says(longer, t, Recorded(inputs))
      ensures Says(longer, t, TurnEnded) || (m'.open == Some(t) && m'.turn.recorded.Some?)
    {
      if !Says(trace, t, Recorded(inputs)) {
        assert item == InTurn(t, Recorded(inputs));
      }
    }
  }

  lemma CutStays(m: Monitor, item: Item)
    ensures m.cut ==> Next(m, item).cut
  {
  }

  lemma {:induction false} RecordedTurnsEnd(checked: bool, trace: seq<Item>)
    requires Watched(checked, trace).Some? && !Watched(checked, trace).value.cut
    ensures RecordsEnd(trace, Watched(checked, trace).value)
    decreases |trace|
  {
    if trace != [] {
      var n := |trace| - 1;
      CutStays(Watched(checked, trace[..n]).value, trace[n]);
      RecordedTurnsEnd(checked, trace[..n]);
      OpenIsKnown(checked, trace[..n]);
      RecordsEndNext(trace[..n], Watched(checked, trace[..n]).value, trace[n]);
      assert trace == trace[..n] + [trace[n]];
    }
  }

  lemma Position(trace: seq<Item>, t: nat, act: Act) returns (k: nat)
    requires Says(trace, t, act)
    ensures k < |trace| && trace[k] == InTurn(t, act)
  {
    k :| 0 <= k < |trace| && trace[k] == InTurn(t, act);
  }

  lemma OneRecord(checked: bool, trace: seq<Item>, t: nat, some: seq<Input>, others: seq<Input>)
    requires Watched(checked, trace).Some? && Says(trace, t, Recorded(some)) && Says(trace, t, Recorded(others))
    ensures some == others
  {
    var j := Position(trace, t, Recorded(some));
    var k := Position(trace, t, Recorded(others));
    if j < k {
      OncePerTurn(checked, trace, j, k, t, Recorded(some), Recorded(others));
    } else if k < j {
      OncePerTurn(checked, trace, k, j, t, Recorded(others), Recorded(some));
    }
  }

  lemma RecordIsKept(checked: bool, trace: seq<Item>, t: nat, m: Monitor, inputs: seq<Input>)
    requires Watched(checked, trace) == Some(m) && m.open == Some(t) && OpenKnown(trace, m)
    requires Says(trace, t, Recorded(inputs))
    ensures m.turn.recorded == Some(inputs)
  {
    ItemsAreSpent(checked, trace);
    var j := Position(trace, t, Recorded(inputs));
    assert ItemSpent(trace[j], m);
    OneRecord(checked, trace, t, inputs, m.turn.recorded.value);
  }

  /** A call that was allowed, run and reported, or else denied. */
  ghost predicate CallSettled(trace: seq<Item>, t: nat, i: nat) {
    || (SaysAllowed(trace, t, i) && Says(trace, t, HandlerReturned(i)) && Says(trace, t, CallEnded(i)))
    || Says(trace, t, CallDenied(i))
  }

  ghost predicate AllSettledOf(trace: seq<Item>, t: nat, n: nat) {
    forall i: nat | i < n :: CallSettled(trace, t, i)
  }

  /** A turn that ended served what the brain asked for: its answer is on
      record, and each of its calls was recorded, and run or denied. */
  lemma EndedTurnWasServed(checked: bool, trace: seq<Item>, k: nat, t: nat) returns (calls: seq<Call>, finish: bool, inputs: seq<Input>)
    requires Watched(checked, trace).Some? && k < |trace| && trace[k] == InTurn(t, TurnEnded)
    ensures Says(trace[..k], t, Responded(calls, finish)) && |inputs| == |calls|
    ensures calls != [] ==> Says(trace[..k], t, Recorded(inputs))
    ensures AllSettledOf(trace[..k], t, |calls|)
    ensures forall others | Says(trace[..k], t, Recorded(others)) :: others == inputs
  {
    var m := Before(checked, trace, k);
    OpenIsKnown(checked, trace[..k]);
    var s := m.turn;
    forall others | Says(trace[..k], t, Recorded(others))
      ensures s.recorded == Some(others)
    {
      RecordIsKept(checked, trace[..k], t, m, others);
    }
    calls, finish := s.response.value, s.finish;
    inputs := if s.recorded.Some? then s.recorded.value else [];
    forall i: nat | i < |calls|
      ensures CallSettled(trace[..k], t, i)
    {
      assert EndSaid(trace[..k], t, i, s.allowed[i]);
      DecisionSaid(trace[..k], m.checked, m.denials, t, s, i);
    }
  }

  /** When Run reports no error, every recorded call of every turn was run and
      ended, or denied: with OncePerTurn, once. */
  lemma NoCallIsForgotten(checked: bool, trace: seq<Item>, t: nat, inputs: seq<Input>)
    requires Watched(checked, trace).Some? && WellClosed(Watched(checked, trace).value) && !Watched(checked, trace).value.cut
    requires Says(trace, t, Recorded(inputs))
    ensures AllSettledOf(trace, t, |inputs|)
  {
    RecordedTurnsEnd(checked, trace);
    ClosedRecordsEnd(trace, Watched(checked, trace).value, t, inputs);
    EndedRecordSettled(checked, trace, t, inputs);
  }

  ghost predicate NothingForgotten(trace: seq<Item>) {
    forall t: nat, inputs: seq<Input> | Says(trace, t, Recorded(inputs)) :: AllSettledOf(trace, t, |inputs|)
  }

  lemma AllCalls(checked: bool, trace: seq<Item>)
    requires Watched(checked, trace).Some? && WellClosed(Watched(checked, trace).value) && !Watched(checked, trace).value.cut
    ensures NothingForgotten(trace)
  {
    forall t: nat, inputs: seq<Input> | Says(trace, t, Recorded(inputs))
      ensures AllSettledOf(trace, t, |inputs|)
    {
      NoCallIsForgotten(checked, trace, t, inputs);
    }
  }

  lemma ClosedRecordsEnd(trace: seq<Item>, m: Monitor, t: nat, inputs: seq<Input>)
    requires RecordsEnd(trace, m) && m.open.None? && Says(trace, t, Recorded(inputs))
    ensures Says(trace, t, TurnEnded)
  {
  }

  lemma EndedRecordSettled(checked: bool, trace: seq<Item>, t: nat, inputs: seq<Input>)
    requires Watched(checked, trace).Some? && Says(trace, t, Recorded(inputs)) && Says(trace, t, TurnEnded)
    ensures AllSettledOf(trace, t, |inputs|)
  {
    var k := Position(trace, t, TurnEnded);
    var calls, finish, recorded := EndedTurnWasServed(checked, trace, k, t);
    RecordOfEnded(checked, trace, k, t, inputs, calls, recorded);
    SettledStays(trace, k, t, |calls|);
  }

  lemma RecordOfEnded(checked: bool, trace: seq<Item>, k: nat, t: nat, inputs: seq<Input>, calls: seq<Call>, recorded: seq<Input>)
    requires Watched(checked, trace).Some? && k < |trace| && trace[k] == InTurn(t, TurnEnded)
    requires Says(trace, t, Recorded(inputs)) && |recorded| == |calls|
    requires forall other | Says(trace[..k], t, Recorded(other)) :: other == recorded
    ensures |inputs| == |calls|
  {
    var a := Position(trace, t, Recorded(inputs));
    if k < a {
      OncePerTurn(checked, trace, k, a, t, TurnEnded, Recorded(inputs));
      assert false;
    } else {
      assert trace[..k][a] == InTurn(t, Recorded(inputs));
      assert Says(trace[..k], t, Recorded(inputs));
    }
  }

  lemma SettledStays(trace: seq<Item>, k: nat, t: nat, n: nat)
    requires k <= |trace| && AllSettledOf(trace[..k], t, n)
    ensures AllSettledOf(trace, t, n)
  {
    forall i: nat | i < n
      ensures CallSettled(trace, t, i)
    {
      assert CallSettled(trace[..k], t, i);
    }
  }

  // --------------------------------------------------------- closing hooks

  function CountOpened(trace: seq<Item>): nat {
    if trace == [] then 0 else CountOpened(trace[..|trace| - 1]) + (if trace[|trace| - 1].TurnOpened? then 1 else 0)
  }

  function CountClosed(trace: seq<Item>): nat {
    if trace == [] then 0 else CountClosed(trace[..|trace| - 1]) + (if trace[|trace| - 1].TurnEndHooks? then 1 else 0)
  }

  /** Every opened turn gets OnAgentTurnEnd once: the two always balance but
      for the turn that is open. */
  lemma {:induction false} TurnsBalance(checked: bool, trace: seq<Item>)
    requires Watched(checked, trace).Some?
    ensures CountOpened(trace) == CountClosed(trace) + (if Watched(checked, trace).value.open.Some? then 1 else 0)
    decreases |trace|
  {
    if trace != [] {
      var n := |trace| - 1;
      TurnsBalance(checked, trace[..n]);
      OpenChanges(Watched(checked, trace[..n]).value, trace[n]);
    }
  }

  lemma OpenChanges(m: Monitor, item: Item)
    requires May(m, item)
    ensures var m' := Next(m, item);
            && (item.TurnOpened? ==> m.open.None? && m'.open.Some?)
            && (item.TurnEndHooks? ==> m.open.Some? && m'.open.None?)
            && (!item.TurnOpened? && !item.TurnEndHooks? ==> m'.open == m.open)
  {
  }

  lemma EndsChange(m: Monitor, item: Item)
    requires May(m, item)
    ensures var m' := Next(m, item);
            && m'.ends == m.ends + (if item.AgentEndHooks? then 1 else 0)
            && m'.continues == m.continues + (if item.Continued? then 1 else 0)
  {
  }

  function CountEnds(trace: seq<Item>): nat {
    if trace == [] then 0 else CountEnds(trace[..|trace| - 1]) + (if trace[|trace| - 1].AgentEndHooks? then 1 else 0)
  }

  function CountContinues(trace: seq<Item>): nat {
    if trace == [] then 0 else CountContinues(trace[..|trace| - 1]) + (if trace[|trace| - 1].Continued? then 1 else 0)
  }

  lemma {:induction false} EndsBalance(checked: bool, trace: seq<Item>)
    requires Watched(checked, trace).Some?
    ensures CountEnds(trace) == Watched(checked, trace).value.ends && CountContinues(trace) == Watched(checked, trace).value.continues
    decreases |trace|
  {
    if trace != [] {
      var n := |trace| - 1;
      EndsBalance(checked, trace[..n]);
      EndsChange(Watched(checked, trace[..n]).value, trace[n]);
    }
  }

  /** After a run that started: as many closings as openings, and OnAgentEnd
      once plus once per honoured Continue. */
  lemma ClosedRunBalances(checked: bool, trace: seq<Item>)
    requires Watched(checked, trace).Some? && WellClosed(Watched(checked, trace).value) && !Watched(checked, trace).value.agent.NotStarted?
    ensures CountOpened(trace) == CountClosed(trace)
    ensures CountEnds(trace) == 1 + CountContinues(trace)
  {
    TurnsBalance(checked, trace);
    EndsBalance(checked, trace);
  }
}
