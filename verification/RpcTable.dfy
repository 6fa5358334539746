/** The table of pending calls to an external plugin
    (plugins/external/host.go; responses carry the id of their request, as in
    JSON-RPC 2.0, section 5). Each critical section under the host's mutex and
    each channel operation is a step; the goroutines interleave them freely. */
module RpcTable {
  import opened Wrappers

  type CallId = nat

  datatype Method = Initialize | Shutdown | Other

  /** What a call's one-slot channel can receive. */
  datatype Outcome = Response(id: CallId, payload: string) | Rejected(reason: string)

  datatype CallError = Failed(reason: string) | NotInitialized | ShuttingDown | TooManyPending

  /** `pending` is the table; `inFlight` holds the outcomes that a goroutine
      took out of the table's care and has still to send; `slots` the outcomes
      in the channels, and `taken` those the callers received. */
  datatype Table = Table(
    limit: nat, nextId: nat, ready: bool, closing: bool, failure: Option<string>,
    pending: set<CallId>, inFlight: map<CallId, Outcome>, slots: map<CallId, Outcome>, taken: map<CallId, Outcome>)

  function Empty(limit: nat): Table {
    Table(limit, 0, false, false, None, {}, map[], map[], map[])
  }

  /** The first critical section of call. */
  function Refusal(t: Table, m: Method): Option<CallError> {
    if t.failure.Some? then Some(Failed(t.failure.value))
    else if !m.Initialize? && !t.ready then Some(NotInitialized)
    else if t.closing && !m.Shutdown? then Some(ShuttingDown)
    else if |t.pending| >= t.limit then Some(TooManyPending)
    else None
  }

  /** The second half of that section: a new id is pending. */
  function Registered(t: Table): Table {
    t.(nextId := t.nextId + 1, pending := t.pending + {t.nextId + 1})
  }

  datatype Step =
    | Register(m: Method)
    | Remove(id: CallId)                       // the caller could not send its request
    | Deliver(response: CallId, payload: string)
    | Fail(reason: string)
    | RejectAll(reason: string)
    | Send(id: CallId)                         // into the channel
    | Receive(id: CallId)                      // the caller, unless it has gone
    | BecomeReady
    | BeginClosing

  function RejectedBy(pending: set<CallId>, reason: string): map<CallId, Outcome> {
    map id | id in pending :: Rejected(reason)
  }

  /** The reason deliver gives; the id that its text ends with is left out. */
  const UnknownId := "external: response for unknown request id"

  /** fail: only the first failure counts. */
  function Failing(t: Table, reason: string): Table {
    if t.failure.Some? then t
    else t.(failure := Some(reason), pending := {}, inFlight := t.inFlight + RejectedBy(t.pending, reason))
  }

  function Next(t: Table, step: Step): Option<Table> {
    match step
    case Register(m) =>
      if Refusal(t, m).Some? then None
      else Some(Registered(t))
    case Remove(id) => Some(t.(pending := t.pending - {id}))
    case Deliver(id, payload) =>
      // A response nobody waits for changes nothing here; unless the host is
      // closing, deliver then goes on to a Fail step.
      Some(if id in t.pending then t.(pending := t.pending - {id}, inFlight := t.inFlight[id := Response(id, payload)]) else t)
    case Fail(reason) => Some(Failing(t, reason))
    case RejectAll(reason) => Some(t.(pending := {}, inFlight := t.inFlight + RejectedBy(t.pending, reason)))
    case Send(id) =>
      if id in t.inFlight && id !in t.slots then Some(t.(inFlight := t.inFlight - {id}, slots := t.slots[id := t.inFlight[id]])) else None
    case Receive(id) =>
      if id in t.slots then Some(t.(slots := t.slots - {id}, taken := t.taken[id := t.slots[id]])) else None
    case BecomeReady => Some(t.(ready := true))
    case BeginClosing => Some(t.(closing := true))
  }

  function After(t: Table, steps: seq<Step>): Table
    decreases |steps|
  {
    if steps == [] then t
    else
      var before := After(t, steps[..|steps| - 1]);
      var next := Next(before, steps[|steps| - 1]);
      if next.Some? then next.value else before
  }

  // ------------------------------------------------------------ invariant

  predicate Addressed(id: CallId, o: Outcome) {
    o.Response? ==> o.id == id
  }

  /** An id is in at most one place, is one of those handed out, and its
      outcome belongs to it. */
  predicate InOnePlace(t: Table, id: CallId) {
    && (id in t.pending ==> id !in t.inFlight && id !in t.slots && id !in t.taken && 0 < id <= t.nextId)
    && (id in t.inFlight ==> id !in t.slots && id !in t.taken && 0 < id <= t.nextId && Addressed(id, t.inFlight[id]))
    && (id in t.slots ==> id !in t.taken && 0 < id <= t.nextId && Addressed(id, t.slots[id]))
    && (id in t.taken ==> 0 < id <= t.nextId && Addressed(id, t.taken[id]))
  }

  ghost predicate Valid(t: Table) {
    && (forall id :: InOnePlace(t, id))
    && |t.pending| <= t.limit
    && (t.failure.Some? ==> t.pending == {})
  }

  lemma StepKeepsPlace(t: Table, step: Step, id: CallId)
    requires InOnePlace(t, id) && Next(t, step).Some?
    ensures InOnePlace(Next(t, step).value, id)
  {
    match step
    case Register(_) =>
    case Remove(_) =>
    case Deliver(_, _) =>
    case Fail(_) =>
    case RejectAll(_) =>
    case Send(_) =>
    case Receive(_) =>
    case _ =>
  }

  lemma SmallerSet(s: set<CallId>, id: CallId)
    ensures |s - {id}| <= |s|
  {
    assert s == if id in s then s - {id} + {id} else s - {id};
  }

  lemma StepKeepsSize(t: Table, step: Step)
    requires |t.pending| <= t.limit && (t.failure.Some? ==> t.pending == {}) && Next(t, step).Some?
    ensures var t' := Next(t, step).value;
            t'.limit == t.limit && |t'.pending| <= t'.limit && (t'.failure.Some? ==> t'.pending == {})
  {
    match step
    case Remove(id) => SmallerSet(t.pending, id);
    case Deliver(id, _) => SmallerSet(t.pending, id);
    case _ =>
  }

  lemma StepKeeps(t: Table, step: Step)
    requires Valid(t) && Next(t, step).Some?
    ensures Valid(Next(t, step).value) && Next(t, step).value.limit == t.limit
  {
    StepKeepsSize(t, step);
    forall id ensures InOnePlace(Next(t, step).value, id) {
      StepKeepsPlace(t, step, id);
    }
  }

  lemma {:induction false} RunKeeps(limit: nat, steps: seq<Step>)
    ensures Valid(After(Empty(limit), steps)) && After(Empty(limit), steps).limit == limit
    decreases |steps|
  {
    if steps != [] {
      var n := |steps| - 1;
      RunKeeps(limit, steps[..n]);
      var before := After(Empty(limit), steps[..n]);
      if Next(before, steps[n]).Some? {
        StepKeeps(before, steps[n]);
      }
    }
  }

  // ------------------------------------------------------------- theorems

  /** A send never finds its one-slot channel full, so no goroutine blocks. */
  lemma SendNeverBlocks(limit: nat, steps: seq<Step>, id: CallId)
    requires id in After(Empty(limit), steps).inFlight
    ensures Next(After(Empty(limit), steps), Send(id)).Some?
  {
    RunKeeps(limit, steps);
    assert InOnePlace(After(Empty(limit), steps), id);
  }

  /** A call that got its outcome never gets another one. */
  lemma OutcomeIsFinal(t: Table, step: Step, id: CallId)
    requires Valid(t) && Next(t, step).Some? && (id in t.slots || id in t.taken)
    ensures var t' := Next(t, step).value;
            var outcome := if id in t.slots then t.slots[id] else t.taken[id];
            && id !in t'.pending && id !in t'.inFlight
            && (id in t'.slots || id in t'.taken)
            && (if id in t'.slots then t'.slots[id] else t'.taken[id]) == outcome
  {
    assert InOnePlace(t, id);
    match step
    case Register(_) =>
    case Deliver(_, _) =>
    case Fail(_) =>
    case RejectAll(_) =>
    case Send(_) =>
    case Receive(_) =>
    case _ =>
  }

  /** In every interleaving: a channel gets at most one outcome, and a
      response only the call with its id; the table never exceeds its limit. */
  lemma OutcomesReachTheirCalls(limit: nat, steps: seq<Step>, id: CallId)
    ensures var t := After(Empty(limit), steps);
            && |t.pending| <= limit
            && (id in t.slots ==> id !in t.inFlight && id !in t.pending && id !in t.taken)
            && (id in t.slots && t.slots[id].Response? ==> t.slots[id].id == id)
            && (id in t.taken && t.taken[id].Response? ==> t.taken[id].id == id)
  {
    RunKeeps(limit, steps);
    assert InOnePlace(After(Empty(limit), steps), id);
  }

  lemma {:induction false} FailureStays(t: Table, steps: seq<Step>)
    requires t.failure.Some? && t.pending == {}
    ensures After(t, steps).failure == t.failure && After(t, steps).pending == {}
    decreases |steps|
  {
    if steps != [] {
      var n := |steps| - 1;
      FailureStays(t, steps[..n]);
      if Next(After(t, steps[..n]), steps[n]).Some? {
        FailureKept(After(t, steps[..n]), steps[n]);
      }
    }
  }

  lemma FailureKept(t: Table, step: Step)
    requires t.failure.Some? && t.pending == {} && Next(t, step).Some?
    ensures Next(t, step).value.failure == t.failure && Next(t, step).value.pending == {}
  {
  }

  lemma {:induction false} AfterAppend(t: Table, xs: seq<Step>, ys: seq<Step>)
    ensures After(t, xs + ys) == After(After(t, xs), ys)
    decreases |ys|
  {
    if ys == [] {
      assert xs + ys == xs;
    } else {
      var n := |ys| - 1;
      assert (xs + ys)[..|xs + ys| - 1] == xs + ys[..n];
      AfterAppend(t, xs, ys[..n]);
    }
  }

  /** Once a failure is recorded the table is empty for ever, and the first
      failure stays. */
  lemma FailureIsForEver(limit: nat, before: seq<Step>, later: seq<Step>)
    requires After(Empty(limit), before).failure.Some?
    ensures var t := After(Empty(limit), before + later);
            t.pending == {} && t.failure == After(Empty(limit), before).failure
  {
    RunKeeps(limit, before);
    AfterAppend(Empty(limit), before, later);
    FailureStays(After(Empty(limit), before), later);
  }

  /** The call is pending, its outcome is on its way, or it has it. */
  predicate Somewhere(t: Table, id: CallId) {
    id in t.pending || id in t.inFlight || id in t.slots || id in t.taken
  }

  lemma StaysSomewhere(t: Table, step: Step, id: CallId)
    requires Next(t, step).Some? && step != Remove(id) && (0 < id <= t.nextId ==> Somewhere(t, id))
    ensures 0 < id <= Next(t, step).value.nextId ==> Somewhere(Next(t, step).value, id)
  {
  }

  /** In every interleaving, every call that was registered and not given up by
      its caller is pending, on its way, or has its outcome: none is lost by
      fail or rejectPending. */
  lemma {:induction false} NoCallIsLost(limit: nat, steps: seq<Step>, id: CallId)
    requires 0 < id <= After(Empty(limit), steps).nextId && Remove(id) !in steps
    ensures Somewhere(After(Empty(limit), steps), id)
    decreases |steps|
  {
    if steps != [] {
      var n := |steps| - 1;
      var before := After(Empty(limit), steps[..n]);
      if 0 < id <= before.nextId {
        NoCallIsLost(limit, steps[..n], id);
      }
      if Next(before, steps[n]).Some? {
        StaysSomewhere(before, steps[n], id);
      }
    }
  }

  // ----------------------------------------------------------------- host

  /** The table once the outcomes in flight for `ids` are in their channels. */
  function Sent(t: Table, ids: set<CallId>): Table
    requires ids <= t.inFlight.Keys
  {
    t.(inFlight := t.inFlight - ids, slots := t.slots + map id | id in ids :: t.inFlight[id])
  }

  lemma NothingSent(t: Table)
    ensures Sent(t, {}) == t
  {
    assert t.inFlight - {} == t.inFlight;
  }

  lemma SendOneMore(t: Table, done: set<CallId>, id: CallId)
    requires Valid(t) && done <= t.inFlight.Keys && id in t.inFlight && id !in done
    ensures Next(Sent(t, done), Send(id)) == Some(Sent(t, done + {id}))
  {
    assert InOnePlace(t, id);
    var from, to := Sent(t, done), Sent(t, done + {id});
    assert from.inFlight - {id} == to.inFlight;
    assert from.slots[id := from.inFlight[id]] == to.slots;
  }

  lemma FailedAndSent(t: Table, reason: string)
    requires Valid(t) && t.failure.None?
    ensures t.pending <= Failing(t, reason).inFlight.Keys
    ensures Sent(Failing(t, reason), t.pending)
         == t.(failure := Some(reason), pending := {}, slots := t.slots + RejectedBy(t.pending, reason))
  {
    var failing := Failing(t, reason);
    forall id | id in t.pending ensures id !in t.inFlight && failing.inFlight[id] == Rejected(reason) {
      assert InOnePlace(t, id);
    }
    assert failing.inFlight - t.pending == t.inFlight;
    assert (map id | id in t.pending :: failing.inFlight[id]) == RejectedBy(t.pending, reason);
  }

  lemma DeliveredAndSent(t: Table, id: CallId, payload: string)
    requires Valid(t) && id in t.pending
    ensures var handed := t.(pending := t.pending - {id}, inFlight := t.inFlight[id := Response(id, payload)]);
            Sent(handed, {id}) == t.(pending := t.pending - {id}, slots := t.slots[id := Response(id, payload)])
  {
    assert InOnePlace(t, id);
    assert t.inFlight[id := Response(id, payload)] - {id} == t.inFlight;
  }

  /** The host's own methods, run without interleaving. */
  class Host {
    var table: Table

    constructor (limit: nat)
      ensures table == Empty(limit)
    {
      table := Empty(limit);
    }

    /** The critical section of call. */
    method BeginCall(m: Method) returns (r: Result<CallId, CallError>)
      modifies this
      ensures r.Err? <==> Refusal(old(table), m).Some?
      ensures r.Err? ==> table == old(table) && Some(r.error) == Refusal(old(table), m)
      ensures r.Ok? ==> table == Registered(old(table)) && r.value == table.nextId && r.value in table.pending
    {
      var t := table;
      if t.failure.Some? {
        return Err(Failed(t.failure.value));
      }
      if !m.Initialize? && !t.ready {
        return Err(NotInitialized);
      }
      if t.closing && !m.Shutdown? {
        return Err(ShuttingDown);
      }
      if |t.pending| >= t.limit {
        return Err(TooManyPending);
      }
      var id := t.nextId + 1;
      table := t.(nextId := id, pending := t.pending + {id});
      return Ok(id);
    }

    /** One send into a call's one-slot channel. */
    method SendOne(id: CallId)
      requires Valid(table) && Next(table, Send(id)).Some?
      modifies this
      ensures Valid(table) && Some(table) == Next(old(table), Send(id))
    {
      StepKeeps(table, Send(id));
      table := table.(inFlight := table.inFlight - {id}, slots := table.slots[id := table.inFlight[id]]);
    }

    /** The loop of fail and rejectPending over the calls they took; each
        send finds an empty channel. */
    method SendAll(ids: set<CallId>)
      requires Valid(table) && ids <= table.inFlight.Keys
      modifies this
      ensures Valid(table) && table == Sent(old(table), ids)
    {
      var left := ids;
      NothingSent(table);
      while left != {}
        invariant left <= ids && Valid(table) && table == Sent(old(table), ids - left)
        decreases |left|
      {
        var id: CallId :| id in left;
        SendOneMore(old(table), ids - left, id);
        var after := left - {id};
        assert ids - left + {id} == ids - after;
        SendOne(id);
        left := after;
      }
      assert ids - left == ids;
    }

    /** fail: every pending call is rejected with the first failure, and
        nothing else is sent. */
    method FailHost(reason: string)
      requires Valid(table)
      modifies this
      ensures Valid(table)
      ensures table == if old(table).failure.Some? then old(table)
                       else old(table).(failure := Some(reason), pending := {},
                                        slots := old(table).slots + RejectedBy(old(table).pending, reason))
    {
      if table.failure.Some? {
        return;
      }
      var pending := table.pending;
      StepKeeps(table, Fail(reason));
      FailedAndSent(table, reason);
      table := Failing(table, reason);
      SendAll(pending);
    }

    /** deliver: a response goes to the call with its id, once; one that no
        call waits for fails a host that is not closing. */
    method DeliverResponse(id: CallId, payload: string)
      requires Valid(table)
      modifies this
      ensures Valid(table)
      ensures id in old(table).pending ==>
                table == old(table).(pending := old(table).pending - {id}, slots := old(table).slots[id := Response(id, payload)])
      ensures id !in old(table).pending && old(table).closing ==> table == old(table)
      ensures id !in old(table).pending && !old(table).closing ==>
                table == if old(table).failure.Some? then old(table)
                         else old(table).(failure := Some(UnknownId), pending := {},
                                          slots := old(table).slots + RejectedBy(old(table).pending, UnknownId))
    {
      StepKeeps(table, Deliver(id, payload));
      if id in table.pending {
        DeliveredAndSent(table, id, payload);
        table := table.(pending := table.pending - {id}, inFlight := table.inFlight[id := Response(id, payload)]);
        SendAll({id});
      } else if !table.closing {
        FailHost(UnknownId);
      }
    }
  }
}
