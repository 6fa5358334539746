/** No subscriber misses an event (runtime/subscriptions.go). */
module ManagerDelivery {
  import opened Events
  import opened Store
  import opened StoreInvariant
  import opened Snapshots
  import opened ManagerStore
  import opened Manager

  // ----------------------------------------------------------- sequences

  /** The durable entries: transient events have cursor 0. */
  function Durable(events: seq<Event>): seq<Event>
    decreases |events|
  {
    if events == [] then []
    else
      var n := |events| - 1;
      if events[n].cursor != 0 then Durable(events[..n]) + [events[n]] else Durable(events[..n])
  }

  lemma {:induction false} DurableAppend(xs: seq<Event>, ys: seq<Event>)
    ensures Durable(xs + ys) == Durable(xs) + Durable(ys)
    decreases |ys|
  {
    if ys == [] {
      assert xs + ys == xs;
    } else {
      var n := |ys| - 1;
      assert (xs + ys)[..|xs + ys| - 1] == xs + ys[..n];
      DurableAppend(xs, ys[..n]);
    }
  }

  ghost predicate Ascending(events: seq<Event>) {
    && (forall i | 0 <= i < |events| :: events[i].cursor > 0)
    && (forall i, j | 0 <= i < j < |events| :: events[i].cursor < events[j].cursor)
  }

  lemma {:induction false} AllDurable(events: seq<Event>)
    requires forall e | e in events :: e.cursor != 0
    ensures Durable(events) == events
    decreases |events|
  {
    if events != [] {
      AllDurable(events[..|events| - 1]);
    }
  }

  lemma {:induction false} PastMembers(events: seq<Event>, after: nat)
    ensures forall e | e in Past(events, after) :: e in events && e.cursor > after
    decreases |events|
  {
    if events != [] {
      PastMembers(events[..|events| - 1], after);
    }
  }

  lemma AscendsSnoc(events: seq<Event>, e: Event)
    requires Ascending(events) && e.cursor > 0 && forall x | x in events :: x.cursor < e.cursor
    ensures Ascending(events + [e])
  {
  }

  lemma {:induction false} PastAscends(events: seq<Event>, after: nat)
    requires Ascending(events)
    ensures Ascending(Past(events, after))
    decreases |events|
  {
    if events != [] {
      var n := |events| - 1;
      PastAscends(events[..n], after);
      PastMembers(events[..n], after);
      AscendsSnoc(Past(events[..n], after), events[n]);
    }
  }

  /** The public log of a reachable store ascends. */
  lemma LogAscends(db: Db, c: Id)
    requires StoreOk(db)
    ensures Ascending(PublicOf(LogOf(db, c)))
  {
    if c in db.conversations {
      SnapshotShown(db, c);
    } else {
      assert Invariant(db);
    }
  }

  // ---------------------------------------------------------- subscribers

  function Got(sub: Subscriber): seq<Event> {
    Durable(sub.taken + sub.queue)
  }

  function LastCursor(got: seq<Event>, after: nat): nat {
    if got == [] then after else got[|got| - 1].cursor
  }

  ghost predicate Aligned(got: seq<Event>, rest: seq<Event>, past: seq<Event>, last: nat, after: nat) {
    got + rest == past && last == LastCursor(got, after)
  }

  /** With what is still owed to it, the subscriber has all of the log past
      its cursor. */
  ghost predicate InStep(sub: Subscriber, owed: seq<Event>, all: seq<Event>) {
    && Aligned(Got(sub), Past(Durable(owed), sub.after), Past(all, sub.after), sub.last, sub.after)
    && |sub.queue| <= sub.capacity
  }

  /** A dropped subscriber keeps a prefix. */
  ghost predicate Behind(sub: Subscriber, all: seq<Event>) {
    Got(sub) <= Past(all, sub.after)
  }

  ghost predicate SubOk(sub: Subscriber, owed: seq<Event>, all: seq<Event>) {
    if sub.open then InStep(sub, owed, all) else Behind(sub, all)
  }

  /** The part of the next event that is past `after`. */
  function Head(e: Event, after: nat): seq<Event> {
    if e.cursor != 0 && e.cursor > after then [e] else []
  }

  lemma OwedHead(owed: seq<Event>, after: nat)
    requires owed != []
    ensures Past(Durable(owed), after) == Head(owed[0], after) + Past(Durable(owed[1..]), after)
  {
    var e := owed[0];
    assert owed == [e] + owed[1..];
    assert [e][..0] == [];
    DurableAppend([e], owed[1..]);
    PastAppend(Durable([e]), Durable(owed[1..]), after);
    assert Durable([e]) == if e.cursor != 0 then [e] else [];
    assert Past([e], after) == if e.cursor > after then [e] else [];
  }

  /** A durable event is new to the subscriber exactly when it is past its
      starting cursor. */
  lemma NewToSubscriber(got: seq<Event>, e: Event, rest: seq<Event>, past: seq<Event>, last: nat, after: nat)
    requires Aligned(got, Head(e, after) + rest, past, last, after) && Ascending(past) && e.cursor != 0
    requires forall x | x in past :: x.cursor > after
    ensures e.cursor <= last <==> e.cursor <= after
  {
    if got != [] {
      assert past[|got| - 1] == got[|got| - 1];
    }
    if e.cursor > after {
      assert past[|got|] == e;
    }
  }

  lemma AlignedNext(got: seq<Event>, e: Event, rest: seq<Event>, past: seq<Event>, last: nat, after: nat)
    requires Aligned(got, Head(e, after) + rest, past, last, after)
    ensures e.cursor != 0 && e.cursor > after ==> Aligned(got + [e], rest, past, e.cursor, after)
    ensures e.cursor == 0 || e.cursor <= after ==> Aligned(got, rest, past, last, after)
  {
    if e.cursor != 0 && e.cursor > after {
      assert got + ([e] + rest) == (got + [e]) + rest;
    } else {
      assert [] + rest == rest;
    }
  }

  lemma GotNext(sub: Subscriber, e: Event)
    ensures Got(sub.(queue := sub.queue + [e])) == Got(sub) + (if e.cursor != 0 then [e] else [])
  {
    assert sub.taken + (sub.queue + [e]) == (sub.taken + sub.queue) + [e];
    assert [e][..0] == [];
    DurableAppend(sub.taken + sub.queue, [e]);
  }

  /** broadcastLocked for one event and one subscriber. */
  lemma OfferKeeps(sub: Subscriber, owed: seq<Event>, all: seq<Event>)
    requires sub.open && InStep(sub, owed, all) && owed != [] && Ascending(all)
    ensures SubOk(Offered(sub, owed[0]), owed[1..], all)
  {
    var e, rest, past := owed[0], Past(Durable(owed[1..]), sub.after), Past(all, sub.after);
    OwedHead(owed, sub.after);
    PastMembers(all, sub.after);
    PastAscends(all, sub.after);
    if e.cursor != 0 {
      NewToSubscriber(Got(sub), e, rest, past, sub.last, sub.after);
    }
    AlignedNext(Got(sub), e, rest, past, sub.last, sub.after);
    GotNext(sub, e);
    OfferedOk(sub, e, rest, past, owed[1..], all);
  }

  /** The three things broadcastLocked can do with the event. */
  lemma OfferedOk(sub: Subscriber, e: Event, rest: seq<Event>, past: seq<Event>, later: seq<Event>, all: seq<Event>)
    requires sub.open && |sub.queue| <= sub.capacity && rest == Past(Durable(later), sub.after) && past == Past(all, sub.after)
    requires e.cursor != 0 ==> (e.cursor <= sub.last <==> e.cursor <= sub.after)
    requires e.cursor != 0 && e.cursor > sub.after ==> Aligned(Got(sub) + [e], rest, past, e.cursor, sub.after)
    requires e.cursor == 0 || e.cursor <= sub.after ==> Aligned(Got(sub), rest, past, sub.last, sub.after)
    requires Got(sub.(queue := sub.queue + [e])) == Got(sub) + (if e.cursor != 0 then [e] else [])
    requires Got(sub) <= past
    ensures SubOk(Offered(sub, e), later, all)
  {
    assert Got(sub.(queue := sub.queue + [e], last := e.cursor)) == Got(sub.(queue := sub.queue + [e]));
    assert Got(sub) + [] == Got(sub);
  }

  lemma AlignedGrows(got: seq<Event>, rest: seq<Event>, past: seq<Event>, last: nat, after: nat, more: seq<Event>)
    requires Aligned(got, rest, past, last, after)
    ensures Aligned(got, rest + more, past + more, last, after)
  {
    assert got + (rest + more) == (got + rest) + more;
  }

  /** The log and what is owed grow together. */
  lemma GrowKeeps(sub: Subscriber, owed: seq<Event>, all: seq<Event>, events: seq<Event>)
    requires SubOk(sub, owed, all) && Ascending(all + events)
    ensures SubOk(sub, owed + events, all + events)
  {
    PastAppend(all, events, sub.after);
    assert forall i | 0 <= i < |events| :: events[i] == (all + events)[|all| + i];
    AllDurable(events);
    DurableAppend(owed, events);
    PastAppend(Durable(owed), events, sub.after);
    if sub.open {
      AlignedGrows(Got(sub), Past(Durable(owed), sub.after), Past(all, sub.after), sub.last, sub.after, Past(events, sub.after));
    }
  }

  /** Subscribe: the channel starts with the whole backlog. */
  lemma AttachKeeps(conv: Id, after: nat, all: seq<Event>)
    requires Ascending(all)
    ensures SubOk(NewSubscriber(conv, after, Past(all, after)), [], all)
  {
    var backlog := Past(all, after);
    PastMembers(all, after);
    PastAscends(all, after);
    assert [] + backlog == backlog;
    AllDurable(backlog);
  }

  lemma ReceiveKeeps(sub: Subscriber, owed: seq<Event>, all: seq<Event>)
    requires SubOk(sub, owed, all) && sub.queue != []
    ensures SubOk(sub.(taken := sub.taken + [sub.queue[0]], queue := sub.queue[1..]), owed, all)
  {
    assert (sub.taken + [sub.queue[0]]) + sub.queue[1..] == sub.taken + sub.queue;
  }

  lemma DetachKeeps(sub: Subscriber, owed: seq<Event>, all: seq<Event>)
    requires SubOk(sub, owed, all)
    ensures SubOk(sub.(open := false), owed, all)
  {
  }

  // ------------------------------------------------------------ the state

  /** What the holder of the mutex still has to offer to subscriber `i`. */
  function UnsentTo(sections: map<Id, Section>, c: Id, i: Id): seq<Event> {
    if c !in sections || !sections[c].Broadcast? then []
    else if sections[c].unsent != [] && i !in sections[c].todo then sections[c].unsent[1..]
    else sections[c].unsent
  }

  /** A claim's events between its commit and dispatch's broadcast. */
  function PendingClaim(sched: Sched, c: Id): seq<Event> {
    if (sched.Holding? || sched.Registered?) && sched.claim.run.conv == c then sched.claim.events else []
  }

  /** What is still owed to subscriber `i` of conversation `c`. */
  function Owed(s: State, c: Id, i: Id): seq<Event> {
    UnsentTo(s.sections, c, i) + PendingClaim(s.sched, c)
  }

  ghost predicate Served(s: State, i: Id)
    requires i in s.subs
  {
    SubOk(s.subs[i], Owed(s, s.subs[i].conv, i), PublicOf(LogOf(s.db, s.subs[i].conv)))
  }

  ghost predicate AllServed(s: State) {
    forall i | i in s.subs :: Served(s, i)
  }

  ghost predicate BacklogOk(s: State, c: Id)
    requires c in s.sections
  {
    (&& s.sections[c].Backlog? && s.sections[c].owner.Subscribing?
     && s.sections[c].owner.t in s.readers && s.readers[s.sections[c].owner.t].Watcher?) ==>
      s.sections[c].events == EventsAfter(s.db, c, s.readers[s.sections[c].owner.t].after)
  }

  /** A backlog that was read is still the whole backlog. */
  ghost predicate BacklogsOk(s: State) {
    forall c | c in s.sections :: BacklogOk(s, c)
  }

  /** The invariant as lemmas pass it on. */
  ghost predicate DeliveryOk(s: State) {
    forall x | x == s :: AllServed(x) && BacklogsOk(x)
  }
}
