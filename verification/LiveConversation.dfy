/** The live subscribers of one conversation, as the object that
    runtime/subscriptions.go keeps under its mutex. */
module LiveConversation {
  import opened Events
  import opened Manager
  import opened ManagerDelivery

  /** A subscriber after some events were offered to it: once dropped, it is
      offered nothing more. */
  function SendAll(sub: Subscriber, events: seq<Event>): Subscriber
    decreases |events|
  {
    if events == [] then sub
    else
      var before := SendAll(sub, events[..|events| - 1]);
      if before.open then Offered(before, events[|events| - 1]) else before
  }

  lemma {:induction false} SendNext(sub: Subscriber, events: seq<Event>, k: nat)
    requires k < |events|
    ensures SendAll(sub, events[..k + 1]) ==
            (var before := SendAll(sub, events[..k]); if before.open then Offered(before, events[k]) else before)
  {
    assert events[..k + 1][..k] == events[..k];
  }

  lemma {:induction false} SendKeepsPlace(sub: Subscriber, events: seq<Event>)
    ensures SendAll(sub, events).conv == sub.conv && SendAll(sub, events).after == sub.after
    ensures SendAll(sub, events).open ==> sub.open
    decreases |events|
  {
    if events != [] {
      SendKeepsPlace(sub, events[..|events| - 1]);
    }
  }

  /** Broadcasting the events a subscriber is owed leaves it with all of them,
      or dropped with a prefix. */
  lemma {:induction false} SendDelivers(sub: Subscriber, events: seq<Event>, k: nat, all: seq<Event>)
    requires SubOk(sub, events, all) && Ascending(all) && k <= |events|
    ensures SubOk(SendAll(sub, events[..k]), events[k..], all)
  {
    if k > 0 {
      SendDelivers(sub, events, k - 1, all);
      SendNext(sub, events, k - 1);
      SendKeepsPlace(sub, events[..k - 1]);
      var before := SendAll(sub, events[..k - 1]);
      if before.open {
        OfferKeeps(before, events[k - 1..], all);
        assert events[k - 1..][1..] == events[k..];
      }
    } else {
      assert events[..0] == [] && events[0..] == events;
    }
  }

  /** A subscriber receives a durable cursor at most once: sending again what
      it already has changes nothing. */
  lemma {:induction false} SendAgain(sub: Subscriber, events: seq<Event>)
    requires sub.open && forall e | e in events :: 0 < e.cursor <= sub.last
    ensures SendAll(sub, events) == sub
    decreases |events|
  {
    if events != [] {
      SendAgain(sub, events[..|events| - 1]);
    }
  }

  class Conversation {
    const id: Id
    var subscribers: map<Id, Subscriber>
    var nextSubId: nat

    ghost predicate Valid()
      reads this
    {
      forall i | i in subscribers :: i <= nextSubId && subscribers[i].conv == id
    }

    constructor (conversation: Id)
      ensures Valid() && id == conversation && subscribers == map[]
    {
      id := conversation;
      subscribers := map[];
      nextSubId := 0;
    }

    /** Subscribe, under the mutex: `backlog` is what Store.Events returned. */
    method Subscribe(after: nat, backlog: seq<Event>) returns (sub: Id)
      requires Valid()
      modifies this
      ensures Valid() && sub !in old(subscribers)
      ensures subscribers == old(subscribers)[sub := NewSubscriber(id, after, backlog)]
    {
      var queue: seq<Event> := [];
      for k := 0 to |backlog|
        invariant queue == backlog[..k]
      {
        queue := queue + [backlog[k]];
      }
      assert backlog[..|backlog|] == backlog;
      nextSubId := nextSubId + 1;
      sub := nextSubId;
      var last := after;
      if |backlog| > 0 {
        last := backlog[|backlog| - 1].cursor;
      }
      subscribers := subscribers[sub := Subscriber(id, after, last, |backlog| + 64, [], queue, true)];
    }

    /** One event to every registered subscriber, in any order. */
    method Send(e: Event)
      requires Valid()
      modifies this`subscribers
      ensures Valid() && subscribers.Keys == old(subscribers).Keys
      ensures forall i | i in subscribers ::
                subscribers[i] == if old(subscribers)[i].open then Offered(old(subscribers)[i], e) else old(subscribers)[i]
    {
      var todo: set<Id> := set i | i in subscribers && subscribers[i].open;
      while |todo| > 0
        invariant Valid() && subscribers.Keys == old(subscribers).Keys
        invariant forall i | i in todo :: i in subscribers && old(subscribers)[i].open
        invariant forall i | i in subscribers ::
                    subscribers[i] == if old(subscribers)[i].open && i !in todo
                                      then Offered(old(subscribers)[i], e) else old(subscribers)[i]
        decreases |todo|
      {
        var i :| i in todo;
        todo := todo - {i};
        var sub := subscribers[i];
        if e.cursor != 0 && e.cursor <= sub.last {
          continue;
        }
        if |sub.queue| < sub.capacity {
          var last := sub.last;
          if e.cursor != 0 {
            last := e.cursor;
          }
          subscribers := subscribers[i := sub.(queue := sub.queue + [e], last := last)];
        } else {
          subscribers := subscribers[i := sub.(open := false)];
        }
      }
    }

    /** broadcastLocked. */
    method BroadcastLocked(events: seq<Event>)
      requires Valid()
      modifies this`subscribers
      ensures Valid() && subscribers.Keys == old(subscribers).Keys
      ensures forall i | i in subscribers :: subscribers[i] == SendAll(old(subscribers)[i], events)
    {
      for k := 0 to |events|
        invariant Valid() && subscribers.Keys == old(subscribers).Keys
        invariant forall i | i in subscribers :: subscribers[i] == SendAll(old(subscribers)[i], events[..k])
      {
        Send(events[k]);
        forall i | i in subscribers
          ensures subscribers[i] == SendAll(old(subscribers)[i], events[..k + 1])
        {
          SendNext(old(subscribers)[i], events, k);
        }
      }
      assert events[..|events|] == events;
    }
  }
}
