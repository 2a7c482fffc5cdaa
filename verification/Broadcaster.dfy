/** The event broadcaster: a map of bounded channels under a mutex. Publish takes the lock
    twice, once to copy the targets and once to drop the slow ones, and sends in between. */
module Broadcaster {
  import opened Domain

  const BUFFER: nat := 256

  /** A channel. Besides the queue it keeps its history: how many events of its deploy had
      been published when it was created, and what its reader has received so far. */
  datatype Chan = Chan(deploy: nat, start: nat, taken: seq<Event>, buf: seq<Event>, open: bool)
  {
    function Delivered(): seq<Event> { taken + buf }
  }

  /** subs is the nested map of the source: deploy id to subscription ids, where subscription
      id n owns channel chans[n]. log is history: what was published for each deploy. */
  datatype Bus = Bus(nextID: nat, subs: map<nat, set<nat>>, chans: map<nat, Chan>, log: map<nat, seq<Event>>)

  function SubsOf(b: Bus, deploy: nat): set<nat>
  {
    if deploy in b.subs then b.subs[deploy] else {}
  }

  function LogOf(b: Bus, deploy: nat): seq<Event>
  {
    if deploy in b.log then b.log[deploy] else []
  }

  /** The lock section of Subscribe. */
  function Subscribed(b: Bus, deploy: nat): Bus
  {
    var id := b.nextID + 1;
    b.(nextID := id,
       subs := b.subs[deploy := SubsOf(b, deploy) + {id}],
       chans := b.chans[id := Chan(deploy, |LogOf(b, deploy)|, [], [], true)])
  }

  /** Take the given subscriptions of a deploy out of the map and close their channels;
      subscriptions that are no longer in the map are skipped. */
  function Dropped(b: Bus, deploy: nat, ids: set<nat>): Bus
  {
    var rest := SubsOf(b, deploy) - ids;
    b.(subs := if rest == {} then b.subs - {deploy} else b.subs[deploy := rest],
       chans := map id | id in b.chans ::
                  if id in ids && id in SubsOf(b, deploy) then b.chans[id].(open := false) else b.chans[id])
  }

  /** The lock section of the unsubscribe closure. */
  function Unsubscribed(b: Bus, id: nat): Bus
    requires id in b.chans
  {
    if id in SubsOf(b, b.chans[id].deploy) then Dropped(b, b.chans[id].deploy, {id}) else b
  }

  /** The start of a Publish: from here on the event counts as published. */
  function Announced(b: Bus, e: Event): Bus
  {
    b.(log := b.log[e.deploy := LogOf(b, e.deploy) + [e]])
  }

  function HasRoom(b: Bus, id: nat): bool
    requires id in b.chans
  {
    |b.chans[id].buf| < BUFFER
  }

  /** A send that finds room; one that does not leaves the queue alone. */
  function Sent(b: Bus, id: nat, e: Event): Bus
    requires id in b.chans
  {
    if HasRoom(b, id) then b.(chans := b.chans[id := b.chans[id].(buf := b.chans[id].buf + [e])]) else b
  }

  function Received(b: Bus, id: nat): Bus
    requires id in b.chans && b.chans[id].buf != []
  {
    var c := b.chans[id];
    b.(chans := b.chans[id := c.(taken := c.taken + [c.buf[0]], buf := c.buf[1..])])
  }

  /** A channel is open exactly while its subscription is in the map; no inner map is empty. */
  ghost predicate Lifecycle(b: Bus)
  {
    && (forall id :: id in b.chans <==> 1 <= id <= b.nextID)
    && (forall d | d in b.subs :: b.subs[d] != {})
    && (forall d, id | d in b.subs && id in b.subs[d] :: id in b.chans && b.chans[id].deploy == d)
    && (forall id | id in b.chans :: b.chans[id].open <==> id in SubsOf(b, b.chans[id].deploy))
    && (forall id | id in b.chans :: |b.chans[id].buf| <= BUFFER)
  }

  /** A Publish that runs without interruption: one copy to every subscriber of the deploy
      that has room, and exactly the full ones are dropped and closed. */
  function PublishedAtOnce(b: Bus, e: Event): Bus
  {
    var subs := SubsOf(b, e.deploy);
    var full := set id | id in subs && id in b.chans && !HasRoom(b, id);
    var rest := subs - full;
    Bus(b.nextID,
        if rest == {} then b.subs - {e.deploy} else b.subs[e.deploy := rest],
        map id | id in b.chans ::
          if id in full then b.chans[id].(open := false)
          else if id in subs then b.chans[id].(buf := b.chans[id].buf + [e])
          else b.chans[id],
        b.log[e.deploy := LogOf(b, e.deploy) + [e]])
  }

  /** Part way through the second lock section: the given ids are out and closed. */
  function Removed(b: Bus, deploy: nat, ids: set<nat>): Bus
  {
    b.(subs := if deploy in b.subs then b.subs[deploy := b.subs[deploy] - ids] else b.subs,
       chans := map id | id in b.chans ::
                  if id in ids && id in SubsOf(b, deploy) then b.chans[id].(open := false) else b.chans[id])
  }

  lemma RemovedStep(b: Bus, deploy: nat, ids: set<nat>, id: nat)
    requires id !in ids && (id in SubsOf(b, deploy) ==> id in b.chans)
    ensures var a := Removed(b, deploy, ids);
            Removed(b, deploy, ids + {id}) ==
              if deploy in a.subs && id in a.subs[deploy]
              then a.(subs := a.subs[deploy := a.subs[deploy] - {id}], chans := a.chans[id := a.chans[id].(open := false)])
              else a
  {
    if deploy in b.subs {
      assert b.subs[deploy] - (ids + {id}) == b.subs[deploy] - ids - {id};
      if id !in b.subs[deploy] {
        assert b.subs[deploy] - ids - {id} == b.subs[deploy] - ids;
      }
    }
  }

  lemma RemovedNone(b: Bus, deploy: nat)
    ensures Removed(b, deploy, {}) == b
  {
    if deploy in b.subs {
      assert b.subs[deploy] - {} == b.subs[deploy];
    }
  }

  /** Part way through the sends of a Publish that nothing interrupts. */
  function SentTo(b: Bus, ids: set<nat>, e: Event): Bus
  {
    b.(chans := map id | id in b.chans ::
         if id in ids && HasRoom(b, id) then b.chans[id].(buf := b.chans[id].buf + [e]) else b.chans[id])
  }

  lemma SentToStep(b: Bus, ids: set<nat>, id: nat, e: Event)
    requires id in b.chans && id !in ids
    ensures SentTo(b, ids + {id}, e) == Sent(SentTo(b, ids, e), id, e)
    ensures HasRoom(SentTo(b, ids, e), id) == HasRoom(b, id)
  {
  }

  lemma SentToKeepsLifecycle(b: Bus, ids: set<nat>, e: Event)
    requires Lifecycle(b)
    ensures Lifecycle(SentTo(b, ids, e))
  {
    assert forall d :: SubsOf(SentTo(b, ids, e), d) == SubsOf(b, d);
  }

  lemma SubscribedKeepsLifecycle(b: Bus, deploy: nat)
    requires Lifecycle(b)
    ensures Lifecycle(Subscribed(b, deploy)) && b.nextID + 1 !in b.chans
  {
    var a := Subscribed(b, deploy);
    assert SubsOf(a, deploy) == SubsOf(b, deploy) + {b.nextID + 1};
    assert forall d | d != deploy :: SubsOf(a, d) == SubsOf(b, d);
    assert b.nextID + 1 !in b.chans;
    assert forall d | d in b.subs :: b.nextID + 1 !in b.subs[d];
  }

  lemma DroppedKeepsLifecycle(b: Bus, deploy: nat, ids: set<nat>)
    requires Lifecycle(b)
    ensures Lifecycle(Dropped(b, deploy, ids))
  {
    var a := Dropped(b, deploy, ids);
    assert SubsOf(a, deploy) == SubsOf(b, deploy) - ids;
    assert forall d | d != deploy :: SubsOf(a, d) == SubsOf(b, d);
  }

  lemma PublishedToNobody(b: Bus, e: Event)
    requires Lifecycle(b) && SubsOf(b, e.deploy) == {}
    ensures PublishedAtOnce(b, e) == Announced(b, e)
  {
  }

  /** The three phases of Publish, run together, make an uninterrupted Publish. */
  lemma PublishedInPhases(b: Bus, e: Event)
    requires Lifecycle(b) && SubsOf(b, e.deploy) != {}
    ensures var targets := SubsOf(b, e.deploy);
            var full := set id | id in targets && !HasRoom(Announced(b, e), id);
            var sent := SentTo(Announced(b, e), targets, e);
            PublishedAtOnce(b, e) == if full == {} then sent else Dropped(sent, e.deploy, full)
  {
    var targets := SubsOf(b, e.deploy);
    var full := set id | id in targets && !HasRoom(Announced(b, e), id);
    assert full == set id | id in targets && id in b.chans && !HasRoom(b, id);
    var sent := SentTo(Announced(b, e), targets, e);
    assert SubsOf(sent, e.deploy) == targets;
    if full == {} {
      assert targets - full == targets;
    }
  }

  class EventBroadcaster {
    var nextID: nat
    var subscribers: map<nat, set<nat>>
    var channels: map<nat, Chan>
    /** History: the events published so far, by deploy. */
    var log: map<nat, seq<Event>>

    function State(): Bus
      reads this
    {
      Bus(nextID, subscribers, channels, log)
    }

    ghost predicate Valid()
      reads this
    {
      Lifecycle(State())
    }

    constructor ()
      ensures State() == Bus(0, map[], map[], map[]) && Valid()
    {
      nextID, subscribers, channels, log := 0, map[], map[], map[];
    }

    /** The returned id stands for the channel and its unsubscribe closure. */
    method Subscribe(deploy: nat) returns (id: nat)
      requires Valid()
      modifies this
      ensures State() == Subscribed(old(State()), deploy) && id == nextID
      ensures Valid()
      ensures id !in old(channels) && channels.Keys == old(channels.Keys) + {id}
      ensures channels[id].open && channels[id].buf == [] && channels[id].deploy == deploy
      ensures deploy in subscribers && id in subscribers[deploy]
      ensures forall k | k in old(channels) :: channels[k] == old(channels[k])
    {
      hide Lifecycle;
      SubscribedKeepsLifecycle(State(), deploy);
      nextID := nextID + 1;
      id := nextID;
      var ch := Chan(deploy, |LogOf(State(), deploy)|, [], [], true);
      if deploy !in subscribers {
        subscribers := subscribers[deploy := {}];
      }
      subscribers := subscribers[deploy := subscribers[deploy] + {id}];
      channels := channels[id := ch];
    }

    /** Calling it again changes nothing: the id has left the map. */
    method Unsubscribe(id: nat)
      requires Valid() && id in channels
      modifies this
      ensures State() == Unsubscribed(old(State()), id)
      ensures Valid()
      ensures channels == old(channels)[id := old(channels[id]).(open := false)]
      ensures forall d | d in subscribers :: id !in subscribers[d]
    {
      var deploy := channels[id].deploy;
      if deploy !in subscribers {
        return;
      }
      if id !in subscribers[deploy] {
        return;
      }
      DroppedKeepsLifecycle(State(), deploy, {id});
      ghost var rest := subscribers[deploy] - {id};
      subscribers := subscribers[deploy := subscribers[deploy] - {id}];
      if subscribers[deploy] == {} {
        subscribers := subscribers - {deploy};
      }
      channels := channels[id := channels[id].(open := false)];
    }

    /** The first lock section of Publish. */
    method SnapshotTargets(e: Event) returns (targets: set<nat>)
      requires Valid()
      modifies this`log
      ensures State() == Announced(old(State()), e) && targets == SubsOf(State(), e.deploy)
      ensures Valid()
    {
      log := log[e.deploy := LogOf(State(), e.deploy) + [e]];
      targets := if e.deploy in subscribers then subscribers[e.deploy] else {};
    }

    /** The select with a default branch: never waits. A send to a channel that has been closed
        since the snapshot panics. */
    method TrySend(id: nat, e: Event) returns (ok: bool, panicked: bool)
      requires id in channels
      modifies this`channels
      ensures panicked == !old(channels)[id].open
      ensures ok == (!panicked && HasRoom(old(State()), id))
      ensures State() == if panicked then old(State()) else Sent(old(State()), id, e)
      ensures ok <==> old(channels[id].open) && |old(channels[id].buf)| < 256
      ensures channels == if ok then old(channels)[id := old(channels[id]).(buf := old(channels[id].buf) + [e])] else old(channels)
    {
      panicked := !channels[id].open;
      ok := !panicked && |channels[id].buf| < BUFFER;
      if ok {
        channels := channels[id := channels[id].(buf := channels[id].buf + [e])];
      }
    }

    /** The second lock section of Publish. */
    method DropSlow(deploy: nat, slow: set<nat>)
      requires Valid()
      modifies this
      ensures State() == Dropped(old(State()), deploy, slow)
      ensures Valid()
      ensures channels.Keys == old(channels.Keys)
      ensures forall k | k in channels ::
                channels[k] == if k in slow && old(channels[k].deploy) == deploy then old(channels[k]).(open := false) else old(channels[k])
    {
      DroppedKeepsLifecycle(State(), deploy, slow);
      CloseEach(deploy, slow);
      if deploy !in subscribers || subscribers[deploy] == {} {
        subscribers := subscribers - {deploy};
      }
    }

    method CloseEach(deploy: nat, slow: set<nat>)
      requires forall id | id in SubsOf(State(), deploy) :: id in channels
      modifies this
      ensures State() == Removed(old(State()), deploy, slow)
    {
      ghost var before := State();
      var todo := slow;
      RemovedNone(before, deploy);
      assert slow - todo == {};
      while todo != {}
        invariant todo <= slow
        invariant State() == Removed(before, deploy, slow - todo)
      {
        var id :| id in todo;
        ghost var done := slow - todo;
        RemovedStep(before, deploy, done, id);
        todo := todo - {id};
        assert slow - todo == done + {id};
        if deploy in subscribers && id in subscribers[deploy] {
          subscribers := subscribers[deploy := subscribers[deploy] - {id}];
          channels := channels[id := channels[id].(open := false)];
        }
      }
      assert slow - todo == slow;
    }

    /** The sends of a Publish that nothing interrupts, in any order of the targets. */
    method SendEach(targets: set<nat>, e: Event) returns (slow: set<nat>)
      requires forall id | id in targets :: id in channels && channels[id].open
      modifies this`channels
      ensures State() == SentTo(old(State()), targets, e)
      ensures slow == set id | id in targets && !HasRoom(old(State()), id)
    {
      ghost var before := State();
      var todo := targets;
      slow := {};
      while todo != {}
        invariant todo <= targets
        invariant slow == set id | id in targets - todo && !HasRoom(before, id)
        invariant State() == SentTo(before, targets - todo, e)
      {
        var id :| id in todo;
        ghost var done := targets - todo;
        SentToStep(before, done, id, e);
        var ok, panicked := TrySend(id, e);
        todo := todo - {id};
        assert targets - todo == done + {id};
        if !ok {
          slow := slow + {id};
        }
      }
      assert targets - todo == targets;
    }

    /** Publish when nothing else runs in between: a subscriber of the deploy with fewer than 256
        events queued gets the event, one with a full queue is closed instead, and every other
        channel stays as it was. */
    method Publish(e: Event)
      requires Valid()
      modifies this
      ensures State() == PublishedAtOnce(old(State()), e)
      ensures Valid()
      ensures channels.Keys == old(channels.Keys) && nextID == old(nextID)
      ensures forall k | k in channels && old(channels[k].open) && old(channels[k].deploy) == e.deploy ::
                channels[k] == if |old(channels[k].buf)| < 256 then old(channels[k]).(buf := old(channels[k].buf) + [e])
                               else old(channels[k]).(open := false)
      ensures forall k | k in channels && !(old(channels[k].open) && old(channels[k].deploy) == e.deploy) ::
                channels[k] == old(channels[k])
    {
      ghost var before := State();
      var targets := SnapshotTargets(e);
      if targets == {} {
        PublishedToNobody(before, e);
        return;
      }
      ghost var announced := State();
      var slow := SendEach(targets, e);
      SentToKeepsLifecycle(announced, targets, e);
      PublishedInPhases(before, e);
      if slow != {} {
        DropSlow(e.deploy, slow);
      }
    }

    method SubscriberCount(deploy: nat) returns (n: nat)
      ensures n == |SubsOf(State(), deploy)|
    {
      n := if deploy in subscribers then |subscribers[deploy]| else 0;
    }
  }
}
