/** Every interleaving of Subscribe, unsubscribe, receives and the phases of Publish. Each
    deploy has one publisher, the goroutine of its run; lock sections, single sends and
    receives are atomic. */
module Delivery {
  import opened Domain
  import opened Broadcaster

  /** A Publish between its two lock sections: targets still to serve, and slow ones. */
  datatype Pub = Pub(event: Event, todo: set<nat>, slow: set<nat>)

  /** panicked: a send hit a closed channel and took the process down. */
  datatype BSys = BSys(bus: Bus, pubs: map<nat, Pub>, panicked: bool)

  datatype BLabel =
    | Subscribe(deploy: nat)
    | Unsubscribe(id: nat)
    | Receive(id: nat)
    | Begin(event: Event)
    | Send(deploy: nat, id: nat)
    | Finish(deploy: nat)

  function BStep(s: BSys, l: BLabel): BSys
  {
    if s.panicked then s
    else match l
      case Subscribe(deploy) => s.(bus := Subscribed(s.bus, deploy))
      case Unsubscribe(id) => if id in s.bus.chans then s.(bus := Unsubscribed(s.bus, id)) else s
      case Receive(id) => if id in s.bus.chans && s.bus.chans[id].buf != [] then s.(bus := Received(s.bus, id)) else s
      case Begin(event) =>
        if event.deploy in s.pubs then s
        else
          var targets := SubsOf(s.bus, event.deploy);
          s.(bus := Announced(s.bus, event),
             pubs := if targets == {} then s.pubs else s.pubs[event.deploy := Pub(event, targets, {})])
      case Send(deploy, id) =>
        if deploy in s.pubs && id in s.pubs[deploy].todo && id in s.bus.chans then
          var p := s.pubs[deploy];
          if !s.bus.chans[id].open then s.(panicked := true)
          else if HasRoom(s.bus, id)
          then s.(bus := Sent(s.bus, id, p.event), pubs := s.pubs[deploy := p.(todo := p.todo - {id})])
          else s.(pubs := s.pubs[deploy := p.(todo := p.todo - {id}, slow := p.slow + {id})])
        else s
      case Finish(deploy) =>
        if deploy in s.pubs && s.pubs[deploy].todo == {} then
          s.(bus := if s.pubs[deploy].slow == {} then s.bus else Dropped(s.bus, deploy, s.pubs[deploy].slow),
             pubs := s.pubs - {deploy})
        else s
  }

  function BRun(s: BSys, ls: seq<BLabel>): BSys
    decreases |ls|
  {
    if ls == [] then s else BRun(BStep(s, ls[0]), ls[1..])
  }

  const FRESH: BSys := BSys(Bus(0, map[], map[], map[]), map[], false)

  /** The subscription still waits for the event of the Publish in flight. */
  predicate Awaits(s: BSys, id: nat)
    requires id in s.bus.chans
  {
    var d := s.bus.chans[id].deploy;
    d in s.pubs && (id in s.pubs[d].todo || id in s.pubs[d].slow)
  }

  /** A Publish in flight serves subscriptions that were in the map when it took its snapshot. */
  ghost predicate GoodPub(b: Bus, d: nat, p: Pub)
  {
    && p.event.deploy == d && p.todo !! p.slow
    && LogOf(b, d) != [] && LogOf(b, d)[|LogOf(b, d)| - 1] == p.event
    && forall id | id in p.todo || id in p.slow ::
         id in b.chans && b.chans[id].deploy == d && b.chans[id].start < |LogOf(b, d)|
  }

  /** Received plus buffered events of a subscription against what was published since. */
  predicate Contiguous(c: Chan, log: seq<Event>, waiting: bool)
  {
    && c.start <= |log|
    && c.Delivered() <= log[c.start..]
    && (c.open && !waiting ==> c.Delivered() == log[c.start..])
    && (waiting ==> |c.Delivered()| < |log| - c.start)
    && (c.open && waiting ==> |c.Delivered()| == |log| - c.start - 1)
  }

  ghost predicate GapFree(s: BSys, id: nat)
    requires id in s.bus.chans
  {
    Contiguous(s.bus.chans[id], LogOf(s.bus, s.bus.chans[id].deploy), Awaits(s, id))
  }

  ghost predicate BInv(s: BSys)
  {
    && Lifecycle(s.bus)
    && (forall d | d in s.pubs :: GoodPub(s.bus, d, s.pubs[d]))
    && (forall id | id in s.bus.chans :: GapFree(s, id))
  }

  lemma BStepKeeps(s: BSys, l: BLabel)
    requires BInv(s)
    ensures BInv(BStep(s, l))
  {
    if !s.panicked {
      match l
      case Subscribe(deploy) => SubscribeKeeps(s, deploy);
      case Unsubscribe(id) =>
        if id in s.bus.chans && id in SubsOf(s.bus, s.bus.chans[id].deploy) {
          DropKeeps(s, s.bus.chans[id].deploy, {id});
        }
      case Receive(id) => ReceiveKeeps(s, id);
      case Begin(event) => BeginKeeps(s, event);
      case Send(deploy, id) => SendKeeps(s, deploy, id);
      case Finish(deploy) => FinishKeeps(s, deploy);
    }
  }

  lemma SubscribeKeeps(s: BSys, deploy: nat)
    requires BInv(s)
    ensures BInv(s.(bus := Subscribed(s.bus, deploy)))
  {
    hide Lifecycle, Contiguous;
    SubscribedKeepsLifecycle(s.bus, deploy);
    var t := s.(bus := Subscribed(s.bus, deploy));
    NextIdIsFree(s.bus);
    NewIsContiguous(deploy, LogOf(s.bus, deploy));
    forall id | id in t.bus.chans ensures GapFree(t, id) {
      if id in s.bus.chans {
        assert GapFree(s, id);
      } 
    }
  }

  lemma NewIsContiguous(deploy: nat, log: seq<Event>)
    ensures Contiguous(Chan(deploy, |log|, [], [], true), log, false)
  {
  }

  lemma NextIdIsFree(b: Bus)
    requires Lifecycle(b)
    ensures b.nextID + 1 !in b.chans
  {
  }

  /** Closing channels, by unsubscribe or as slow, leaves each a prefix of what it was owed. */
  lemma DropKeeps(s: BSys, deploy: nat, ids: set<nat>)
    requires BInv(s)
    ensures BInv(s.(bus := Dropped(s.bus, deploy, ids)))
  {
    hide Lifecycle, Contiguous;
    DroppedKeepsLifecycle(s.bus, deploy, ids);
    var t := s.(bus := Dropped(s.bus, deploy, ids));
    forall id | id in t.bus.chans ensures GapFree(t, id) {
      assert GapFree(s, id);
      ClosedContiguous(s.bus.chans[id], LogOf(s.bus, s.bus.chans[id].deploy), Awaits(s, id));
    }
  }

  lemma SameMapKeepsLifecycle(b: Bus, a: Bus)
    requires Lifecycle(b) && a.nextID == b.nextID && a.subs == b.subs && a.chans.Keys == b.chans.Keys
    requires forall id | id in b.chans :: a.chans[id].deploy == b.chans[id].deploy && a.chans[id].open == b.chans[id].open
                                          && |a.chans[id].buf| <= BUFFER
    ensures Lifecycle(a)
  {
    assert forall d :: SubsOf(a, d) == SubsOf(b, d);
  }

  lemma ReceiveKeeps(s: BSys, id: nat)
    requires BInv(s)
    ensures BInv(BStep(s, Receive(id)))
  {
    hide Contiguous, Lifecycle;
    var t := BStep(s, Receive(id));
    if t != s {
      ReceivedKeepsLifecycle(s.bus, id);
      assert forall d :: LogOf(t.bus, d) == LogOf(s.bus, d);
      forall i | i in t.bus.chans ensures GapFree(t, i) {
        assert GapFree(s, i);
        if i == id {
          ReceivedContiguous(s.bus.chans[id], LogOf(s.bus, s.bus.chans[id].deploy), Awaits(s, id));
        }
      }
    }
  }

  lemma ReceivedKeepsLifecycle(b: Bus, id: nat)
    requires Lifecycle(b) && id in b.chans && b.chans[id].buf != []
    ensures Lifecycle(Received(b, id))
  {
    SameMapKeepsLifecycle(b, Received(b, id));
  }

  lemma ReceivedContiguous(c: Chan, log: seq<Event>, waiting: bool)
    requires c.buf != [] && Contiguous(c, log, waiting)
    ensures Contiguous(c.(taken := c.taken + [c.buf[0]], buf := c.buf[1..]), log, waiting)
  {
    assert (c.taken + [c.buf[0]]) + c.buf[1..] == c.taken + c.buf;
  }

  lemma BeginKeeps(s: BSys, e: Event)
    requires BInv(s) && !s.panicked
    ensures BInv(BStep(s, Begin(e)))
  {
    hide Contiguous, Lifecycle;
    var t := BStep(s, Begin(e));
    if e.deploy !in s.pubs {
      var log := LogOf(s.bus, e.deploy);
      AnnouncedKeepsLifecycle(s.bus, e);
      assert forall d :: LogOf(t.bus, d) == if d == e.deploy then log + [e] else LogOf(s.bus, d);
      forall i | i in t.bus.chans ensures GapFree(t, i) {
        assert GapFree(s, i);
        var c := s.bus.chans[i];
        if c.deploy == e.deploy {
          OpenIffIn(s.bus, i);
          AnnouncedContiguous(c, log, e);
        }
      }
      forall d | d in t.pubs ensures GoodPub(t.bus, d, t.pubs[d]) {
        if d == e.deploy { SnapshotIsGood(s, e); }
      }
    }
  }

  lemma OpenIffIn(b: Bus, id: nat)
    requires Lifecycle(b) && id in b.chans
    ensures b.chans[id].open <==> id in SubsOf(b, b.chans[id].deploy)
  {
  }

  lemma AnnouncedKeepsLifecycle(b: Bus, e: Event)
    requires Lifecycle(b)
    ensures Lifecycle(Announced(b, e))
  {
    SameMapKeepsLifecycle(b, Announced(b, e));
  }

  /** An open channel now waits for the new event; a closed one is not concerned. */
  lemma AnnouncedContiguous(c: Chan, log: seq<Event>, e: Event)
    requires Contiguous(c, log, false)
    ensures Contiguous(c, log + [e], c.open)
  {
    assert (log + [e])[c.start..] == log[c.start..] + [e];
  }

  lemma SnapshotIsGood(s: BSys, e: Event)
    requires BInv(s) && e.deploy !in s.pubs && SubsOf(s.bus, e.deploy) != {}
    ensures GoodPub(Announced(s.bus, e), e.deploy, Pub(e, SubsOf(s.bus, e.deploy), {}))
  {
    hide Contiguous;
    forall id | id in SubsOf(s.bus, e.deploy) ensures s.bus.chans[id].start <= |LogOf(s.bus, e.deploy)| {
      assert GapFree(s, id);
      StartInLog(s.bus.chans[id], LogOf(s.bus, e.deploy), Awaits(s, id));
    }
  }

  lemma StartInLog(c: Chan, log: seq<Event>, waiting: bool)
    requires Contiguous(c, log, waiting)
    ensures c.start <= |log|
  {
  }

  lemma SendKeeps(s: BSys, deploy: nat, id: nat)
    requires BInv(s) && !s.panicked
    ensures BInv(BStep(s, Send(deploy, id)))
  {
    hide Contiguous, Lifecycle;
    var t := BStep(s, Send(deploy, id));
    if deploy in s.pubs && id in s.pubs[deploy].todo && s.bus.chans[id].open {
      var p := s.pubs[deploy];
      assert GoodPub(s.bus, deploy, p) && GapFree(s, id);
      SentKeepsLifecycle(s.bus, id, p.event);
      assert forall d :: LogOf(t.bus, d) == LogOf(s.bus, d);
      if HasRoom(s.bus, id) {
        SentContiguous(s.bus.chans[id], LogOf(s.bus, deploy), p.event);
      }
      forall i | i in t.bus.chans ensures GapFree(t, i) {
        assert GapFree(s, i);
      }
    }
  }

  lemma SentKeepsLifecycle(b: Bus, id: nat, e: Event)
    requires Lifecycle(b) && id in b.chans
    ensures Lifecycle(Sent(b, id, e))
  {
    SameMapKeepsLifecycle(b, Sent(b, id, e));
  }

  lemma SentContiguous(c: Chan, log: seq<Event>, e: Event)
    requires c.open && Contiguous(c, log, true) && log != [] && log[|log| - 1] == e
    ensures Contiguous(c.(buf := c.buf + [e]), log, false)
  {
    assert c.taken + (c.buf + [e]) == c.Delivered() + [e];
    assert log[c.start..] == log[c.start..|log| - 1] + [e];
    assert c.Delivered() == log[c.start..][..|c.Delivered()|] == log[c.start..|log| - 1];
  }

  lemma FinishKeeps(s: BSys, deploy: nat)
    requires BInv(s) && !s.panicked
    ensures BInv(BStep(s, Finish(deploy)))
  {
    hide Contiguous, Lifecycle;
    if deploy in s.pubs && s.pubs[deploy].todo == {} {
      var slow := s.pubs[deploy].slow;
      assert GoodPub(s.bus, deploy, s.pubs[deploy]);
      DroppedKeepsLifecycle(s.bus, deploy, slow);
      var t := BStep(s, Finish(deploy));
      forall i | i in t.bus.chans ensures GapFree(t, i) {
        assert GapFree(s, i);
        OpenIffIn(s.bus, i);
        ClosedContiguous(s.bus.chans[i], LogOf(s.bus, s.bus.chans[i].deploy), Awaits(s, i));
      }
    }
  }

  /** A closed channel holds a contiguous prefix, and owes nothing any more. */
  lemma ClosedContiguous(c: Chan, log: seq<Event>, waiting: bool)
    requires Contiguous(c, log, waiting)
    ensures Contiguous(c.(open := false), log, waiting) && Contiguous(c.(open := false), log, false)
  {
    assert c.(open := false).Delivered() == c.Delivered();
  }

  lemma {:induction false} RunKeeps(s: BSys, ls: seq<BLabel>)
    requires BInv(s)
    ensures BInv(BRun(s, ls))
    decreases |ls|
  {
    if ls != [] {
      BStepKeeps(s, ls[0]);
      RunKeeps(BStep(s, ls[0]), ls[1..]);
    }
  }

  /** Gap-free delivery under every interleaving: what a subscriber has received followed by
      what is buffered for it is a contiguous run of the events published since it subscribed,
      starting with the first; all of them while it is live and no Publish is under way, all
      but the one under way otherwise. */
  lemma GapFreeDelivery(ls: seq<BLabel>, id: nat)
    requires id in BRun(FRESH, ls).bus.chans
    ensures var s := BRun(FRESH, ls); var c := s.bus.chans[id]; var log := LogOf(s.bus, c.deploy);
      && c.start <= |log| && c.Delivered() <= log[c.start..]
      && (c.open && c.deploy !in s.pubs ==> c.Delivered() == log[c.start..])
      && (c.open ==> |log| - c.start - 1 <= |c.Delivered()|)
  {
    assert BInv(FRESH);
    RunKeeps(FRESH, ls);
    assert GapFree(BRun(FRESH, ls), id);
  }

  /** A closed channel stays closed, and nothing is added to it; logs only grow. */
  lemma ClosedForGood(s: BSys, l: BLabel, id: nat)
    requires BInv(s) && id in s.bus.chans
    ensures var a, b := s.bus, BStep(s, l).bus;
      && id in b.chans && b.chans[id].deploy == a.chans[id].deploy && b.chans[id].start == a.chans[id].start
      && (!a.chans[id].open ==> !b.chans[id].open && b.chans[id].Delivered() == a.chans[id].Delivered())
      && LogOf(a, a.chans[id].deploy) <= LogOf(b, a.chans[id].deploy)
  {
    hide Lifecycle, Contiguous;
    NextIdIsFree(s.bus);
    match l
    case Receive(i) =>
      var c := s.bus.chans[id];
      if c.buf != [] {
        assert (c.taken + [c.buf[0]]) + c.buf[1..] == c.taken + c.buf;
      }
    case Subscribe(_) =>
    case Unsubscribe(_) =>
    case Begin(_) =>
    case Send(_, _) =>
    case Finish(_) =>
  }

  /** Every subscription ever created is either live or closed, and is counted once. */
  lemma SubscriptionsConserved(s: BSys)
    requires BInv(s)
    ensures var live := set id | id in s.bus.chans && s.bus.chans[id].open;
            var closed := set id | id in s.bus.chans && !s.bus.chans[id].open;
            |live| + |closed| == s.bus.nextID
  {
    var live := set id | id in s.bus.chans && s.bus.chans[id].open;
    var closed := set id | id in s.bus.chans && !s.bus.chans[id].open;
    assert live + closed == Ids(s.bus.nextID);
    IdsCount(s.bus.nextID);
    assert live !! closed;
  }

  function Ids(n: nat): (ids: set<nat>)
    ensures forall i: nat :: i in ids <==> 1 <= i <= n
  {
    if n == 0 then {} else Ids(n - 1) + {n}
  }

  lemma {:induction false} IdsCount(n: nat)
    ensures |Ids(n)| == n
  {
    if n > 0 {
      IdsCount(n - 1);
    }
  }

  /** A send panics exactly when its target left the map after the snapshot was taken. */
  lemma SendPanicsExactly(s: BSys, deploy: nat, id: nat)
    requires BInv(s) && !s.panicked && deploy in s.pubs && id in s.pubs[deploy].todo
    ensures BStep(s, Send(deploy, id)).panicked <==> id !in SubsOf(s.bus, deploy)
  {
    assert GoodPub(s.bus, deploy, s.pubs[deploy]);
    OpenIffIn(s.bus, id);
  }

  /** No subscriber of a deploy leaves while a Publish for that deploy is under way. */
  predicate Polite(s: BSys, l: BLabel)
  {
    l.Unsubscribe? && l.id in s.bus.chans ==> s.bus.chans[l.id].deploy !in s.pubs
  }

  predicate AllPolite(s: BSys, ls: seq<BLabel>)
    decreases |ls|
  {
    ls == [] || (Polite(s, ls[0]) && AllPolite(BStep(s, ls[0]), ls[1..]))
  }

  /** The targets a Publish has still to serve are all in the map. */
  ghost predicate TargetsPresent(s: BSys)
  {
    forall d | d in s.pubs :: s.pubs[d].todo <= SubsOf(s.bus, d)
  }

  lemma PoliteStep(s: BSys, l: BLabel)
    requires BInv(s) && TargetsPresent(s) && !s.panicked && Polite(s, l)
    ensures TargetsPresent(BStep(s, l)) && !BStep(s, l).panicked
  {
    hide Contiguous;
    match l
    case Send(deploy, id) =>
      if deploy in s.pubs && id in s.pubs[deploy].todo {
        assert GoodPub(s.bus, deploy, s.pubs[deploy]);
        SendPanicsExactly(s, deploy, id);
      }
    case _ =>
  }

  /** Without such removals no send ever hits a closed channel. */
  lemma {:induction false} PoliteRunsNeverPanic(s: BSys, ls: seq<BLabel>)
    requires BInv(s) && TargetsPresent(s) && !s.panicked && AllPolite(s, ls)
    ensures !BRun(s, ls).panicked
    decreases |ls|
  {
    hide BInv, TargetsPresent, Polite, BStep;
    if ls != [] {
      BStepKeeps(s, ls[0]);
      PoliteStep(s, ls[0]);
      PoliteRunsNeverPanic(BStep(s, ls[0]), ls[1..]);
    }
  }

  /** And with one it happens: the only subscriber disconnects between snapshot and send. */
  lemma DisconnectDuringPublishPanics(e: Event)
    ensures BRun(FRESH, [Subscribe(e.deploy), Begin(e), Unsubscribe(1), Send(e.deploy, 1)]).panicked
  {
    var s1 := BStep(FRESH, Subscribe(e.deploy));
    var s2 := BStep(s1, Begin(e));
    assert SubsOf(s1.bus, e.deploy) == {1};
    var s3 := BStep(s2, Unsubscribe(1));
    var s4 := BStep(s3, Send(e.deploy, 1));
    var d, b, u, x := Subscribe(e.deploy), Begin(e), Unsubscribe(1), Send(e.deploy, 1);
    calc {
      BRun(FRESH, [d, b, u, x]);
      { assert [d, b, u, x][1..] == [b, u, x]; }
      BRun(s1, [b, u, x]);
      { assert [b, u, x][1..] == [u, x]; }
      BRun(s2, [u, x]);
      { assert [u, x][1..] == [x]; }
      BRun(s3, [x]);
      { assert [x][1..] == []; }
      BRun(s4, []);
    }
  }
}
