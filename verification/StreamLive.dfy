/** The event stream handler of one deploy next to everything it races with: the run of that
    deploy, the broadcaster, other subscribers and other deploys. */
module StreamLive {
  import opened Domain
  import opened DeployMachine
  import opened DeployStatus
  import opened Commute
  import opened Broadcaster
  import opened Delivery
  import opened Stream

  /** Where the handler stands: before it reads the deploy, before it lists the events, before
      it subscribes, in the select loop, holding a received event, or on its way out. */
  datatype HandlerPc = Reading | Listing | Subscribing | Waiting | Checking(e: Event) | Leaving | Gone

  datatype Handler = Handler(pc: HandlerPc, first: Status, listed: seq<Event>, id: nat, wakes: seq<Wake>)
  {
    function Frames(): seq<Frame> { Transcript(first, listed, wakes) }
    predicate Attached() { pc.Waiting? || pc.Checking? || pc.Leaving? }
  }

  /** pending: an event that is stored but not yet handed to Publish. mark: history, how many
      events of the deploy were stored when its status became terminal. */
  datatype Live = Live(external: bool, run: Run, w: World, bsys: BSys, pending: Option<Event>,
                       mark: Option<nat>, h: Handler)
  {
    function Id(): nat { run.d.id }
    function Stored(): seq<Event> { EventsOf(w.events, run.d.id) }
    function Log(): seq<Event> { LogOf(bsys.bus, run.d.id) }
    function Stands(): Status { if run.d.id in w.deploys then w.deploys[run.d.id].status else Pending }
    predicate Publishing() { pending.Some? || run.d.id in bsys.pubs }
  }

  /** What the select of the loop picks. */
  datatype Pick = Cancel | KeepaliveTick | Channel

  datatype LiveLabel =
    | Engine(c: Choice)
    | Publish
    | Bus(l: BLabel)
    | Others(w: World)
    | Look
    | Turn(pick: Pick)
    | Check(ok: bool)
    | Leave

  /** Runs of other deploys leave this deploy's row and events alone. */
  predicate OthersMay(s: Live, w: World)
  {
    && s.Id() in s.w.deploys && s.Id() in w.deploys && w.deploys[s.Id()] == s.w.deploys[s.Id()]
    && EventsOf(w.events, s.Id()) == s.Stored()
  }

  /** The broadcaster moves that belong to others: not this deploy's publisher or this handler. */
  predicate BusMay(s: Live, l: BLabel)
  {
    && !(l.Begin? && l.event.deploy == s.Id())
    && !(l.Receive? && l.id == s.h.id)
    && !(l.Unsubscribe? && l.id == s.h.id)
  }

  function EngineStep(s: Live, c: Choice): Live
    requires s.Id() in s.w.deploys
  {
    var w := StepWorld(s.run, s.w, c);
    var row := RowAfter(s.run, s.w.deploys[s.Id()], c);
    s.(run := StepRun(s.external, s.run, s.w, c), w := w,
       pending := if s.run.todo != [] && c.stored then Some(s.run.todo[0]) else None,
       mark := if !IsTerminal(s.w.deploys[s.Id()].status) && IsTerminal(row.status)
               then Some(|EventsOf(w.events, s.Id())|) else s.mark)
  }

  function LookStep(s: Live): Live
    requires s.Id() in s.w.deploys
  {
    match s.h.pc
    case Reading => s.(h := s.h.(pc := Listing, first := s.w.deploys[s.Id()].status))
    case Listing => s.(h := s.h.(pc := if IsTerminal(s.h.first) then Gone else Subscribing, listed := s.Stored()))
    case Subscribing =>
      s.(bsys := BStep(s.bsys, BLabel.Subscribe(s.Id())), h := s.h.(pc := Waiting, id := s.bsys.bus.nextID + 1))
    case _ => s
  }

  function TurnStep(s: Live, pick: Pick): Live
    requires s.h.pc.Waiting? && s.h.id in s.bsys.bus.chans
  {
    var c := s.bsys.bus.chans[s.h.id];
    match pick
    case Cancel => s.(h := s.h.(pc := Leaving, wakes := s.h.wakes + [Cancelled]))
    case KeepaliveTick => s.(h := s.h.(wakes := s.h.wakes + [Tick]))
    case Channel =>
      if c.buf != [] then s.(bsys := BStep(s.bsys, Receive(s.h.id)), h := s.h.(pc := Checking(c.buf[0])))
      else if !c.open then s.(h := s.h.(pc := Leaving, wakes := s.h.wakes + [Closed]))
      else s
  }

  function CheckStep(s: Live, ok: bool): Live
    requires s.h.pc.Checking? && s.Id() in s.w.deploys
  {
    var wake := Wake.Delivered(s.h.pc.e, if ok then Some(s.w.deploys[s.Id()].status) else None);
    s.(h := s.h.(pc := if Ends(wake) then Leaving else Waiting, wakes := s.h.wakes + [wake]))
  }

  /** A send on a closed channel has taken the process down: nothing moves any more. */
  function LiveStep(s: Live, l: LiveLabel): Live
  {
    if s.bsys.panicked || s.Id() !in s.w.deploys then s
    else match l
      case Engine(c) => if s.Publishing() || s.run.Finished() then s else EngineStep(s, c)
      case Publish => if s.pending.Some? then s.(bsys := BStep(s.bsys, Begin(s.pending.value)), pending := None) else s
      case Bus(l) => if BusMay(s, l) then s.(bsys := BStep(s.bsys, l)) else s
      case Others(w) => if OthersMay(s, w) then s.(w := w) else s
      case Look => LookStep(s)
      case Turn(pick) => if s.h.pc.Waiting? && s.h.id in s.bsys.bus.chans then TurnStep(s, pick) else s
      case Check(ok) => if s.h.pc.Checking? then CheckStep(s, ok) else s
      case Leave => if s.h.pc.Leaving? then s.(bsys := BStep(s.bsys, Unsubscribe(s.h.id)), h := s.h.(pc := Gone)) else s
  }

  function LiveRun(s: Live, ls: seq<LiveLabel>): Live
    decreases |ls|
  {
    if ls == [] then s else LiveRun(LiveStep(s, ls[0]), ls[1..])
  }

  /** The engine's own store writes go through. */
  predicate StoresWork(ls: seq<LiveLabel>)
  {
    forall l | l in ls :: l.Engine? ==> l.c.stored
  }

  // The engine's side.

  /** How many events a run whose row is terminal has still to emit. */
  function Left(r: Run): nat
  {
    if r.pc.Done? then |r.todo| else 1
  }

  function Held(pending: Option<Event>): seq<Event>
  {
    if pending.Some? then [pending.value] else []
  }

  ghost predicate RunSide(r: Run, w: World)
  {
    && r.d.id in w.deploys && Tracks(r, w.deploys[r.d.id]) && Synced(r, w.deploys[r.d.id])
    && OwnEvents(r) && (r.pc.Done? ==> |r.todo| <= 1)
  }

  ghost predicate EngineInv(s: Live)
  {
    && RunSide(s.run, s.w) && BInv(s.bsys)
    && (s.pending.Some? ==> s.pending.value.deploy == s.Id() && s.Id() !in s.bsys.pubs)
    && s.Stored() == s.Log() + Held(s.pending)
    && (IsTerminal(s.w.deploys[s.Id()].status) <==> s.mark.Some?)
    && (s.mark.Some? ==> |s.Stored()| + Left(s.run) == s.mark.value + 1)
  }

  lemma StepKeepsDone(external: bool, r: Run, w: World, c: Choice)
    requires r.pc.Done? ==> |r.todo| <= 1
    ensures var r' := StepRun(external, r, w, c); r'.pc.Done? ==> |r'.todo| <= 1
  {
    hide AfterBuilding, AfterPreparing, AfterCutover;
  }

  lemma StepCounts(external: bool, r: Run, row: Deploy, w: World, c: Choice)
    requires Tracks(r, row) && Synced(r, row) && c.stored && !r.Finished()
    requires r.pc.Done? ==> |r.todo| <= 1
    ensures var r', row' := StepRun(external, r, w, c), RowAfter(r, row, c);
      && (IsTerminal(row.status) ==> row'.status == row.status && Left(r') + |Emitted(r, c)| == Left(r))
      && (!IsTerminal(row.status) && IsTerminal(row'.status) ==> Left(r') == 1 && Emitted(r, c) == [])
  {
    hide AfterBuilding, AfterPreparing, AfterCutover;
  }

  lemma OwnEventsOf(r: Run, w: World, c: Choice)
    requires OwnEvents(r)
    ensures EventsOf(StepWorld(r, w, c).events, r.d.id) == EventsOf(w.events, r.d.id) + Emitted(r, c)
  {
    hide StepWorld;
    StepParts(r, w, c);
    EventsOfAppend(w.events, Emitted(r, c), r.d.id);
  }

  lemma RunSideKept(external: bool, r: Run, w: World, c: Choice)
    requires RunSide(r, w) && !r.Finished() && c.stored
    ensures RunSide(StepRun(external, r, w, c), StepWorld(r, w, c))
    ensures StepRun(external, r, w, c).d.id == r.d.id
    ensures StepWorld(r, w, c).deploys[r.d.id] == RowAfter(r, w.deploys[r.d.id], c)
  {
    hide StepRun, StepWorld, Tracks, Synced, OwnEvents, RowAfter;
    StepTracks(external, r, w, c);
    StepSynced(external, r, w.deploys[r.d.id], w, c);
    StepRow(r, w, c);
    StepFrame(external, r, w, c);
    StepKeepsOwnEvents(external, r, w, c);
    StepKeepsDone(external, r, w, c);
  }

  lemma EngineKeeps(s: Live, c: Choice)
    requires EngineInv(s) && !s.Publishing() && !s.run.Finished() && c.stored
    ensures EngineInv(EngineStep(s, c))
    ensures s.Stored() <= EngineStep(s, c).Stored()
    ensures IsTerminal(s.w.deploys[s.Id()].status) ==>
              EngineStep(s, c).w.deploys[s.Id()].status == s.w.deploys[s.Id()].status
  {
    hide StepRun, StepWorld, Tracks, Synced, OwnEvents, RowAfter, BInv;
    RunSideKept(s.external, s.run, s.w, c);
    OwnEventsOf(s.run, s.w, c);
    StepCounts(s.external, s.run, s.w.deploys[s.Id()], s.w, c);
    PendingIsOwn(s.run);
  }

  lemma PendingIsOwn(r: Run)
    requires OwnEvents(r)
    ensures r.todo != [] ==> r.todo[0].deploy == r.d.id
  {
  }

  /** Moves of the broadcaster other than a Publish of deploy d. */
  lemma BusFrame(s: BSys, l: BLabel, d: nat)
    requires BInv(s) && !(l.Begin? && l.event.deploy == d)
    ensures LogOf(BStep(s, l).bus, d) == LogOf(s.bus, d)
    ensures d !in s.pubs ==> d !in BStep(s, l).pubs
  {
    hide BInv;
  }

  /** What such moves leave alone in a channel of deploy d. */
  lemma ChannelFrame(s: BSys, l: BLabel, d: nat, id: nat)
    requires BInv(s) && id in s.bus.chans && l != Receive(id)
    ensures var a, b := s.bus.chans[id], BStep(s, l).bus.chans;
            && id in b && b[id].deploy == a.deploy && b[id].start == a.start && b[id].taken == a.taken
            && (l != Unsubscribe(id) && a.deploy == d && d !in s.pubs ==> b[id].open == a.open)
  {
    hide Contiguous, Lifecycle;
    NextIdIsFree(s.bus);
    match l
    case Subscribe(_) =>
    case Unsubscribe(_) =>
    case Receive(_) =>
    case Begin(_) =>
    case Send(_, _) =>
    case Finish(deploy) => assert deploy in s.pubs ==> GoodPub(s.bus, deploy, s.pubs[deploy]);
  }

  lemma BusKeeps(s: Live, l: BLabel)
    requires EngineInv(s) && !(l.Begin? && l.event.deploy == s.Id())
    ensures EngineInv(s.(bsys := BStep(s.bsys, l))) && s.(bsys := BStep(s.bsys, l)).Log() == s.Log()
  {
    hide RunSide, BInv, BStep;
    BStepKeeps(s.bsys, l);
    BusFrame(s.bsys, l, s.Id());
  }

  lemma BeginExtends(s: BSys, e: Event)
    requires !s.panicked && e.deploy !in s.pubs
    ensures LogOf(BStep(s, Begin(e)).bus, e.deploy) == LogOf(s.bus, e.deploy) + [e]
    ensures BStep(s, Begin(e)).bus.chans == s.bus.chans
  {
  }

  lemma PublishKeeps(s: Live)
    requires EngineInv(s) && s.pending.Some? && !s.bsys.panicked
    ensures var t := LiveStep(s, Publish); EngineInv(t) && t.Log() == s.Log() + [s.pending.value]
  {
    hide Tracks, Synced, OwnEvents, BInv, BStep;
    assert s.Log() + [s.pending.value] == (s.Log() + [s.pending.value]) + [];
    BStepKeeps(s.bsys, Begin(s.pending.value));
    BeginExtends(s.bsys, s.pending.value);
  }

  // The handler's side.

  lemma {:induction false} RelayedAppend(wakes: seq<Wake>, w: Wake)
    ensures Relayed(wakes + [w]) == Relayed(wakes) + if w.Delivered? then [w.e] else []
  {
    if wakes == [] {
      assert wakes + [w] == [w];
    } else {
      assert (wakes + [w])[0] == wakes[0] && (wakes + [w])[1..] == wakes[1..] + [w];
      RelayedAppend(wakes[1..], w);
    }
  }

  predicate Going(wakes: seq<Wake>)
  {
    forall v | v in wakes :: !Ends(v)
  }

  /** The loop ended with its last wake; a status it read was the final one. */
  predicate Stopped(wakes: seq<Wake>, status: Status)
  {
    && wakes != [] && Going(wakes[..|wakes| - 1]) && Ends(wakes[|wakes| - 1])
    && (wakes[|wakes| - 1].Delivered? && wakes[|wakes| - 1].status.Some? ==> wakes[|wakes| - 1].status.value == status)
  }

  /** A handler in its loop, against its channel, the stored events and the stored status. */
  predicate InLoop(h: Handler, c: Chan, stored: seq<Event>, status: Status, mark: Option<nat>)
  {
    && !IsTerminal(h.first) && h.listed <= stored && |h.listed| <= c.start + 1
    && c.taken == Relayed(h.wakes) + (if h.pc.Checking? then [h.pc.e] else [])
    && (if h.pc.Leaving? || h.pc.Gone? then Stopped(h.wakes, status) else Going(h.wakes))
    && (h.pc.Waiting? && mark.Some? && c.taken != [] ==> c.start + |c.taken| <= mark.value)
  }

  ghost predicate HandlerInv(s: Live)
    requires s.Id() in s.w.deploys
  {
    var h, status := s.h, s.w.deploys[s.Id()].status;
    match h.pc
    case Reading => h.wakes == []
    case Listing => h.wakes == [] && (IsTerminal(h.first) ==> h.first == status)
    case Subscribing =>
      !IsTerminal(h.first) && h.wakes == [] && h.listed <= s.Stored() && |h.listed| <= |s.Log()| + 1
    case Gone => (IsTerminal(h.first) && h.first == status && h.wakes == []) || InLoopOf(s)
    case _ => InLoopOf(s)
  }

  ghost predicate InLoopOf(s: Live)
    requires s.Id() in s.w.deploys
  {
    && s.h.id in s.bsys.bus.chans && s.bsys.bus.chans[s.h.id].deploy == s.Id()
    && InLoop(s.h, s.bsys.bus.chans[s.h.id], s.Stored(), s.w.deploys[s.Id()].status, s.mark)
  }

  ghost predicate LiveInv(s: Live)
  {
    EngineInv(s) && HandlerInv(s)
  }

  /** The handler does not move: what moves around it keeps its side of the invariant. */
  lemma HandlerCarried(s: Live, t: Live)
    requires LiveInv(s) && t.h == s.h && t.Id() == s.Id() && t.Id() in t.w.deploys
    requires s.Stored() <= t.Stored() && |s.Log()| <= |t.Log()|
    requires IsTerminal(s.w.deploys[s.Id()].status) ==> t.w.deploys[s.Id()].status == s.w.deploys[s.Id()].status
    requires t.mark == s.mark || (s.mark.None? && t.mark == Some(|t.Stored()|))
    requires s.h.id in s.bsys.bus.chans ==>
               var a, b := s.bsys.bus.chans[s.h.id], t.bsys.bus.chans;
               s.h.id in b && (b[s.h.id].deploy, b[s.h.id].start, b[s.h.id].taken) == (a.deploy, a.start, a.taken)
    ensures HandlerInv(t)
  {
    hide Tracks, Synced, OwnEvents, BInv, InLoop;
    if InLoopOf(s) {
      TakenIsPublished(s.bsys, s.h.id);
      InLoopCarried(s.h, s.bsys.bus.chans[s.h.id], t.bsys.bus.chans[s.h.id], s.Stored(), t.Stored(),
                    s.w.deploys[s.Id()].status, t.w.deploys[s.Id()].status, s.mark, t.mark);
    }
  }

  lemma InLoopCarried(h: Handler, c: Chan, c': Chan, stored: seq<Event>, stored': seq<Event>,
                      status: Status, status': Status, mark: Option<nat>, mark': Option<nat>)
    requires InLoop(h, c, stored, status, mark) && stored <= stored'
    requires (c'.deploy, c'.start, c'.taken) == (c.deploy, c.start, c.taken)
    requires IsTerminal(status) ==> status' == status
    requires c.start + |c.taken| <= |stored|
    requires mark' == mark || mark' == Some(|stored'|)
    ensures InLoop(h, c', stored', status', mark')
  {
    if h.pc.Leaving? || h.pc.Gone? {
      assert Ends(h.wakes[|h.wakes| - 1]);
    }
  }

  lemma TakenIsPublished(s: BSys, id: nat)
    requires BInv(s) && id in s.bus.chans
    ensures var c := s.bus.chans[id];
            c.start + |c.taken| <= |LogOf(s.bus, c.deploy)| && c.Delivered() <= LogOf(s.bus, c.deploy)[c.start..]
  {
    assert GapFree(s, id);
  }

  lemma SubscribeOpens(s: BSys, d: nat)
    requires BInv(s) && !s.panicked
    ensures var b, id := BStep(s, BLabel.Subscribe(d)).bus, s.bus.nextID + 1;
            id in b.chans && b.chans[id] == Chan(d, |LogOf(s.bus, d)|, [], [], true)
  {
  }

  lemma LookKeeps(s: Live)
    requires LiveInv(s) && !s.bsys.panicked
    ensures LiveInv(LookStep(s))
  {
    hide Tracks, Synced, OwnEvents, BInv, BStep;
    BusKeeps(s, BLabel.Subscribe(s.Id()));
    SubscribeOpens(s.bsys, s.Id());
  }

  lemma GoingStops(wakes: seq<Wake>, w: Wake, status: Status)
    requires Going(wakes) && (w.Delivered? && w.status.Some? ==> w.status.value == status)
    ensures if Ends(w) then Stopped(wakes + [w], status) else Going(wakes + [w])
  {
    assert (wakes + [w])[..|wakes|] == wakes;
  }

  lemma TurnKeeps(s: Live, pick: Pick)
    requires LiveInv(s) && !s.bsys.panicked && s.h.pc.Waiting?
    ensures LiveInv(TurnStep(s, pick))
  {
    hide Tracks, Synced, OwnEvents, BInv, BStep, Going, Stopped, Ends, Relayed;
    var id, status := s.h.id, s.w.deploys[s.Id()].status;
    var c := s.bsys.bus.chans[id];
    match pick
    case Cancel =>
      WakeKeeps(s.h, Cancelled, status);
    case KeepaliveTick =>
      WakeKeeps(s.h, Tick, status);
    case Channel =>
      if c.buf != [] {
        BusKeeps(s, Receive(id));
        ReceivedTakes(s.bsys, id);
        assert c.taken + [c.buf[0]] == Relayed(s.h.wakes) + [] + [c.buf[0]] == Relayed(s.h.wakes) + [c.buf[0]];
      } else if !c.open {
        WakeKeeps(s.h, Closed, status);
      }
  }

  lemma WakeKeeps(h: Handler, w: Wake, status: Status)
    requires Going(h.wakes) && !w.Delivered?
    ensures Relayed(h.wakes + [w]) == Relayed(h.wakes) && Ends(w) == !w.Tick?
    ensures if w.Tick? then Going(h.wakes + [w]) else Stopped(h.wakes + [w], status)
  {
    RelayedAppend(h.wakes, w);
    GoingStops(h.wakes, w, status);
  }

  lemma ReceivedTakes(s: BSys, id: nat)
    requires !s.panicked && id in s.bus.chans && s.bus.chans[id].buf != []
    ensures var c := s.bus.chans[id];
            BStep(s, Receive(id)).bus.chans == s.bus.chans[id := c.(taken := c.taken + [c.buf[0]], buf := c.buf[1..])]
  {
  }

  /** After an event the status decides: only while it is not terminal does the loop go on. */
  lemma CheckKeeps(s: Live, ok: bool)
    requires LiveInv(s) && s.h.pc.Checking?
    ensures LiveInv(CheckStep(s, ok))
  {
    hide Tracks, Synced, OwnEvents, BInv, Going, Stopped, Relayed;
    var status := s.w.deploys[s.Id()].status;
    var wake := Wake.Delivered(s.h.pc.e, if ok then Some(status) else None);
    RelayedAppend(s.h.wakes, wake);
    GoingStops(s.h.wakes, wake, status);
    assert Relayed(s.h.wakes + [wake]) + [] == Relayed(s.h.wakes + [wake]);
  }

  lemma LeaveKeeps(s: Live)
    requires LiveInv(s) && !s.bsys.panicked && s.h.pc.Leaving?
    ensures LiveInv(LiveStep(s, Leave))
  {
    hide Tracks, Synced, OwnEvents, BInv, BStep, Stopped, Going, Relayed;
    BusKeeps(s, Unsubscribe(s.h.id));
    ChannelFrame(s.bsys, Unsubscribe(s.h.id), s.Id(), s.h.id);
  }

  lemma LiveStepKeeps(s: Live, l: LiveLabel)
    requires LiveInv(s) && (l.Engine? ==> l.c.stored)
    ensures LiveInv(LiveStep(s, l)) && LiveStep(s, l).Id() == s.Id()
  {
    hide Tracks, Synced, OwnEvents, BInv, BStep, InLoop, HandlerInv, StepRun, StepWorld, RowAfter, LookStep, TurnStep, CheckStep;
    if !s.bsys.panicked {
      var t := LiveStep(s, l);
      match l
      case Engine(c) =>
        if !s.Publishing() && !s.run.Finished() {
          EngineKeeps(s, c);
          StepFrame(s.external, s.run, s.w, c);
          HandlerCarried(s, t);
        }
      case Publish =>
        if s.pending.Some? {
          PublishKeeps(s);
          BeginExtends(s.bsys, s.pending.value);
          HandlerCarried(s, t);
        }
      case Bus(b) =>
        if BusMay(s, b) {
          BusKeeps(s, b);
          if s.h.id in s.bsys.bus.chans {
            ChannelFrame(s.bsys, b, s.Id(), s.h.id);
          }
          HandlerCarried(s, t);
        }
      case Others(_) => HandlerCarried(s, t);
      case Look =>
        LookKeeps(s);
        LookIsLocal(s);
      case Turn(pick) =>
        if s.h.pc.Waiting? && s.h.id in s.bsys.bus.chans {
          TurnKeeps(s, pick);
          TurnIsLocal(s, pick);
        }
      case Check(ok) =>
        if s.h.pc.Checking? {
          CheckKeeps(s, ok);
          CheckIsLocal(s, ok);
        }
      case Leave =>
        if s.h.pc.Leaving? {
          LeaveKeeps(s);
        }
    }
  }

  lemma LookIsLocal(s: Live)
    requires s.Id() in s.w.deploys
    ensures LookStep(s).run == s.run
  {
  }

  lemma TurnIsLocal(s: Live, pick: Pick)
    requires s.h.pc.Waiting? && s.h.id in s.bsys.bus.chans
    ensures TurnStep(s, pick).run == s.run
  {
  }

  lemma CheckIsLocal(s: Live, ok: bool)
    requires s.h.pc.Checking? && s.Id() in s.w.deploys
    ensures CheckStep(s, ok).run == s.run
  {
  }

  lemma {:induction false} LiveRunKeeps(s: Live, ls: seq<LiveLabel>)
    requires LiveInv(s) && StoresWork(ls)
    ensures LiveInv(LiveRun(s, ls)) && LiveRun(s, ls).Id() == s.Id()
    decreases |ls|
  {
    hide LiveInv, LiveStep;
    if ls != [] {
      assert ls[0] in ls && forall l | l in ls[1..] :: l in ls;
      LiveStepKeeps(s, ls[0]);
      LiveRunKeeps(LiveStep(s, ls[0]), ls[1..]);
    }
  }

  /** A client that opens the stream of a deploy that has just been created. */
  predicate JustCreated(s: Live)
  {
    && s.Id() in s.w.deploys && s.w.deploys[s.Id()] == s.run.d && s.run.d.status.Pending? && s.run.d.completedAt.None?
    && (s.run == QueuedRun(s.run.app, s.run.d) || s.run == RollbackRun(s.run.app, s.run.d))
    && s.Stored() == [] && s.bsys == FRESH && s.pending.None? && s.mark.None?
    && s.h.pc.Reading? && s.h.wakes == []
  }

  lemma JustCreatedIsLive(s: Live)
    requires JustCreated(s)
    ensures LiveInv(s)
  {
  }

  // Termination.

  /** The run is over, its last event was published, and the handler waits on an open channel. */
  ghost predicate Settled(s: Live)
  {
    && s.run.Finished() && !s.Publishing() && !s.bsys.panicked
    && s.h.pc.Waiting? && s.h.id in s.bsys.bus.chans && s.bsys.bus.chans[s.h.id].open
  }

  lemma FinishedIsTerminal(r: Run, w: World)
    requires RunSide(r, w) && r.Finished()
    ensures IsTerminal(w.deploys[r.d.id].status)
  {
  }

  /** Waiting with an empty queue once everything was published means: subscribed too late. */
  lemma EmptyQueueExactly(s: Live)
    requires LiveInv(s) && Settled(s)
    ensures var c := s.bsys.bus.chans[s.h.id];
      && IsTerminal(s.w.deploys[s.Id()].status)
      && (c.buf == [] <==> c.start == |s.Log()|)
      && (c.buf == [] ==> c.taken == [])
  {
    hide Tracks, Synced, OwnEvents, Lifecycle;
    FinishedIsTerminal(s.run, s.w);
    var c := s.bsys.bus.chans[s.h.id];
    assert GapFree(s.bsys, s.h.id);
    assert c.Delivered() == s.Log()[c.start..];
    assert |s.Log()| == s.mark.value + 1;
  }

  lemma FramesEnd(h: Handler, e: Event, status: Status)
    requires Going(h.wakes) && !IsTerminal(h.first) && IsTerminal(status)
    ensures var f := Transcript(h.first, h.listed, h.wakes + [Wake.Delivered(e, Some(status))]);
            |f| > 1 && f[|f| - 1] == Terminal(status) && f[..|f| - 2] == h.Frames() && f[|f| - 2] == DeployEvent(e)
  {
    hide LoopFrames;
    var w := Wake.Delivered(e, Some(status));
    LoopFramesAppend(h.wakes, w);
    var head := EventFrames(h.listed);
    assert head + ([Connected(h.first)] + (LoopFrames(h.wakes) + WakeFrames(w)))
        == head + ([Connected(h.first)] + LoopFrames(h.wakes)) + WakeFrames(w);
  }

  /** A move of somebody else than the handler. */
  predicate Aside(l: LiveLabel)
  {
    !l.Look? && !l.Turn? && !l.Check? && !l.Leave?
  }

  lemma {:induction false} AsideLeavesHandler(s: Live, ls: seq<LiveLabel>)
    requires s.run.Finished() && s.Id() in s.w.deploys && forall l | l in ls :: Aside(l)
    ensures var t := LiveRun(s, ls);
            t.run == s.run && t.h == s.h && s.Id() in t.w.deploys && t.w.deploys[s.Id()] == s.w.deploys[s.Id()]
    decreases |ls|
  {
    hide BStep;
    if ls != [] {
      assert ls[0] in ls && forall l | l in ls[1..] :: l in ls;
      AsideLeavesHandler(LiveStep(s, ls[0]), ls[1..]);
    }
  }

  /** Stream termination, in every interleaving: once the run is over, a handler that
      subscribed before the last Publish began and is still attached finds an event queued,
      and after the first one it takes, whatever others do before it reads the status, it
      writes a terminal frame as its last and stops. */
  lemma StreamTerminates(s0: Live, ls: seq<LiveLabel>, between: seq<LiveLabel>)
    requires LiveInv(s0) && StoresWork(ls) && forall l | l in between :: Aside(l)
    requires var s := LiveRun(s0, ls); Settled(s) && s.bsys.bus.chans[s.h.id].start < |s.Log()|
    ensures var s := LiveRun(s0, ls);
            var e, status := s.bsys.bus.chans[s.h.id].buf, s.Stands();
            var taken := LiveRun(LiveStep(s, Turn(Channel)), between);
            var t := LiveStep(taken, Check(true));
      && e != [] && IsTerminal(status)
      && (!taken.bsys.panicked ==>
            t.h.pc.Leaving? && t.h.Frames() == s.h.Frames() + [DeployEvent(e[0]), Terminal(status)])
  {
    hide LiveRun, BInv, EngineInv, Transcript;
    LiveRunKeeps(s0, ls);
    StopsAtNextEvent(LiveRun(s0, ls), between);
  }

  lemma ReceiveNeverPanics(s: BSys, id: nat)
    ensures BStep(s, Receive(id)).panicked == s.panicked
  {
  }

  lemma StopsAtNextEvent(s: Live, between: seq<LiveLabel>)
    requires LiveInv(s) && Settled(s) && s.bsys.bus.chans[s.h.id].start < |s.Log()|
    requires forall l | l in between :: Aside(l)
    ensures var e, status := s.bsys.bus.chans[s.h.id].buf, s.Stands();
            var taken := LiveRun(LiveStep(s, Turn(Channel)), between);
            var t := LiveStep(taken, Check(true));
      && e != [] && IsTerminal(status)
      && (!taken.bsys.panicked ==>
            t.h.pc.Leaving? && t.h.Frames() == s.h.Frames() + [DeployEvent(e[0]), Terminal(status)])
  {
    hide BInv, Tracks, Synced, OwnEvents, Transcript, BStep, LiveRun;
    EmptyQueueExactly(s);
    var c := s.bsys.bus.chans[s.h.id];
    var u := LiveStep(s, Turn(Channel));
    ReceiveNeverPanics(s.bsys, s.h.id);
    AsideLeavesHandler(u, between);
    var t := LiveStep(LiveRun(u, between), Check(true));
    FramesEnd(s.h, c.buf[0], s.Stands());
    if !LiveRun(u, between).bsys.panicked {
      var f := t.h.Frames();
      assert f == f[..|f| - 2] + [f[|f| - 2], f[|f| - 1]];
    }
  }

  lemma {:induction false} GoingWritesNoTerminal(wakes: seq<Wake>)
    requires Going(wakes)
    ensures forall f | f in LoopFrames(wakes) :: !f.Terminal?
  {
    if wakes != [] {
      assert !Ends(wakes[0]) && forall v | v in wakes[1..] :: v in wakes;
      GoingWritesNoTerminal(wakes[1..]);
    }
  }

  /** How the loop was left: for a client that went away, a dropped subscription or a failed
      read there is no terminal frame at all; otherwise it is the last one, it is the only
      one, and it carries the stored status. */
  lemma HowStreamsEnd(s: Live)
    requires LiveInv(s) && (s.h.pc.Leaving? || s.h.pc.Gone?) && !IsTerminal(s.h.first)
    ensures var f, wakes := s.h.Frames(), s.h.wakes; var last := wakes[|wakes| - 1];
      && |f| > 0 && (forall k | 0 <= k < |f| - 1 :: !f[k].Terminal?)
      && (f[|f| - 1].Terminal? <==> last.Delivered? && last.status.Some?)
      && (f[|f| - 1].Terminal? ==> f[|f| - 1] == Terminal(s.w.deploys[s.Id()].status))
  {
    hide EngineInv, LoopFrames;
    var wakes := s.h.wakes;
    var n := |wakes| - 1;
    assert wakes == wakes[..n] + [wakes[n]];
    LoopFramesAppend(wakes[..n], wakes[n]);
    GoingWritesNoTerminal(wakes[..n]);
  }

  /** A stream opened on a finished deploy ends at once. */
  lemma FinishedDeployEndsAtOnce(s: Live)
    requires LiveInv(s) && s.h.pc.Gone? && IsTerminal(s.h.first)
    ensures s.h.Frames() == EventFrames(s.h.listed) + [Connected(s.h.first), Terminal(s.w.deploys[s.Id()].status)]
  {
    hide EngineInv;
  }

  // The other half: a handler that subscribes too late.

  ghost predicate Hung(s: Live)
  {
    Settled(s) && s.bsys.bus.chans[s.h.id].start == |s.Log()|
  }

  lemma HungStays(s: Live, l: LiveLabel)
    requires LiveInv(s) && Hung(s) && l != Turn(Cancel)
    ensures var t := LiveStep(s, l); Hung(t) || (t.bsys.panicked && t.h == s.h)
  {
    hide BInv, Tracks, Synced, OwnEvents, BStep;
    EmptyQueueExactly(s);
    match l
    case Bus(b) =>
      if BusMay(s, b) {
        BusFrame(s.bsys, b, s.Id());
        ChannelFrame(s.bsys, b, s.Id(), s.h.id);
      }
    case _ =>
  }

  lemma {:induction false} HungRun(s: Live, ls: seq<LiveLabel>)
    requires LiveInv(s) && (Hung(s) || (s.bsys.panicked && s.h.pc.Waiting?)) && StoresWork(ls) && Turn(Cancel) !in ls
    ensures LiveRun(s, ls).h.pc.Waiting?
    decreases |ls|
  {
    hide LiveInv, LiveStep;
    if ls != [] {
      assert ls[0] in ls && forall l | l in ls[1..] :: l in ls;
      var t := LiveStep(s, ls[0]);
      LiveStepKeeps(s, ls[0]);
      if s.bsys.panicked {
        PanicStops(s, ls[0]);
      } else {
        HungStays(s, ls[0]);
      }
      HungRun(t, ls[1..]);
    }
  }

  lemma PanicStops(s: Live, l: LiveLabel)
    requires s.bsys.panicked
    ensures LiveStep(s, l) == s
  {
  }

  /** With a subscription made after the last Publish began, the stream never ends by itself:
      whatever happens, short of the client going away, no terminal frame is written. */
  lemma LateSubscriberHangs(s: Live, ls: seq<LiveLabel>)
    requires LiveInv(s) && Hung(s) && StoresWork(ls) && Turn(Cancel) !in ls
    ensures LiveRun(s, ls).h.pc.Waiting? && forall f | f in LiveRun(s, ls).h.Frames() :: !f.Terminal?
  {
    hide EngineInv, LoopFrames, LiveRun;
    HungRun(s, ls);
    LiveRunKeeps(s, ls);
    GoingWritesNoTerminal(LiveRun(s, ls).h.wakes);
  }

  /** And it does happen: the deploy was still going when its status was read, and everything
      was published before the handler subscribed. */
  lemma SubscribingAfterTheEndHangs(s: Live)
    requires LiveInv(s) && s.h.pc.Subscribing? && s.run.Finished() && !s.Publishing() && !s.bsys.panicked
    ensures Hung(LiveStep(s, Look))
  {
    hide BInv, Tracks, Synced, OwnEvents;
    SubscribeOpens(s.bsys, s.Id());
    BusFrame(s.bsys, BLabel.Subscribe(s.Id()), s.Id());
  }

  /** The engine next to a broadcaster that nobody subscribes to. */
  predicate Unheard(s: Live)
  {
    s.bsys.bus.subs == map[] && s.bsys.pubs == map[] && !s.bsys.panicked
  }

  lemma PublishUnheard(s: Live)
    requires Unheard(s) && s.pending.Some? && s.Id() in s.w.deploys
    ensures var t := LiveStep(s, Publish);
            Unheard(t) && t.pending.None? && t.run == s.run && t.w == s.w && t.h == s.h
  {
  }

  lemma EngineUnheard(s: Live, c: Choice)
    requires Unheard(s) && s.pending.None? && !s.run.Finished() && s.Id() in s.w.deploys
    ensures var t := LiveStep(s, Engine(c));
            Unheard(t) && t.h == s.h && t.run == StepRun(s.external, s.run, s.w, c)
  {
    hide StepRun, StepWorld, RowAfter;
  }

  /** While nobody listens the engine takes its run to the end. */
  lemma {:induction false} RunsUnheard(s: Live, c: Choice) returns (ls: seq<LiveLabel>)
    requires LiveInv(s) && Unheard(s) && s.pending.None? && c.stored
    ensures StoresWork(ls) && Turn(Cancel) !in ls
    ensures var t := LiveRun(s, ls); LiveInv(t) && Unheard(t) && t.pending.None? && t.run.Finished() && t.h == s.h
    decreases Rank(s.run.pc), |s.run.todo|
  {
    hide LiveInv, LiveStep, StepRun, LiveRun, Unheard;
    if s.run.Finished() {
      ls := [];
      LiveRunDone(s);
    } else {
      LiveIdIsRow(s);
      var stepped := LiveStep(s, Engine(c));
      EngineUnheard(s, c);
      LiveStepKeeps(s, Engine(c));
      StepRanks(s.external, s.run, s.w, c);
      LiveIdIsRow(stepped);
      if stepped.pending.Some? {
        var published := LiveStep(stepped, Publish);
        PublishUnheard(stepped);
        LiveStepKeeps(stepped, Publish);
        var rest := RunsUnheard(published, c);
        Twice(s, Engine(c), Publish, rest);
        ls := [Engine(c), Publish] + rest;
      } else {
        var rest := RunsUnheard(stepped, c);
        LiveRunHead(s, Engine(c), rest);
        ls := [Engine(c)] + rest;
      }
    }
  }

  lemma LiveIdIsRow(s: Live)
    requires LiveInv(s)
    ensures s.Id() in s.w.deploys
  {
  }

  lemma LooksTwice(s: Live)
    requires JustCreated(s)
    ensures var t := LiveStep(LiveStep(s, Look), Look);
            t.h.pc.Subscribing? && Unheard(t) && t.pending.None? && t.run == s.run
  {
  }

  /** From the start: a client that opens the stream of a deploy that has just been created,
      reads and lists at once, and subscribes when everything is over, hangs. */
  lemma HangsFromTheStart(s: Live, c: Choice) returns (ls: seq<LiveLabel>)
    requires JustCreated(s) && c.stored
    ensures StoresWork(ls) && Turn(Cancel) !in ls && LiveInv(s) && Hung(LiveRun(s, ls))
  {
    hide LiveInv, LiveStep, LiveRun, JustCreated, Unheard;
    JustCreatedIsLive(s);
    LooksTwice(s);
    var listed := LiveStep(LiveStep(s, Look), Look);
    LiveStepKeeps(s, Look);
    LiveStepKeeps(LiveStep(s, Look), Look);
    var middle := RunsUnheard(listed, c);
    var over := LiveRun(listed, middle);
    assert !over.Publishing() && !over.bsys.panicked by { UnheardIsQuiet(over); }
    SubscribingAfterTheEndHangs(over);
    ls := [Look, Look] + (middle + [Look]);
    Twice(s, Look, Look, middle + [Look]);
    LiveRunAppend(listed, middle, [Look]);
    assert [Look] == [Look] + [];
    LiveRunHead(over, Look, []);
    LiveRunDone(LiveStep(over, Look));
  }

  lemma UnheardIsQuiet(s: Live)
    requires Unheard(s) && s.pending.None?
    ensures !s.Publishing() && !s.bsys.panicked
  {
  }

  lemma {:induction false} LiveRunAppend(s: Live, a: seq<LiveLabel>, b: seq<LiveLabel>)
    ensures LiveRun(s, a + b) == LiveRun(LiveRun(s, a), b)
    decreases |a|
  {
    hide LiveStep;
    if a == [] {
      assert a + b == b;
    } else {
      assert (a + b)[0] == a[0] && (a + b)[1..] == a[1..] + b;
      LiveRunAppend(LiveStep(s, a[0]), a[1..], b);
    }
  }

  // What the client has seen.

  /** The frames of a handler in its loop carry what it listed and what it relayed. */
  lemma FramesShow(s: Live)
    requires LiveInv(s) && s.h.Attached()
    ensures EventsIn(s.h.Frames()) == s.h.listed + Relayed(s.h.wakes)
  {
    hide EngineInv, Transcript, EventsIn, Relayed;
    var wakes := s.h.wakes;
    if s.h.pc.Leaving? {
      TranscriptShows(s.h.first, s.h.listed, wakes, |wakes| - 1) by { WakesLast(wakes[..|wakes| - 1], wakes); }
      assert wakes[..|wakes|] == wakes;
    } else {
      TranscriptShows(s.h.first, s.h.listed, wakes, |wakes|) by { WakesLast(wakes, wakes); }
    }
  }

  lemma WakesLast(going: seq<Wake>, wakes: seq<Wake>)
    requires Going(going) && going <= wakes && (|going| < |wakes| ==> Ends(wakes[|going|]))
    ensures LastsUntil(wakes, |going|)
  {
    forall i | 0 <= i < |going| ensures GoesOn(wakes[i]) {
      assert wakes[i] in going;
    }
  }

  /** What the client of an attached handler has been shown, against the stored events: two
      stretches of the same sequence. Each event up to the last one relayed was shown exactly
      once if and only if the subscription began where the backfill ended; before that, one
      event is shown twice, and after it, those in between are lost. */
  lemma ShownOnceExactly(s: Live)
    requires LiveInv(s) && s.h.Attached()
    ensures s.h.id in s.bsys.bus.chans
    ensures var shown := EventsIn(s.h.Frames());
            var i, j := |s.h.listed|, s.bsys.bus.chans[s.h.id].start;
      && i <= |shown| && i <= |s.Stored()| && i <= j + 1 && j + |shown| - i <= |s.Stored()|
      && shown == s.Stored()[..i] + s.Stored()[j..j + |shown| - i]
      && (shown == s.Stored()[..j + |shown| - i] <==> i == j)
  {
    hide LiveInv, BInv, Relayed, EventsIn, Transcript;
    AttachedFacts(s);
    FramesShow(s);
    var c, relayed := s.bsys.bus.chans[s.h.id], Relayed(s.h.wakes);
    TakenIsPublished(s.bsys, s.h.id);
    RelayedIsTaken(c, relayed, s.h.pc, s.Log());
    TwoStretches(s.Stored(), s.Log(), s.h.listed, c.start, relayed);
  }

  lemma AttachedFacts(s: Live)
    requires LiveInv(s) && s.h.Attached()
    ensures s.h.id in s.bsys.bus.chans && BInv(s.bsys) && s.Log() <= s.Stored()
    ensures var h, c := s.h, s.bsys.bus.chans[s.h.id];
      && c.deploy == s.Id() && h.listed <= s.Stored() && |h.listed| <= c.start + 1
      && c.taken == Relayed(h.wakes) + (if h.pc.Checking? then [h.pc.e] else [])
  {
    hide RunSide, BInv, Going, Stopped, Relayed;
  }

  lemma RelayedIsTaken(c: Chan, relayed: seq<Event>, pc: HandlerPc, log: seq<Event>)
    requires c.taken == relayed + (if pc.Checking? then [pc.e] else [])
    requires c.start <= |log| && c.Delivered() <= log[c.start..]
    ensures relayed <= log[c.start..]
  {
    assert relayed <= c.taken <= c.Delivered();
  }

  lemma TwoStretches(stored: seq<Event>, log: seq<Event>, listed: seq<Event>, j: nat, part: seq<Event>)
    requires log <= stored && j <= |log| && part <= log[j..] && listed <= stored
    ensures j + |part| <= |stored| && part == stored[j..j + |part|] && listed == stored[..|listed|]
    ensures listed + part == stored[..j + |part|] <==> |listed| == j
  {
    assert log[j..] <= stored[j..];
    if |listed| == j {
      assert listed + part == stored[..j + |part|];
    } else {
      assert |listed + part| != |stored[..j + |part|]|;
    }
  }

  lemma LiveRunHead(s: Live, l: LiveLabel, ls: seq<LiveLabel>)
    ensures LiveRun(s, [l] + ls) == LiveRun(LiveStep(s, l), ls)
  {
    assert ([l] + ls)[1..] == ls;
  }

  lemma Twice(s: Live, a: LiveLabel, b: LiveLabel, ls: seq<LiveLabel>)
    ensures LiveRun(s, [a, b] + ls) == LiveRun(LiveStep(LiveStep(s, a), b), ls)
  {
    assert [a, b] + ls == [a] + ([b] + ls);
    LiveRunHead(s, a, [b] + ls);
    LiveRunHead(LiveStep(s, a), b, ls);
  }

  /** A deploy that has just been queued and is about to emit its first event. */
  predicate JustQueued(s: Live)
  {
    JustCreated(s) && s.run == QueuedRun(s.run.app, s.run.d)
  }

  /** The first event is stored and published between backfill and subscription: it is lost. */
  lemma EventLostBeforeSubscribing(s: Live, c: Choice)
    requires JustQueued(s) && c.stored
    ensures var t := LiveRun(s, [Look, Look] + ([Engine(c), Publish] + [Look]));
      && t.h.pc.Waiting? && t.h.id in t.bsys.bus.chans && EventsIn(t.h.Frames()) == []
      && t.bsys.bus.chans[t.h.id].start == 1 && t.Stored() == [Event(s.Id(), Info, Queue)]
  {
    hide LiveRun, Transcript, EventsIn, IsTerminal;
    Twice(s, Look, Look, [Engine(c), Publish] + [Look]);
    var s2 := LiveStep(LiveStep(s, Look), Look);
    assert s2.h.pc.Subscribing? && s2.h.listed == [];
    Twice(s2, Engine(c), Publish, [Look]);
    var s3 := LiveStep(s2, Engine(c));
    FirstEvent(s2, c);
    var s4 := LiveStep(s3, Publish);
    assert s4.Log() == [Event(s.Id(), Info, Queue)];
    assert [Look] == [Look] + [];
    LiveRunHead(s4, Look, []);
    LiveRunDone(LiveStep(s4, Look));
    NothingShown(s2.h.first);
  }

  lemma LiveRunDone(s: Live)
    ensures LiveRun(s, []) == s
  {
  }

  lemma FirstEvent(s: Live, c: Choice)
    requires s.run == QueuedRun(s.run.app, s.run.d) && c.stored && s.Id() in s.w.deploys && s.Stored() == []
    requires !s.Publishing() && !s.bsys.panicked
    ensures var t := LiveStep(s, Engine(c));
      && t.pending == Some(Event(s.Id(), Info, Queue)) && t.Stored() == [Event(s.Id(), Info, Queue)]
      && t.h == s.h && t.bsys == s.bsys && t.Id() == s.Id() && t.w.deploys == s.w.deploys
  {
    EventsOfAppend(s.w.events, [Event(s.Id(), Info, Queue)], s.Id());
  }

  /** The handler has listed the first event and subscribed; the event is still to be published. */
  predicate Between(s: Live, first: Status, e: Event)
  {
    && s.h == Handler(Waiting, first, [e], 1, []) && s.pending == Some(e) && s.Stored() == [e] && e.deploy == s.Id()
    && s.Id() in s.w.deploys && !IsTerminal(s.w.deploys[s.Id()].status)
    && !s.bsys.panicked && s.bsys.pubs == map[] && s.bsys.bus.subs == map[s.Id() := {1}]
    && s.bsys.bus.chans == map[1 := Chan(s.Id(), 0, [], [], true)]
  }

  lemma ListedBeforePublish(s: Live, c: Choice)
    requires JustQueued(s) && c.stored
    ensures var t := LiveStep(LiveStep(LiveStep(LiveStep(s, Look), Engine(c)), Look), Look);
            t.Id() == s.Id() && Between(t, Pending, Event(s.Id(), Info, Queue))
  {
    hide EngineStep;
    var s1 := LiveStep(s, Look);
    FirstEvent(s1, c);
    var s3 := LiveStep(LiveStep(s1, Engine(c)), Look);
    assert s3.h.pc.Subscribing? && s3.h.listed == [Event(s.Id(), Info, Queue)] && s3.bsys == FRESH;
    var t := LiveStep(s3, Look);
    assert SubsOf(FRESH.bus, s.Id()) + {1} == {1};
  }

  lemma RelayedAfterAll(s: Live, e: Event)
    requires Between(s, Pending, e)
    ensures var id := s.Id();
            var sent := LiveStep(LiveStep(s, Publish), LiveLabel.Bus(Send(id, 1)));
            var t := LiveStep(LiveStep(LiveStep(sent, LiveLabel.Bus(Finish(id))), Turn(Channel)), Check(true));
            t.h.pc.Waiting? && t.Stored() == [e] && EventsIn(t.h.Frames()) == [e] + [e]
  {
    hide BStep, EventsOf, EventsIn, Transcript, Relayed;
    var id := s.Id();
    Delivers(s.bsys, id, e);
    var sent := LiveStep(LiveStep(s, Publish), LiveLabel.Bus(Send(id, 1)));
    var queued := LiveStep(sent, LiveLabel.Bus(Finish(id)));
    ReceiveNeverPanics(queued.bsys, 1);
    var held := LiveStep(queued, Turn(Channel));
    assert held.h.pc == Checking(e);
    OneRelayed(e, held.w.deploys[id].status);
  }

  lemma OneRelayed(e: Event, status: Status)
    requires !IsTerminal(status)
    ensures EventsIn(Transcript(Pending, [e], [] + [Wake.Delivered(e, Some(status))])) == [e] + [e]
  {
    hide Transcript, EventsIn;
    var wakes := [] + [Wake.Delivered(e, Some(status))];
    assert wakes[1..] == [] && Relayed(wakes) == [e] + [];
    TranscriptShows(Pending, [e], wakes, 1);
  }

  lemma NothingShown(first: Status)
    ensures EventsIn(Transcript(first, [], [])) == []
  {
    hide Transcript, EventsIn;
    TranscriptShows(first, [], [], 0);
  }

  /** It is stored before the backfill and published after the subscription: it is shown twice. */
  lemma EventShownTwice(s: Live, c: Choice)
    requires JustQueued(s) && c.stored
    ensures var id := s.Id();
            var t := LiveRun(s, [Look, Engine(c)] + ([Look, Look] + ([Publish, LiveLabel.Bus(Send(id, 1))]
                                  + ([LiveLabel.Bus(Finish(id)), Turn(Channel)] + [Check(true)]))));
            t.h.pc.Waiting? && t.Stored() == [Event(id, Info, Queue)] && EventsIn(t.h.Frames()) == t.Stored() + t.Stored()
  {
    hide LiveRun, LiveStep, Between, JustQueued, Transcript, EventsIn;
    var id, e := s.Id(), Event(s.Id(), Info, Queue);
    var l7 := [LiveLabel.Bus(Finish(id)), Turn(Channel)] + [Check(true)];
    var l5 := [Publish, LiveLabel.Bus(Send(id, 1))] + l7;
    Twice(s, Look, Engine(c), [Look, Look] + l5);
    var s2 := LiveStep(LiveStep(s, Look), Engine(c));
    Twice(s2, Look, Look, l5);
    var s4 := LiveStep(LiveStep(s2, Look), Look);
    ListedBeforePublish(s, c);
    RelayedAfterAll(s4, e);
    Twice(s4, Publish, LiveLabel.Bus(Send(id, 1)), l7);
    var s6 := LiveStep(LiveStep(s4, Publish), LiveLabel.Bus(Send(id, 1)));
    Twice(s6, LiveLabel.Bus(Finish(id)), Turn(Channel), [Check(true)]);
    var s8 := LiveStep(LiveStep(s6, LiveLabel.Bus(Finish(id))), Turn(Channel));
    assert [Check(true)] == [Check(true)] + [];
    LiveRunHead(s8, Check(true), []);
    LiveRunDone(LiveStep(s8, Check(true)));
  }

  /** One subscriber with an empty queue gets the event. */
  lemma Delivers(s: BSys, d: nat, e: Event)
    requires !s.panicked && s.pubs == map[] && e.deploy == d && s.bus.subs == map[d := {1}]
    requires s.bus.chans == map[1 := Chan(d, 0, [], [], true)]
    ensures var sent := BStep(BStep(s, Begin(e)), Send(d, 1)); var t := BStep(sent, Finish(d));
      && !BStep(s, Begin(e)).panicked && !sent.panicked && !t.panicked && 1 in sent.bus.chans && 1 in t.bus.chans && t.bus.chans[1].buf == [e]
  {
    assert SubsOf(s.bus, d) == {1};
  }
}
