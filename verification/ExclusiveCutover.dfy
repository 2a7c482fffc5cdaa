/** The dual of zero downtime: port-mode apps and domain-mode apps behind an external proxy
    never have two containers up, as long as their deploys do not overlap. */
module ExclusiveCutover {
  import opened Domain
  import opened Names
  import opened DeployMachine
  import opened DeployStatus
  import opened Cutover
  import opened Serial

  /** Whose containers are counted: an app's staging names, and its default name unless that
      is a staging name of another app. */
  datatype Owner = Owner(app: string, default: bool)
  {
    ghost predicate Has(name: string)
    {
      (default && name == DefaultName(app)) || exists i: nat :: name == StagingName(app, i)
    }
  }

  ghost function OwnerOf(apps: map<nat, App>, x: nat): Owner
    requires x in apps
  {
    Owner(apps[x].name, Untaken(apps[x].name, apps))
  }

  lemma OwnerNamed(apps: map<nat, App>, x: nat)
    requires x in apps
    ensures OwnerOf(apps, x).app == apps[x].name
  {
  }

  ghost predicate RunningOnly(w: World, o: Owner, name: Option<string>)
  {
    forall n | n in w.running && o.Has(n) :: name == Some(n)
  }

  /** The only container of the app that may be up while the run is at this operation. */
  function Holder(r: Run): Option<string>
  {
    match r.pc
    case StartStaging => None
    case AwaitHealth => Some(r.Staging())
    case CleanupUnhealthy => Some(r.Staging())
    case StoreSuccess => Some(r.Staging())
    case UpdateApp => Some(r.Staging())
    case _ => Some(r.Live())
  }

  /** What can go wrong in a step of the app's run: a stop that leaves the container up, a
      failed start that leaves one up, a lost write of the app row. */
  predicate StopFails(r: Run, c: Choice) { r.todo == [] && Stops(r.pc) && c.stop.NotStopped? }

  predicate StartLeaks(r: Run, c: Choice) { r.todo == [] && r.pc.StartStaging? && c.start == StartFailed(true) }

  predicate RowLost(r: Run, c: Choice) { r.todo == [] && r.pc.UpdateApp? && !c.stored }

  /** None of it happens. All other writes, events included, may be lost. */
  predicate Reliable(r: Run, c: Choice)
  {
    !StopFails(r, c) && !StartLeaks(r, c) && !RowLost(r, c)
  }

  ghost predicate ExInv(s: Sys, x: nat)
  {
    && One(s, x) && Exclusive(s.external, s.w.apps[x])
    && (forall t | t in s.runs && s.runs[t].app.id == x && !s.runs[t].pc.Done? ::
          !s.runs[t].pc.CleanupUnrouted? && RunningOnly(s.w, OwnerOf(s.w.apps, x), Holder(s.runs[t])))
    && ((forall t | t in s.runs && s.runs[t].app.id == x :: s.runs[t].pc.Done?) ==>
          RunningOnly(s.w, OwnerOf(s.w.apps, x), Some(LiveName(s.w.apps[x]))))
  }

  /** A run of an exclusive app, with the slot it may fill. */
  ghost predicate HoldsSlot(external: bool, r: Run, w: World, o: Owner)
  {
    && Exclusive(external, r.app) && !r.pc.Done? && !r.pc.CleanupUnrouted? && !r.pc.SwitchRoute? && !r.pc.StopPrevious?
    && r.app.id in w.apps && w.apps[r.app.id] == r.app
    && RunningOnly(w, o, Holder(r)) && o.app == r.app.name
  }

  lemma StopLeavesNone(w: World, o: Owner, name: string, how: StopOutcome)
    requires RunningOnly(w, o, Some(name)) && !how.NotStopped?
    ensures RunningOnly(StopContainer(w, name, how), o, None)
  {
  }

  lemma OwnStepEarly(external: bool, r: Run, w: World, c: Choice, o: Owner)
    requires HoldsSlot(external, r, w, o) && (r.todo != [] || Building(r.pc) || Preparing(r.pc))
    ensures var n, w' := StepRun(external, r, w, c), StepWorld(r, w, c);
            !n.pc.CleanupUnrouted? && !n.pc.Done? && n.app == r.app && RunningOnly(w', o, Holder(n))
  {
    hide StagingName, DefaultName, AfterBuilding, AfterCutover;
  }

  lemma OwnStepCutover(external: bool, r: Run, w: World, c: Choice, o: Owner)
    requires HoldsSlot(external, r, w, o) && Reliable(r, c) && r.todo == [] && CuttingOver(r.pc)
    ensures var n, w' := StepRun(external, r, w, c), StepWorld(r, w, c);
            !n.pc.CleanupUnrouted? && !n.pc.Done? && n.app == r.app && RunningOnly(w', o, Holder(n))
  {
    hide StagingName, DefaultName, AfterBuilding, AfterPreparing;
    if r.pc.StopFirst? {
      StopLeavesNone(w, o, r.Live(), c.stop);
    }
  }

  lemma OwnStepFinal(external: bool, r: Run, w: World, c: Choice, o: Owner)
    requires HoldsSlot(external, r, w, o) && Reliable(r, c)
    requires r.todo == [] && !Building(r.pc) && !Preparing(r.pc) && !CuttingOver(r.pc)
    ensures var n, w' := StepRun(external, r, w, c), StepWorld(r, w, c);
      && !n.pc.CleanupUnrouted?
      && (!n.pc.Done? ==> n.app == r.app && RunningOnly(w', o, Holder(n)))
      && (n.pc.Done? ==> RunningOnly(w', o, Some(LiveName(w'.apps[r.app.id]))))
  {
    assert r.Staging() != "";
    hide StagingName, DefaultName, AfterBuilding, AfterPreparing, AfterCutover;
    if r.pc.CleanupUnhealthy? {
      StopLeavesNone(w, o, r.Staging(), c.stop);
    }
  }

  /** A step of the app's own run hands the single slot on. */
  lemma OwnStep(external: bool, r: Run, w: World, c: Choice, o: Owner)
    requires HoldsSlot(external, r, w, o) && Reliable(r, c)
    ensures var n, w' := StepRun(external, r, w, c), StepWorld(r, w, c);
      && !n.pc.CleanupUnrouted?
      && (!n.pc.Done? ==> n.app == r.app && RunningOnly(w', o, Holder(n)))
      && (n.pc.Done? ==> RunningOnly(w', o, Some(LiveName(w'.apps[r.app.id]))))
  {
    hide StepRun, StepWorld, RunningOnly, LiveName, Holder, HoldsSlot;
    if r.todo != [] || Building(r.pc) || Preparing(r.pc) {
      OwnStepEarly(external, r, w, c, o);
    } else if CuttingOver(r.pc) {
      OwnStepCutover(external, r, w, c, o);
    } else {
      OwnStepFinal(external, r, w, c, o);
    }
  }

  lemma OwnerKept(w: World, w': World, x: nat)
    requires SameApps(w, w') && x in w.apps
    ensures OwnerOf(w'.apps, x) == OwnerOf(w.apps, x)
  {
    hide Untaken;
    UntakenKept(w.apps[x].name, w, w');
  }

  /** A step of another app's run touches none of the app's containers. */
  lemma OtherStep(s: Sys, t: nat, c: Choice, x: nat, name: Option<string>)
    requires Inv(s) && t in s.runs && x in s.w.apps && s.runs[t].app.id != x
    requires RunningOnly(s.w, OwnerOf(s.w.apps, x), name)
    ensures RunningOnly(StepWorld(s.runs[t], s.w, c), OwnerOf(s.w.apps, x), name)
  {
    hide StepWorld, StagingName, DefaultName, Inv, Untaken;
    var r := s.runs[t];
    InvAt(s, t);
    StagingNotOwn(s.w.apps, x, r.app.id, t);
    StepStarts(r, s.w, c);
  }

  lemma StepStarts(r: Run, w: World, c: Choice)
    ensures StepWorld(r, w, c).running <= w.running + {r.Staging()}
  {
    hide StagingName, DefaultName;
  }

  lemma StagingNotOwn(apps: map<nat, App>, x: nat, y: nat, id: nat)
    requires UniqueNames(apps) && x in apps && y in apps && x != y
    ensures !OwnerOf(apps, x).Has(StagingName(apps[y].name, id))
  {
    hide StagingName, DefaultName;
    var name := StagingName(apps[y].name, id);
    if exists i: nat :: name == StagingName(apps[x].name, i) {
      var i: nat :| name == StagingName(apps[x].name, i);
      StagingNameInjective(apps[y].name, id, apps[x].name, i);
    }
  }

  lemma AdvanceKeepsExOwn(s: Sys, t: nat, c: Choice)
    requires Inv(s) && t in s.runs && !s.runs[t].Finished() && ExInv(s, s.runs[t].app.id) && Reliable(s.runs[t], c)
    ensures ExInv(Apply(s, Advance(t, c)), s.runs[t].app.id)
  {
    hide StagingName, DefaultName, StepRun, StepWorld, Inv, RunningOnly, Holder, LiveName, GoodWorld, NotYetLive, OwnerOf;
    var r, x := s.runs[t], s.runs[t].app.id;
    var s' := Apply(s, Advance(t, c));
    InvAt(s, t);
    OneKeptAdvance(s, t, c, x);
    AdvanceSameApps(s, t, c);
    OwnerKept(s.w, s'.w, x);
    assert forall u | u in s'.runs && s'.runs[u].app.id == x && !s'.runs[u].pc.Done? :: u == t;
    if r.pc.Done? {
      DoneStep(s.external, r, s.w, c);
    } else {
      OwnerNamed(s.w.apps, x);
      OwnStep(s.external, r, s.w, c, OwnerOf(s.w.apps, x));
      assert s'.runs[t].app.id == x && OwnerOf(s'.w.apps, x) == OwnerOf(s.w.apps, x);
    }
  }

  lemma DoneStep(external: bool, r: Run, w: World, c: Choice)
    requires r.pc.Done?
    ensures StepWorld(r, w, c).apps == w.apps
    ensures forall o, name | RunningOnly(w, o, name) :: RunningOnly(StepWorld(r, w, c), o, name)
  {
    hide StagingName, DefaultName;
  }

  lemma AdvanceKeepsExOther(s: Sys, t: nat, c: Choice, x: nat)
    requires Inv(s) && ExInv(s, x) && t in s.runs && !s.runs[t].Finished() && s.runs[t].app.id != x
    ensures ExInv(Apply(s, Advance(t, c)), x)
  {
    hide StagingName, DefaultName, StepRun, StepWorld, Inv, RunningOnly, Holder, LiveName, GoodWorld, NotYetLive, OwnerOf;
    var s' := Apply(s, Advance(t, c));
    OneKeptAdvance(s, t, c, x);
    AdvanceSameApps(s, t, c);
    OwnerKept(s.w, s'.w, x);
    forall name | RunningOnly(s.w, OwnerOf(s.w.apps, x), name) ensures RunningOnly(s'.w, OwnerOf(s.w.apps, x), name) {
      OtherStep(s, t, c, x, name);
    }
    assert forall u | u in s.runs && s.runs[u].app.id == x :: u in s'.runs && s'.runs[u] == s.runs[u];
  }

  /** One label of a schedule in which app x deploys one run at a time on working equipment. */
  ghost predicate Disciplined(s: Sys, l: Label, x: nat)
  {
    && Orderly(s, l, x)
    && (l.Advance? && l.id in s.runs && s.runs[l.id].app.id == x ==> Reliable(s.runs[l.id], l.c))
  }

  ghost predicate AllDisciplined(s: Sys, ls: seq<Label>, x: nat)
    decreases |ls|
  {
    ls == [] || (Disciplined(s, ls[0], x) && AllDisciplined(Apply(s, ls[0]), ls[1..], x))
  }

  /** At most one container of the app is up. */
  ghost predicate AtMostOneUp(w: World, x: nat)
    requires x in w.apps
  {
    forall m, n | m in w.running && n in w.running && OwnerOf(w.apps, x).Has(m) && OwnerOf(w.apps, x).Has(n) :: m == n
  }

  lemma ApplyKeepsEx(s: Sys, l: Label, x: nat)
    requires Inv(s) && ExInv(s, x) && Disciplined(s, l, x)
    ensures ExInv(Apply(s, l), x)
  {
    hide StagingName, DefaultName, StepRun, StepWorld, RunningOnly, LiveName;
    match l
    case Load(req, app) => OneKeptLoad(s, req, app, x);
    case Launch(_, _, _, _, _, _) => LaunchKeepsEx(s, l, x);
    case Advance(t, c) =>
      if t in s.runs && !s.runs[t].Finished() {
        if s.runs[t].app.id == x { AdvanceKeepsExOwn(s, t, c); } else { AdvanceKeepsExOther(s, t, c, x); }
      }
  }

  lemma LaunchKeepsEx(s: Sys, l: Label, x: nat)
    requires Inv(s) && ExInv(s, x) && l.Launch?
    ensures ExInv(Apply(s, l), x)
  {
    hide StagingName, DefaultName, UniqueNames, OwnName, NotYetLive, Inv, GoodRun, GoodWorld, LiveName;
    FreshId(s);
    OneKeptLaunch(s, l, x);
    if l.req in s.reqs {
      var s' := Apply(s, l);
      assert forall u | u in s.runs :: u in s'.runs && s'.runs[u] == s.runs[u];
      LaunchedHolder(s.reqs[l.req], s'.runs[s.w.nextId].d);
    }
  }

  lemma FreshId(s: Sys)
    requires Inv(s)
    ensures s.w.nextId !in s.runs
  {
    if s.w.nextId in s.runs {
      InvAt(s, s.w.nextId);
    }
  }

  lemma LaunchedHolder(app: App, d: Deploy)
    ensures Holder(StartRun(app, d)) == Some(LiveName(app))
  {
    hide StagingName, DefaultName;
  }

  /** The exclusive cutover is safe: no reachable state of any disciplined schedule, with the
      other apps' runs interleaved in any way, has two containers of the app up. */
  lemma {:induction false} NeverTwoUp(s: Sys, ls: seq<Label>, x: nat)
    requires Inv(s) && ExInv(s, x) && AllDisciplined(s, ls, x)
    ensures ExInv(RunAll(s, ls), x) && AtMostOneUp(RunAll(s, ls).w, x)
    decreases |ls|
  {
    hide StagingName, DefaultName, StepRun, StepWorld, Inv, One;
    if ls != [] {
      ApplyKeepsInv(s, ls[0]);
      ApplyKeepsEx(s, ls[0], x);
      NeverTwoUp(Apply(s, ls[0]), ls[1..], x);
    }
  }

  lemma IdleIsExclusive(external: bool, w: World, x: nat)
    requires GoodWorld(w) && x in w.apps && Exclusive(external, w.apps[x])
    requires RunningOnly(w, OwnerOf(w.apps, x), Some(LiveName(w.apps[x])))
    ensures ExInv(Sys(external, w, map[], map[]), x)
  {
  }

  /** Whether this label starts a container of the app while another one of it is up. */
  ghost predicate StartsSecond(s: Sys, l: Label, x: nat)
    requires x in s.w.apps
  {
    && Operates(s, l) && s.runs[l.id].pc.StartStaging? && s.runs[l.id].app.id == x
    && (l.c.start == Started(true) || l.c.start == StartFailed(true))
    && exists m :: m in s.w.running && OwnerOf(s.w.apps, x).Has(m) && m != s.runs[l.id].Staging()
  }

  /** Exactly which step breaks exclusivity, overlapping runs and failing equipment included:
      StartContainerWithConfig for an app one of whose containers is still up. */
  lemma SecondContainerExactly(s: Sys, l: Label, x: nat)
    requires Inv(s) && x in s.w.apps && AtMostOneUp(s.w, x)
    ensures x in Apply(s, l).w.apps
    ensures !AtMostOneUp(Apply(s, l).w, x) <==> StartsSecond(s, l, x)
  {
    hide StagingName, DefaultName, Inv, StepRun, StepWorld, UniqueNames, Untaken;
    ApplySameApps(s, l);
    if l.Advance? && l.id in s.runs && !s.runs[l.id].Finished() {
      var r := s.runs[l.id];
      InvAt(s, l.id);
      AdvanceSameApps(s, l.id, l.c);
      OwnerKept(s.w, Apply(s, l).w, x);
      StepStartsExactly(r, s.w, l.c);
      if r.app.id != x {
        StagingNotOwn(s.w.apps, x, r.app.id, l.id);
      } else {
        OwnStaging(OwnerOf(s.w.apps, x), l.id);
      }
    }
  }

  lemma OwnStaging(o: Owner, id: nat)
    ensures o.Has(StagingName(o.app, id))
  {
  }

  lemma StepStartsExactly(r: Run, w: World, c: Choice)
    ensures r.pc.StartStaging? && r.todo == [] && (c.start == Started(true) || c.start == StartFailed(true)) ==>
              StepWorld(r, w, c).running == w.running + {r.Staging()}
    ensures !(r.pc.StartStaging? && r.todo == [] && (c.start == Started(true) || c.start == StartFailed(true))) ==>
              StepWorld(r, w, c).running <= w.running
  {
    hide StagingName, DefaultName;
  }

  /** One run of a disciplined app, faults allowed: it comes to its stop in world w with only
      the live container up, and to its start in a world v that has the same containers of the
      app as the stop left. The start makes a second container if and only if the live one was
      up, the stop left it up, and the start, successful or not, leaves one up. */
  lemma StartMakesSecondExactly(r: Run, w: World, c: Choice, v: World, e: Choice, o: Owner)
    requires r.pc.StopFirst? && r.todo == [] && o.app == r.app.name && RunningOnly(w, o, Some(r.Live()))
    requires r.Live() != r.Staging()
    requires forall n | o.Has(n) :: n in v.running <==> n in StepWorld(r, w, c).running
    ensures (exists m, n :: var u := StepWorld(r.(pc := StartStaging), v, e).running;
                            m in u && n in u && o.Has(m) && o.Has(n) && m != n)
       <==> c.stop.NotStopped? && r.Live() in w.running && o.Has(r.Live()) && (e.start == Started(true) || e.start == StartFailed(true))
  {
    var u := StepWorld(r.(pc := StartStaging), v, e).running;
    assert u == if e.start == Started(true) || e.start == StartFailed(true) then v.running + {r.Staging()} else v.running;
    assert StepWorld(r, w, c).running == if c.stop.NotStopped? then w.running else w.running - {r.Live()};
    OwnStaging(o, r.d.id);
    hide StagingName, DefaultName, StepWorld;
    if c.stop.NotStopped? && r.Live() in w.running && o.Has(r.Live()) && (e.start == Started(true) || e.start == StartFailed(true)) {
      assert r.Live() in u && r.Staging() in u;
    }
  }
}
