/** Zero downtime: any number of deploys and rollbacks of any number of apps run at once and
    interleave step by step, with no admission check assumed, and the route of a domain-mode
    app under Talos's own proxy keeps naming a running container. App names are only unique:
    what happens when one app's default container name is another app's staging name is part
    of the results. */
module Cutover {
  import opened Domain
  import opened Text
  import opened Names
  import opened DeployMachine
  import opened DeployStatus

  /** reqs: the app rows that callers of Deploy and Rollback have read and not yet used;
      runs: the background runs by deploy id. */
  datatype Sys = Sys(external: bool, w: World, reqs: map<nat, App>, runs: map<nat, Run>)

  datatype Label =
    | Load(req: nat, app: nat)
    | Launch(req: nat, image: string, commit: string, branch: string, rollbackOf: Option<nat>, now: int)
    | Advance(id: nat, c: Choice)

  /** CreateDeploy assigns the next id; the row starts out pending. */
  function NewDeploy(w: World, app: nat, image: string, commit: string, branch: string,
                     rollbackOf: Option<nat>, now: int): Deploy
  {
    Deploy(w.nextId, app, image, commit, branch, Pending, "", Unknown, None, None,
           if rollbackOf.Some? then ByRollback else Requested, rollbackOf, now)
  }

  function CreateDeploy(w: World, d: Deploy): World
  {
    w.(deploys := w.deploys[d.id := d], nextId := w.nextId + 1)
  }

  function StartRun(app: App, d: Deploy): Run
  {
    if d.rollbackOf.Some? then RollbackRun(app, d) else QueuedRun(app, d)
  }

  function Apply(s: Sys, l: Label): Sys
  {
    match l
    case Load(req, app) =>
      if app in s.w.apps then s.(reqs := s.reqs[req := s.w.apps[app]]) else s
    case Launch(req, image, commit, branch, rollbackOf, now) =>
      if req in s.reqs then
        var d := NewDeploy(s.w, s.reqs[req].id, image, commit, branch, rollbackOf, now);
        s.(w := CreateDeploy(s.w, d), reqs := s.reqs - {req}, runs := s.runs[d.id := StartRun(s.reqs[req], d)])
      else s
    case Advance(id, c) =>
      if id in s.runs && !s.runs[id].Finished() then
        s.(w := StepWorld(s.runs[id], s.w, c), runs := s.runs[id := StepRun(s.external, s.runs[id], s.w, c)])
      else s
  }

  function RunAll(s: Sys, ls: seq<Label>): Sys
    decreases |ls|
  {
    if ls == [] then s else RunAll(Apply(s, ls[0]), ls[1..])
  }

  lemma {:induction false} RunAllAppend(s: Sys, a: seq<Label>, b: seq<Label>)
    ensures RunAll(s, a + b) == RunAll(RunAll(s, a), b)
    decreases |a|
  {
    hide Apply;
    if a == [] {
      assert a + b == b;
    } else {
      assert (a + b)[0] == a[0] && (a + b)[1..] == a[1..] + b;
      RunAllAppend(Apply(s, a[0]), a[1..], b);
    }
  }

  /** The app's route file names a running container. */
  predicate Serving(w: World, app: string)
  {
    app in w.routes && w.routes[app] in w.running
  }

  /** A container name that belongs to the app, from a deploy before the given id. */
  ghost predicate OwnName(app: string, name: string, bound: nat)
  {
    name == DefaultName(app) || exists i: nat :: i < bound && name == StagingName(app, i)
  }

  /** The UNIQUE constraint on the name column. */
  ghost predicate UniqueNames(apps: map<nat, App>)
  {
    forall a, b | a in apps && b in apps && a != b :: apps[a].name != apps[b].name
  }

  /** An app row, or a copy of one: the live container is unrecorded or the current deploy's. */
  ghost predicate Recorded(a: App, bound: nat)
  {
    && (a.current.Some? ==> a.current.value < bound)
    && (a.live != "" ==> a.current.Some? && a.live == StagingName(a.name, a.current.value))
  }

  ghost predicate Matches(a: App, apps: map<nat, App>)
  {
    a.id in apps && apps[a.id].name == a.name && apps[a.id].mode == a.mode
  }

  ghost predicate GoodApp(a: App, w: World)
  {
    Matches(a, w.apps) && Recorded(a, w.nextId)
  }

  function AppNames(apps: map<nat, App>): set<string>
  {
    set a | a in apps :: apps[a].name
  }

  /** Where the shared state starts: no deploy in flight. */
  ghost predicate GoodWorld(w: World)
  {
    && UniqueNames(w.apps)
    && (forall a | a in w.apps :: w.apps[a].id == a && GoodApp(w.apps[a], w))
    && (forall n | n in w.routes :: n in AppNames(w.apps) && OwnName(n, w.routes[n], w.nextId))
    && (forall id | id in w.deploys :: id < w.nextId)
  }

  datatype Phase = Staged | Switching | Stopping | Promoting | Over

  function PhaseOf(pc: Pc): Phase
  {
    match pc
    case SwitchRoute => Switching
    case StopPrevious => Stopping
    case StoreSuccess => Promoting
    case UpdateApp => Promoting
    case Done => Over
    case _ => Staged
  }

  /** What holds of one run against the shared state and every copy of an app row. */
  ghost predicate GoodRun(external: bool, id: nat, r: Run, w: World)
  {
    && r.d.id == id && id < w.nextId && GoodApp(r.app, w)
    && (PhaseOf(r.pc) in {Staged, Switching} ==>
          forall n | n in w.routes && w.routes[n] == r.Staging() :: w.routes[n] == DefaultName(n))
    && (r.pc.StopPrevious? && r.app.name in w.routes ==> w.routes[r.app.name] != r.Live())
    && (r.pc.StopFirst? ==> Exclusive(external, r.app))
    && (r.pc.StopPrevious? || r.pc.SwitchRoute? ==> !Exclusive(external, r.app))
  }

  /** No copy of an app row records a deploy that has not been promoted yet. */
  ghost predicate NotYetLive(a: App, runs: map<nat, Run>)
  {
    forall id | id in runs && !runs[id].pc.Done? :: a.current != Some(id)
  }

  ghost predicate Inv(s: Sys)
  {
    && GoodWorld(s.w)
    && (forall a | a in s.w.apps :: NotYetLive(s.w.apps[a], s.runs))
    && (forall q | q in s.reqs :: GoodApp(s.reqs[q], s.w) && NotYetLive(s.reqs[q], s.runs))
    && (forall id | id in s.runs :: GoodRun(s.external, id, s.runs[id], s.w) && NotYetLive(s.runs[id].app, s.runs))
  }

  /** No copy of an app row that names a recorded container, or is of the same app, names a
      container that has not been promoted yet. */
  lemma LiveNotStaged(s: Sys, a: App, t: nat)
    requires Inv(s) && t in s.runs && !s.runs[t].pc.Done?
    requires GoodApp(a, s.w) && NotYetLive(a, s.runs)
    requires a.live != "" || a.name == s.runs[t].app.name
    ensures LiveName(a) != s.runs[t].Staging()
  {
    var r := s.runs[t];
    assert GoodRun(s.external, t, r, s.w);
    if a.live == "" {
      DefaultIsNotStaged(a.name, t);
    } else if LiveName(a) == r.Staging() {
      StagingNameInjective(a.name, a.current.value, r.app.name, t);
    }
  }

  /** A run asks to stop the container that the route of a Talos-routed app names only when a
      default name is involved: the one of an unrecorded copy of another app, or the app's own. */
  lemma StopsRoutedByCollision(s: Sys, t: nat, app: nat)
    requires Inv(s) && t in s.runs && Stops(s.runs[t].pc)
    requires app in s.w.apps && !Exclusive(s.external, s.w.apps[app]) && s.w.apps[app].name in s.w.routes
    requires StopTarget(s.runs[t]) == s.w.routes[s.w.apps[app].name]
    ensures var r, name := s.runs[t], s.w.apps[app].name;
      && r.app.id != app
      && (s.w.routes[name] == DefaultName(name) || (r.app.live == "" && s.w.routes[name] == DefaultName(r.app.name)))
  {
    var r, name := s.runs[t], s.w.apps[app].name;
    assert GoodRun(s.external, t, r, s.w);
    if r.app.id == app {
      DefaultIsNotStaged(name, t);
    } else if s.w.routes[name] != DefaultName(name) && StopTarget(r) == r.Live() && r.app.live != "" {
      var i: nat :| i < s.w.nextId && s.w.routes[name] == StagingName(name, i);
      StagingNameInjective(name, i, r.app.name, r.app.current.value);
    }
  }

  /** How one step of a run changes the phase, the containers and the routes. */
  predicate PhasesFit(external: bool, r: Run, w: World, c: Choice, n: Run, w': World)
  {
    && (r.todo != [] ==> n.pc == r.pc && w'.running == w.running && w'.routes == w.routes)
    && (n.pc.StopFirst? && r.todo == [] ==> Exclusive(external, r.app))
    && (PhaseOf(n.pc).Switching? && r.todo == [] ==>
          r.pc.AwaitHealth? && r.Staging() in w.running && w' == w && !Exclusive(external, r.app))
    && (PhaseOf(n.pc).Stopping? && r.todo == [] ==> r.pc.SwitchRoute? && c.route.Routed? && r.Live() != r.Staging())
    && (PhaseOf(n.pc).Promoting? && r.todo == [] && !Exclusive(external, r.app) ==>
          PhaseOf(r.pc).Promoting? || r.pc.StopPrevious? || (r.pc.SwitchRoute? && c.route.Routed?))
    && (PhaseOf(n.pc).Staged? && r.todo == [] ==> PhaseOf(r.pc).Staged? || (r.pc.SwitchRoute? && !c.route.Routed?))
    && (r.pc.Done? ==> n.pc.Done?)
  }

  lemma StepPhases(external: bool, r: Run, w: World, c: Choice)
    requires r.pc.StopPrevious? || r.pc.SwitchRoute? ==> !Exclusive(external, r.app)
    ensures PhasesFit(external, r, w, c, StepRun(external, r, w, c), StepWorld(r, w, c))
  {
    hide PhasesFit, StepRun, StepWorld, StagingName, DefaultName;
    if r.todo == [] && CuttingOver(r.pc) {
      CutoverPhases(external, r, w, c);
    } else {
      OtherPhases(external, r, w, c);
    }
  }

  lemma CutoverPhases(external: bool, r: Run, w: World, c: Choice)
    requires r.pc.StopPrevious? || r.pc.SwitchRoute? ==> !Exclusive(external, r.app)
    requires r.todo == [] && CuttingOver(r.pc)
    ensures PhasesFit(external, r, w, c, StepRun(external, r, w, c), StepWorld(r, w, c))
  {
    hide StagingName, DefaultName, AfterBuilding, AfterPreparing;
  }

  lemma OtherPhases(external: bool, r: Run, w: World, c: Choice)
    requires !(r.todo == [] && CuttingOver(r.pc))
    ensures PhasesFit(external, r, w, c, StepRun(external, r, w, c), StepWorld(r, w, c))
  {
    hide StagingName, DefaultName, AfterBuilding, AfterCutover, Written;
  }

  lemma StepContainers(r: Run, w: World, c: Choice)
    ensures var w' := StepWorld(r, w, c);
      && (!(r.todo == [] && r.pc.SwitchRoute?) ==> w'.routes == w.routes)
      && (r.todo == [] && r.pc.SwitchRoute? ==>
            w'.running == w.running &&
            w'.routes == match c.route { case Routed => w.routes[r.app.name := r.Staging()]
                                         case RouteKept => w.routes case RouteTruncated => w.routes - {r.app.name} })
      && (r.todo == [] && Stops(r.pc) ==>
            w'.running == if c.stop.NotStopped? then w.running else w.running - {StopTarget(r)})
      && (!(r.todo == [] && Stops(r.pc)) ==> w.running <= w'.running)
  {
    hide StagingName, DefaultName;
  }

  lemma StepKeepsApp(external: bool, r: Run, w: World, c: Choice)
    requires !r.Finished() && GoodApp(r.app, w) && r.d.id < w.nextId
    ensures var r', w' := StepRun(external, r, w, c), StepWorld(r, w, c);
      && w'.nextId == w.nextId && w'.apps.Keys == w.apps.Keys
      && (forall a | a in w.apps :: w'.apps[a] == w.apps[a] || (a == r.app.id && w'.apps[a] == r'.app && r'.pc.Done?))
      && Recorded(r'.app, w.nextId) && (r'.app == r.app || (r'.app.current == Some(r.d.id) && r'.app.live == r.Staging() && r'.pc.Done?))
      && (r'.app.id, r'.app.name, r'.app.mode) == (r.app.id, r.app.name, r.app.mode) && r'.d.id == r.d.id
  {
    hide AfterBuilding, AfterPreparing, AfterCutover, StagingName, DefaultName;
    StepFrame(external, r, w, c);
    StepWorldFrame(r, w, c);
  }

  /** What a step of run t leaves of the app rows and their names. */
  ghost predicate SameApps(w: World, w': World)
  {
    && w'.nextId == w.nextId && w'.apps.Keys == w.apps.Keys
    && (forall a | a in w.apps :: (w'.apps[a].id, w'.apps[a].name, w'.apps[a].mode) == (w.apps[a].id, w.apps[a].name, w.apps[a].mode))
  }

  lemma AdvanceSameApps(s: Sys, t: nat, c: Choice)
    requires Inv(s) && t in s.runs && !s.runs[t].Finished()
    ensures SameApps(s.w, StepWorld(s.runs[t], s.w, c))
    ensures var r', w' := StepRun(s.external, s.runs[t], s.w, c), StepWorld(s.runs[t], s.w, c);
      && (forall a | a in s.w.apps :: w'.apps[a] == s.w.apps[a] || (w'.apps[a] == r'.app && r'.pc.Done?))
      && Recorded(r'.app, s.w.nextId) && (r'.app == s.runs[t].app || (r'.app.current == Some(t) && r'.app.live == s.runs[t].Staging() && r'.pc.Done?))
      && (r'.app.id, r'.app.name, r'.app.mode) == (s.runs[t].app.id, s.runs[t].app.name, s.runs[t].app.mode) && r'.d.id == t
      && (s.runs[t].pc.Done? ==> r'.pc.Done?)
  {
    hide StepRun, StepWorld, StagingName, DefaultName, UniqueNames, OwnName, NotYetLive;
    assert GoodRun(s.external, t, s.runs[t], s.w);
    StepKeepsApp(s.external, s.runs[t], s.w, c);
    StepPhases(s.external, s.runs[t], s.w, c);
  }

  /** Every copy of an app row stays good when run t takes a step. */
  lemma CopyKept(s: Sys, t: nat, c: Choice, a: App)
    requires Inv(s) && t in s.runs && !s.runs[t].Finished()
    requires GoodApp(a, s.w) && NotYetLive(a, s.runs)
    ensures var s' := Apply(s, Advance(t, c)); GoodApp(a, s'.w) && NotYetLive(a, s'.runs)
  {
    hide StepRun, StepWorld, StagingName, DefaultName, UniqueNames, OwnName;
    AdvanceSameApps(s, t, c);
  }

  /** The promoted copy is good too: its run is over. */
  lemma PromotedKept(s: Sys, t: nat, c: Choice)
    requires Inv(s) && t in s.runs && !s.runs[t].Finished()
    ensures var s' := Apply(s, Advance(t, c)); GoodApp(s'.runs[t].app, s'.w) && NotYetLive(s'.runs[t].app, s'.runs)
  {
    hide StepRun, StepWorld, StagingName, DefaultName, UniqueNames, OwnName;
    assert GoodRun(s.external, t, s.runs[t], s.w) && NotYetLive(s.runs[t].app, s.runs);
    AdvanceSameApps(s, t, c);
    CopyKept(s, t, c, s.runs[t].app);
  }

  lemma AdvanceKeepsRoutes(s: Sys, t: nat, c: Choice)
    requires Inv(s) && t in s.runs && !s.runs[t].Finished()
    ensures var w' := StepWorld(s.runs[t], s.w, c);
      forall n | n in w'.routes :: n in AppNames(w'.apps) && OwnName(n, w'.routes[n], s.w.nextId)
  {
    hide StepRun, StepWorld, StagingName, DefaultName;
    StepContainers(s.runs[t], s.w, c);
    InvAt(s, t);
    AdvanceSameApps(s, t, c);
    var w' := StepWorld(s.runs[t], s.w, c);
    forall n | n in AppNames(s.w.apps) ensures n in AppNames(w'.apps) {
      var a :| a in s.w.apps && s.w.apps[a].name == n;
      assert w'.apps[a].name == n;
    }
    assert s.w.apps[s.runs[t].app.id].name == s.runs[t].app.name;
  }

  lemma AdvanceKeepsOwnRun(s: Sys, t: nat, c: Choice)
    requires Inv(s) && t in s.runs && !s.runs[t].Finished()
    ensures GoodRun(s.external, t, StepRun(s.external, s.runs[t], s.w, c), StepWorld(s.runs[t], s.w, c))
  {
    hide StepRun, StepWorld, StagingName, DefaultName, UniqueNames, OwnName, NotYetLive, Inv;
    var r := s.runs[t];
    assert GoodRun(s.external, t, r, s.w) by { InvAt(s, t); }
    PromotedKept(s, t, c);
    AdvanceSameApps(s, t, c);
    StepPhases(s.external, r, s.w, c);
    StepContainers(r, s.w, c);
    DefaultIsNotStaged(r.app.name, t);
  }

  lemma InvAt(s: Sys, t: nat)
    requires Inv(s) && t in s.runs
    ensures GoodRun(s.external, t, s.runs[t], s.w) && NotYetLive(s.runs[t].app, s.runs) && GoodWorld(s.w)
  {
  }

  lemma AdvanceKeepsOtherRun(s: Sys, t: nat, c: Choice, u: nat)
    requires Inv(s) && t in s.runs && !s.runs[t].Finished() && u in s.runs && u != t
    ensures GoodRun(s.external, u, s.runs[u], StepWorld(s.runs[t], s.w, c))
  {
    hide StepRun, StepWorld, StagingName, DefaultName, UniqueNames, OwnName, NotYetLive, Inv;
    var r, v := s.runs[t], s.runs[u];
    InvAt(s, t);
    InvAt(s, u);
    CopyKept(s, t, c, v.app);
    AdvanceSameApps(s, t, c);
    StepContainers(r, s.w, c);
    if r.Staging() == v.Staging() {
      StagingNameInjective(r.app.name, t, v.app.name, u);
    }
    if !r.pc.Done? && v.app.name == r.app.name {
      LiveNotStaged(s, v.app, t);
    }
  }

  lemma AdvanceKeepsInv(s: Sys, t: nat, c: Choice)
    requires Inv(s)
    ensures Inv(Apply(s, Advance(t, c)))
  {
    hide StepRun, StepWorld, StagingName, DefaultName, OwnName, NotYetLive, GoodRun, GoodApp;
    if t in s.runs && !s.runs[t].Finished() {
      var s' := Apply(s, Advance(t, c));
      AdvanceSameApps(s, t, c);
      AdvanceKeepsRoutes(s, t, c);
      AdvanceKeepsOwnRun(s, t, c);
      PromotedKept(s, t, c);
      StepWorldFrame(s.runs[t], s.w, c);
      forall a | a in s.w.apps ensures GoodApp(s'.w.apps[a], s'.w) && NotYetLive(s'.w.apps[a], s'.runs) {
        CopyKept(s, t, c, s.w.apps[a]);
      }
      forall q | q in s.reqs ensures GoodApp(s.reqs[q], s'.w) && NotYetLive(s.reqs[q], s'.runs) {
        CopyKept(s, t, c, s.reqs[q]);
      }
      forall u | u in s.runs && u != t ensures GoodRun(s.external, u, s.runs[u], s'.w) && NotYetLive(s.runs[u].app, s'.runs) {
        AdvanceKeepsOtherRun(s, t, c, u);
        InvAt(s, u);
        AppOfRun(s, u);
        CopyKept(s, t, c, s.runs[u].app);
      }
    }
  }

  lemma AppOfRun(s: Sys, t: nat)
    requires Inv(s) && t in s.runs
    ensures GoodApp(s.runs[t].app, s.w)
  {
    assert GoodRun(s.external, t, s.runs[t], s.w);
  }

  lemma LoadKeepsInv(s: Sys, req: nat, app: nat)
    requires Inv(s)
    ensures Inv(Apply(s, Load(req, app)))
  {
    hide StagingName, DefaultName;
  }

  /** The next staging name is new: a route that has it already names a default container. */
  lemma NextNameIsFresh(s: Sys, app: App)
    requires Inv(s) && GoodApp(app, s.w)
    ensures forall n | n in s.w.routes && s.w.routes[n] == StagingName(app.name, s.w.nextId) :: s.w.routes[n] == DefaultName(n)
  {
    forall n | n in s.w.routes && s.w.routes[n] == StagingName(app.name, s.w.nextId) ensures s.w.routes[n] == DefaultName(n) {
      assert n in AppNames(s.w.apps) && OwnName(n, s.w.routes[n], s.w.nextId);
      if s.w.routes[n] != DefaultName(n) {
        var i: nat :| i < s.w.nextId && s.w.routes[n] == StagingName(n, i);
        if StagingName(n, i) == StagingName(app.name, s.w.nextId) {
          StagingNameInjective(n, i, app.name, s.w.nextId);
        }
      }
    }
  }

  lemma OwnNameWider(app: string, name: string, bound: nat)
    requires OwnName(app, name, bound)
    ensures OwnName(app, name, bound + 1)
  {
    hide StagingName, DefaultName;
    if name != DefaultName(app) {
      var i: nat :| i < bound && name == StagingName(app, i);
      assert i < bound + 1 && name == StagingName(app, i);
    }
  }

  lemma LaunchedRunIsGood(s: Sys, l: Label)
    requires Inv(s) && l.Launch? && l.req in s.reqs
    ensures var s' := Apply(s, l); GoodRun(s.external, s.w.nextId, s'.runs[s.w.nextId], s'.w)
  {
    hide StagingName, DefaultName, UniqueNames, OwnName;
    NextNameIsFresh(s, s.reqs[l.req]);
  }

  lemma LaunchKeepsCopy(s: Sys, l: Label, a: App)
    requires Inv(s) && l.Launch? && l.req in s.reqs
    requires GoodApp(a, s.w) && NotYetLive(a, s.runs)
    ensures var s' := Apply(s, l); GoodApp(a, s'.w) && NotYetLive(a, s'.runs)
  {
    hide StagingName, DefaultName, UniqueNames, OwnName;
  }

  lemma LaunchKeepsWorld(s: Sys, l: Label)
    requires Inv(s) && l.Launch? && l.req in s.reqs
    ensures GoodWorld(Apply(s, l).w)
  {
    hide StagingName, DefaultName, UniqueNames, OwnName;
    forall n | n in s.w.routes ensures OwnName(n, s.w.routes[n], s.w.nextId + 1) {
      OwnNameWider(n, s.w.routes[n], s.w.nextId);
    }
  }

  lemma LaunchKeepsInv(s: Sys, l: Label)
    requires Inv(s) && l.Launch?
    ensures Inv(Apply(s, l))
  {
    hide StagingName, DefaultName, UniqueNames, OwnName, GoodApp, NotYetLive;
    if l.req in s.reqs {
      var s' := Apply(s, l);
      LaunchKeepsWorld(s, l);
      LaunchedRunIsGood(s, l);
      LaunchKeepsCopy(s, l, s.reqs[l.req]);
      forall a | a in s.w.apps ensures NotYetLive(s.w.apps[a], s'.runs) {
        LaunchKeepsCopy(s, l, s.w.apps[a]);
      }
      forall q | q in s.reqs ensures GoodApp(s.reqs[q], s'.w) && NotYetLive(s.reqs[q], s'.runs) {
        LaunchKeepsCopy(s, l, s.reqs[q]);
      }
      forall u | u in s.runs ensures GoodRun(s.external, u, s.runs[u], s'.w) && NotYetLive(s.runs[u].app, s'.runs) {
        InvAt(s, u);
        LaunchKeepsCopy(s, l, s.runs[u].app);
      }
      assert forall u | u in s'.runs :: u == s.w.nextId || (u in s.runs && s'.runs[u] == s.runs[u]);
    }
  }

  lemma ApplyKeepsInv(s: Sys, l: Label)
    requires Inv(s)
    ensures Inv(Apply(s, l))
  {
    match l
    case Load(req, app) => LoadKeepsInv(s, req, app);
    case Launch(_, _, _, _, _, _) => LaunchKeepsInv(s, l);
    case Advance(id, c) => AdvanceKeepsInv(s, id, c);
  }

  lemma ApplySameApps(s: Sys, l: Label)
    requires Inv(s)
    ensures Apply(s, l).external == s.external && s.w.apps.Keys == Apply(s, l).w.apps.Keys
    ensures forall a | a in s.w.apps :: (Apply(s, l).w.apps[a].name, Apply(s, l).w.apps[a].mode) == (s.w.apps[a].name, s.w.apps[a].mode)
  {
    hide StepRun, StepWorld, StagingName, DefaultName, Inv;
    if l.Advance? && l.id in s.runs && !s.runs[l.id].Finished() {
      AdvanceSameApps(s, l.id, l.c);
    }
  }

  /** The assumption at the start: a good shared state and nothing in flight. */
  lemma IdleIsGood(external: bool, w: World)
    requires GoodWorld(w)
    ensures Inv(Sys(external, w, map[], map[]))
  {
  }

  // What takes a served app down.

  /** The label makes run l.id carry out its next operation. */
  predicate Operates(s: Sys, l: Label)
  {
    l.Advance? && l.id in s.runs && s.runs[l.id].todo == [] && !s.runs[l.id].pc.Done?
  }

  /** The app's own route update fails after it has truncated the route file. */
  predicate Truncates(s: Sys, l: Label, app: string)
  {
    Operates(s, l) && s.runs[l.id].pc.SwitchRoute? && s.runs[l.id].app.name == app && l.c.route.RouteTruncated?
  }

  /** A run of another app stops the routed container, because that carries a default name: of
      the other app, whose copy has no recorded container, or of the app itself. */
  predicate StopsByCollision(s: Sys, l: Label, app: nat)
    requires app in s.w.apps
  {
    var name := s.w.apps[app].name;
    && Operates(s, l) && Stops(s.runs[l.id].pc) && !l.c.stop.NotStopped? && s.runs[l.id].app.id != app
    && name in s.w.routes && StopTarget(s.runs[l.id]) == s.w.routes[name]
    && (s.w.routes[name] == DefaultName(name)
        || (s.runs[l.id].app.live == "" && s.w.routes[name] == DefaultName(s.runs[l.id].app.name)))
  }

  /** The app's own route update succeeds, but its container has been stopped since it passed
      the health check. */
  predicate SwitchesToStopped(s: Sys, l: Label, app: string)
  {
    && Operates(s, l) && s.runs[l.id].pc.SwitchRoute? && s.runs[l.id].app.name == app && l.c.route.Routed?
    && s.runs[l.id].Staging() !in s.w.running
  }

  /** A step takes a served app down if and only if it truncates the app's route file, stops
      its container under a colliding name, or routes it to a container that is down. */
  lemma ServingStep(s: Sys, l: Label, app: nat)
    requires Inv(s) && app in s.w.apps && !Exclusive(s.external, s.w.apps[app])
    requires Serving(s.w, s.w.apps[app].name)
    ensures !Serving(Apply(s, l).w, s.w.apps[app].name) <==>
              Truncates(s, l, s.w.apps[app].name) || StopsByCollision(s, l, app)
              || SwitchesToStopped(s, l, s.w.apps[app].name)
  {
    hide StepRun, StepWorld, StagingName, DefaultName, OwnName, NotYetLive, Inv;
    if l.Advance? && l.id in s.runs && !s.runs[l.id].Finished() {
      InvAt(s, l.id);
      StepContainers(s.runs[l.id], s.w, l.c);
      if Stops(s.runs[l.id].pc) && StopTarget(s.runs[l.id]) == s.w.routes[s.w.apps[app].name] {
        StopsRoutedByCollision(s, l.id, app);
      }
    }
  }

  /** The container a run is about to promote goes down over a step if and only if the step is
      a stop that goes through, by an unrecorded copy of another app whose default name it has. */
  lemma StagedGoesDownExactly(s: Sys, l: Label, u: nat)
    requires Inv(s) && u in s.runs && PhaseOf(s.runs[u].pc) in {Switching, Stopping, Promoting}
    requires s.runs[u].Staging() in s.w.running
    ensures s.runs[u].Staging() !in Apply(s, l).w.running <==>
              && Operates(s, l) && (s.runs[l.id].pc.StopFirst? || s.runs[l.id].pc.StopPrevious?) && !l.c.stop.NotStopped?
              && s.runs[l.id].app.live == "" && DefaultName(s.runs[l.id].app.name) == s.runs[u].Staging()
  {
    hide StepRun, StepWorld, StagingName, DefaultName, OwnName, NotYetLive, Inv;
    var v := s.runs[u];
    if l.Advance? && l.id in s.runs && !s.runs[l.id].Finished() {
      var r := s.runs[l.id];
      InvAt(s, l.id);
      InvAt(s, u);
      StepContainers(r, s.w, l.c);
      if Stops(r.pc) && r.app.live != "" {
        LiveNotStaged(s, r.app, u);
      }
      if r.Staging() == v.Staging() {
        StagingNameInjective(r.app.name, l.id, v.app.name, u);
      }
    }
  }

  // Zero downtime.

  /** The app's default container name is no staging name of any app. */
  ghost predicate Untaken(app: string, apps: map<nat, App>)
  {
    forall b, j: nat | b in apps :: DefaultName(app) != StagingName(apps[b].name, j)
  }

  lemma UntakenKept(app: string, w: World, w': World)
    requires SameApps(w, w')
    ensures Untaken(app, w.apps) <==> Untaken(app, w'.apps)
  {
    hide DefaultName, StagingName;
  }

  /** The default container name of one app is no staging name of the other. */
  ghost predicate Spares(one: string, other: string)
  {
    forall j: nat :: DefaultName(one) != StagingName(other, j)
  }

  /** Every copy of an app row that somebody works with. */
  ghost function Copies(s: Sys): set<App>
  {
    (set a | a in s.w.apps :: s.w.apps[a]) + (set q | q in s.reqs :: s.reqs[q]) + (set t | t in s.runs :: s.runs[t].app)
  }

  /** No copy without a recorded container goes by a name that app x may need. */
  ghost predicate Spared(s: Sys, x: nat)
  {
    x in s.w.apps && forall a | a in Copies(s) && a.live == "" :: Spares(a.name, s.w.apps[x].name)
  }

  ghost predicate StagedIsUp(external: bool, r: Run, w: World)
  {
    !Exclusive(external, r.app) && PhaseOf(r.pc) in {Switching, Stopping, Promoting} ==> r.Staging() in w.running
  }

  ghost predicate RouteIsClear(w: World, x: nat)
    requires x in w.apps
  {
    var name := w.apps[x].name;
    name in w.routes && w.routes[name] == DefaultName(name) ==> Untaken(name, w.apps)
  }

  /** App x is out of the way of all others: it is spared, its containers on their way to the
      route are up, and if its route names its default container, nobody else has that name. */
  ghost predicate Clear(s: Sys, x: nat)
  {
    && Spared(s, x) && RouteIsClear(s.w, x)
    && forall t | t in s.runs && s.runs[t].app.id == x :: StagedIsUp(s.external, s.runs[t], s.w)
  }

  /** At rest it is enough that the live containers are recorded, whatever the apps are called. */
  lemma IdleIsClear(external: bool, w: World, x: nat)
    requires x in w.apps && forall a | a in w.apps :: w.apps[a].live != "" || Spares(w.apps[a].name, w.apps[x].name)
    requires RouteIsClear(w, x)
    ensures Clear(Sys(external, w, map[], map[]), x)
  {
  }

  /** No stop touches a container that a run of a spared app is about to promote. */
  lemma StopSparesStaged(s: Sys, t: nat, u: nat)
    requires Inv(s) && t in s.runs && u in s.runs && Spared(s, s.runs[u].app.id)
    requires Stops(s.runs[t].pc) && PhaseOf(s.runs[u].pc) in {Switching, Stopping, Promoting}
    ensures StopTarget(s.runs[t]) != s.runs[u].Staging()
  {
    hide StagingName, DefaultName, OwnName, NotYetLive, Inv;
    var r, v := s.runs[t], s.runs[u];
    InvAt(s, t);
    InvAt(s, u);
    if StopTarget(r) == r.Live() {
      if r.app.live == "" {
        assert r.app in Copies(s);
        assert Spares(r.app.name, v.app.name);
      } else {
        LiveNotStaged(s, r.app, u);
      }
    } else if v.Staging() == r.Staging() {
      StagingNameInjective(r.app.name, t, v.app.name, u);
    }
  }

  /** Nothing but truncation takes a clear app down. */
  lemma ClearSpares(s: Sys, l: Label, x: nat)
    requires Inv(s) && Clear(s, x) && !Exclusive(s.external, s.w.apps[x])
    ensures !StopsByCollision(s, l, x) && !SwitchesToStopped(s, l, s.w.apps[x].name)
  {
    hide StagingName, DefaultName, NotYetLive, Inv, Spares, Untaken;
    if Operates(s, l) {
      InvAt(s, l.id);
      if StopsByCollision(s, l, x) {
        assert s.runs[l.id].app in Copies(s);
        StopNamesStaged(s, l.id, x);
      }
    }
  }

  /** What a run of another app stops when that is the routed container: a staging name. */
  lemma StopNamesStaged(s: Sys, t: nat, app: nat)
    requires Inv(s) && t in s.runs && app in s.w.apps && s.runs[t].app.id != app && Stops(s.runs[t].pc)
    requires var name := s.w.apps[app].name; name in s.w.routes && StopTarget(s.runs[t]) == s.w.routes[name]
    ensures var r, name := s.runs[t], s.w.apps[app].name;
      && (s.w.routes[name] == DefaultName(name) ==> !Untaken(name, s.w.apps))
      && (r.app.live == "" && s.w.routes[name] == DefaultName(r.app.name) ==>
            !Spares(r.app.name, name) || s.w.routes[name] == DefaultName(name))
  {
    hide StagingName, DefaultName, NotYetLive, Inv;
    var r, name := s.runs[t], s.w.apps[app].name;
    InvAt(s, t);
    assert s.w.apps[r.app.id].name == r.app.name != name;
    if s.w.routes[name] == DefaultName(name) {
      if StopTarget(r) == r.Staging() {
        assert DefaultName(name) == StagingName(s.w.apps[r.app.id].name, t);
      } else if r.app.live == "" {
        DefaultNameInjective(name, r.app.name);
      } else {
        assert DefaultName(name) == StagingName(s.w.apps[r.app.id].name, r.app.current.value);
      }
    } else if r.app.live == "" && s.w.routes[name] == DefaultName(r.app.name) {
      assert OwnName(name, s.w.routes[name], s.w.nextId);
      var i: nat :| i < s.w.nextId && s.w.routes[name] == StagingName(name, i);
    }
  }

  lemma PromotedIsRecorded(s: Sys, t: nat, c: Choice)
    requires Inv(s) && t in s.runs && !s.runs[t].Finished()
    ensures var r, r' := s.runs[t], StepRun(s.external, s.runs[t], s.w, c); r'.app == r.app || r'.app.live != ""
  {
    hide StepRun, StepWorld, Inv;
    AdvanceSameApps(s, t, c);
    assert s.runs[t].Staging()[0] == 't';
  }

  /** A copy that comes up has been there before, or names a recorded container. */
  lemma NewCopies(s: Sys, l: Label)
    requires Inv(s)
    ensures forall a | a in Copies(Apply(s, l)) :: a in Copies(s) || a.live != ""
  {
    hide StepRun, StepWorld, Inv;
    if l.Advance? && l.id in s.runs && !s.runs[l.id].Finished() {
      AdvanceSameApps(s, l.id, l.c);
      PromotedIsRecorded(s, l.id, l.c);
    }
  }

  lemma ApplyKeepsSpared(s: Sys, l: Label, x: nat)
    requires Inv(s) && Spared(s, x)
    ensures Spared(Apply(s, l), x)
  {
    hide Apply, Inv, Spares, Copies;
    NewCopies(s, l);
    ApplySameApps(s, l);
  }

  lemma RouteStaysClear(s: Sys, t: nat, c: Choice, x: nat)
    requires Inv(s) && x in s.w.apps && RouteIsClear(s.w, x) && t in s.runs && !s.runs[t].Finished()
    ensures var w' := StepWorld(s.runs[t], s.w, c); x in w'.apps && RouteIsClear(w', x)
  {
    hide StepRun, StepWorld, StagingName, DefaultName, OwnName, NotYetLive, Inv, Untaken;
    var r, w' := s.runs[t], StepWorld(s.runs[t], s.w, c);
    InvAt(s, t);
    AdvanceSameApps(s, t, c);
    StepContainers(r, s.w, c);
    DefaultIsNotStaged(r.app.name, t);
    UntakenKept(s.w.apps[x].name, s.w, w');
  }

  lemma OwnStagedIsUp(s: Sys, t: nat, c: Choice)
    requires Inv(s) && t in s.runs && !s.runs[t].Finished() && Clear(s, s.runs[t].app.id)
    ensures var s' := Apply(s, Advance(t, c)); StagedIsUp(s.external, s'.runs[t], s'.w)
  {
    hide StepRun, StepWorld, StagingName, DefaultName, OwnName, NotYetLive, Inv, Spared, RouteIsClear, GoodWorld, GoodApp;
    var r := s.runs[t];
    InvAt(s, t);
    assert StagedIsUp(s.external, r, s.w);
    AdvanceSameApps(s, t, c);
    StepPhases(s.external, r, s.w, c);
    StepContainers(r, s.w, c);
    if r.pc.StopPrevious? {
      StopSparesStaged(s, t, t);
    }
  }

  lemma OtherStagedIsUp(s: Sys, t: nat, c: Choice, u: nat)
    requires Inv(s) && t in s.runs && !s.runs[t].Finished() && u in s.runs && u != t && Clear(s, s.runs[u].app.id)
    ensures var s' := Apply(s, Advance(t, c)); StagedIsUp(s.external, s.runs[u], s'.w)
  {
    hide StepRun, StepWorld, StagingName, DefaultName, OwnName, NotYetLive, Inv, Spared, RouteIsClear, GoodWorld;
    assert StagedIsUp(s.external, s.runs[u], s.w);
    if PhaseOf(s.runs[u].pc) in {Switching, Stopping, Promoting} && s.runs[u].Staging() in s.w.running {
      StagedGoesDownExactly(s, Advance(t, c), u);
      if Stops(s.runs[t].pc) {
        StopSparesStaged(s, t, u);
      }
    }
  }

  lemma AdvanceKeepsStaged(s: Sys, t: nat, c: Choice, x: nat)
    requires Inv(s) && Clear(s, x) && t in s.runs && !s.runs[t].Finished()
    ensures var s' := Apply(s, Advance(t, c));
            forall u | u in s'.runs && s'.runs[u].app.id == x :: StagedIsUp(s'.external, s'.runs[u], s'.w)
  {
    hide StepRun, StepWorld, Inv, Spared, RouteIsClear, StagedIsUp;
    AdvanceSameApps(s, t, c);
    forall u | u in s.runs && s.runs[u].app.id == x
      ensures var s' := Apply(s, Advance(t, c)); StagedIsUp(s.external, s'.runs[u], s'.w)
    {
      if u == t { OwnStagedIsUp(s, t, c); } else { OtherStagedIsUp(s, t, c, u); }
    }
  }

  lemma ApplyKeepsClear(s: Sys, l: Label, x: nat)
    requires Inv(s) && Clear(s, x)
    ensures Clear(Apply(s, l), x)
  {
    hide StepRun, StepWorld, StagingName, DefaultName, OwnName, NotYetLive, Inv, Untaken, Spared;
    ApplyKeepsSpared(s, l, x);
    assert x in s.w.apps by { SparedHas(s, x); }
    if l.Advance? && l.id in s.runs && !s.runs[l.id].Finished() {
      RouteStaysClear(s, l.id, l.c, x);
      AdvanceKeepsStaged(s, l.id, l.c, x);
    }
  }

  lemma SparedHas(s: Sys, x: nat)
    requires Spared(s, x)
    ensures x in s.w.apps
  {
  }

  lemma ClearHas(s: Sys, x: nat)
    requires Clear(s, x)
    ensures x in s.w.apps
  {
  }

  /** No step truncates the app's route file. */
  predicate NeverTruncated(s: Sys, ls: seq<Label>, app: string)
    decreases |ls|
  {
    ls == [] || (!Truncates(s, ls[0], app) && NeverTruncated(Apply(s, ls[0]), ls[1..], app))
  }

  /** The app is served in every state on the way. */
  predicate ServedThroughout(s: Sys, ls: seq<Label>, app: string)
    decreases |ls|
  {
    Serving(s.w, app) && (ls == [] || ServedThroughout(Apply(s, ls[0]), ls[1..], app))
  }

  /** Zero downtime over every interleaving, whatever befalls other apps: a clear app is served
      in every state if and only if no step truncates its own route file. */
  lemma {:induction false} ZeroDowntime(s: Sys, ls: seq<Label>, x: nat)
    requires Inv(s) && Clear(s, x) && !Exclusive(s.external, s.w.apps[x]) && Serving(s.w, s.w.apps[x].name)
    ensures ServedThroughout(s, ls, s.w.apps[x].name) <==> NeverTruncated(s, ls, s.w.apps[x].name)
    ensures Inv(RunAll(s, ls)) && Clear(RunAll(s, ls), x)
    ensures NeverTruncated(s, ls, s.w.apps[x].name) ==> Serving(RunAll(s, ls).w, s.w.apps[x].name)
    decreases |ls|
  {
    hide Apply, Serving, Inv, Clear, Truncates, StopsByCollision, SwitchesToStopped;
    assert x in s.w.apps by { ClearHas(s, x); }
    if ls != [] {
      ApplyKeepsInv(s, ls[0]);
      ApplyKeepsClear(s, ls[0], x);
      ApplySameApps(s, ls[0]);
      ServingStep(s, ls[0], x);
      ClearSpares(s, ls[0], x);
      if Serving(Apply(s, ls[0]).w, s.w.apps[x].name) {
        ZeroDowntime(Apply(s, ls[0]), ls[1..], x);
      } else {
        InvThroughout(Apply(s, ls[0]), ls[1..], x);
        NotServed(Apply(s, ls[0]), ls[1..], s.w.apps[x].name);
      }
    }
  }

  lemma {:induction false} InvThroughout(s: Sys, ls: seq<Label>, x: nat)
    requires Inv(s) && Clear(s, x)
    ensures Inv(RunAll(s, ls)) && Clear(RunAll(s, ls), x)
    decreases |ls|
  {
    hide Apply, Inv, Clear;
    if ls != [] {
      ApplyKeepsInv(s, ls[0]);
      ApplyKeepsClear(s, ls[0], x);
      InvThroughout(Apply(s, ls[0]), ls[1..], x);
    }
  }

  lemma NotServed(s: Sys, ls: seq<Label>, app: string)
    requires !Serving(s.w, app)
    ensures !ServedThroughout(s, ls, app)
  {
  }
}
