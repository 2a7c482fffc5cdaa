/** The deploy engine: the same step-by-step code as internal/deploy/engine.go, updating the
    stores, the containers and the caller's records in place, proved to do exactly what the
    step machine of DeployMachine does. */
module DeployEngine {
  import opened Domain
  import opened Names
  import opened DeployMachine
  import opened Cutover
  import opened Admission
  import opened Endings
  import opened QueuedEndings

  /** *domain.Deploy */
  class DeployRecord {
    const id: nat
    const appId: nat
    const trigger: Trigger
    const rollbackOf: Option<nat>
    const createdAt: int
    const branch: string
    var image: string
    var commit: string
    var status: Status
    var container: string
    var health: Health
    var startedAt: Option<int>
    var completedAt: Option<int>

    constructor (v: Deploy)
      ensures Value() == v
    {
      id, appId, trigger, rollbackOf, createdAt, branch :=
        v.id, v.appId, v.trigger, v.rollbackOf, v.createdAt, v.branch;
      image, commit, status, container := v.image, v.commit, v.status, v.container;
      health, startedAt, completedAt := v.health, v.startedAt, v.completedAt;
    }

    function Value(): Deploy
      reads this
    {
      Deploy(id, appId, image, commit, branch, status, container, health, startedAt, completedAt,
             trigger, rollbackOf, createdAt)
    }
  }

  /** *domain.App */
  class AppRecord {
    const id: nat
    const name: string
    const managed: bool
    const buildMode: BuildMode
    const mode: AccessMode
    const repoURL: string
    var image: string
    var active: bool
    var current: Option<nat>
    var live: string

    constructor (v: App)
      ensures Value() == v
    {
      id, name, managed, buildMode, mode, repoURL := v.id, v.name, v.managed, v.buildMode, v.mode, v.repoURL;
      image, active, current, live := v.image, v.active, v.current, v.live;
    }

    function Value(): App
      reads this
    {
      App(id, name, managed, buildMode, mode, repoURL, image, active, current, live)
    }
  }

  /** Why Deploy or Rollback returned an error instead of a pending deploy. */
  datatype Refusal = NoSuchApp | NotManaged | DeployInProgress | NothingToRollBackTo | StoreError

  /** The pending deploy, and the app row its background run will work on. */
  datatype Outcome = Accepted(app: App, d: Deploy) | Refused(why: Refusal)

  class Engine {
    const external: bool
    /** The outside world: operation number k is answered by answers(k). */
    const answers: nat -> Choice
    var clock: nat
    var apps: map<nat, App>
    var deploys: map<nat, Deploy>
    var nextId: nat
    var running: set<string>
    var routes: map<string, string>
    var events: seq<Event>
    /** What has been handed to the broadcaster's Publish, in order. */
    var published: seq<Event>

    function State(): World
      reads this
    {
      World(apps, deploys, nextId, running, routes, events)
    }

    /** Where the step machine ends when run r continues from here. */
    ghost function End(r: Run): (Conf, nat)
      reads this
    {
      RunToEnd(external, Conf(r, State()), answers, clock)
    }

    /** The answers that run gets, by the operation they answer. */
    ghost function Heard(r: Run): map<Pc, Choice>
      reads this
    {
      Asked(external, Conf(r, State()), answers, clock, map[])
    }

    method Answer() returns (c: Choice)
      modifies this`clock
      ensures c == answers(old(clock)) && clock == old(clock) + 1
    {
      c := answers(clock);
      clock := clock + 1;
    }

    method UpdateDeploy(d: DeployRecord)
      modifies this`clock, this`deploys
      ensures clock == old(clock) + 1
      ensures State() == StoreDeploy(old(State()), d.Value(), answers(old(clock)).stored)
      ensures deploys.Keys == old(deploys.Keys)
      ensures forall id | id in deploys && (id != d.id || !answers(old(clock)).stored) :: deploys[id] == old(deploys[id])
      ensures d.id in deploys && answers(old(clock)).stored ==>
                var was, row := old(deploys[d.id]), deploys[d.id];
                && (row.status, row.container, row.health) == (d.status, d.container, d.health)
                && (row.startedAt, row.completedAt) == (d.startedAt, d.completedAt)
                && (row.image, row.commit, row.branch, row.trigger) == (was.image, was.commit, was.branch, was.trigger)
                && (row.id, row.appId, row.rollbackOf, row.createdAt) == (was.id, was.appId, was.rollbackOf, was.createdAt)
    {
      var c := Answer();
      if c.stored && d.id in deploys {
        deploys := deploys[d.id := deploys[d.id].(
          status := d.status, container := d.container, health := d.health,
          startedAt := d.startedAt, completedAt := d.completedAt)];
      }
    }

    method UpdateApp(a: AppRecord)
      modifies this`clock, this`apps
      ensures clock == old(clock) + 1
      ensures State() == StoreApp(old(State()), a.Value(), answers(old(clock)).stored)
      ensures apps == if answers(old(clock)).stored && a.id in old(apps) then old(apps)[a.id := a.Value()] else old(apps)
    {
      var c := Answer();
      if c.stored && a.id in apps {
        apps := apps[a.id := a.Value()];
      }
    }

    /** emitEvent: r is the run whose next step is this event. */
    method EmitEvent(d: DeployRecord, level: Level, topic: Topic, ghost r: Run) returns (ghost next: Run)
      requires r.todo != [] && r.todo[0] == Event(d.id, level, topic)
      modifies this`clock, this`events, this`published
      ensures next == r.(todo := r.todo[1..]) && (|r.todo| == 1 ==> next.todo == [])
      ensures old(End(r)) == End(next)
      ensures clock == old(clock) + 1
      ensures State() == DeployMachine.EmitEvent(old(State()), Event(d.id, level, topic), answers(old(clock)).stored)
      ensures events == old(events) + if answers(old(clock)).stored then [Event(d.id, level, topic)] else []
      ensures published == old(published) + if answers(old(clock)).stored then [Event(d.id, level, topic)] else []
    {
      var c := Answer();
      if c.stored {
        events := events + [Event(d.id, level, topic)];
        published := published + [Event(d.id, level, topic)];
      }
      next := r.(todo := r.todo[1..]);
    }

    method StopAndRemove(name: string) returns (ok: bool)
      modifies this`clock, this`running
      ensures clock == old(clock) + 1
      ensures ok == answers(old(clock)).stop.Removed?
      ensures State() == StopContainer(old(State()), name, answers(old(clock)).stop)
    {
      var c := Answer();
      ok := c.stop.Removed?;
      if !c.stop.NotStopped? {
        running := running - {name};
      }
    }

    method StartContainerWithConfig(name: string) returns (r: Option<string>)
      modifies this`clock, this`running
      ensures clock == old(clock) + 1
      ensures r == if answers(old(clock)).start.Started? then Some(answers(old(clock)).text) else None
      ensures State() == StartContainer(old(State()), name, answers(old(clock)).start)
    {
      var c := Answer();
      if c.start == Started(true) || c.start == StartFailed(true) {
        running := running + {name};
      }
      r := if c.start.Started? then Some(c.text) else None;
    }

    method WaitForHealth(name: string) returns (ok: bool)
      modifies this`clock
      ensures clock == old(clock) + 1 && ok == (answers(old(clock)).ok && name in running)
    {
      var c := Answer();
      ok := c.ok && name in running;
    }

    method UpdateRoute(app: string, name: string) returns (ok: bool)
      modifies this`clock, this`routes
      ensures clock == old(clock) + 1
      ensures ok == answers(old(clock)).route.Routed?
      ensures State() == RouteTo(old(State()), app, name, answers(old(clock)).route)
    {
      var c := Answer();
      ok := c.route.Routed?;
      match c.route {
        case Routed => routes := routes[app := name];
        case RouteKept =>
        case RouteTruncated => routes := routes - {app};
      }
    }

    /** Stamp the completion time and the final status, and store them. */
    method Complete(d: DeployRecord, status: Status, ghost r: Run) returns (ghost next: Run)
      requires r.todo == [] && r.d == d.Value()
      requires r.pc.Fail? || r.pc.StoreAutoRollback? || r.pc.StoreSuccess?
      requires status == if r.pc.Fail? then Failed else if r.pc.StoreSuccess? then Success else AutoRolledBack
      modifies this, d
      ensures d.Value() == Completed(old(d.Value()), status, answers(old(clock)).now)
      ensures next == r.(d := d.Value()).Goto(
                if r.pc.StoreSuccess? then Pc.UpdateApp else Done,
                if r.pc.StoreSuccess? then []
                else [if r.pc.Fail? then r.Ev(Error, Topic.Finalize) else r.Ev(Info, Topic.AutoRollback)])
      ensures old(End(r)) == End(next)
    {
      hide StagingName, DefaultName, RunToEnd, StoreDeploy, StopContainer, StartContainer, RouteTo, StoreApp, ProgressEvents, AfterBuilding, AfterPreparing, AfterCutover;
      ghost var w := State();
      d.completedAt := Some(answers(clock).now);
      d.status := status;
      UpdateDeploy(d);
      Unroll(external, r, w, answers, clock - 1);
      next := StepRun(external, r, w, answers(clock - 1));
    }

    /** Remove the staging container of a deploy that will not go live. */
    method RemoveStaging(stagingName: string, ghost r: Run) returns (ghost next: Run)
      requires r.todo == [] && (r.pc.CleanupUnhealthy? || r.pc.CleanupUnrouted?) && stagingName == r.Staging()
      modifies this
      ensures next == r.Goto(if r.pc.CleanupUnhealthy? then StoreAutoRollback else Fail, [])
      ensures old(End(r)) == End(next)
    {
      hide StagingName, DefaultName, RunToEnd, StoreDeploy, StopContainer, StartContainer, RouteTo, StoreApp, ProgressEvents, AfterBuilding, AfterPreparing, AfterCutover;
      ghost var w := State();
      var cleaned := StopAndRemove(stagingName);
      Unroll(external, r, w, answers, clock - 1);
      next := StepRun(external, r, w, answers(clock - 1));
    }

    method FailDeploy(d: DeployRecord, ghost r: Run) returns (ghost next: Run)
      requires r.pc.Fail? && r.todo == [] && r.d == d.Value()
      modifies this, d
      ensures d.Value() == Completed(old(d.Value()), Failed, answers(old(clock)).now)
      ensures next == r.(d := d.Value()).Goto(Done, []) && old(End(r)) == End(next)
    {
      hide StagingName, DefaultName, RunToEnd, StoreDeploy, StopContainer, StartContainer, RouteTo, StoreApp, ProgressEvents, AfterBuilding, AfterPreparing, AfterCutover;
      next := Complete(d, Failed, r);
      next := EmitEvent(d, Error, Topic.Finalize, next);
    }

    /** An error event, then failDeploy. */
    method Abort(d: DeployRecord, topic: Topic, ghost r: Run) returns (ghost next: Run)
      requires r.pc.Fail? && r.todo == [Event(d.id, Error, topic)] && r.d == d.Value()
      modifies this, d
      ensures next == r.(d := d.Value()).Goto(Done, []) && old(End(r)) == End(next)
    {
      hide StagingName, DefaultName, RunToEnd, StoreDeploy, StopContainer, StartContainer, RouteTo, StoreApp, ProgressEvents, AfterBuilding, AfterPreparing, AfterCutover;
      next := EmitEvent(d, Error, topic, r);
      next := FailDeploy(d, next);
    }

    method MarkRunning(d: DeployRecord, ghost r0: Run) returns (ghost r: Run)
      requires r0.pc.MarkRunning? && r0.todo == [] && r0.d == d.Value()
      modifies this, d
      ensures d.Value() == Marked(old(d.Value()), answers(old(clock)).now)
      ensures r == r0.(d := d.Value()).Goto(Validate, []) && old(End(r0)) == End(r)
    {
      hide StagingName, DefaultName, RunToEnd, AfterEffect, StepRun, StepWorld, Step, StoreDeploy, StopContainer, StartContainer, RouteTo, StoreApp;
      ghost var w := State();
      d.startedAt := Some(answers(clock).now);
      d.status := Running;
      UpdateDeploy(d);
      UnrollPreparing(external, r0, w, answers, clock - 1);
      r := r0.(d := d.Value()).Goto(Validate, [Event(d.id, Info, Topic.Start)]);
      r := EmitEvent(d, Info, Topic.Start, r);
    }

    /** Mark the deploy running and check the required environment variables. */
    method MarkAndValidate(d: DeployRecord, ghost r0: Run) returns (valid: bool, ghost r: Run)
      requires r0.pc.MarkRunning? && r0.todo == [] && r0.d == d.Value()
      modifies this, d
      ensures old(End(r0)) == End(r)
      ensures valid ==> r == if r0.skipPull then BeforeStart(external, r0.(d := d.Value()), [Event(d.id, Info, Pull)])
                             else r0.(d := d.Value()).Goto(PullImage, [Event(d.id, Info, Pull)])
      ensures !valid ==> r == r0.(d := d.Value()).Goto(Done, [])
    {
      hide StagingName, DefaultName, RunToEnd, AfterEffect, StepRun, StepWorld, Step, StoreDeploy, StopContainer, StartContainer, RouteTo, StoreApp;
      r := MarkRunning(d, r0);
      ghost var w := State();
      var c := Answer();   // validateEnvVars
      valid := c.ok;
      UnrollPreparing(external, r, w, answers, clock - 1);
      r := AfterPreparing(external, r, c);
      if !valid {
        r := Abort(d, Topic.Start, r);
      }
    }

    method PullImageOf(d: DeployRecord, ghost r0: Run) returns (ok: bool, ghost r: Run)
      requires r0.pc.PullImage? && r0.todo == [Event(d.id, Info, Topic.Pull)] && r0.d == d.Value()
      modifies this, d
      ensures old(End(r0)) == End(r)
      ensures ok ==> unchanged(d) && r == BeforeStart(external, r0.Goto(PullImage, []), [Event(d.id, Info, Topic.Pull)])
      ensures !ok ==> r == r0.(d := d.Value()).Goto(Done, [])
    {
      hide StagingName, DefaultName, RunToEnd, AfterEffect, StepRun, StepWorld, Step, StoreDeploy, StopContainer, StartContainer, RouteTo, StoreApp;
      r := EmitEvent(d, Info, Topic.Pull, r0);
      ghost var w := State();
      var c := Answer();
      ok := c.ok;
      UnrollPreparing(external, r, w, answers, clock - 1);
      r := AfterPreparing(external, r, c);
      if !ok {
        r := Abort(d, Topic.Pull, r);
      }
    }

    /** The exclusive cutover stops the old container before the new one starts. */
    method ClearTheWay(d: DeployRecord, liveName: string, requiresExclusiveCutover: bool, ghost r0: Run)
        returns (ghost r: Run)
      requires r0 == BeforeStart(external, r0, []) && r0.d == d.Value() && liveName == r0.Live()
      requires requiresExclusiveCutover == Exclusive(external, r0.app)
      modifies this
      ensures r == r0.Goto(StartStaging, []) && old(End(r0)) == End(r)
    {
      hide RunToEnd;
      r := EmitEvent(d, Info, Topic.Start, r0);
      if requiresExclusiveCutover && liveName != "" {
        r := StopOldFirst(d, liveName, r);
      }
    }

    method StopOldFirst(d: DeployRecord, liveName: string, ghost r0: Run) returns (ghost r: Run)
      requires r0.pc.StopFirst? && r0.todo == [r0.Ev(Info, StopOld)] && r0.d == d.Value() && liveName == r0.Live()
      modifies this
      ensures r == r0.Goto(StartStaging, []) && old(End(r0)) == End(r)
    {
      hide StagingName, DefaultName, RunToEnd, AfterEffect, StepRun, StepWorld, Step, StoreDeploy, StopContainer, StartContainer, RouteTo, StoreApp;
      r := EmitEvent(d, Info, StopOld, r0);
      ghost var w := State();
      var stopped := StopAndRemove(liveName);
      UnrollCutover(external, r, w, answers, clock - 1);
      r := AfterCutover(external, r, w, answers(clock - 1));
      if !stopped {
        r := EmitEvent(d, Warn, StopOld, r);
      }
    }

    method StartStagingContainer(d: DeployRecord, stagingName: string, ghost r0: Run) returns (ok: bool, ghost r: Run)
      requires r0.pc.StartStaging? && r0.todo == [] && r0.d == d.Value() && stagingName == r0.Staging()
      modifies this, d
      ensures old(End(r0)) == End(r)
      ensures r == r0.(d := d.Value()).Goto(if ok then AwaitHealth else Done, [])
    {
      hide StagingName, DefaultName, RunToEnd, AfterEffect, StepRun, StepWorld, Step, StoreDeploy, StopContainer, StartContainer, RouteTo, StoreApp;
      ghost var w := State();
      var containerID := StartContainerWithConfig(stagingName);
      UnrollCutover(external, r0, w, answers, clock - 1);
      r := AfterCutover(external, r0, w, answers(clock - 1));
      ok := containerID.Some?;
      if !ok {
        r := Abort(d, Topic.Start, r);
        return;
      }
      d.container := containerID.value;
      r := EmitEvent(d, Info, Topic.Start, r);
      r := EmitEvent(d, Info, HealthCheck, r);
    }

    /** A failed health check removes the staging container and ends as auto_rollback. */
    method AutoRollback(d: DeployRecord, stagingName: string, ghost r0: Run) returns (ghost r: Run)
      requires r0.pc.CleanupUnhealthy? && r0.d == d.Value() && stagingName == r0.Staging()
      requires r0.todo == [r0.Ev(Error, HealthCheck), r0.Ev(Info, Topic.AutoRollback)]
      modifies this, d
      ensures r == r0.(d := d.Value()).Goto(Done, []) && old(End(r0)) == End(r)
    {
      hide StagingName, DefaultName, RunToEnd, StoreDeploy, StopContainer, StartContainer, RouteTo, StoreApp, ProgressEvents, AfterBuilding, AfterPreparing, AfterCutover;
      r := EmitEvent(d, Error, HealthCheck, r0);
      r := EmitEvent(d, Info, Topic.AutoRollback, r);
      r := RemoveStaging(stagingName, r);
      r := Complete(d, AutoRolledBack, r);
      r := EmitEvent(d, Info, Topic.AutoRollback, r);
    }

    method CheckHealth(d: DeployRecord, stagingName: string, ghost r0: Run) returns (healthy: bool, ghost r: Run)
      requires r0.pc.AwaitHealth? && r0.todo == [] && r0.d == d.Value() && stagingName == r0.Staging()
      modifies this, d
      ensures old(End(r0)) == End(r)
      ensures !healthy ==> r == r0.(d := d.Value()).Goto(Done, [])
      ensures healthy ==> r == AfterHealthy(external, r0.(d := d.Value()), []) == AfterHealthy(external, r, [])
      ensures healthy ==> r.app == r0.app && r.d == d.Value() && r.skipPull == r0.skipPull
      ensures healthy ==> stagingName in running && running == old(running)
    {
      hide AfterCutover, EffectOn, StagingName, DefaultName, RunToEnd, AfterEffect, StepRun, StepWorld, Step, StoreDeploy, StopContainer, StartContainer, RouteTo, StoreApp, AfterHealthy, AfterRoute;
      ghost var w := State();
      healthy := WaitForHealth(stagingName);
      UnrollHealth(external, r0, w, answers, clock - 1);
      r := if healthy then AfterHealthy(external, r0.(d := r0.d.(health := Health.Healthy)), [r0.Ev(Info, HealthCheck)])
           else AfterUnhealthy(r0);
      if healthy {
        d.health := Health.Healthy;
        AfterHealthyRest(external, r0.(d := d.Value()), r0.Ev(Info, HealthCheck));
        r := EmitEvent(d, Info, HealthCheck, r);
      } else {
        d.health := Unhealthy;
        r := AutoRollback(d, stagingName, r);
      }
    }

    method SwitchRouteTo(app: AppRecord, d: DeployRecord, stagingName: string, ghost r0: Run) returns (ok: bool, ghost r: Run)
      requires r0.pc.SwitchRoute? && r0.app == app.Value() && r0.d == d.Value() && stagingName == r0.Staging()
      requires r0.todo == [r0.Ev(Info, RouteUpdate)]
      modifies this, d
      ensures old(End(r0)) == End(r)
      ensures ok ==> unchanged(d) && r == AfterRoute(external, r0.Goto(SwitchRoute, []), [])
      ensures !ok ==> r == r0.(d := d.Value()).Goto(Done, [])
    {
      hide StagingName, DefaultName, RunToEnd, AfterEffect, StepRun, StepWorld, Step, StoreDeploy, StopContainer, StartContainer, RouteTo, StoreApp;
      r := EmitEvent(d, Info, RouteUpdate, r0);
      ghost var w := State();
      ok := UpdateRoute(app.name, stagingName);
      UnrollCutover(external, r, w, answers, clock - 1);
      r := AfterCutover(external, r, w, answers(clock - 1));
      if ok {
        r := EmitEvent(d, Info, RouteUpdate, r);
        return;
      }
      r := AbandonStaging(d, stagingName, r);
    }

    /** A failed route update removes the staging container and fails the deploy. */
    method AbandonStaging(d: DeployRecord, stagingName: string, ghost r0: Run) returns (ghost r: Run)
      requires r0.pc.CleanupUnrouted? && r0.d == d.Value() && stagingName == r0.Staging()
      requires r0.todo == [r0.Ev(Error, RouteUpdate)]
      modifies this, d
      ensures r == r0.(d := d.Value()).Goto(Done, []) && old(End(r0)) == End(r)
    {
      hide StagingName, DefaultName, RunToEnd;
      r := EmitEvent(d, Error, RouteUpdate, r0);
      r := RemoveStaging(stagingName, r);
      r := FailDeploy(d, r);
    }

    method StopOldLive(d: DeployRecord, liveName: string, ghost r0: Run) returns (ghost r: Run)
      requires r0.pc.StopPrevious? && r0.todo == [r0.Ev(Info, StopOld)] && r0.d == d.Value() && liveName == r0.Live()
      modifies this
      ensures r == r0.Goto(StoreSuccess, []) && old(End(r0)) == End(r)
    {
      hide StagingName, DefaultName, RunToEnd, AfterEffect, StepRun, StepWorld, Step, StoreDeploy, StopContainer, StartContainer, RouteTo, StoreApp;
      r := EmitEvent(d, Info, StopOld, r0);
      ghost var w := State();
      var stopped := StopAndRemove(liveName);
      UnrollCutover(external, r, w, answers, clock - 1);
      r := AfterCutover(external, r, w, answers(clock - 1));
      if !stopped {
        r := EmitEvent(d, Warn, StopOld, r);
      } else {
        r := EmitEvent(d, Info, StopOld, r);
      }
    }

    method FinalizeSuccess(app: AppRecord, d: DeployRecord, stagingName: string, ghost r0: Run) returns (ghost r: Run)
      requires r0.pc.StoreSuccess? && r0.todo == [] && r0.app == app.Value() && r0.d == d.Value()
      requires stagingName == r0.Staging()
      modifies this, app, d
      ensures app.active && app.image == d.image && app.current == Some(d.id) && app.live == stagingName
      ensures d.status == Success && d.completedAt == Some(answers(old(clock)).now) && d.image == old(d.image)
      ensures r == Run(Done, [], app.Value(), d.Value(), r0.skipPull) && old(End(r0)) == End(r)
    {
      hide StagingName, DefaultName, RunToEnd, StoreDeploy, StopContainer, StartContainer, RouteTo, StoreApp, ProgressEvents, AfterBuilding, AfterPreparing, AfterCutover;
      r := Complete(d, Success, r0);
      r := Promote(app, d, stagingName, r);
    }

    /** The app's row now describes this deploy; the last event says so. */
    method Promote(app: AppRecord, d: DeployRecord, stagingName: string, ghost r0: Run) returns (ghost r: Run)
      requires r0.pc.UpdateApp? && r0.todo == [] && r0.app == app.Value() && r0.d == d.Value()
      requires stagingName == r0.Staging()
      modifies this, app
      ensures app.active && app.image == d.image && app.current == Some(d.id) && app.live == stagingName
      ensures r == Run(Done, [], app.Value(), d.Value(), r0.skipPull) && old(End(r0)) == End(r)
    {
      hide StagingName, DefaultName, RunToEnd, StoreDeploy, StopContainer, StartContainer, RouteTo, StoreApp, ProgressEvents, AfterBuilding, AfterPreparing, AfterCutover;
      r := r0;
      ghost var w := State();
      app.active := true;
      app.image := d.image;
      app.current := Some(d.id);
      app.live := stagingName;
      UpdateApp(app);
      Unroll(external, r, w, answers, clock - 1);
      r := r.(app := app.Value()).Goto(Done, [r.Ev(Info, Topic.Finalize)]);
      r := EmitEvent(d, Info, Topic.Finalize, r);
    }

    /** execute: the blue/green cutover of one deploy. It succeeds exactly when all it asks for
        is granted; refused settings, a failed pull and a failed start end it as failed. */
    method Execute(app: AppRecord, d: DeployRecord, skipPull: bool)
      modifies this, app, d
      ensures old(End(Run(Pc.MarkRunning, [], app.Value(), d.Value(), skipPull)))
           == (Conf(Run(Done, [], app.Value(), d.Value(), skipPull), State()), clock)
      ensures var job := Job(external, old(app.Value()), old(d.Value()), skipPull, old(State()));
              var h := old(Heard(Run(Pc.MarkRunning, [], app.Value(), d.Value(), skipPull)));
        && (d.status.Success? <==> job.IsRouted(h))
        && ((Validate in h && !h[Validate].ok) || (!skipPull && PullImage in h && !h[PullImage].ok) ==>
              d.status.Failed? && running == old(running) && routes == old(routes) && apps == old(apps))
        && (StartStaging in h && h[StartStaging].start.StartFailed? ==>
              d.status.Failed? && running == job.Up(h) && routes == old(routes) && apps == old(apps))
    {
      hide StagingName, DefaultName, RunToEnd, Asked;
      SucceedsExactly(external, app.Value(), d.Value(), skipPull, State(), answers, clock);
      FailsUntouched(external, app.Value(), d.Value(), skipPull, State(), answers, clock);
      CarryOut(app, d, skipPull);
    }

    /** execute, in the steps of the step machine. */
    method CarryOut(app: AppRecord, d: DeployRecord, skipPull: bool)
      modifies this, app, d
      ensures old(End(Run(Pc.MarkRunning, [], app.Value(), d.Value(), skipPull)))
           == (Conf(Run(Done, [], app.Value(), d.Value(), skipPull), State()), clock)
    {
      hide StagingName, DefaultName, AfterEffect, EffectOn;
      ghost var r := Run(Pc.MarkRunning, [], app.Value(), d.Value(), skipPull);
      var ok := true;
      ok, r := MarkAndValidate(d, r);
      if !ok { return; }
      if !skipPull {
        ok, r := PullImageOf(d, r);
        if !ok { return; }
      }
      r := EmitEvent(d, Info, Topic.Pull, r);
      r := Cutover(app, d, r);
    }

    /** execute, from the choice of container names to the end. */
    method Cutover(app: AppRecord, d: DeployRecord, ghost r0: Run) returns (ghost r: Run)
      requires r0 == BeforeStart(external, r0, []) && r0.app == app.Value() && r0.d == d.Value()
      modifies this, app, d
      ensures r == Run(Done, [], app.Value(), d.Value(), r0.skipPull) && old(End(r0)) == End(r)
    {
      hide StagingName, DefaultName, RunToEnd, AfterEffect, EffectOn, BeforeStart, AfterHealthy, AfterRoute;
      r := r0;
      var stagingName := StagingName(app.name, d.id);
      var liveName := app.live;
      if liveName == "" {
        liveName := DefaultName(app.name);
      }
      var requiresExclusiveCutover := app.mode == PortMode || RequiresExclusiveSwitch(external, app.Value());
      r := ClearTheWay(d, liveName, requiresExclusiveCutover, r);
      var ok;
      ok, r := StartStagingContainer(d, stagingName, r);
      if ok {
        r := PromoteIfHealthy(app, d, stagingName, liveName, requiresExclusiveCutover, r);
      }
    }

    /** execute, once the staging container has started. */
    method PromoteIfHealthy(app: AppRecord, d: DeployRecord, stagingName: string, liveName: string,
                            requiresExclusiveCutover: bool, ghost r0: Run) returns (ghost r: Run)
      requires r0 == Run(AwaitHealth, [], app.Value(), d.Value(), r0.skipPull)
      requires stagingName == r0.Staging() && liveName == r0.Live()
      requires requiresExclusiveCutover == Exclusive(external, app.Value())
      modifies this, app, d
      ensures r == Run(Done, [], app.Value(), d.Value(), r0.skipPull) && old(End(r0)) == End(r)
    {
      hide StagingName, DefaultName, RunToEnd, AfterEffect, EffectOn, AfterHealthy;
      var healthy;
      healthy, r := CheckHealth(d, stagingName, r0);
      if healthy {
        r := GoLive(app, d, stagingName, liveName, requiresExclusiveCutover, r);
      }
    }

    /** execute, once the staging container is healthy. */
    method GoLive(app: AppRecord, d: DeployRecord, stagingName: string, liveName: string,
                  requiresExclusiveCutover: bool, ghost r0: Run) returns (ghost r: Run)
      requires r0 == AfterHealthy(external, r0, []) && r0.app == app.Value() && r0.d == d.Value()
      requires stagingName == r0.Staging() && liveName == r0.Live()
      requires requiresExclusiveCutover == Exclusive(external, app.Value())
      modifies this, app, d
      ensures r == Run(Done, [], app.Value(), d.Value(), r0.skipPull) && old(End(r0)) == End(r)
    {
      hide StagingName, DefaultName, RunToEnd, AfterEffect, EffectOn;
      r := r0;
      var ok;
      if app.mode == DomainMode {
        if RequiresExclusiveSwitch(external, app.Value()) {
          r := EmitEvent(d, Info, RouteUpdate, r);
        } else {
          ok, r := SwitchRouteTo(app, d, stagingName, r);
          if !ok { return; }
        }
      } else {
        r := EmitEvent(d, Info, RouteUpdate, r);
      }
      if liveName != stagingName && !requiresExclusiveCutover {
        r := StopOldLive(d, liveName, r);
      }
      r := FinalizeSuccess(app, d, stagingName, r);
    }

    /** prepareTalosBuild: an error leaves the run at the failure its caller records. */
    method PrepareTalosBuild(app: AppRecord, d: DeployRecord, ghost r0: Run) returns (ok: bool, ghost r: Run)
      requires r0.pc.Setup? && r0.todo == [] && r0.app == app.Value() && r0.d == d.Value()
      modifies this, d
      ensures old(End(r0)) == End(r)
      ensures r == if ok then r0.(d := d.Value(), skipPull := true).Goto(Pc.MarkRunning, [])
                   else r0.(d := d.Value()).Goto(Fail, [])
    {
      hide StagingName, DefaultName, RunToEnd;
      ok, r := CheckBuildSetup(app, d, r0);
      if !ok { return; }
      if d.commit == "" {
        ok, r := ResolveBuildCommit(d, r);
        if !ok { return; }
      }
      ok, r := CloneAndBuild(d, r);
    }

    method CheckBuildSetup(app: AppRecord, d: DeployRecord, ghost r0: Run) returns (ok: bool, ghost r: Run)
      requires r0.pc.Setup? && r0.todo == [] && r0.app == app.Value() && r0.d == d.Value()
      modifies this`clock, this`events, this`published
      ensures old(End(r0)) == End(r)
      ensures r == if !ok then r0.Goto(Fail, [])
                   else if d.commit == "" then r0.Goto(Resolve, [r0.Ev(Info, ResolveCommit)])
                   else r0.Goto(BuildImage, [r0.Ev(Info, Build)])
    {
      hide StagingName, DefaultName, RunToEnd, AfterEffect, StepRun, StepWorld, Step;
      ghost var w := State();
      var c := Answer();   // getBuilder
      UnrollBuilding(external, r0, w, answers, clock - 1);
      r := AfterBuilding(r0, c);
      ok := c.ok && app.repoURL != "";
      if !ok {
        r := EmitEvent(d, Error, BuildSetup, r);
      }
    }

    method ResolveBuildCommit(d: DeployRecord, ghost r0: Run) returns (ok: bool, ghost r: Run)
      requires r0.pc.Resolve? && r0.todo == [r0.Ev(Info, ResolveCommit)] && r0.d == d.Value()
      modifies this, d
      ensures old(End(r0)) == End(r)
      ensures r == if ok then r0.(d := d.Value()).Goto(BuildImage, [r0.Ev(Info, Build)])
                   else r0.(d := d.Value()).Goto(Fail, [])
    {
      hide StagingName, DefaultName, RunToEnd, AfterEffect, StepRun, StepWorld, Step, StoreDeploy, StopContainer, StartContainer, RouteTo, StoreApp;
      r := EmitEvent(d, Info, ResolveCommit, r0);
      ghost var w := State();
      var c := Answer();   // resolveBuildCommitSHA
      UnrollBuilding(external, r, w, answers, clock - 1);
      r := AfterBuilding(r, c);
      ok := c.ok;
      if ok {
        d.commit := c.text;
        r := StoreResolvedCommit(d, r);
      } else {
        r := EmitEvent(d, Error, ResolveCommit, r);
      }
    }

    method StoreResolvedCommit(d: DeployRecord, ghost r0: Run) returns (ghost r: Run)
      requires r0.pc.StoreCommit? && r0.todo == [] && r0.d == d.Value()
      modifies this`clock, this`deploys, this`events, this`published
      ensures r == r0.Goto(BuildImage, [r0.Ev(Info, Build)]) && old(End(r0)) == End(r)
    {
      hide StagingName, DefaultName, RunToEnd, AfterEffect, StepRun, StepWorld, Step, StoreDeploy, StopContainer, StartContainer, RouteTo, StoreApp;
      ghost var w := State();
      UpdateDeploy(d);
      UnrollBuilding(external, r0, w, answers, clock - 1);
      r := AfterBuilding(r0, answers(clock - 1));
      r := EmitEvent(d, Info, ResolveCommit, r);
    }

    method CloneAndBuild(d: DeployRecord, ghost r0: Run) returns (ok: bool, ghost r: Run)
      requires r0.pc.BuildImage? && r0.todo == [r0.Ev(Info, Build)] && r0.d == d.Value()
      modifies this, d
      ensures old(End(r0)) == End(r)
      ensures r == if ok then r0.(d := d.Value(), skipPull := true).Goto(Pc.MarkRunning, [])
                   else r0.(d := d.Value()).Goto(Fail, [])
    {
      hide RunToEnd, ProgressEvents;
      r := EmitEvent(d, Info, Build, r0);
      var progress;
      ok, progress, r := BuildLocally(d, r);
      r := EmitProgress(d, progress, if ok then [] else [r.Ev(Error, Build)], r);
      if ok {
        r := StoreBuiltImage(d, r);
      } else {
        r := EmitEvent(d, Error, Build, r);
      }
    }

    method BuildLocally(d: DeployRecord, ghost r0: Run) returns (ok: bool, progress: seq<(Level, Topic)>, ghost r: Run)
      requires r0.pc.BuildImage? && r0.todo == [] && r0.d == d.Value()
      modifies this`clock, d`image
      ensures old(End(r0)) == End(r)
      ensures r == r0.(d := d.Value()).Goto(if ok then StoreImage else Fail,
                     ProgressEvents(d.id, progress) + if ok then [] else [r0.Ev(Error, Build)])
    {
      hide StagingName, DefaultName, RunToEnd, AfterEffect, StepRun, StepWorld, Step, StoreDeploy, StopContainer, StartContainer, RouteTo, StoreApp, ProgressEvents;
      ghost var w := State();
      var c := Answer();   // CloneAndBuildWithProgress
      UnrollBuilding(external, r0, w, answers, clock - 1);
      r := AfterBuilding(r0, c);
      ok, progress := c.ok, c.progress;
      if ok {
        d.image := c.text;
        assert ProgressEvents(d.id, progress) + [] == ProgressEvents(d.id, progress);
      }
    }

    method StoreBuiltImage(d: DeployRecord, ghost r0: Run) returns (ghost r: Run)
      requires r0.pc.StoreImage? && r0.todo == [] && r0.d == d.Value()
      modifies this`clock, this`deploys, this`events, this`published
      ensures r == r0.(skipPull := true).Goto(Pc.MarkRunning, []) && old(End(r0)) == End(r)
    {
      hide StagingName, DefaultName, RunToEnd, AfterEffect, StepRun, StepWorld, Step, StoreDeploy, StopContainer, StartContainer, RouteTo, StoreApp;
      ghost var w := State();
      UpdateDeploy(d);
      UnrollBuilding(external, r0, w, answers, clock - 1);
      r := AfterBuilding(r0, answers(clock - 1));
      r := EmitEvent(d, Info, Build, r);
    }

    /** The progress callback of the builder. */
    method EmitProgress(d: DeployRecord, progress: seq<(Level, Topic)>, ghost rest: seq<Event>, ghost r0: Run)
        returns (ghost r: Run)
      requires r0.todo == ProgressEvents(d.id, progress) + rest
      modifies this`clock, this`events, this`published
      ensures r == r0.Goto(r0.pc, rest) && old(End(r0)) == End(r)
    {
      hide StagingName, DefaultName, RunToEnd;
      r := r0;
      for i := 0 to |progress|
        invariant r == r0.Goto(r0.pc, r0.todo[i..])
        invariant old(End(r0)) == End(r)
      {
        assert r.todo[0] == Event(d.id, progress[i].0, progress[i].1);
        r := EmitEvent(d, progress[i].0, progress[i].1, r);
      }
    }

    /** executeQueued: what runs in the background after Deploy. A local build that fails ends
        the deploy as failed and touches no container. */
    method ExecuteQueued(app: AppRecord, d: DeployRecord)
      modifies this, app, d
      ensures old(End(QueuedRun(app.Value(), d.Value()))).1 == clock
      ensures var end := old(End(QueuedRun(app.Value(), d.Value()))).0;
              end.w == State() && end.run.app == app.Value() && end.run.d == d.Value()
      ensures var h := old(Heard(QueuedRun(app.Value(), d.Value())));
              old(app.buildMode.TalosBuild? && d.image == "") &&
              ((Setup in h && (!h[Setup].ok || app.repoURL == "")) || (BuildImage in h && !h[BuildImage].ok)
               || (old(d.commit) == "" && Resolve in h && !h[Resolve].ok)) ==>
                d.status.Failed? && running == old(running) && routes == old(routes) && apps == old(apps)
    {
      hide StagingName, DefaultName, RunToEnd, Asked, QueuedRun;
      if app.buildMode.TalosBuild? && d.image == "" {
        UnbuiltFails(external, app.Value(), d.Value(), State(), answers, clock);
      }
      CarryOutQueued(app, d);
    }

    /** executeQueued, in the steps of the step machine. */
    method CarryOutQueued(app: AppRecord, d: DeployRecord)
      modifies this, app, d
      ensures old(End(QueuedRun(app.Value(), d.Value()))).1 == clock
      ensures var end := old(End(QueuedRun(app.Value(), d.Value()))).0;
              end.w == State() && end.run.app == app.Value() && end.run.d == d.Value()
    {
      hide StagingName, DefaultName, AfterEffect, EffectOn;
      ghost var r := EmitEvent(d, Info, Queue, QueuedRun(app.Value(), d.Value()));
      var skipPull := false;
      if app.buildMode == TalosBuild && d.image == "" {
        var ok;
        ok, r := PrepareTalosBuild(app, d, r);
        if !ok {
          r := FailDeploy(d, r);
          return;
        }
        skipPull := true;
      }
      CarryOut(app, d, skipPull);
    }

    /** The store hands out ids in order. */
    ghost predicate IdsBelowNext()
      reads this
    {
      forall j | j in deploys :: j < nextId
    }

    method GetLatestDeploy(app: nat) returns (r: Option<nat>)
      requires IdsBelowNext()
      ensures LatestDeploy(deploys, app, r)
      ensures r.Some? ==> r.value in deploys && deploys[r.value].appId == app
      ensures forall j | j in deploys && deploys[j].appId == app ::
                r.Some? && deploys[j].createdAt <= deploys[r.value].createdAt
    {
      r := None;
      for id := 0 to nextId
        invariant r.Some? ==> r.value in deploys && deploys[r.value].appId == app
        invariant forall j | j in deploys && deploys[j].appId == app && j < id ::
                    r.Some? && deploys[j].createdAt <= deploys[r.value].createdAt
      {
        if id in deploys && deploys[id].appId == app
           && (r.None? || deploys[r.value].createdAt <= deploys[id].createdAt) {
          r := Some(id);
        }
      }
    }

    method GetLatestSuccessfulDeploy(app: nat) returns (r: Option<nat>)
      requires IdsBelowNext()
      ensures LatestSuccess(deploys, app, r)
      ensures r.Some? ==> r.value in deploys && deploys[r.value].appId == app && deploys[r.value].status.Success?
      ensures forall j | j in deploys && deploys[j].appId == app && deploys[j].status.Success? ::
                r.Some? && deploys[j].createdAt <= deploys[r.value].createdAt
    {
      r := None;
      ghost var won := map j | j in deploys && deploys[j].status.Success? :: deploys[j];
      for id := 0 to nextId
        invariant r.Some? ==> r.value in won && won[r.value].appId == app
        invariant forall j | j in won && won[j].appId == app && j < id ::
                    r.Some? && won[j].createdAt <= won[r.value].createdAt
      {
        if id in deploys && deploys[id].appId == app && deploys[id].status.Success?
           && (r.None? || deploys[r.value].createdAt <= deploys[id].createdAt) {
          r := Some(id);
        }
      }
      forall j | j in deploys && deploys[j].appId == app && deploys[j].status.Success?
        ensures r.Some? && deploys[j].createdAt <= deploys[r.value].createdAt
      {
        assert j in won && won[j] == deploys[j];
      }
    }

    /** Deploy: refuse unless the latest deploy is over, create the row, hand the run over. */
    method Deploy(appID: nat, image: string, commit: string, branch: string, now: int)
        returns (res: Outcome, ghost latest: Option<nat>)
      requires IdsBelowNext()
      modifies this`clock, this`deploys, this`nextId
      ensures LatestDeploy(old(deploys), appID, latest)
      ensures res.Accepted? ==>
        && appID in old(apps) && res.app == old(apps[appID]) && res.app.managed
        && (latest.Some? ==> !InProgress(old(deploys)[latest.value]))
        && res.d == NewDeploy(old(State()), appID, image, commit, branch, None, now)
        && State() == CreateDeploy(old(State()), res.d)
        && (res.d.appId, res.d.image, res.d.commit, res.d.branch) == (appID, image, commit, branch)
        && res.d.trigger.Requested? && res.d.rollbackOf.None? && res.d.createdAt == now && res.d.id == old(nextId)
        && res.d.status.Pending? && res.d.startedAt.None? && res.d.completedAt.None?
        && res.d.container == "" && res.d.health.Unknown?
        && deploys == old(deploys)[res.d.id := res.d] && res.d.id !in old(deploys) && nextId == old(nextId) + 1
        && unchanged(`apps) && unchanged(`running) && unchanged(`routes) && unchanged(`events)
      ensures res.Accepted? <==>
        && answers(old(clock)).ok && appID in old(apps) && old(apps[appID]).managed
        && answers(old(clock) + 1).ok && (latest.Some? ==> !InProgress(old(deploys)[latest.value]))
        && answers(old(clock) + 2).stored
      ensures res.Refused? ==> State() == old(State())
      ensures latest.Some? && (old(deploys)[latest.value].status.Pending? || old(deploys)[latest.value].status.Running?) ==> res.Refused?
      ensures res.Refused? ==>
                res.why == (if !answers(old(clock)).ok then StoreError
                            else if appID !in apps then NoSuchApp
                            else if !apps[appID].managed then NotManaged
                            else if !answers(old(clock) + 1).ok then StoreError
                            else if latest.Some? && InProgress(old(deploys)[latest.value]) then DeployInProgress
                            else StoreError)
      ensures IdsBelowNext()
    {
      var found := GetLatestDeploy(appID);
      latest := found;
      var c := Answer();   // GetApp
      if !c.ok {
        return Refused(StoreError), latest;
      }
      if appID !in apps {
        return Refused(NoSuchApp), latest;
      }
      var app := apps[appID];
      if !app.managed {
        return Refused(NotManaged), latest;
      }
      c := Answer();   // GetLatestDeploy
      if !c.ok {
        return Refused(StoreError), latest;
      }
      if found.Some? && (deploys[found.value].status == Running || deploys[found.value].status == Pending) {
        return Refused(DeployInProgress), latest;
      }
      var d := NewDeploy(State(), appID, image, commit, branch, None, now);
      c := Answer();
      if !c.stored {
        return Refused(StoreError), latest;
      }
      deploys, nextId := deploys[d.id := d], nextId + 1;
      res := Accepted(app, d);
    }

    /** Rollback: no check for a deploy in progress, the image of the latest success. */
    method Rollback(appID: nat, now: int) returns (res: Outcome, ghost prev: Option<nat>)
      requires IdsBelowNext()
      modifies this`clock, this`deploys, this`nextId
      ensures LatestSuccess(old(deploys), appID, prev)
      ensures res.Accepted? ==>
        && appID in old(apps) && res.app == old(apps[appID]) && res.app.managed
        && prev.Some? && prev.value in old(deploys)
        && res.d == NewDeploy(old(State()), appID, old(deploys)[prev.value].image, "", old(deploys)[prev.value].branch, prev, now)
        && State() == CreateDeploy(old(State()), res.d)
        && (res.d.appId, res.d.image, res.d.commit, res.d.branch)
             == (appID, old(deploys)[prev.value].image, "", old(deploys)[prev.value].branch)
        && res.d.trigger.ByRollback? && res.d.rollbackOf == prev && res.d.createdAt == now && res.d.id == old(nextId)
        && res.d.status.Pending? && res.d.startedAt.None? && res.d.completedAt.None?
        && res.d.container == "" && res.d.health.Unknown?
        && deploys == old(deploys)[res.d.id := res.d] && res.d.id !in old(deploys) && nextId == old(nextId) + 1
        && unchanged(`apps) && unchanged(`running) && unchanged(`routes) && unchanged(`events)
      ensures res.Accepted? <==>
        && answers(old(clock)).ok && appID in old(apps) && old(apps[appID]).managed
        && answers(old(clock) + 1).ok && prev.Some? && answers(old(clock) + 2).stored
      ensures res.Refused? ==> State() == old(State())
      ensures res.Refused? ==>
                res.why == (if !answers(old(clock)).ok then StoreError
                            else if appID !in apps then NoSuchApp
                            else if !apps[appID].managed then NotManaged
                            else if answers(old(clock) + 1).ok && prev.None? then NothingToRollBackTo
                            else StoreError)
      ensures IdsBelowNext()
    {
      var found := GetLatestSuccessfulDeploy(appID);
      prev := found;
      var c := Answer();   // GetApp
      if !c.ok {
        return Refused(StoreError), prev;
      }
      if appID !in apps {
        return Refused(NoSuchApp), prev;
      }
      var app := apps[appID];
      if !app.managed {
        return Refused(NotManaged), prev;
      }
      c := Answer();   // GetLatestSuccessfulDeploy
      if !c.ok {
        return Refused(StoreError), prev;
      }
      if found.None? {
        return Refused(NothingToRollBackTo), prev;
      }
      var last := deploys[found.value];
      var d := NewDeploy(State(), appID, last.image, "", last.branch, found, now);
      c := Answer();
      if !c.stored {
        return Refused(StoreError), prev;
      }
      deploys, nextId := deploys[d.id := d], nextId + 1;
      res := Accepted(app, d);
    }
  }
}
