/** One background run of a deploy as a step machine. Every step is one store write, one
    container or route operation, or one emitted event; what the outside world answers is
    an arbitrary Choice. */
module DeployMachine {
  import opened Domain
  import opened Names

  /** The next operation of the run. */
  datatype Pc =
    | Setup | Resolve | StoreCommit | BuildImage | StoreImage
    | MarkRunning | Validate | PullImage | StopFirst | StartStaging | AwaitHealth
    | CleanupUnhealthy | StoreAutoRollback | SwitchRoute | CleanupUnrouted | StopPrevious
    | StoreSuccess | UpdateApp | Fail | Done

  /** StopAndRemove: no error, or an error with the container stopped or left as it was. */
  datatype StopOutcome = Removed | StoppedNotRemoved | NotStopped
  /** StartContainerWithConfig: the container is up or has already exited, or an error is
      returned and the container may or may not have been left up. */
  datatype StartOutcome = Started(alive: bool) | StartFailed(leftRunning: bool)
  /** UpdateRoute: an error may come before or after the route file was truncated. */
  datatype RouteOutcome = Routed | RouteKept | RouteTruncated

  datatype Choice = Choice(
    stored: bool, ok: bool, now: int, text: string, progress: seq<(Level, Topic)>,
    stop: StopOutcome, start: StartOutcome, route: RouteOutcome)

  /** app and d are the run's own copies; todo holds the events to emit before pc. */
  datatype Run = Run(pc: Pc, todo: seq<Event>, app: App, d: Deploy, skipPull: bool)
  {
    function Staging(): string { StagingName(app.name, d.id) }
    function Live(): string { LiveName(app) }
    predicate Finished() { pc.Done? && todo == [] }
    function Ev(level: Level, topic: Topic): Event { Event(d.id, level, topic) }
    function Goto(next: Pc, evs: seq<Event>): Run { this.(pc := next, todo := evs) }
  }

  function LiveName(a: App): string
  {
    if a.live == "" then DefaultName(a.name) else a.live
  }

  datatype Conf = Conf(run: Run, w: World)

  function StopContainer(w: World, name: string, how: StopOutcome): World
  {
    if how.NotStopped? then w else w.(running := w.running - {name})
  }

  function StartContainer(w: World, name: string, how: StartOutcome): World
  {
    if how == Started(true) || how == StartFailed(true) then w.(running := w.running + {name}) else w
  }

  function RouteTo(w: World, app: string, name: string, how: RouteOutcome): World
  {
    match how
    case Routed => w.(routes := w.routes[app := name])
    case RouteKept => w
    case RouteTruncated => w.(routes := w.routes - {app})
  }

  function EmitEvent(w: World, e: Event, ok: bool): World
  {
    if ok then w.(events := w.events + [e]) else w
  }

  function ProgressEvents(id: nat, progress: seq<(Level, Topic)>): (evs: seq<Event>)
    ensures |evs| == |progress|
    ensures forall e :: e in evs ==> e.deploy == id
  {
    seq(|progress|, i requires 0 <= i < |progress| => Event(id, progress[i].0, progress[i].1))
  }

  /** What executeQueued begins with for a deploy created by Deploy. */
  function QueuedRun(app: App, d: Deploy): Run
  {
    Run(if app.buildMode.TalosBuild? && d.image == "" then Setup else MarkRunning,
        [Event(d.id, Info, Queue)], app, d, false)
  }

  /** Rollback goes straight to execute. */
  function RollbackRun(app: App, d: Deploy): Run
  {
    Run(MarkRunning, [], app, d, false)
  }

  /** After the pull: collect the environment, then stop the old container first or not. */
  function BeforeStart(external: bool, r: Run, evs: seq<Event>): Run
  {
    if Exclusive(external, r.app)
    then r.Goto(StopFirst, evs + [r.Ev(Info, Topic.Start), r.Ev(Info, StopOld)])
    else r.Goto(StartStaging, evs + [r.Ev(Info, Topic.Start)])
  }

  /** After the route: stop the old live container unless that was done first. */
  function AfterRoute(external: bool, r: Run, evs: seq<Event>): Run
  {
    if r.Live() != r.Staging() && !Exclusive(external, r.app)
    then r.Goto(StopPrevious, evs + [r.Ev(Info, StopOld)])
    else r.Goto(StoreSuccess, evs)
  }

  /** A healthy staging container: switch the route if the app is routed by Talos. */
  function AfterHealthy(external: bool, r: Run, evs: seq<Event>): Run
  {
    if r.app.mode.DomainMode? && !RequiresExclusiveSwitch(external, r.app)
    then r.Goto(SwitchRoute, evs + [r.Ev(Info, RouteUpdate)])
    else AfterRoute(external, r, evs + [r.Ev(Info, RouteUpdate)])
  }

  /** Automatic rollback: the staging container goes, the live one is not touched here. */
  function AfterUnhealthy(r: Run): Run
  {
    r.(d := r.d.(health := Unhealthy)).Goto(CleanupUnhealthy, [r.Ev(Error, HealthCheck), r.Ev(Info, Topic.AutoRollback)])
  }

  lemma AfterHealthyRest(external: bool, r: Run, e: Event)
    ensures var next := AfterHealthy(external, r, [e]);
            next.todo != [] && next.todo[0] == e && next.(todo := next.todo[1..]) == AfterHealthy(external, r, [])
            && AfterHealthy(external, r, []) == AfterHealthy(external, AfterHealthy(external, r, []), [])
            && next.app == r.app && next.d == r.d && next.skipPull == r.skipPull
  {
    var a, b := r.Ev(Info, RouteUpdate), r.Ev(Info, StopOld);
    assert ([e] + [a])[1..] == [] + [a];
    assert ([e] + [a] + [b])[1..] == [] + [a] + [b];
  }

  /** How much of the run is left. */
  function Rank(pc: Pc): nat
  {
    match pc
    case Setup => 16 case Resolve => 15 case StoreCommit => 14 case BuildImage => 13 case StoreImage => 12
    case MarkRunning => 11 case Validate => 10 case PullImage => 9 case StopFirst => 8 case StartStaging => 7
    case AwaitHealth => 6 case SwitchRoute => 5 case CleanupUnhealthy => 4 case StopPrevious => 4
    case CleanupUnrouted => 3 case StoreAutoRollback => 3 case StoreSuccess => 3 case UpdateApp => 2
    case Fail => 2 case Done => 0
  }

  /** prepareTalosBuild: resolve the commit and build the image locally. */
  predicate Building(pc: Pc)
  {
    pc.Setup? || pc.Resolve? || pc.StoreCommit? || pc.BuildImage? || pc.StoreImage?
  }

  function AfterBuilding(r: Run, c: Choice): (next: Run)
    requires r.todo == [] && Building(r.pc)
    ensures Rank(next.pc) < Rank(r.pc)
    ensures next.app == r.app && next.d == r.d.(commit := next.d.commit, image := next.d.image)
    ensures Building(next.pc) || next.pc.Fail? || next.pc.MarkRunning?
  {
    match r.pc
    case Setup =>
      if !c.ok || r.app.repoURL == "" then r.Goto(Fail, [r.Ev(Error, BuildSetup)])
      else if r.d.commit == "" then r.Goto(Resolve, [r.Ev(Info, ResolveCommit)])
      else r.Goto(BuildImage, [r.Ev(Info, Build)])
    case Resolve =>
      if c.ok then r.(d := r.d.(commit := c.text)).Goto(StoreCommit, [])
      else r.Goto(Fail, [r.Ev(Error, ResolveCommit)])
    case StoreCommit => r.Goto(BuildImage, [r.Ev(Info, ResolveCommit), r.Ev(Info, Build)])
    case BuildImage =>
      if c.ok then r.(d := r.d.(image := c.text)).Goto(StoreImage, ProgressEvents(r.d.id, c.progress))
      else r.Goto(Fail, ProgressEvents(r.d.id, c.progress) + [r.Ev(Error, Build)])
    case StoreImage => r.(skipPull := true).Goto(MarkRunning, [r.Ev(Info, Build)])
  }

  /** execute up to the point where containers are touched. */
  predicate Preparing(pc: Pc)
  {
    pc.MarkRunning? || pc.Validate? || pc.PullImage?
  }

  function AfterPreparing(external: bool, r: Run, c: Choice): (next: Run)
    requires r.todo == [] && Preparing(r.pc)
    ensures Rank(next.pc) < Rank(r.pc)
    ensures next.app == r.app && next.d == if r.pc.MarkRunning? then Marked(r.d, c.now) else r.d
    ensures next.pc.Validate? || next.pc.PullImage? || next.pc.StopFirst? || next.pc.StartStaging? || next.pc.Fail?
  {
    match r.pc
    case MarkRunning => r.(d := Marked(r.d, c.now)).Goto(Validate, [r.Ev(Info, Topic.Start)])
    case Validate =>
      if !c.ok then r.Goto(Fail, [r.Ev(Error, Topic.Start)])
      else if r.skipPull then BeforeStart(external, r, [r.Ev(Info, Pull)])
      else r.Goto(PullImage, [r.Ev(Info, Pull)])
    case PullImage =>
      if c.ok then BeforeStart(external, r, [r.Ev(Info, Pull)])
      else r.Goto(Fail, [r.Ev(Error, Pull)])
  }

  /** execute from the first container operation until the new container serves. */
  predicate CuttingOver(pc: Pc)
  {
    pc.StopFirst? || pc.StartStaging? || pc.AwaitHealth? || pc.SwitchRoute? || pc.StopPrevious?
  }

  function AfterCutover(external: bool, r: Run, w: World, c: Choice): (next: Run)
    requires r.todo == [] && CuttingOver(r.pc)
    ensures Rank(next.pc) < Rank(r.pc)
    ensures next.app == r.app && next.d == r.d.(container := next.d.container, health := next.d.health)
    ensures CuttingOver(next.pc) || next.pc.CleanupUnhealthy? || next.pc.CleanupUnrouted? || next.pc.StoreSuccess? || next.pc.Fail?
  {
    match r.pc
    case StopFirst => r.Goto(StartStaging, if c.stop.Removed? then [] else [r.Ev(Warn, StopOld)])
    case StartStaging =>
      if c.start.Started?
      then r.(d := r.d.(container := c.text)).Goto(AwaitHealth, [r.Ev(Info, Topic.Start), r.Ev(Info, HealthCheck)])
      else r.Goto(Fail, [r.Ev(Error, Topic.Start)])
    case AwaitHealth =>
      if Healthy(r, w, c)
      then AfterHealthy(external, r.(d := r.d.(health := Health.Healthy)), [r.Ev(Info, HealthCheck)])
      else AfterUnhealthy(r)
    case SwitchRoute =>
      if c.route.Routed? then AfterRoute(external, r, [r.Ev(Info, RouteUpdate)])
      else r.Goto(CleanupUnrouted, [r.Ev(Error, RouteUpdate)])
    case StopPrevious => r.Goto(StoreSuccess, [r.Ev(if c.stop.Removed? then Info else Warn, StopOld)])
  }

  /** The run after the operation at its pc; the remaining ones clean up and finalize. */
  function AfterEffect(external: bool, r: Run, w: World, c: Choice): (next: Run)
    requires r.todo == []
    ensures !r.pc.Done? ==> Rank(next.pc) < Rank(r.pc)
  {
    if Building(r.pc) then AfterBuilding(r, c)
    else if Preparing(r.pc) then AfterPreparing(external, r, c)
    else if CuttingOver(r.pc) then AfterCutover(external, r, w, c)
    else match r.pc
      case CleanupUnhealthy => r.Goto(StoreAutoRollback, [])
      case StoreAutoRollback => r.(d := Completed(r.d, AutoRolledBack, c.now)).Goto(Done, [r.Ev(Info, Topic.AutoRollback)])
      case CleanupUnrouted => r.Goto(Fail, [])
      case StoreSuccess => r.(d := Completed(r.d, Success, c.now)).Goto(UpdateApp, [])
      case UpdateApp => r.(app := Promoted(r)).Goto(Done, [r.Ev(Info, Topic.Finalize)])
      case Fail => r.(d := Completed(r.d, Failed, c.now)).Goto(Done, [r.Ev(Error, Topic.Finalize)])
      case _ => r
  }

  function Marked(d: Deploy, now: int): Deploy
  {
    d.(startedAt := Some(now), status := Running)
  }

  function Completed(d: Deploy, s: Status, now: int): Deploy
  {
    d.(completedAt := Some(now), status := s)
  }

  /** The app's row once the deploy succeeded. */
  function Promoted(r: Run): App
  {
    r.app.(active := true, image := r.d.image, current := Some(r.d.id), live := r.Staging())
  }

  /** WaitForHealth returns no error only for a container it saw running. */
  predicate Healthy(r: Run, w: World, c: Choice)
  {
    c.ok && r.Staging() in w.running
  }

  /** The operations that call UpdateDeploy, and the record they pass. */
  predicate StoresDeploy(pc: Pc)
  {
    pc.StoreCommit? || pc.StoreImage? || pc.MarkRunning? || pc.StoreAutoRollback? || pc.StoreSuccess? || pc.Fail?
  }

  function Written(r: Run, c: Choice): Deploy
  {
    match r.pc
    case MarkRunning => Marked(r.d, c.now)
    case StoreAutoRollback => Completed(r.d, AutoRolledBack, c.now)
    case StoreSuccess => Completed(r.d, Success, c.now)
    case Fail => Completed(r.d, Failed, c.now)
    case _ => r.d
  }

  /** The operations that call StopAndRemove, and the container they name. */
  predicate Stops(pc: Pc)
  {
    pc.StopFirst? || pc.StopPrevious? || pc.CleanupUnhealthy? || pc.CleanupUnrouted?
  }

  function StopTarget(r: Run): string
  {
    if r.pc.StopFirst? || r.pc.StopPrevious? then r.Live() else r.Staging()
  }

  /** The shared state after the operation at the run's pc. */
  function EffectOn(r: Run, w: World, c: Choice): World
  {
    if StoresDeploy(r.pc) then StoreDeploy(w, Written(r, c), c.stored)
    else if Stops(r.pc) then StopContainer(w, StopTarget(r), c.stop)
    else match r.pc
      case StartStaging => StartContainer(w, r.Staging(), c.start)
      case SwitchRoute => RouteTo(w, r.app.name, r.Staging(), c.route)
      case UpdateApp => Domain.StoreApp(w, Promoted(r), c.stored)
      case _ => w
  }

  function StepRun(external: bool, r: Run, w: World, c: Choice): Run
  {
    if r.todo != [] then r.(todo := r.todo[1..]) else AfterEffect(external, r, w, c)
  }

  function StepWorld(r: Run, w: World, c: Choice): World
  {
    if r.todo != [] then EmitEvent(w, r.todo[0], c.stored) else EffectOn(r, w, c)
  }

  function Step(external: bool, s: Conf, c: Choice): Conf
  {
    Conf(StepRun(external, s.run, s.w, c), StepWorld(s.run, s.w, c))
  }

  /** Every run ends, whatever the environment answers; step k gets answer env(k). */
  function RunToEnd(external: bool, s: Conf, env: nat -> Choice, k: nat): (r: (Conf, nat))
    ensures r.0.run.Finished()
    decreases Rank(s.run.pc), |s.run.todo|
  {
    if s.run.Finished() then (s, k)
    else RunToEnd(external, Step(external, s, env(k)), env, k + 1)
  }

  lemma Unroll(external: bool, r: Run, w: World, env: nat -> Choice, k: nat)
    requires !r.Finished()
    ensures RunToEnd(external, Conf(r, w), env, k) ==
            RunToEnd(external, Step(external, Conf(r, w), env(k)), env, k + 1)
  {
  }

  /** Unroll by phase: one operation of prepareTalosBuild or execute. */
  lemma UnrollBuilding(external: bool, r: Run, w: World, env: nat -> Choice, k: nat)
    requires r.todo == [] && Building(r.pc)
    ensures RunToEnd(external, Conf(r, w), env, k)
         == RunToEnd(external, Conf(AfterBuilding(r, env(k)), EffectOn(r, w, env(k))), env, k + 1)
  {
  }

  lemma UnrollPreparing(external: bool, r: Run, w: World, env: nat -> Choice, k: nat)
    requires r.todo == [] && Preparing(r.pc)
    ensures RunToEnd(external, Conf(r, w), env, k)
         == RunToEnd(external, Conf(AfterPreparing(external, r, env(k)), EffectOn(r, w, env(k))), env, k + 1)
  {
  }

  lemma UnrollCutover(external: bool, r: Run, w: World, env: nat -> Choice, k: nat)
    requires r.todo == [] && CuttingOver(r.pc)
    ensures RunToEnd(external, Conf(r, w), env, k)
         == RunToEnd(external, Conf(AfterCutover(external, r, w, env(k)), EffectOn(r, w, env(k))), env, k + 1)
  {
  }

  lemma UnrollHealth(external: bool, r: Run, w: World, env: nat -> Choice, k: nat)
    requires r.todo == [] && r.pc.AwaitHealth?
    ensures RunToEnd(external, Conf(r, w), env, k)
         == RunToEnd(external, Conf(
              if Healthy(r, w, env(k))
              then AfterHealthy(external, r.(d := r.d.(health := Health.Healthy)), [r.Ev(Info, HealthCheck)])
              else AfterUnhealthy(r), w), env, k + 1)
  {
    UnrollCutover(external, r, w, env, k);
  }
}
