/** Where a run ends, in terms of the answers it got: the final status, containers, routes,
    app rows and record of every run of execute, and of a local build before it. */
module Endings {
  import opened Domain
  import opened Names
  import opened DeployMachine
  import opened DeployStatus

  /** The answer each operation got that the run came to. */
  ghost function Asked(external: bool, s: Conf, env: nat -> Choice, k: nat, h: map<Pc, Choice>): map<Pc, Choice>
    decreases Rank(s.run.pc), |s.run.todo|
  {
    if s.run.Finished() then h
    else
      StepRanks(external, s.run, s.w, env(k));
      Asked(external, Step(external, s, env(k)), env, k + 1, Answered(s.run, env(k), h))
  }

  function Answered(r: Run, c: Choice, h: map<Pc, Choice>): map<Pc, Choice>
  {
    if r.todo == [] then h[r.pc := c] else h
  }

  /** What execute starts from; what follows reads off the answers h. */
  datatype Job = Job(external: bool, app: App, d: Deploy, skip: bool, w: World)
  {
    predicate Exclusively() { app.mode.PortMode? || external }
    function Staging(): string { StagingName(app.name, d.id) }
    function Old(): string { if app.live == "" then DefaultName(app.name) else app.live }

    predicate Validated(h: map<Pc, Choice>) { Validate in h && h[Validate].ok }
    predicate Ready(h: map<Pc, Choice>) { Validated(h) && (skip || (PullImage in h && h[PullImage].ok)) }

    /** Containers once the old one was stopped first or not, and after the start. */
    function Cleared(h: map<Pc, Choice>): set<string>
    {
      if Exclusively() && StopFirst in h && !h[StopFirst].stop.NotStopped? then w.running - {Old()} else w.running
    }

    function Up(h: map<Pc, Choice>): set<string>
    {
      if StartStaging in h && (h[StartStaging].start == Started(true) || h[StartStaging].start == StartFailed(true))
      then Cleared(h) + {Staging()} else Cleared(h)
    }

    predicate IsUp(h: map<Pc, Choice>)
    {
      Ready(h) && (Exclusively() ==> StopFirst in h) && StartStaging in h && h[StartStaging].start.Started?
    }

    predicate IsHealthy(h: map<Pc, Choice>)
    {
      IsUp(h) && AwaitHealth in h && h[AwaitHealth].ok && Staging() in Up(h)
    }

    predicate IsRouted(h: map<Pc, Choice>)
    {
      IsHealthy(h) && (Exclusively() || (SwitchRoute in h && h[SwitchRoute].route.Routed?))
    }

    /** Containers after the stop asked for at pc. */
    function Without(h: map<Pc, Choice>, pc: Pc, name: string): set<string>
    {
      if pc in h && !h[pc].stop.NotStopped? then Up(h) - {name} else Up(h)
    }

    predicate Only(v: World, running: set<string>) { v.running == running && v.routes == w.routes && v.apps == w.apps }
    predicate Untouched(v: World) { Only(v, w.running) }

    /** The four ways to fail, and what each leaves. */
    predicate Refused(v: World, h: map<Pc, Choice>)
    {
      || (Validate in h && !h[Validate].ok && StartStaging !in h && Untouched(v))
      || (Validated(h) && !skip && PullImage in h && !h[PullImage].ok && StartStaging !in h && Untouched(v))
      || (Ready(h) && (Exclusively() ==> StopFirst in h) && StartStaging in h && !h[StartStaging].start.Started?
          && Only(v, Up(h)))
      || (Misrouted(h) && CleanupUnrouted in h && v.apps == w.apps
          && v.running == Without(h, CleanupUnrouted, Staging()) && v.routes == RoutesKept(h))
    }

    predicate Misrouted(h: map<Pc, Choice>)
    {
      IsHealthy(h) && !Exclusively() && SwitchRoute in h && !h[SwitchRoute].route.Routed?
    }

    function RoutesKept(h: map<Pc, Choice>): map<string, string>
      requires SwitchRoute in h
    {
      if h[SwitchRoute].route.RouteKept? then w.routes else w.routes - {app.name}
    }

    predicate Sick(h: map<Pc, Choice>) { IsUp(h) && AwaitHealth in h && !IsHealthy(h) }

    predicate RolledBack(v: World, h: map<Pc, Choice>)
    {
      Sick(h) && CleanupUnhealthy in h && Only(v, Without(h, CleanupUnhealthy, Staging()))
    }

    /** The record, but for its status and completion time. */
    function Record(h: map<Pc, Choice>): Deploy
      requires MarkRunning in h
    {
      d.(startedAt := Some(h[Pc.MarkRunning].now),
         container := if StartStaging in h && h[StartStaging].start.Started? then h[StartStaging].text else d.container,
         health := if AwaitHealth !in h then d.health else if IsHealthy(h) then Health.Healthy else Unhealthy)
    }

    /** The new container serves and the old one was told to stop. */
    predicate Switched(v: World, h: map<Pc, Choice>)
    {
      && IsRouted(h)
      && v.routes == (if Exclusively() then w.routes else w.routes[app.name := Staging()])
      && v.running == (if Exclusively() || Old() == Staging() then Up(h) else Without(h, StopPrevious, Old()))
      && (!Exclusively() && Old() != Staging() ==> StopPrevious in h)
    }

    function Live(): App
    {
      app.(active := true, current := Some(d.id), live := Staging(), image := d.image)
    }

    predicate Served(v: World, h: map<Pc, Choice>)
    {
      && Switched(v, h) && Pc.UpdateApp in h
      && v.apps == (if h[Pc.UpdateApp].stored && app.id in w.apps then w.apps[app.id := Live()] else w.apps)
    }
  }

  /** How far the run has come, and what that means for the shared state. */
  predicate Story(j: Job, r: Run, v: World, h: map<Pc, Choice>)
  {
    match r.pc
    case MarkRunning => j.Untouched(v) && StartStaging !in h
    case Validate => j.Untouched(v) && StartStaging !in h
    case PullImage => j.Untouched(v) && StartStaging !in h && j.Validated(h) && !j.skip
    case StopFirst => j.Untouched(v) && StartStaging !in h && j.Ready(h) && j.Exclusively()
    case StartStaging => j.Only(v, j.Cleared(h)) && StartStaging !in h && j.Ready(h) && (j.Exclusively() ==> StopFirst in h)
    case AwaitHealth => j.IsUp(h) && j.Only(v, j.Up(h))
    case CleanupUnhealthy => j.Sick(h) && j.Only(v, j.Up(h))
    case StoreAutoRollback => j.RolledBack(v, h)
    case SwitchRoute => j.IsHealthy(h) && !j.Exclusively() && j.Only(v, j.Up(h))
    case CleanupUnrouted => j.Misrouted(h) && v.running == j.Up(h) && v.apps == j.w.apps && v.routes == j.RoutesKept(h)
    case StopPrevious =>
      j.IsRouted(h) && !j.Exclusively() && j.Old() != j.Staging() && v.running == j.Up(h) && v.apps == j.w.apps
      && v.routes == j.w.routes[j.app.name := j.Staging()]
    case StoreSuccess => j.Switched(v, h) && v.apps == j.w.apps
    case UpdateApp => j.Switched(v, h) && v.apps == j.w.apps && r.d.status.Success?
    case Fail => j.Refused(v, h)
    case Done =>
      || (r.d.status.Success? && j.Served(v, h))
      || (r.d.status.AutoRolledBack? && j.RolledBack(v, h))
      || (r.d.status.Failed? && j.Refused(v, h))
    case _ => false
  }

  /** The run's own copies: the record as far as it has been filled in, and the app's row. */
  predicate Filled(j: Job, r: Run, h: map<Pc, Choice>)
  {
    && r.skipPull == j.skip
    && r.app == (if r.pc.Done? && r.d.status.Success? then j.Live() else j.app)
    && (Preparing(r.pc) || r.pc.StopFirst? || r.pc.StartStaging? || r.pc.AwaitHealth? ==> AwaitHealth !in h)
    && if r.pc.MarkRunning? then r.d == j.d
       else MarkRunning in h && r.d == j.Record(h).(status := r.d.status, completedAt := r.d.completedAt) && Closed(j, r, h)
  }

  /** The status and the completion time. */
  predicate Closed(j: Job, r: Run, h: map<Pc, Choice>)
  {
    match r.pc
    case UpdateApp => r.d.status.Success? && StoreSuccess in h && r.d.completedAt == Some(h[StoreSuccess].now)
    case Done =>
      || (r.d.status.Success? && StoreSuccess in h && r.d.completedAt == Some(h[StoreSuccess].now))
      || (r.d.status.AutoRolledBack? && StoreAutoRollback in h && r.d.completedAt == Some(h[StoreAutoRollback].now))
      || (r.d.status.Failed? && Pc.Fail in h && r.d.completedAt == Some(h[Pc.Fail].now))
    case _ => r.d.status.Running? && r.d.completedAt == j.d.completedAt
  }

  predicate Tale(j: Job, external: bool, s: Conf, h: map<Pc, Choice>)
  {
    j.external == external && Story(j, s.run, s.w, h) && Filled(j, s.run, h)
  }

  lemma EventTells(j: Job, external: bool, s: Conf, c: Choice, h: map<Pc, Choice>)
    requires Tale(j, external, s, h) && s.run.todo != []
    ensures Tale(j, external, Step(external, s, c), h)
  {
    hide StagingName, DefaultName, AfterEffect, EffectOn;
  }

  lemma PreparingTells(j: Job, external: bool, s: Conf, c: Choice, h: map<Pc, Choice>)
    requires Tale(j, external, s, h) && s.run.todo == [] && Preparing(s.run.pc)
    ensures Tale(j, external, Conf(AfterPreparing(external, s.run, c), EffectOn(s.run, s.w, c)), h[s.run.pc := c])
  {
    hide StagingName, DefaultName, RouteTo, StartContainer, StopContainer, StoreApp;
  }

  lemma ClearingTells(j: Job, external: bool, s: Conf, c: Choice, h: map<Pc, Choice>)
    requires Tale(j, external, s, h) && s.run.todo == [] && (s.run.pc.StopFirst? || s.run.pc.StartStaging?)
    ensures Story(j, AfterCutover(external, s.run, s.w, c), EffectOn(s.run, s.w, c), h[s.run.pc := c])
  {
    hide StagingName, DefaultName, RouteTo, StoreApp, StoreDeploy, Closed, AfterHealthy;
  }

  lemma HealthTells(j: Job, external: bool, s: Conf, c: Choice, h: map<Pc, Choice>)
    requires Tale(j, external, s, h) && s.run.todo == [] && s.run.pc.AwaitHealth?
    ensures Story(j, AfterCutover(external, s.run, s.w, c), EffectOn(s.run, s.w, c), h[s.run.pc := c])
  {
    hide StagingName, DefaultName, RouteTo, StartContainer, StopContainer, StoreApp, StoreDeploy, Closed;
  }

  lemma SwitchTells(j: Job, external: bool, s: Conf, c: Choice, h: map<Pc, Choice>)
    requires Tale(j, external, s, h) && s.run.todo == [] && (s.run.pc.SwitchRoute? || s.run.pc.StopPrevious?)
    ensures Story(j, AfterCutover(external, s.run, s.w, c), EffectOn(s.run, s.w, c), h[s.run.pc := c])
  {
    hide StagingName, DefaultName, StartContainer, StoreApp, StoreDeploy, Closed;
  }

  lemma HealthFills(j: Job, external: bool, s: Conf, c: Choice, h: map<Pc, Choice>)
    requires Tale(j, external, s, h) && s.run.todo == [] && s.run.pc.AwaitHealth?
    ensures Filled(j, AfterCutover(external, s.run, s.w, c), h[s.run.pc := c])
  {
    hide StagingName, DefaultName, StartContainer, StopContainer, RouteTo, StoreApp, StoreDeploy, EffectOn;
  }

  lemma CutoverFills(j: Job, external: bool, s: Conf, c: Choice, h: map<Pc, Choice>)
    requires Tale(j, external, s, h) && s.run.todo == [] && CuttingOver(s.run.pc) && !s.run.pc.AwaitHealth?
    ensures Filled(j, AfterCutover(external, s.run, s.w, c), h[s.run.pc := c])
  {
    hide StagingName, DefaultName, StartContainer, StopContainer, RouteTo, StoreApp, StoreDeploy, EffectOn;
  }

  predicate Closing(pc: Pc)
  {
    !Building(pc) && !Preparing(pc) && !CuttingOver(pc) && !pc.Done?
  }

  lemma CleanupTells(j: Job, external: bool, s: Conf, c: Choice, h: map<Pc, Choice>)
    requires Tale(j, external, s, h) && s.run.todo == [] && (s.run.pc.CleanupUnhealthy? || s.run.pc.CleanupUnrouted?)
    ensures Story(j, AfterEffect(external, s.run, s.w, c), EffectOn(s.run, s.w, c), h[s.run.pc := c])
  {
    hide StagingName, DefaultName, StartContainer, RouteTo, StoreApp, StoreDeploy, Closed;
  }

  lemma StoreTells(j: Job, external: bool, s: Conf, c: Choice, h: map<Pc, Choice>)
    requires Tale(j, external, s, h) && s.run.todo == [] && Closing(s.run.pc) && StoresDeploy(s.run.pc)
    ensures Story(j, AfterEffect(external, s.run, s.w, c), EffectOn(s.run, s.w, c), h[s.run.pc := c])
  {
    hide StagingName, DefaultName, StartContainer, StopContainer, RouteTo, StoreApp;
  }

  lemma PromotionTells(j: Job, external: bool, s: Conf, c: Choice, h: map<Pc, Choice>)
    requires Tale(j, external, s, h) && s.run.todo == [] && s.run.pc.UpdateApp?
    ensures Story(j, AfterEffect(external, s.run, s.w, c), EffectOn(s.run, s.w, c), h[s.run.pc := c])
  {
    hide StagingName, DefaultName, StartContainer, StopContainer, RouteTo, StoreDeploy;
  }

  lemma ClosingFills(j: Job, external: bool, s: Conf, c: Choice, h: map<Pc, Choice>)
    requires Tale(j, external, s, h) && s.run.todo == [] && Closing(s.run.pc)
    ensures Filled(j, AfterEffect(external, s.run, s.w, c), h[s.run.pc := c])
  {
    hide StagingName, DefaultName, StartContainer, StopContainer, RouteTo, StoreApp, StoreDeploy, EffectOn;
  }

  lemma {:induction false} RunTells(j: Job, external: bool, s: Conf, env: nat -> Choice, k: nat, h: map<Pc, Choice>)
    requires Tale(j, external, s, h)
    ensures Tale(j, external, RunToEnd(external, s, env, k).0, Asked(external, s, env, k, h))
    decreases Rank(s.run.pc), |s.run.todo|
  {
    hide Tale, StepRun, StepWorld, AfterEffect, EffectOn, AfterPreparing, AfterCutover;
    if !s.run.Finished() {
      StepRanks(external, s.run, s.w, env(k));
      StepTells(j, external, s, env(k), h);
      RunTells(j, external, Step(external, s, env(k)), env, k + 1, Answered(s.run, env(k), h));
    }
  }

  lemma StepTells(j: Job, external: bool, s: Conf, c: Choice, h: map<Pc, Choice>)
    requires Tale(j, external, s, h) && !s.run.Finished()
    ensures Tale(j, external, Step(external, s, c), Answered(s.run, c, h))
  {
    hide Filled, EffectOn, AfterPreparing, AfterCutover;
    if s.run.todo != [] {
      EventTells(j, external, s, c, h);
    } else if Preparing(s.run.pc) {
      PreparingTells(j, external, s, c, h);
    } else if CuttingOver(s.run.pc) {
      if s.run.pc.AwaitHealth? {
        HealthFills(j, external, s, c, h);
      } else {
        CutoverFills(j, external, s, c, h);
      }
      if s.run.pc.StopFirst? || s.run.pc.StartStaging? {
        ClearingTells(j, external, s, c, h);
      } else if s.run.pc.AwaitHealth? {
        HealthTells(j, external, s, c, h);
      } else {
        SwitchTells(j, external, s, c, h);
      }
    } else {
      if s.run.pc.CleanupUnhealthy? || s.run.pc.CleanupUnrouted? {
        CleanupTells(j, external, s, c, h);
      } else if s.run.pc.UpdateApp? {
        PromotionTells(j, external, s, c, h);
      } else {
        StoreTells(j, external, s, c, h);
      }
      ClosingFills(j, external, s, c, h);
    }
  }

  /** Every run of execute ends as the answers say. */
  lemma ExecuteTells(j: Job, env: nat -> Choice, k: nat)
    ensures var s := Conf(Run(MarkRunning, [], j.app, j.d, j.skip), j.w);
            Tale(j, j.external, RunToEnd(j.external, s, env, k).0, Asked(j.external, s, env, k, map[]))
  {
    hide StagingName, DefaultName, RunToEnd, Asked;
    var s := Conf(Run(Pc.MarkRunning, [], j.app, j.d, j.skip), j.w);
    RunTells(j, j.external, s, env, k, map[]);
  }

  /** A run succeeds exactly when everything it asked for was answered yes: the settings are
      valid, the image was pulled or was built here, the container started and was seen
      running, and the route was switched unless the app has none to switch. */
  lemma SucceedsExactly(external: bool, app: App, d: Deploy, skip: bool, w: World, env: nat -> Choice, k: nat)
    ensures var s := Conf(Run(MarkRunning, [], app, d, skip), w);
      var e, h := RunToEnd(external, s, env, k).0, Asked(external, s, env, k, map[]);
      e.run.d.status.Success? <==>
        && Validate in h && h[Validate].ok
        && (skip || (PullImage in h && h[PullImage].ok))
        && (external || app.mode.PortMode? ==> StopFirst in h)
        && StartStaging in h && h[StartStaging].start.Started?
        && AwaitHealth in h && h[AwaitHealth].ok && StagingName(app.name, d.id) in Job(external, app, d, skip, w).Up(h)
        && (external || app.mode.PortMode? || (SwitchRoute in h && h[SwitchRoute].route.Routed?))
  {
    hide StagingName, DefaultName, RunToEnd, Asked;
    ExecuteTells(Job(external, app, d, skip, w), env, k);
  }

  /** Refused settings, a failed pull or a failed start end the deploy as failed. The first two
      leave every container as it was, and no failure before the route touches routes or apps. */
  lemma FailsUntouched(external: bool, app: App, d: Deploy, skip: bool, w: World, env: nat -> Choice, k: nat)
    ensures var s := Conf(Run(MarkRunning, [], app, d, skip), w);
      var e, h := RunToEnd(external, s, env, k).0, Asked(external, s, env, k, map[]);
      && ((Validate in h && !h[Validate].ok) || (!skip && PullImage in h && !h[PullImage].ok) ==>
            e.run.d.status.Failed? && e.w.running == w.running && e.w.routes == w.routes && e.w.apps == w.apps)
      && (StartStaging in h && h[StartStaging].start.StartFailed? ==>
            e.run.d.status.Failed? && e.w.running == Job(external, app, d, skip, w).Up(h)
            && e.w.routes == w.routes && e.w.apps == w.apps)
  {
    hide StagingName, DefaultName, RunToEnd, Asked;
    ExecuteTells(Job(external, app, d, skip, w), env, k);
  }

  /** Once the container was started, the deploy is rolled back automatically exactly when it
      was not seen healthy; the container goes if it could be stopped, nothing else changes. */
  lemma RollsBackExactly(external: bool, app: App, d: Deploy, skip: bool, w: World, env: nat -> Choice, k: nat)
    ensures var s, j := Conf(Run(MarkRunning, [], app, d, skip), w), Job(external, app, d, skip, w);
      var e, h := RunToEnd(external, s, env, k).0, Asked(external, s, env, k, map[]);
      && (e.run.d.status.AutoRolledBack? <==>
            j.IsUp(h) && AwaitHealth in h && !(h[AwaitHealth].ok && StagingName(app.name, d.id) in j.Up(h)))
      && (e.run.d.status.AutoRolledBack? ==>
            && CleanupUnhealthy in h && e.w.routes == w.routes && e.w.apps == w.apps && e.run.app == app
            && e.w.running == if h[CleanupUnhealthy].stop.NotStopped? then j.Up(h) else j.Up(h) - {StagingName(app.name, d.id)})
  {
    hide StagingName, DefaultName, RunToEnd, Asked;
    ExecuteTells(Job(external, app, d, skip, w), env, k);
  }

  /** A failed route switch ends as failed, without the new container if it could be stopped,
      with the old one as it was, and with the old route unless the file was truncated. */
  lemma UnroutedFails(external: bool, app: App, d: Deploy, skip: bool, w: World, env: nat -> Choice, k: nat)
    ensures var s, j := Conf(Run(MarkRunning, [], app, d, skip), w), Job(external, app, d, skip, w);
      var e, h := RunToEnd(external, s, env, k).0, Asked(external, s, env, k, map[]);
      j.IsHealthy(h) && !external && app.mode.DomainMode? && SwitchRoute in h && !h[SwitchRoute].route.Routed? ==>
        && e.run.d.status.Failed? && e.w.apps == w.apps && e.run.app == app && CleanupUnrouted in h
        && e.w.running == (if h[CleanupUnrouted].stop.NotStopped? then j.Up(h) else j.Up(h) - {StagingName(app.name, d.id)})
        && e.w.routes == if h[SwitchRoute].route.RouteTruncated? then w.routes - {app.name} else w.routes
  {
    hide StagingName, DefaultName, RunToEnd, Asked;
    ExecuteTells(Job(external, app, d, skip, w), env, k);
  }

  /** What a success leaves: the route names the new container, which is up; the old one is
      gone if it could be stopped; the app's row, if it could be written, names deploy, image
      and container and is active. */
  lemma SuccessServes(external: bool, app: App, d: Deploy, skip: bool, w: World, env: nat -> Choice, k: nat)
    ensures var s, j := Conf(Run(MarkRunning, [], app, d, skip), w), Job(external, app, d, skip, w);
      var e, h := RunToEnd(external, s, env, k).0, Asked(external, s, env, k, map[]);
      var name, previous := StagingName(app.name, d.id), if app.live == "" then DefaultName(app.name) else app.live;
      e.run.d.status.Success? ==>
        && e.w.routes == (if external || app.mode.PortMode? then w.routes else w.routes[app.name := name])
        && e.w.running == (if !external && app.mode.DomainMode? && previous != name && StopPrevious in h && !h[StopPrevious].stop.NotStopped?
                           then j.Up(h) - {previous} else j.Up(h))
        && (!external && app.mode.DomainMode? && previous != name ==> StopPrevious in h)
        && name in e.w.running && Pc.UpdateApp in h
        && e.run.app == app.(active := true, image := d.image, current := Some(d.id), live := name)
        && e.w.apps == if h[Pc.UpdateApp].stored && app.id in w.apps then w.apps[app.id := e.run.app] else w.apps
  {
    hide StagingName, DefaultName, RunToEnd, Asked;
    ExecuteTells(Job(external, app, d, skip, w), env, k);
  }

  /** The record at the end: started and completed when the clock said so, with the container
      id that the start returned and the health that was seen. */
  lemma RecordIsFilled(external: bool, app: App, d: Deploy, skip: bool, w: World, env: nat -> Choice, k: nat)
    ensures var s, j := Conf(Run(MarkRunning, [], app, d, skip), w), Job(external, app, d, skip, w);
      var e, h := RunToEnd(external, s, env, k).0, Asked(external, s, env, k, map[]);
      && MarkRunning in h && e.run.d.startedAt == Some(h[Pc.MarkRunning].now)
      && e.run.d.container == (if StartStaging in h && h[StartStaging].start.Started? then h[StartStaging].text else d.container)
      && e.run.d.health == (if AwaitHealth !in h then d.health else if j.IsHealthy(h) then Health.Healthy else Unhealthy)
      && (e.run.d.status.Success? ==> StoreSuccess in h && e.run.d.completedAt == Some(h[StoreSuccess].now))
      && (e.run.d.status.AutoRolledBack? ==> StoreAutoRollback in h && e.run.d.completedAt == Some(h[StoreAutoRollback].now))
      && (e.run.d.status.Failed? ==> Pc.Fail in h && e.run.d.completedAt == Some(h[Pc.Fail].now))
      && (e.run.d.status.Success? || e.run.d.status.AutoRolledBack? || e.run.d.status.Failed?)
      && (e.run.d.image, e.run.d.commit, e.run.d.branch, e.run.d.rollbackOf) == (d.image, d.commit, d.branch, d.rollbackOf)
  {
    hide StagingName, DefaultName, RunToEnd, Asked;
    ExecuteTells(Job(external, app, d, skip, w), env, k);
  }
}
