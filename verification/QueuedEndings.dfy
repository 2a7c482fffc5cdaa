/** Where a queued deploy ends: the local build, when there is one, then execute. */
module QueuedEndings {
  import opened Domain
  import opened Names
  import opened DeployMachine
  import opened DeployStatus
  import opened Endings

  /** What a local build says before execute: which answers let it through, and what it hands on. */
  predicate SetUp(j: Job, h: map<Pc, Choice>)
  {
    Setup in h && h[Setup].ok && j.app.repoURL != ""
  }

  predicate Sourced(j: Job, h: map<Pc, Choice>)
  {
    SetUp(j, h) && (j.d.commit == "" ==> Resolve in h && h[Resolve].ok)
  }

  predicate Built(j: Job, h: map<Pc, Choice>)
  {
    Sourced(j, h) && BuildImage in h && h[BuildImage].ok
  }

  function Sourcing(j: Job, h: map<Pc, Choice>): Deploy
  {
    if j.d.commit == "" && Resolve in h && h[Resolve].ok then j.d.(commit := h[Resolve].text) else j.d
  }

  function Execution(j: Job, h: map<Pc, Choice>): Job
    requires BuildImage in h
  {
    j.(skip := true, d := Sourcing(j, h).(image := h[BuildImage].text))
  }

  predicate Unbuilt(j: Job, h: map<Pc, Choice>)
  {
    || (Setup in h && !SetUp(j, h))
    || (SetUp(j, h) && j.d.commit == "" && Resolve in h && !h[Resolve].ok)
    || (Sourced(j, h) && BuildImage in h && !h[BuildImage].ok)
  }

  /** A local build under way, or one that failed. */
  predicate UnderBuild(j: Job, r: Run, v: World, h: map<Pc, Choice>)
  {
    && j.Untouched(v) && r.app == j.app && !r.skipPull && !j.skip
    && StartStaging !in h && AwaitHealth !in h
    && match r.pc
       case Setup => r.d == j.d && Resolve !in h
       case Resolve => r.d == j.d && SetUp(j, h) && j.d.commit == "" && Resolve !in h
       case StoreCommit => r.d == Sourcing(j, h) && j.d.commit == "" && Sourced(j, h)
       case BuildImage => r.d == Sourcing(j, h) && Sourced(j, h)
       case StoreImage => Built(j, h) && r.d == Execution(j, h).d
       case Fail => Unbuilt(j, h) && r.d == Sourcing(j, h)
       case Done => Unbuilt(j, h) && Pc.Fail in h && r.d == Sourcing(j, h).(status := Failed, completedAt := Some(h[Pc.Fail].now))
       case _ => false
  }

  predicate QueueTale(j: Job, external: bool, s: Conf, h: map<Pc, Choice>)
  {
    && j.external == external
    && (UnderBuild(j, s.run, s.w, h) || (Built(j, h) && Tale(Execution(j, h), external, s, h)))
  }

  lemma BuildTells(j: Job, external: bool, s: Conf, c: Choice, h: map<Pc, Choice>)
    requires UnderBuild(j, s.run, s.w, h) && j.external == external && s.run.todo == [] && Building(s.run.pc)
    ensures QueueTale(j, external, Conf(AfterBuilding(s.run, c), EffectOn(s.run, s.w, c)), h[s.run.pc := c])
  {
    hide StagingName, DefaultName, StartContainer, StopContainer, RouteTo, StoreApp, ProgressEvents;
  }

  lemma UnbuiltTells(j: Job, external: bool, s: Conf, c: Choice, h: map<Pc, Choice>)
    requires UnderBuild(j, s.run, s.w, h) && j.external == external && s.run.todo == [] && s.run.pc.Fail?
    ensures UnderBuild(j, StepRun(external, s.run, s.w, c), StepWorld(s.run, s.w, c), h[s.run.pc := c])
  {
    hide StagingName, DefaultName, StartContainer, StopContainer, RouteTo, StoreApp;
  }

  lemma QueueEventTells(j: Job, external: bool, s: Conf, c: Choice, h: map<Pc, Choice>)
    requires UnderBuild(j, s.run, s.w, h) && s.run.todo != []
    ensures UnderBuild(j, StepRun(external, s.run, s.w, c), StepWorld(s.run, s.w, c), h)
  {
    hide StagingName, DefaultName, AfterEffect, EffectOn;
  }

  /** Carrying out an operation of execute changes nothing about the build behind it. */
  lemma BuildStands(j: Job, h: map<Pc, Choice>, pc: Pc, c: Choice)
    requires Built(j, h) && !Building(pc)
    ensures Built(j, h[pc := c]) && Execution(j, h[pc := c]) == Execution(j, h)
  {
  }

  lemma StepBuilds(external: bool, r: Run, w: World, c: Choice)
    requires r.todo == [] && Building(r.pc)
    ensures StepRun(external, r, w, c) == AfterBuilding(r, c) && StepWorld(r, w, c) == EffectOn(r, w, c)
  {
    hide AfterBuilding, EffectOn;
  }

  lemma QueueStepTells(j: Job, external: bool, s: Conf, c: Choice, h: map<Pc, Choice>)
    requires QueueTale(j, external, s, h) && !s.run.Finished()
    ensures QueueTale(j, external, Step(external, s, c), Answered(s.run, c, h))
  {
    hide StepRun, StepWorld, AfterBuilding, EffectOn, Sourced, Filled, Execution, AfterEffect;
    if UnderBuild(j, s.run, s.w, h) {
      if s.run.todo != [] {
        QueueEventTells(j, external, s, c, h);
      } else if Building(s.run.pc) {
        BuildTells(j, external, s, c, h);
        StepBuilds(external, s.run, s.w, c);
      } else {
        UnbuiltTells(j, external, s, c, h);
      }
    } else {
      StepTells(Execution(j, h), external, s, c, h);
      if s.run.todo == [] {
        BuildStands(j, h, s.run.pc, c);
      }
    }
  }

  lemma {:induction false} QueueRunTells(j: Job, external: bool, s: Conf, env: nat -> Choice, k: nat, h: map<Pc, Choice>)
    requires QueueTale(j, external, s, h)
    ensures QueueTale(j, external, RunToEnd(external, s, env, k).0, Asked(external, s, env, k, h))
    decreases Rank(s.run.pc), |s.run.todo|
  {
    hide QueueTale, StepRun, StepWorld, AfterEffect, EffectOn;
    if !s.run.Finished() {
      StepRanks(external, s.run, s.w, env(k));
      QueueStepTells(j, external, s, env(k), h);
      QueueRunTells(j, external, Step(external, s, env(k)), env, k + 1, Answered(s.run, env(k), h));
    }
  }

  predicate Local(app: App, d: Deploy)
  {
    app.buildMode.TalosBuild? && d.image == ""
  }

  lemma QueuedTells(j: Job, env: nat -> Choice, k: nat)
    requires j.skip == false
    ensures var s := Conf(QueuedRun(j.app, j.d), j.w);
            var e, h := RunToEnd(j.external, s, env, k).0, Asked(j.external, s, env, k, map[]);
            if Local(j.app, j.d) then QueueTale(j, j.external, e, h) else Tale(j, j.external, e, h)
  {
    hide StagingName, DefaultName, RunToEnd, Asked;
    var s := Conf(QueuedRun(j.app, j.d), j.w);
    if Local(j.app, j.d) {
      QueueRunTells(j, j.external, s, env, k, map[]);
    } else {
      RunTells(j, j.external, s, env, k, map[]);
    }
  }

  /** A queued deploy succeeds exactly when the image could be built, if it is built here, and
      execute was answered yes all along; only an image that was not built here is pulled. */
  lemma QueuedSucceedsExactly(external: bool, app: App, d: Deploy, w: World, env: nat -> Choice, k: nat)
    ensures var s := Conf(QueuedRun(app, d), w);
      var e, h := RunToEnd(external, s, env, k).0, Asked(external, s, env, k, map[]);
      var here := app.buildMode.TalosBuild? && d.image == "";
      e.run.d.status.Success? <==>
        && (here ==> Setup in h && h[Setup].ok && app.repoURL != "" && (d.commit == "" ==> Resolve in h && h[Resolve].ok)
                     && BuildImage in h && h[BuildImage].ok)
        && Validate in h && h[Validate].ok
        && (here || (PullImage in h && h[PullImage].ok))
        && (external || app.mode.PortMode? ==> StopFirst in h)
        && StartStaging in h && h[StartStaging].start.Started?
        && AwaitHealth in h && h[AwaitHealth].ok && StagingName(app.name, d.id) in Job(external, app, d, here, w).Up(h)
        && (external || app.mode.PortMode? || (SwitchRoute in h && h[SwitchRoute].route.Routed?))
  {
    hide StagingName, DefaultName, RunToEnd, Asked;
    QueuedTells(Job(external, app, d, false, w), env, k);
  }

  /** A local build that cannot be set up, has no commit or fails ends the deploy as failed,
      before anything was started and with containers, routes and apps as they were. */
  lemma UnbuiltFails(external: bool, app: App, d: Deploy, w: World, env: nat -> Choice, k: nat)
    requires app.buildMode.TalosBuild? && d.image == ""
    ensures var s := Conf(QueuedRun(app, d), w);
      var e, h := RunToEnd(external, s, env, k).0, Asked(external, s, env, k, map[]);
      (Setup in h && (!h[Setup].ok || app.repoURL == ""))
      || (d.commit == "" && Resolve in h && !h[Resolve].ok) || (BuildImage in h && !h[BuildImage].ok) ==>
        && e.run.d.status.Failed? && e.run.d.image == "" && e.run.d.startedAt == d.startedAt
        && e.w.running == w.running && e.w.routes == w.routes && e.w.apps == w.apps && StartStaging !in h
  {
    hide StagingName, DefaultName, RunToEnd, Asked;
    QueuedTells(Job(external, app, d, false, w), env, k);
  }

  /** A local build hands on the image it built and the commit it was built from. */
  lemma BuiltImageIsRun(external: bool, app: App, d: Deploy, w: World, env: nat -> Choice, k: nat)
    requires app.buildMode.TalosBuild? && d.image == ""
    ensures var s := Conf(QueuedRun(app, d), w);
      var e, h := RunToEnd(external, s, env, k).0, Asked(external, s, env, k, map[]);
      e.run.d.status.Success? || e.run.d.status.AutoRolledBack? ==>
        && BuildImage in h && e.run.d.image == h[BuildImage].text
        && (if d.commit != "" then e.run.d.commit == d.commit else Resolve in h && e.run.d.commit == h[Resolve].text)
        && (e.run.d.status.Success? ==> e.run.app.image == h[BuildImage].text)
  {
    hide StagingName, DefaultName, RunToEnd, Asked;
    QueuedTells(Job(external, app, d, false, w), env, k);
  }
}
