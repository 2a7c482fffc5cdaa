/** What a run announces: the events it emits are exactly what each operation it carried out
    makes it say, and with a working store they are what the deploy's event log gains. */
module Announced {
  import opened Domain
  import opened Names
  import opened DeployMachine
  import opened DeployStatus
  import opened Endings

  /** An operation as the run carried it out: on whose behalf, with what answer, and whether
      the staging container was up. */
  datatype Op = Op(run: Run, c: Choice, up: bool)

  ghost function Ops(external: bool, s: Conf, env: nat -> Choice, k: nat): seq<Op>
    decreases Rank(s.run.pc), |s.run.todo|
  {
    if s.run.Finished() then []
    else
      StepRanks(external, s.run, s.w, env(k));
      (if s.run.todo == [] then [Op(s.run, env(k), s.run.Staging() in s.w.running)] else [])
      + Ops(external, Step(external, s, env(k)), env, k + 1)
  }

  /** The events the run emitted, those included that could not be stored. */
  ghost function Said(external: bool, s: Conf, env: nat -> Choice, k: nat): seq<Event>
    decreases Rank(s.run.pc), |s.run.todo|
  {
    if s.run.Finished() then []
    else
      StepRanks(external, s.run, s.w, env(k));
      (if s.run.todo == [] then [] else [s.run.todo[0]]) + Said(external, Step(external, s, env(k)), env, k + 1)
  }

  /** What an operation makes the run say until it comes to the next one. */
  function Says(external: bool, o: Op): seq<(Level, Topic)>
  {
    var exclusive := external || o.run.app.mode.PortMode?;
    var cutover := if exclusive then [(Info, Topic.Start), (Info, StopOld)] else [(Info, Topic.Start)];
    var oldLive := if o.run.app.live == "" then DefaultName(o.run.app.name) else o.run.app.live;
    var stop := if exclusive || oldLive == StagingName(o.run.app.name, o.run.d.id) then [] else [(Info, StopOld)];
    match o.run.pc
    case Setup =>
      if !o.c.ok || o.run.app.repoURL == "" then [(Error, BuildSetup)]
      else if o.run.d.commit == "" then [(Info, ResolveCommit)] else [(Info, Build)]
    case Resolve => if o.c.ok then [] else [(Error, ResolveCommit)]
    case StoreCommit => [(Info, ResolveCommit), (Info, Build)]
    case BuildImage => if o.c.ok then o.c.progress else o.c.progress + [(Error, Build)]
    case StoreImage => [(Info, Build)]
    case MarkRunning => [(Info, Topic.Start)]
    case Validate => if !o.c.ok then [(Error, Topic.Start)] else if o.run.skipPull then [(Info, Pull)] + cutover else [(Info, Pull)]
    case PullImage => if o.c.ok then [(Info, Pull)] + cutover else [(Error, Pull)]
    case StopFirst => if o.c.stop.Removed? then [] else [(Warn, StopOld)]
    case StartStaging => if o.c.start.Started? then [(Info, Topic.Start), (Info, HealthCheck)] else [(Error, Topic.Start)]
    case AwaitHealth =>
      if o.c.ok && o.up then [(Info, HealthCheck), (Info, RouteUpdate)] else [(Error, HealthCheck), (Info, Topic.AutoRollback)]
    case SwitchRoute => if o.c.route.Routed? then [(Info, RouteUpdate)] + stop else [(Error, RouteUpdate)]
    case StopPrevious => if o.c.stop.Removed? then [(Info, StopOld)] else [(Warn, StopOld)]
    case StoreAutoRollback => [(Info, Topic.AutoRollback)]
    case UpdateApp => [(Info, Topic.Finalize)]
    case Fail => [(Error, Topic.Finalize)]
    case _ => []
  }

  function Spoken(external: bool, ops: seq<Op>): seq<Event>
  {
    if ops == [] then []
    else ProgressEvents(ops[0].run.d.id, Says(external, ops[0])) + Spoken(external, ops[1..])
  }

  lemma LiftSays(id: nat, says: seq<(Level, Topic)>, evs: seq<Event>)
    requires |says| == |evs| && forall i | 0 <= i < |evs| :: evs[i] == Event(id, says[i].0, says[i].1)
    ensures evs == ProgressEvents(id, says)
  {
  }

  lemma BuildingSays(external: bool, r: Run, w: World, c: Choice)
    requires r.todo == [] && Building(r.pc)
    ensures AfterBuilding(r, c).todo
         == ProgressEvents(r.d.id, Says(external, Op(r, c, r.Staging() in w.running)))
  {
    hide StagingName, DefaultName;
    LiftSays(r.d.id, Says(external, Op(r, c, r.Staging() in w.running)), AfterBuilding(r, c).todo);
  }

  lemma PreparingSays(external: bool, r: Run, w: World, c: Choice)
    requires r.todo == [] && Preparing(r.pc)
    ensures AfterPreparing(external, r, c).todo
         == ProgressEvents(r.d.id, Says(external, Op(r, c, r.Staging() in w.running)))
  {
    hide StagingName, DefaultName;
    LiftSays(r.d.id, Says(external, Op(r, c, r.Staging() in w.running)), AfterPreparing(external, r, c).todo);
  }

  lemma CutoverSays(external: bool, r: Run, w: World, c: Choice)
    requires r.todo == [] && CuttingOver(r.pc)
    ensures AfterCutover(external, r, w, c).todo
         == ProgressEvents(r.d.id, Says(external, Op(r, c, r.Staging() in w.running)))
  {
    hide StagingName, DefaultName;
    LiftSays(r.d.id, Says(external, Op(r, c, r.Staging() in w.running)), AfterCutover(external, r, w, c).todo);
  }

  lemma ClosingSays(external: bool, r: Run, w: World, c: Choice)
    requires r.todo == [] && Closing(r.pc)
    ensures AfterEffect(external, r, w, c).todo
         == ProgressEvents(r.d.id, Says(external, Op(r, c, r.Staging() in w.running)))
  {
    hide StagingName, DefaultName;
    LiftSays(r.d.id, Says(external, Op(r, c, r.Staging() in w.running)), AfterEffect(external, r, w, c).todo);
  }

  lemma OpSays(external: bool, r: Run, w: World, c: Choice)
    requires r.todo == [] && !r.pc.Done?
    ensures StepRun(external, r, w, c).todo == ProgressEvents(r.d.id, Says(external, Op(r, c, r.Staging() in w.running)))
  {
    hide StagingName, DefaultName, Says, ProgressEvents, AfterBuilding, AfterPreparing, AfterCutover;
    if Building(r.pc) {
      BuildingSays(external, r, w, c);
    } else if Preparing(r.pc) {
      PreparingSays(external, r, w, c);
    } else if CuttingOver(r.pc) {
      CutoverSays(external, r, w, c);
    } else {
      ClosingSays(external, r, w, c);
    }
  }

  /** The events of a run are exactly what each operation it carried out makes it say, in order. */
  lemma {:induction false} SaidExactly(external: bool, s: Conf, env: nat -> Choice, k: nat)
    ensures Said(external, s, env, k) == s.run.todo + Spoken(external, Ops(external, s, env, k))
    decreases Rank(s.run.pc), |s.run.todo|
  {
    hide Says, ProgressEvents, AfterEffect, EffectOn, StepRun, StepWorld;
    if !s.run.Finished() {
      var next := Step(external, s, env(k));
      var rest := Ops(external, next, env, k + 1);
      StepRanks(external, s.run, s.w, env(k));
      SaidExactly(external, next, env, k + 1);
      if s.run.todo == [] {
        OpSays(external, s.run, s.w, env(k));
        assert ([Op(s.run, env(k), s.run.Staging() in s.w.running)] + rest)[1..] == rest;
      } else {
        assert next.run.todo == s.run.todo[1..] by { RestIsTodo(external, s.run, s.w, env(k)); }
        var said := Spoken(external, rest);
        assert Ops(external, s, env, k) == [] + rest == rest;
        assert [s.run.todo[0]] + (s.run.todo[1..] + said) == s.run.todo + said;
      }
    }
  }

  lemma RestIsTodo(external: bool, r: Run, w: World, c: Choice)
    requires r.todo != []
    ensures StepRun(external, r, w, c) == r.(todo := r.todo[1..])
  {
    hide AfterEffect;
  }

  /** With a working store the log gains those events, in that order. */
  lemma {:induction false} LogGainsSaid(external: bool, s: Conf, env: nat -> Choice, k: nat)
    requires forall n :: k <= n ==> env(n).stored
    ensures RunToEnd(external, s, env, k).0.w.events == s.w.events + Said(external, s, env, k)
    decreases Rank(s.run.pc), |s.run.todo|
  {
    hide StepRun, AfterEffect;
    if !s.run.Finished() {
      StepRanks(external, s.run, s.w, env(k));
      LogGainsSaid(external, Step(external, s, env(k)), env, k + 1);
      EffectKeepsLog(s.run, s.w, env(k));
    }
  }

  lemma EffectKeepsLog(r: Run, w: World, c: Choice)
    requires c.stored
    ensures StepWorld(r, w, c).events == w.events + if r.todo == [] then [] else [r.todo[0]]
  {
    hide StagingName, DefaultName;
  }

  /** Every answer recorded for an operation is the answer of one carried out. */
  predicate Given(ops: seq<Op>, pc: Pc, c: Choice, id: nat)
  {
    exists i :: 0 <= i < |ops| && ops[i].run.pc == pc && ops[i].c == c && ops[i].run.d.id == id
  }

  lemma {:induction false} AskedIsOp(external: bool, s: Conf, env: nat -> Choice, k: nat, h: map<Pc, Choice>, pc: Pc)
    requires pc in Asked(external, s, env, k, h)
    ensures var c := Asked(external, s, env, k, h)[pc];
            (pc in h && c == h[pc]) || Given(Ops(external, s, env, k), pc, c, s.run.d.id)
    decreases Rank(s.run.pc), |s.run.todo|
  {
    hide StepRun, StepWorld, AfterEffect, EffectOn, Given, StagingName, DefaultName;
    if !s.run.Finished() {
      var next, h' := Step(external, s, env(k)), Answered(s.run, env(k), h);
      StepRanks(external, s.run, s.w, env(k));
      StepFrame(external, s.run, s.w, env(k));
      AskedIsOp(external, next, env, k + 1, h', pc);
      var c := Asked(external, s, env, k, h)[pc];
      var op := if s.run.todo == [] then [Op(s.run, env(k), s.run.Staging() in s.w.running)] else [];
      GivenAmong(op, Ops(external, next, env, k + 1), pc, c, s.run.d.id);
    }
  }

  lemma GivenAmong(a: seq<Op>, b: seq<Op>, pc: Pc, c: Choice, id: nat)
    ensures Given(a, pc, c, id) || Given(b, pc, c, id) ==> Given(a + b, pc, c, id)
    ensures |a| == 1 && a[0].run.pc == pc && a[0].c == c && a[0].run.d.id == id ==> Given(a + b, pc, c, id)
  {
    if Given(a, pc, c, id) {
      var i :| 0 <= i < |a| && a[i].run.pc == pc && a[i].c == c && a[i].run.d.id == id;
      assert (a + b)[i] == a[i];
    } else if Given(b, pc, c, id) {
      var i :| 0 <= i < |b| && b[i].run.pc == pc && b[i].c == c && b[i].run.d.id == id;
      assert (a + b)[|a| + i] == b[i];
    }
    if |a| == 1 {
      assert (a + b)[0] == a[0];
    }
  }

  lemma {:induction false} SpokenHas(external: bool, ops: seq<Op>, i: nat, n: nat)
    requires i < |ops| && n < |Says(external, ops[i])|
    ensures var e := Says(external, ops[i])[n]; Event(ops[i].run.d.id, e.0, e.1) in Spoken(external, ops)
  {
    hide Says;
    var head := ProgressEvents(ops[0].run.d.id, Says(external, ops[0]));
    if i == 0 {
      assert head[n] in Spoken(external, ops);
    } else {
      SpokenHas(external, ops[1..], i - 1, n);
    }
  }

  /** Every refusal is told as an error before the deploy is reported as failed, and a success
      is told at the end. */
  lemma RefusalsAreTold(external: bool, app: App, d: Deploy, skip: bool, w: World, env: nat -> Choice, k: nat)
    ensures var s := Conf(Run(MarkRunning, [], app, d, skip), w);
      var e, h, said := RunToEnd(external, s, env, k).0, Asked(external, s, env, k, map[]), Said(external, s, env, k);
      && (Validate in h && !h[Validate].ok ==> Event(d.id, Error, Topic.Start) in said)
      && (PullImage in h && !h[PullImage].ok ==> Event(d.id, Error, Pull) in said)
      && (StartStaging in h && h[StartStaging].start.StartFailed? ==> Event(d.id, Error, Topic.Start) in said)
      && (SwitchRoute in h && !h[SwitchRoute].route.Routed? ==> Event(d.id, Error, RouteUpdate) in said)
      && (e.run.d.status.AutoRolledBack? ==> Event(d.id, Info, Topic.AutoRollback) in said)
      && (e.run.d.status.Failed? ==> Event(d.id, Error, Topic.Finalize) in said)
      && (e.run.d.status.Success? ==> Event(d.id, Info, Topic.Finalize) in said)
  {
    hide StagingName, DefaultName, RunToEnd, Asked, Ops, Said, Spoken, Says;
    var s := Conf(Run(Pc.MarkRunning, [], app, d, skip), w);
    SaidExactly(external, s, env, k);
    ExecuteTells(Job(external, app, d, skip, w), env, k);
    TellsFirst(external, s, env, k, Validate, (Error, Topic.Start));
    TellsFirst(external, s, env, k, PullImage, (Error, Pull));
    TellsFirst(external, s, env, k, StartStaging, (Error, Topic.Start));
    TellsFirst(external, s, env, k, SwitchRoute, (Error, RouteUpdate));
    TellsFirst(external, s, env, k, StoreAutoRollback, (Info, Topic.AutoRollback));
    TellsFirst(external, s, env, k, Pc.Fail, (Error, Topic.Finalize));
    TellsFirst(external, s, env, k, Pc.UpdateApp, (Info, Topic.Finalize));
  }

  /** Does this answer make the operation begin by saying so? */
  predicate Complains(pc: Pc, c: Choice, say: (Level, Topic))
  {
    || (pc.Validate? && !c.ok && say == (Error, Topic.Start))
    || (pc.PullImage? && !c.ok && say == (Error, Pull))
    || (pc.StartStaging? && c.start.StartFailed? && say == (Error, Topic.Start))
    || (pc.SwitchRoute? && !c.route.Routed? && say == (Error, RouteUpdate))
    || (pc.StoreAutoRollback? && say == (Info, Topic.AutoRollback))
    || (pc.Fail? && say == (Error, Topic.Finalize))
    || (pc.UpdateApp? && say == (Info, Topic.Finalize))
  }

  lemma TellsFirst(external: bool, s: Conf, env: nat -> Choice, k: nat, pc: Pc, say: (Level, Topic))
    requires s.run.todo == []
    ensures var h := Asked(external, s, env, k, map[]);
            pc in h && Complains(pc, h[pc], say) ==> Event(s.run.d.id, say.0, say.1) in Said(external, s, env, k)
  {
    hide Asked, Ops, Said, Spoken, RunToEnd, StagingName, DefaultName;
    var h := Asked(external, s, env, k, map[]);
    if pc in h && Complains(pc, h[pc], say) {
      AskedIsOp(external, s, env, k, map[], pc);
      var ops := Ops(external, s, env, k);
      var i :| 0 <= i < |ops| && ops[i].run.pc == pc && ops[i].c == h[pc] && ops[i].run.d.id == s.run.d.id;
      assert Says(external, ops[i])[0] == say;
      SpokenHas(external, ops, i, 0);
      SaidExactly(external, s, env, k);
    }
  }
}
