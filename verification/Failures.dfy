/** Schedules that go wrong, each from a system at rest: why the assumptions of zero downtime
    and of the exclusive cutover are there. */
module Failures {
  import opened Domain
  import opened Text
  import opened Names
  import opened DeployMachine
  import opened DeployStatus
  import opened Cutover
  import opened Serial
  import opened ExclusiveCutover
  import opened Admission

  // One run on its own, with the same answer to every operation.

  /** Some number of steps, each answered by c, leads from a to b. */
  ghost predicate Leads(external: bool, c: Choice, a: Conf, b: Conf)
  {
    exists cs :: (forall e | e in cs :: e == c) && Steps(external, a, cs) == b
  }

  lemma LeadsOn(external: bool, c: Choice, a: Conf, b: Conf, d: Conf)
    requires Leads(external, c, a, b) && Leads(external, c, b, d)
    ensures Leads(external, c, a, d)
  {
    var p :| (forall e | e in p :: e == c) && Steps(external, a, p) == b;
    var q :| (forall e | e in q :: e == c) && Steps(external, b, q) == d;
    StepsAppend(external, a, p, q);
    assert forall e | e in p + q :: e == c;
  }

  lemma LeadsOne(external: bool, c: Choice, a: Conf)
    requires !a.run.Finished()
    ensures Leads(external, c, a, Step(external, a, c))
  {
    hide Step;
    assert Steps(external, a, [c]) == Step(external, a, c) by {
      assert [c][1..] == [];
    }
  }

  /** All pending events emitted. */
  function Drained(a: Conf, c: Choice): Conf
  {
    Conf(a.run.(todo := []), a.w.(events := a.w.events + if c.stored then a.run.todo else []))
  }

  lemma {:induction false} LeadsDrained(external: bool, c: Choice, a: Conf)
    ensures Leads(external, c, a, Drained(a, c))
    decreases |a.run.todo|
  {
    if a.run.todo == [] {
      assert a.w.events + [] == a.w.events;
      assert Steps(external, a, []) == a;
    } else {
      var b := Step(external, a, c);
      LeadsOne(external, c, a);
      LeadsDrained(external, c, b);
      assert Drained(b, c) == Drained(a, c) by {
        assert a.run.todo == [a.run.todo[0]] + a.run.todo[1..];
        assert a.w.events + [a.run.todo[0]] + a.run.todo[1..] == a.w.events + a.run.todo;
        assert a.w.events + [] == a.w.events;
      }
      LeadsOn(external, c, a, b, Drained(a, c));
    }
  }

  /** The next operation and the events after it. */
  function Turn(external: bool, a: Conf, c: Choice): Conf
  {
    Drained(Step(external, a, c), c)
  }

  lemma LeadsTurn(external: bool, c: Choice, a: Conf, b: Conf)
    requires Leads(external, c, a, b) && !b.run.Finished()
    ensures Leads(external, c, a, Turn(external, b, c))
  {
    hide Leads, Step, Drained;
    LeadsOne(external, c, b);
    LeadsDrained(external, c, Step(external, b, c));
    LeadsOn(external, c, a, b, Step(external, b, c));
    LeadsOn(external, c, a, Step(external, b, c), Turn(external, b, c));
  }

  /** Where the run stands, next to containers, routes and app rows like those of v. */
  predicate At(a: Conf, pc: Pc, app: App, id: nat, v: World)
  {
    && a.run.pc == pc && a.run.todo == [] && a.run.app == app && a.run.d.id == id
    && (a.w.running, a.w.routes, a.w.apps, a.w.nextId) == (v.running, v.routes, v.apps, v.nextId)
  }

  lemma TurnToPull(external: bool, a: Conf, c: Choice, app: App, id: nat, v: World)
    requires c.ok && !a.run.skipPull
    ensures At(a, Pc.MarkRunning, app, id, v) ==> At(Turn(external, a, c), Validate, app, id, v)
    ensures At(a, Validate, app, id, v) ==> At(Turn(external, a, c), PullImage, app, id, v)
    ensures At(a, PullImage, app, id, v) ==>
              At(Turn(external, a, c), if Exclusive(external, app) then StopFirst else StartStaging, app, id, v)
    ensures a.run.pc.MarkRunning? || a.run.pc.Validate? ==> !Turn(external, a, c).run.skipPull
  {
    hide StagingName, DefaultName, AfterBuilding, AfterCutover;
  }

  /** A queued deploy with an image comes to its first container operation. */
  lemma LeadsToStart(external: bool, c: Choice, app: App, d: Deploy, w: World) returns (a: Conf)
    requires c.ok && d.image != ""
    ensures Leads(external, c, Conf(QueuedRun(app, d), w), a)
    ensures At(a, if Exclusive(external, app) then StopFirst else StartStaging, app, d.id, w)
  {
    hide Leads, Turn;
    var start := Conf(QueuedRun(app, d), w);
    var marking := Drained(start, c);
    LeadsDrained(external, c, start);
    assert At(marking, Pc.MarkRunning, app, d.id, w) && !marking.run.skipPull;
    var validating := Turn(external, marking, c);
    TurnToPull(external, marking, c, app, d.id, w);
    LeadsTurn(external, c, start, marking);
    var pulling := Turn(external, validating, c);
    TurnToPull(external, validating, c, app, d.id, w);
    LeadsTurn(external, c, start, validating);
    a := Turn(external, pulling, c);
    TurnToPull(external, pulling, c, app, d.id, w);
    LeadsTurn(external, c, start, pulling);
  }

  function StartedUp(c: Choice): bool
  {
    c.start == Started(true) || c.start == StartFailed(true)
  }

  lemma TurnStop(external: bool, a: Conf, c: Choice, app: App, id: nat, v: World)
    requires At(a, StopFirst, app, id, v)
    ensures At(Turn(external, a, c), StartStaging, app, id, StopContainer(v, LiveName(app), c.stop))
  {
    hide StagingName, DefaultName, AfterBuilding, AfterPreparing;
  }

  lemma TurnStart(external: bool, a: Conf, c: Choice, app: App, id: nat, v: World)
    requires At(a, StartStaging, app, id, v)
    ensures At(Turn(external, a, c), if c.start.Started? then AwaitHealth else Fail, app, id,
               StartContainer(v, StagingName(app.name, id), c.start))
  {
    hide StagingName, DefaultName, AfterBuilding, AfterPreparing;
  }

  lemma TurnHealthy(external: bool, a: Conf, c: Choice, app: App, id: nat, v: World)
    requires At(a, AwaitHealth, app, id, v) && c.ok && StagingName(app.name, id) in v.running
    ensures Exclusive(external, app) ==> At(Turn(external, a, c), StoreSuccess, app, id, v)
    ensures !Exclusive(external, app) ==> At(Turn(external, a, c), SwitchRoute, app, id, v)
  {
    hide StagingName, DefaultName, AfterBuilding, AfterPreparing;
  }

  lemma TurnSwitch(external: bool, a: Conf, c: Choice, app: App, id: nat, v: World)
    requires At(a, SwitchRoute, app, id, v) && c.route.Routed? && !Exclusive(external, app)
    requires LiveName(app) != StagingName(app.name, id)
    ensures At(Turn(external, a, c), StopPrevious, app, id, RouteTo(v, app.name, StagingName(app.name, id), Routed))
  {
    hide StagingName, DefaultName, AfterBuilding, AfterPreparing;
  }

  lemma TurnStopPrevious(external: bool, a: Conf, c: Choice, app: App, id: nat, v: World)
    requires At(a, StopPrevious, app, id, v)
    ensures At(Turn(external, a, c), StoreSuccess, app, id, StopContainer(v, LiveName(app), c.stop))
  {
    hide StagingName, DefaultName, AfterBuilding, AfterPreparing;
  }

  lemma TurnStoreSuccess(external: bool, a: Conf, c: Choice, app: App, id: nat, v: World)
    requires At(a, StoreSuccess, app, id, v)
    ensures At(Turn(external, a, c), Pc.UpdateApp, app, id, v)
  {
    hide StagingName, DefaultName, AfterBuilding, AfterPreparing, AfterCutover, Written;
  }

  lemma TurnFail(external: bool, a: Conf, c: Choice, app: App, id: nat, v: World)
    requires At(a, Fail, app, id, v)
    ensures At(Turn(external, a, c), Done, app, id, v)
  {
    hide StagingName, DefaultName, AfterBuilding, AfterPreparing, AfterCutover, Written;
  }

  lemma TurnRowLost(external: bool, a: Conf, c: Choice, app: App, id: nat, v: World)
    requires At(a, Pc.UpdateApp, app, id, v) && !c.stored
    ensures var b := Turn(external, a, c);
            b.run.Finished() && b.run.app.id == app.id && b.run.d.id == id && b.w.running == v.running && b.w.apps == v.apps
            && b.w.nextId == v.nextId
  {
    hide StagingName, DefaultName, AfterBuilding, AfterPreparing, AfterCutover, Written;
  }

  // Many runs.

  /** The labels that drive run t from where it stands to b. */
  lemma Driven(s: Sys, t: nat, c: Choice, b: Conf) returns (ls: seq<Label>)
    requires t in s.runs && Leads(s.external, c, Conf(s.runs[t], s.w), b)
    ensures RunAll(s, ls) == s.(w := b.w, runs := s.runs[t := b.run])
    ensures forall l | l in ls :: l == Advance(t, c)
  {
    var cs :| (forall e | e in cs :: e == c) && Steps(s.external, Conf(s.runs[t], s.w), cs) == b;
    ls := DrivenBy(s, t, c, cs);
  }

  lemma {:induction false} DrivenBy(s: Sys, t: nat, c: Choice, cs: seq<Choice>) returns (ls: seq<Label>)
    requires t in s.runs && forall e | e in cs :: e == c
    ensures var b := Steps(s.external, Conf(s.runs[t], s.w), cs);
            RunAll(s, ls) == s.(w := b.w, runs := s.runs[t := b.run])
    ensures forall l | l in ls :: l == Advance(t, c)
    decreases |cs|
  {
    hide StepRun, StepWorld;
    if cs == [] || s.runs[t].Finished() {
      ls := [];
      assert s.runs[t := s.runs[t]] == s.runs;
    } else {
      assert cs[0] in cs && forall e | e in cs[1..] :: e in cs;
      var n := Apply(s, Advance(t, c));
      var rest := DrivenBy(n, t, c, cs[1..]);
      ls := [Advance(t, c)] + rest;
      assert ls[1..] == rest;
      var b := Steps(s.external, Conf(s.runs[t], s.w), cs);
      assert n.runs[t := b.run] == s.runs[t := b.run];
    }
  }

  /** A request that reads the app row and creates the deploy at once. */
  function Request(x: nat, image: string, now: int): seq<Label>
  {
    [Load(0, x), Launch(0, image, "", "", None, now)]
  }

  lemma Requested(s: Sys, x: nat, image: string, now: int)
    requires x in s.w.apps
    ensures var d := NewDeploy(s.w, s.w.apps[x].id, image, "", "", None, now);
            RunAll(s, Request(x, image, now)) ==
              s.(w := CreateDeploy(s.w, d), reqs := s.reqs - {0}, runs := s.runs[s.w.nextId := QueuedRun(s.w.apps[x], d)])
  {
    var ls := Request(x, image, now);
    assert ls[1..] == [ls[1]] && [ls[1]][1..] == [];
    var n := Apply(s, ls[0]);
    assert RunAll(s, ls) == RunAll(n, [ls[1]]) == Apply(n, ls[1]);
    assert n.reqs - {0} == s.reqs - {0};
  }

  function AtRest(external: bool, w: World): Sys
  {
    Sys(external, w, map[], map[])
  }

  const GOOD: Choice := Choice(true, true, 0, "c", [], Removed, Started(true), Routed)

  // A colliding default name takes another app down.

  lemma ToPromotion(external: bool, app: App, d: Deploy, w: World) returns (a: Conf)
    requires d.image != "" && !Exclusive(external, app) && LiveName(app) != StagingName(app.name, d.id)
    ensures Leads(external, GOOD, Conf(QueuedRun(app, d), w), a)
    ensures var staging := StagingName(app.name, d.id);
            a.w.running == w.running + {staging} - {LiveName(app)} && a.w.routes == w.routes[app.name := staging]
  {
    hide Leads, Turn, StagingName, DefaultName, LiveName;
    var start, id := Conf(QueuedRun(app, d), w), d.id;
    var starting := LeadsToStart(external, GOOD, app, d, w);
    var waiting := Turn(external, starting, GOOD);
    TurnStart(external, starting, GOOD, app, id, w);
    LeadsTurn(external, GOOD, start, starting);
    var up := StartContainer(w, StagingName(app.name, id), GOOD.start);
    var switching := Turn(external, waiting, GOOD);
    TurnHealthy(external, waiting, GOOD, app, id, up);
    LeadsTurn(external, GOOD, start, waiting);
    var stopping := Turn(external, switching, GOOD);
    TurnSwitch(external, switching, GOOD, app, id, up);
    LeadsTurn(external, GOOD, start, switching);
    a := Turn(external, stopping, GOOD);
    TurnStopPrevious(external, stopping, GOOD, app, id, RouteTo(up, app.name, StagingName(app.name, id), Routed));
    LeadsTurn(external, GOOD, start, stopping);
  }

  /** App b is called like app a with a dash and the number of a's live deploy, and has no
      recorded container. From rest, with everything working, its first deploy takes a down. */
  lemma FirstDeployTakesOtherAppDown(w: World, a: nat, b: nat, j: nat, image: string, now: int) returns (ls: seq<Label>)
    requires GoodWorld(w) && a in w.apps && b in w.apps && w.apps[a].mode.DomainMode? && w.apps[b].mode.DomainMode?
    requires w.apps[b].name == w.apps[a].name + "-" + Decimal(j) && w.apps[b].live == ""
    requires Serving(w, w.apps[a].name) && w.routes[w.apps[a].name] == StagingName(w.apps[a].name, j)
    requires image != ""
    ensures (forall l | l in ls && l.Advance? :: l.c == GOOD) && !Serving(RunAll(AtRest(false, w), ls).w, w.apps[a].name)
  {
    hide Leads, StagingName, DefaultName;
    var s, app := AtRest(false, w), w.apps[b];
    var id, d := w.nextId, NewDeploy(w, app.id, image, "", "", None, now);
    DefaultNameCollision(app.name, w.apps[a].name, j);
    DefaultIsNotStaged(app.name, id);
    Requested(s, b, image, now);
    var n := RunAll(s, Request(b, image, now));
    var end := ToPromotion(false, app, d, n.w);
    var rest := Driven(n, id, GOOD, end);
    RunAllAppend(s, Request(b, image, now), rest);
    ls := Request(b, image, now) + rest;
    assert |w.apps[b].name| > |w.apps[a].name|;
  }

  // What the exclusive cutover needs.

  datatype Fault = Overlap | FailedStop | LeakyStart | LostRow

  /** A disciplined label but for one kind of fault. */
  ghost predicate DisciplinedBut(s: Sys, l: Label, x: nat, f: Fault)
  {
    && (f.Overlap? || Orderly(s, l, x))
    && (l.Advance? && l.id in s.runs && s.runs[l.id].app.id == x ==>
          && (f.FailedStop? || !StopFails(s.runs[l.id], l.c))
          && (f.LeakyStart? || !StartLeaks(s.runs[l.id], l.c))
          && (f.LostRow? || !RowLost(s.runs[l.id], l.c)))
  }

  ghost predicate AllDisciplinedBut(s: Sys, ls: seq<Label>, x: nat, f: Fault)
    decreases |ls|
  {
    ls == [] || (DisciplinedBut(s, ls[0], x, f) && AllDisciplinedBut(Apply(s, ls[0]), ls[1..], x, f))
  }

  lemma {:induction false} DisciplinedAppend(s: Sys, a: seq<Label>, b: seq<Label>, x: nat, f: Fault)
    requires AllDisciplinedBut(s, a, x, f) && AllDisciplinedBut(RunAll(s, a), b, x, f)
    ensures AllDisciplinedBut(s, a + b, x, f) && RunAll(s, a + b) == RunAll(RunAll(s, a), b)
    decreases |a|
  {
    hide Apply, DisciplinedBut;
    if a == [] {
      assert a + b == b;
    } else {
      assert (a + b)[0] == a[0] && (a + b)[1..] == a[1..] + b;
      DisciplinedAppend(Apply(s, a[0]), a[1..], b, x, f);
    }
  }

  predicate Commits(c: Choice, f: Fault)
  {
    && (f.FailedStop? || !c.stop.NotStopped?) && (f.LeakyStart? || c.start != StartFailed(true))
    && (f.LostRow? || c.stored)
  }

  lemma {:induction false} DrivenDisciplined(s: Sys, ls: seq<Label>, t: nat, c: Choice, x: nat, f: Fault)
    requires Commits(c, f) && forall l | l in ls :: l == Advance(t, c)
    ensures AllDisciplinedBut(s, ls, x, f)
    decreases |ls|
  {
    hide Apply;
    if ls != [] {
      assert ls[0] in ls && forall l | l in ls[1..] :: l in ls;
      DrivenDisciplined(Apply(s, ls[0]), ls[1..], t, c, x, f);
    }
  }

  lemma RequestDisciplined(s: Sys, x: nat, image: string, now: int, f: Fault)
    requires f.Overlap? || Quiet(s, x)
    ensures AllDisciplinedBut(s, Request(x, image, now), x, f)
  {
    hide Apply, Quiet;
    var ls := Request(x, image, now);
    assert ls[1..] == [ls[1]] && [ls[1]][1..] == [];
    assert DisciplinedBut(s, ls[0], x, f) && DisciplinedBut(Apply(s, ls[0]), ls[1], x, f);
    assert AllDisciplinedBut(Apply(s, ls[0]), [ls[1]], x, f);
  }

  /** A request for app x on top of s, driven with one answer to b. */
  lemma Scheduled(s: Sys, x: nat, image: string, now: int, c: Choice, b: Conf, f: Fault) returns (ls: seq<Label>)
    requires x in s.w.apps && (f.Overlap? || Quiet(s, x)) && Commits(c, f)
    requires var d := NewDeploy(s.w, s.w.apps[x].id, image, "", "", None, now);
             Leads(s.external, c, Conf(QueuedRun(s.w.apps[x], d), CreateDeploy(s.w, d)), b)
    ensures AllDisciplinedBut(s, ls, x, f) && |ls| >= 2 && ls[..2] == Request(x, image, now)
    ensures RunAll(s, ls) == Sys(s.external, b.w, s.reqs - {0}, s.runs[s.w.nextId := b.run])
  {
    hide Leads, AllDisciplinedBut, RunAll;
    Requested(s, x, image, now);
    RequestDisciplined(s, x, image, now, f);
    var n := RunAll(s, Request(x, image, now));
    var rest := Driven(n, s.w.nextId, c, b);
    DrivenDisciplined(n, rest, s.w.nextId, c, x, f);
    DisciplinedAppend(s, Request(x, image, now), rest, x, f);
    ls := Request(x, image, now) + rest;
    assert s.runs[s.w.nextId := n.runs[s.w.nextId]][s.w.nextId := b.run] == s.runs[s.w.nextId := b.run];
  }

  /** An exclusive run up to and including its start. */
  lemma ToStarted(external: bool, c: Choice, app: App, d: Deploy, w: World) returns (a: Conf)
    requires c.ok && d.image != "" && Exclusive(external, app)
    ensures Leads(external, c, Conf(QueuedRun(app, d), w), a)
    ensures At(a, if c.start.Started? then AwaitHealth else Fail, app, d.id,
               StartContainer(StopContainer(w, LiveName(app), c.stop), StagingName(app.name, d.id), c.start))
  {
    hide Leads, Turn, StagingName, DefaultName, LiveName;
    var start, id := Conf(QueuedRun(app, d), w), d.id;
    var stopping := LeadsToStart(external, c, app, d, w);
    var starting := Turn(external, stopping, c);
    TurnStop(external, stopping, c, app, id, w);
    LeadsTurn(external, c, start, stopping);
    a := Turn(external, starting, c);
    TurnStart(external, starting, c, app, id, StopContainer(w, LiveName(app), c.stop));
    LeadsTurn(external, c, start, starting);
  }

  lemma LiveIsOld(a: App, bound: nat)
    requires Recorded(a, bound)
    ensures forall id: nat | id >= bound :: LiveName(a) != StagingName(a.name, id)
  {
    hide StagingName, DefaultName;
    forall id: nat | id >= bound ensures LiveName(a) != StagingName(a.name, id) {
      DefaultIsNotStaged(a.name, id);
      if a.live != "" && LiveName(a) == StagingName(a.name, id) {
        StagingNameInjective(a.name, a.current.value, a.name, id);
      }
    }
  }

  lemma TwoUp(w: World, x: nat, m: string, n: string)
    requires x in w.apps && m in w.running && n in w.running && m != n
    requires OwnerOf(w.apps, x).Has(m) && OwnerOf(w.apps, x).Has(n)
    ensures !AtMostOneUp(w, x)
  {
  }

  lemma TwoStaged(w: World, x: nat, i: nat, j: nat)
    requires x in w.apps && i != j
    requires StagingName(w.apps[x].name, i) in w.running && StagingName(w.apps[x].name, j) in w.running
    ensures !AtMostOneUp(w, x)
  {
    hide StagingName, DefaultName, Untaken;
    var name := w.apps[x].name;
    if StagingName(name, i) == StagingName(name, j) {
      StagingNameInjective(name, i, name, j);
    }
    TwoUp(w, x, StagingName(name, i), StagingName(name, j));
  }

  /** A stop that leaves the old container up: one deploy is enough. */
  lemma FailedStopLeavesTwo(external: bool, w: World, x: nat, image: string, now: int) returns (ls: seq<Label>)
    requires GoodWorld(w) && x in w.apps && Exclusive(external, w.apps[x]) && image != ""
    requires LiveName(w.apps[x]) in w.running && OwnerOf(w.apps, x).Has(LiveName(w.apps[x]))
    ensures AllDisciplinedBut(AtRest(external, w), ls, x, FailedStop)
    ensures var e := RunAll(AtRest(external, w), ls).w; x in e.apps && !AtMostOneUp(e, x)
  {
    hide Leads, AllDisciplinedBut, StagingName, DefaultName, LiveName, Untaken, RunAll, NewDeploy;
    var s, app, c := AtRest(external, w), w.apps[x], GOOD.(stop := NotStopped);
    var d := NewDeploy(w, app.id, image, "", "", None, now);
    NewDeployIs(w, app.id, image, now);
    var end := ToStarted(external, c, app, d, CreateDeploy(w, d));
    ls := Scheduled(s, x, image, now, c, end, FailedStop);
    LiveIsOld(app, w.nextId);
    OwnStaging(OwnerOf(w.apps, x), w.nextId);
    TwoUp(end.w, x, LiveName(app), StagingName(app.name, w.nextId));
  }

  lemma NewDeployIs(w: World, app: nat, image: string, now: int)
    ensures var d := NewDeploy(w, app, image, "", "", None, now);
            d.id == w.nextId && d.image == image && d.appId == app && d.createdAt == now && d.status.Pending? && d.completedAt.None?
  {
  }

  /** A second deploy after a first one that left staging container i up and the row as it was. */
  lemma SecondDeploy(s: Sys, x: nat, i: nat, image: string, now: int, c: Choice, f: Fault) returns (ls: seq<Label>)
    requires x in s.w.apps && Exclusive(s.external, s.w.apps[x]) && image != "" && c.ok && Commits(c, f) && StartedUp(c)
    requires f.Overlap? || Quiet(s, x)
    requires i < s.w.nextId && StagingName(s.w.apps[x].name, i) in s.w.running
    requires LiveName(s.w.apps[x]) != StagingName(s.w.apps[x].name, i)
    ensures AllDisciplinedBut(s, ls, x, f) && |ls| >= 2 && ls[..2] == Request(x, image, now)
    ensures var e := RunAll(s, ls).w; x in e.apps && !AtMostOneUp(e, x)
  {
    hide Leads, AllDisciplinedBut, StagingName, DefaultName, LiveName, Untaken, RunAll, NewDeploy;
    var app := s.w.apps[x];
    var d := NewDeploy(s.w, app.id, image, "", "", None, now);
    NewDeployIs(s.w, app.id, image, now);
    var end := ToStarted(s.external, c, app, d, CreateDeploy(s.w, d));
    ls := Scheduled(s, x, image, now, c, end, f);
    TwoStaged(end.w, x, i, s.w.nextId);
  }

  /** A failed start that leaves its container up: the next deploy starts another one. */
  lemma LeakyStartLeavesTwo(external: bool, w: World, x: nat, image: string, now: int) returns (ls: seq<Label>)
    requires GoodWorld(w) && x in w.apps && Exclusive(external, w.apps[x]) && image != ""
    ensures AllDisciplinedBut(AtRest(external, w), ls, x, LeakyStart)
    ensures var e := RunAll(AtRest(external, w), ls).w; x in e.apps && !AtMostOneUp(e, x)
  {
    hide Leads, AllDisciplinedBut, StagingName, DefaultName, LiveName, Untaken, RunAll, NewDeploy, Turn;
    var s, app, c := AtRest(external, w), w.apps[x], GOOD.(start := StartFailed(true));
    var d := NewDeploy(w, app.id, image, "", "", None, now);
    NewDeployIs(w, app.id, image, now);
    var v := CreateDeploy(w, d);
    var failing := ToStarted(external, c, app, d, v);
    var end := Turn(external, failing, c);
    LeadsTurn(external, c, Conf(QueuedRun(app, d), v), failing);
    TurnFail(external, failing, c, app, d.id,
              StartContainer(StopContainer(v, LiveName(app), c.stop), StagingName(app.name, d.id), c.start));
    var first := Scheduled(s, x, image, now, c, end, LeakyStart);
    LiveIsOld(app, w.nextId);
    var second := SecondDeploy(RunAll(s, first), x, w.nextId, image, now + 1, c, LeakyStart);
    DisciplinedAppend(s, first, second, x, LeakyStart);
    ls := first + second;
  }

  /** An exclusive run up to the write of the app row. */
  lemma ToRow(external: bool, c: Choice, app: App, d: Deploy, w: World) returns (a: Conf)
    requires c.ok && d.image != "" && Exclusive(external, app) && c.start == Started(true)
    ensures Leads(external, c, Conf(QueuedRun(app, d), w), a)
    ensures At(a, Pc.UpdateApp, app, d.id,
               StartContainer(StopContainer(w, LiveName(app), c.stop), StagingName(app.name, d.id), c.start))
  {
    hide Leads, Turn, StagingName, DefaultName, LiveName;
    var start, id := Conf(QueuedRun(app, d), w), d.id;
    var up := StartContainer(StopContainer(w, LiveName(app), c.stop), StagingName(app.name, id), c.start);
    var waiting := ToStarted(external, c, app, d, w);
    var storing := Turn(external, waiting, c);
    TurnHealthy(external, waiting, c, app, id, up);
    LeadsTurn(external, c, start, waiting);
    a := Turn(external, storing, c);
    TurnStoreSuccess(external, storing, c, app, id, up);
    LeadsTurn(external, c, start, storing);
  }

  /** A lost write of the app row: the next deploy stops the container before last. */
  lemma LostRowLeavesTwo(external: bool, w: World, x: nat, image: string, now: int) returns (ls: seq<Label>)
    requires GoodWorld(w) && x in w.apps && Exclusive(external, w.apps[x]) && image != ""
    ensures AllDisciplinedBut(AtRest(external, w), ls, x, LostRow)
    ensures var e := RunAll(AtRest(external, w), ls).w; x in e.apps && !AtMostOneUp(e, x)
  {
    hide Leads, AllDisciplinedBut, StagingName, DefaultName, LiveName, Untaken, RunAll, NewDeploy, Turn;
    var s, app, c := AtRest(external, w), w.apps[x], GOOD.(stored := false);
    var d := NewDeploy(w, app.id, image, "", "", None, now);
    NewDeployIs(w, app.id, image, now);
    var v := CreateDeploy(w, d);
    var writing := ToRow(external, c, app, d, v);
    var end := Turn(external, writing, c);
    LeadsTurn(external, c, Conf(QueuedRun(app, d), v), writing);
    TurnRowLost(external, writing, c, app, d.id,
              StartContainer(StopContainer(v, LiveName(app), c.stop), StagingName(app.name, d.id), c.start));
    var first := Scheduled(s, x, image, now, c, end, LostRow);
    LiveIsOld(app, w.nextId);
    var second := SecondDeploy(RunAll(s, first), x, w.nextId, image, now + 1, c, LostRow);
    DisciplinedAppend(s, first, second, x, LostRow);
    ls := first + second;
  }

  /** What a run with working stores does to the rows of the deploys table. */
  ghost predicate OwnRowOnly(w: World, w': World, id: nat)
  {
    && w'.deploys.Keys == w.deploys.Keys && (forall j | j in w.deploys && j != id :: w'.deploys[j] == w.deploys[j])
    && id in w.deploys && (w'.deploys[id].appId, w'.deploys[id].createdAt, w'.deploys[id].image)
          == (w.deploys[id].appId, w.deploys[id].createdAt, w.deploys[id].image)
  }

  lemma {:induction false} StepsRows(external: bool, a: Conf, cs: seq<Choice>)
    requires a.run.d.id in a.w.deploys && forall c | c in cs :: c.stored
    requires Tracks(a.run, a.w.deploys[a.run.d.id]) && Synced(a.run, a.w.deploys[a.run.d.id])
    ensures var b, id := Steps(external, a, cs), a.run.d.id;
            OwnRowOnly(a.w, b.w, id) && b.run.d.id == id && Tracks(b.run, b.w.deploys[id]) && Synced(b.run, b.w.deploys[id])
    decreases |cs|
  {
    hide Tracks, Synced, StepRun, StepWorld;
    if cs != [] && !a.run.Finished() {
      assert cs[0] in cs && forall c | c in cs[1..] :: c in cs;
      var row := a.w.deploys[a.run.d.id];
      StepTracks(external, a.run, a.w, cs[0]);
      StepSynced(external, a.run, row, a.w, cs[0]);
      StepRow(a.run, a.w, cs[0]);
      StepWorldFrame(a.run, a.w, cs[0]);
      StepFrame(external, a.run, a.w, cs[0]);
      StepsRows(external, Step(external, a, cs[0]), cs[1..]);
    }
  }

  lemma FirstIsLatest(w: World, d: Deploy, w': World, x: nat)
    requires d.id == w.nextId && d.appId == x && forall j | j in w.deploys :: w.deploys[j].createdAt < d.createdAt && j < w.nextId
    requires OwnRowOnly(CreateDeploy(w, d), w', d.id)
    ensures LatestDeploy(w'.deploys, x, Some(d.id))
  {
    assert forall j | j in w'.deploys :: j == d.id || (j in w.deploys && w'.deploys[j] == w.deploys[j]);
  }

  lemma UpdateAppIsSuccess(r: Run, row: Deploy)
    requires r.pc.UpdateApp? && Tracks(r, row) && Synced(r, row)
    ensures row.status.Success?
  {
  }

  lemma FreshTracks(app: App, d: Deploy)
    requires d.status.Pending? && d.completedAt.None?
    ensures Tracks(QueuedRun(app, d), d) && Synced(QueuedRun(app, d), d)
  {
  }

  /** Overlap, although nothing fails and even with check and create as one step: the first
      deploy's success is stored, so the second is admitted, but the app row is not, so the
      second one stops the container before last and starts its own next to the first's. */
  lemma OverlapLeavesTwo(external: bool, w: World, x: nat, image: string, now: int)
      returns (first: seq<Label>, second: seq<Label>)
    requires GoodWorld(w) && x in w.apps && Exclusive(external, w.apps[x]) && w.apps[x].managed && image != ""
    requires forall j | j in w.deploys :: w.deploys[j].createdAt < now
    ensures AllDisciplinedBut(AtRest(external, w), first + second, x, Overlap)
    ensures var e := RunAll(AtRest(external, w), first + second).w; x in e.apps && !AtMostOneUp(e, x)
    ensures var s, t := RunAll(AtRest(external, w), first), w.nextId;
      && LatestDeploy(s.w.deploys, x, Some(t)) && t in s.w.deploys && !InProgress(s.w.deploys[t])
      && |second| >= 2 && RunAll(s, second[..2]) == Submit(s, x, Some(t), image, "", "", now + 1)
  {
    hide Leads, AllDisciplinedBut, StagingName, DefaultName, LiveName, Untaken, RunAll, NewDeploy, LatestDeploy, Tracks, Synced, OwnRowOnly;
    var s, app := AtRest(external, w), w.apps[x];
    var d := NewDeploy(w, app.id, image, "", "", None, now);
    NewDeployIs(w, app.id, image, now);
    var v := CreateDeploy(w, d);
    var end := ToRow(external, GOOD, app, d, v);
    first := Scheduled(s, x, image, now, GOOD, end, Overlap);
    LiveIsOld(app, w.nextId);
    var n := RunAll(s, first);
    RowsAfterFirst(external, app, d, w, end);
    second := SecondOfOverlap(n, x, w.nextId, image, now + 1);
    DisciplinedAppend(s, first, second, x, Overlap);
    FirstIsLatest(w, d, end.w, x);
  }

  lemma RowsAfterFirst(external: bool, app: App, d: Deploy, w: World, end: Conf)
    requires d.status.Pending? && d.completedAt.None? && d.id == w.nextId
    requires Leads(external, GOOD, Conf(QueuedRun(app, d), CreateDeploy(w, d)), end) && end.run.pc.UpdateApp?
    ensures OwnRowOnly(CreateDeploy(w, d), end.w, d.id) && d.id in end.w.deploys && end.w.deploys[d.id].status.Success?
  {
    hide Tracks, Synced;
    FreshTracks(app, d);
    var start := Conf(QueuedRun(app, d), CreateDeploy(w, d));
    var cs :| (forall e | e in cs :: e == GOOD) && Steps(external, start, cs) == end;
    StepsRows(external, start, cs);
    UpdateAppIsSuccess(end.run, end.w.deploys[d.id]);
  }

  /** The second deploy, from a request that the atomic check lets through. */
  lemma SecondOfOverlap(s: Sys, x: nat, i: nat, image: string, now: int) returns (ls: seq<Label>)
    requires x in s.w.apps && Exclusive(s.external, s.w.apps[x]) && s.w.apps[x].managed && image != ""
    requires i < s.w.nextId && StagingName(s.w.apps[x].name, i) in s.w.running
    requires LiveName(s.w.apps[x]) != StagingName(s.w.apps[x].name, i)
    requires i in s.w.deploys && !InProgress(s.w.deploys[i])
    ensures AllDisciplinedBut(s, ls, x, Overlap)
    ensures var e := RunAll(s, ls).w; x in e.apps && !AtMostOneUp(e, x)
    ensures |ls| >= 2 && RunAll(s, ls[..2]) == Submit(s, x, Some(i), image, "", "", now)
  {
    hide Leads, AllDisciplinedBut, StagingName, DefaultName, LiveName, Untaken, RunAll, NewDeploy;
    ls := SecondDeploy(s, x, i, image, now, GOOD, Overlap);
    RequestIsSubmit(s, x, i, image, now);
  }

  lemma RequestIsSubmit(s: Sys, x: nat, i: nat, image: string, now: int)
    requires x in s.w.apps && s.w.apps[x].managed && i in s.w.deploys && !InProgress(s.w.deploys[i])
    ensures RunAll(s, Request(x, image, now)) == Submit(s, x, Some(i), image, "", "", now)
  {
    var ls := Request(x, image, now);
    assert ls[1..] == [ls[1]] && [ls[1]][1..] == [];
    assert RunAll(s, ls) == RunAll(Apply(s, ls[0]), [ls[1]]) == Apply(Apply(s, ls[0]), ls[1]);
  }

  // An automatic rollback that leaves nothing up.

  lemma TurnUnhealthy(external: bool, a: Conf, c: Choice, app: App, id: nat, v: World)
    requires At(a, AwaitHealth, app, id, v) && !c.ok
    ensures At(Turn(external, a, c), CleanupUnhealthy, app, id, v)
  {
    hide StagingName, DefaultName, AfterBuilding, AfterPreparing;
  }

  lemma TurnRollback(external: bool, a: Conf, c: Choice, app: App, id: nat, v: World)
    ensures At(a, CleanupUnhealthy, app, id, v) ==>
              At(Turn(external, a, c), StoreAutoRollback, app, id, StopContainer(v, StagingName(app.name, id), c.stop))
    ensures At(a, StoreAutoRollback, app, id, v) ==>
              At(Turn(external, a, c), Done, app, id, v) && Turn(external, a, c).run.d.status.AutoRolledBack?
  {
    hide StagingName, DefaultName, AfterBuilding, AfterPreparing, AfterCutover;
  }

  /** From a container that is waited for to the end of the automatic rollback. */
  lemma ToRolledBack(external: bool, a: Conf, c: Choice, app: App, id: nat, v: World) returns (b: Conf)
    requires At(a, AwaitHealth, app, id, v) && !c.ok
    ensures Leads(external, c, a, b) && b.run.d.status.AutoRolledBack? && b.run.Finished()
    ensures b.w.running == StopContainer(v, StagingName(app.name, id), c.stop).running
  {
    hide Leads, Turn, StagingName, DefaultName;
    LeadsNowhere(external, c, a);
    var cleaning := Turn(external, a, c);
    TurnUnhealthy(external, a, c, app, id, v);
    LeadsTurn(external, c, a, a);
    var storing := Turn(external, cleaning, c);
    TurnRollback(external, cleaning, c, app, id, v);
    LeadsTurn(external, c, a, cleaning);
    b := Turn(external, storing, c);
    TurnRollback(external, storing, c, app, id, StopContainer(v, StagingName(app.name, id), c.stop));
    LeadsTurn(external, c, a, storing);
  }

  lemma LeadsNowhere(external: bool, c: Choice, a: Conf)
    ensures Leads(external, c, a, a)
  {
    assert Steps(external, a, []) == a;
  }

  /** From rest, with every store, stop and start working: the new container of an exclusive app
      is not healthy, the deploy ends as auto_rollback, and the old container is gone. */
  lemma RollbackLeavesNothingUp(external: bool, w: World, x: nat, image: string, now: int) returns (ls: seq<Label>)
    requires GoodWorld(w) && x in w.apps && Exclusive(external, w.apps[x]) && image != ""
    requires LiveName(w.apps[x]) in w.running
    ensures forall l | l in ls && l.Advance? :: l.c == GOOD.(ok := l.c.ok)
    ensures var e, t := RunAll(AtRest(external, w), ls), w.nextId;
      && t in e.runs && e.runs[t].Finished() && e.runs[t].d.status.AutoRolledBack?
      && e.w.running == w.running - {LiveName(w.apps[x]), StagingName(w.apps[x].name, t)}
  {
    hide Leads, StagingName, DefaultName, LiveName, RunAll, NewDeploy;
    var s, app, bad := AtRest(external, w), w.apps[x], GOOD.(ok := false);
    var t, d := w.nextId, NewDeploy(w, app.id, image, "", "", None, now);
    NewDeployIs(w, app.id, image, now);
    Requested(s, x, image, now);
    var n := RunAll(s, Request(x, image, now));
    var waiting := ToStarted(external, GOOD, app, d, n.w);
    var first := Driven(n, t, GOOD, waiting);
    var m := RunAll(n, first);
    var v := StartContainer(StopContainer(n.w, LiveName(app), Removed), StagingName(app.name, t), Started(true));
    var over := ToRolledBack(external, waiting, bad, app, t, v);
    var second := Driven(m, t, bad, over);
    RunAllAppend(s, Request(x, image, now), first + second);
    RunAllAppend(n, first, second);
    ls := Request(x, image, now) + (first + second);
  }

  // A locally built image that is not in the deploy's row.

  lemma TurnSetup(external: bool, a: Conf, app: App, id: nat, v: World)
    requires At(a, Setup, app, id, v) && app.repoURL != "" && a.run.d.commit == ""
    ensures At(Turn(external, a, GOOD), Resolve, app, id, v)
  {
    hide StagingName, DefaultName, AfterPreparing, AfterCutover;
  }

  lemma TurnResolve(external: bool, a: Conf, app: App, id: nat, v: World)
    requires At(a, Resolve, app, id, v)
    ensures At(Turn(external, a, GOOD), StoreCommit, app, id, v)
  {
    hide StagingName, DefaultName, AfterPreparing, AfterCutover;
  }

  lemma TurnStoreCommit(external: bool, a: Conf, app: App, id: nat, v: World)
    requires At(a, StoreCommit, app, id, v)
    ensures At(Turn(external, a, GOOD), BuildImage, app, id, v)
  {
    hide StagingName, DefaultName, AfterPreparing, AfterCutover;
  }

  lemma TurnBuildImage(external: bool, a: Conf, app: App, id: nat, v: World)
    requires At(a, BuildImage, app, id, v)
    ensures At(Turn(external, a, GOOD), StoreImage, app, id, v) && Turn(external, a, GOOD).run.d.image == GOOD.text
  {
    hide StagingName, DefaultName, AfterPreparing, AfterCutover;
  }

  lemma TurnStoreImage(external: bool, a: Conf, app: App, id: nat, v: World)
    requires At(a, StoreImage, app, id, v)
    ensures var b := Turn(external, a, GOOD);
            At(b, Pc.MarkRunning, app, id, v) && b.run.skipPull && b.run.d.image == a.run.d.image
  {
    hide StagingName, DefaultName, AfterPreparing, AfterCutover;
  }

  /** Past the build nothing changes the image of the run's own copy. */
  lemma TurnKeepsImage(external: bool, a: Conf, c: Choice)
    requires !Building(a.run.pc)
    ensures Turn(external, a, c).run.d.image == a.run.d.image && !Building(Turn(external, a, c).run.pc)
  {
    hide StagingName, DefaultName, AfterBuilding, AfterPreparing, AfterCutover, EffectOn;
  }

  lemma {:induction false} StepsKeepImage(external: bool, a: Conf, cs: seq<Choice>)
    requires !Building(a.run.pc)
    ensures Steps(external, a, cs).run.d.image == a.run.d.image
    decreases |cs|
  {
    hide Turn, StepWorld;
    if cs != [] && !a.run.Finished() {
      TurnKeepsImage(external, a, cs[0]);
      StepIsTurn(external, a, cs[0]);
      StepsKeepImage(external, Step(external, a, cs[0]), cs[1..]);
    }
  }

  lemma StepIsTurn(external: bool, a: Conf, c: Choice)
    ensures var s, t := Step(external, a, c).run, Turn(external, a, c).run; s.d == t.d && s.pc == t.pc
  {
    hide Step;
  }

  /** A queued deploy without an image is built, and then marked running. */
  lemma LeadsThroughBuild(external: bool, app: App, d: Deploy, w: World) returns (a: Conf)
    requires app.buildMode.TalosBuild? && app.repoURL != "" && d.image == "" && d.commit == ""
    ensures Leads(external, GOOD, Conf(QueuedRun(app, d), w), a) && At(a, Pc.MarkRunning, app, d.id, w)
    ensures a.run.skipPull && a.run.d.image == GOOD.text
  {
    hide Leads, Turn, StagingName, DefaultName;
    var start, id := Conf(QueuedRun(app, d), w), d.id;
    var checking := Drained(start, GOOD);
    LeadsDrained(external, GOOD, start);
    assert At(checking, Setup, app, id, w) && checking.run.d.commit == "";
    TurnSetup(external, checking, app, id, w);
    LeadsTurn(external, GOOD, start, checking);
    var resolving := Turn(external, checking, GOOD);
    TurnResolve(external, resolving, app, id, w);
    LeadsTurn(external, GOOD, start, resolving);
    var storing := Turn(external, resolving, GOOD);
    TurnStoreCommit(external, storing, app, id, w);
    LeadsTurn(external, GOOD, start, storing);
    var building := Turn(external, storing, GOOD);
    TurnBuildImage(external, building, app, id, w);
    LeadsTurn(external, GOOD, start, building);
    var built := Turn(external, building, GOOD);
    TurnStoreImage(external, built, app, id, w);
    LeadsTurn(external, GOOD, start, built);
    a := Turn(external, built, GOOD);
  }

  lemma TurnWithoutPull(external: bool, a: Conf, app: App, id: nat, v: World)
    requires a.run.skipPull
    ensures At(a, Pc.MarkRunning, app, id, v) ==>
              At(Turn(external, a, GOOD), Validate, app, id, v) && Turn(external, a, GOOD).run.skipPull
    ensures At(a, Validate, app, id, v) ==>
              At(Turn(external, a, GOOD), if Exclusive(external, app) then StopFirst else StartStaging, app, id, v)
  {
    hide StagingName, DefaultName, AfterBuilding, AfterCutover;
  }

  /** From the first container operation to a container that is waited for. */
  lemma ToWaiting(external: bool, start: Conf, a: Conf, app: App, id: nat, w: World) returns (b: Conf, v: World)
    requires Leads(external, GOOD, start, a)
    requires At(a, if Exclusive(external, app) then StopFirst else StartStaging, app, id, w)
    ensures Leads(external, GOOD, start, b) && At(b, AwaitHealth, app, id, v)
    ensures StagingName(app.name, id) in v.running && v.apps == w.apps && v.nextId == w.nextId
  {
    hide Leads, Turn, StagingName, DefaultName, LiveName;
    var starting := a;
    v := w;
    if Exclusive(external, app) {
      TurnStop(external, a, GOOD, app, id, w);
      LeadsTurn(external, GOOD, start, a);
      starting, v := Turn(external, a, GOOD), StopContainer(w, LiveName(app), Removed);
    }
    TurnStart(external, starting, GOOD, app, id, v);
    LeadsTurn(external, GOOD, start, starting);
    b, v := Turn(external, starting, GOOD), StartContainer(v, StagingName(app.name, id), Started(true));
  }

  /** On to the write of the app row, with everything working. */
  lemma ToRowFrom(external: bool, start: Conf, a: Conf, app: App, id: nat, v: World) returns (b: Conf)
    requires Leads(external, GOOD, start, a) && LiveName(app) != StagingName(app.name, id)
    requires At(a, AwaitHealth, app, id, v) && StagingName(app.name, id) in v.running
    ensures Leads(external, GOOD, start, b) && b.run.pc.UpdateApp? && b.run.todo == []
    ensures b.run.app == app && b.run.d.id == id && b.w.apps == v.apps && b.w.nextId == v.nextId
  {
    hide Leads, Turn, StagingName, DefaultName, LiveName, Exclusive;
    var storing, u := Turn(external, a, GOOD), v;
    TurnHealthy(external, a, GOOD, app, id, v);
    LeadsTurn(external, GOOD, start, a);
    if !Exclusive(external, app) {
      var switching, routed := storing, RouteTo(v, app.name, StagingName(app.name, id), Routed);
      TurnSwitch(external, switching, GOOD, app, id, v);
      LeadsTurn(external, GOOD, start, switching);
      var stopping := Turn(external, switching, GOOD);
      TurnStopPrevious(external, stopping, GOOD, app, id, routed);
      LeadsTurn(external, GOOD, start, stopping);
      storing, u := Turn(external, stopping, GOOD), StopContainer(routed, LiveName(app), Removed);
    }
    TurnStoreSuccess(external, storing, GOOD, app, id, u);
    LeadsTurn(external, GOOD, start, storing);
    b := Turn(external, storing, GOOD);
  }

  lemma TurnPromotes(external: bool, a: Conf)
    requires a.run.pc.UpdateApp? && a.run.todo == [] && a.run.app.id in a.w.apps
    ensures var b := Turn(external, a, GOOD);
            b.run.Finished() && b.w.apps == a.w.apps[a.run.app.id := Promoted(a.run)] && b.w.deploys == a.w.deploys
  {
    hide StagingName, DefaultName, AfterBuilding, AfterPreparing, AfterCutover;
  }

  /** A local build from its request to its end. */
  lemma BuiltRun(external: bool, app: App, d: Deploy, w: World) returns (b: Conf)
    requires app.buildMode.TalosBuild? && app.repoURL != "" && d.image == "" && d.commit == "" && d.id in w.deploys
    requires w.deploys[d.id] == d && d.status.Pending? && d.completedAt.None?
    requires app.id in w.apps && LiveName(app) != StagingName(app.name, d.id)
    ensures Leads(external, GOOD, Conf(QueuedRun(app, d), w), b) && b.run.Finished() && OwnRowOnly(w, b.w, d.id)
    ensures d.id in b.w.deploys && b.w.deploys[d.id].status.Success? && b.w.deploys[d.id].image == ""
    ensures app.id in b.w.apps && b.w.apps[app.id].current == Some(d.id) && b.w.apps[app.id].image == GOOD.text
  {
    hide Leads, Turn, StagingName, DefaultName, LiveName, OwnRowOnly;
    var start := Conf(QueuedRun(app, d), w);
    var marking := LeadsThroughBuild(external, app, d, w);
    LeadsNowhere(external, GOOD, marking);
    TurnWithoutPull(external, marking, app, d.id, w);
    LeadsTurn(external, GOOD, marking, marking);
    var validating := Turn(external, marking, GOOD);
    TurnWithoutPull(external, validating, app, d.id, w);
    LeadsTurn(external, GOOD, marking, validating);
    var waiting, v := ToWaiting(external, marking, Turn(external, validating, GOOD), app, d.id, w);
    var row := ToRowFrom(external, marking, waiting, app, d.id, v);
    LeadsKeepsImage(external, marking, row);
    LeadsOn(external, GOOD, start, marking, row);
    RowsAtPromotion(external, app, d, w, row);
    TurnPromotes(external, row);
    LeadsTurn(external, GOOD, start, row);
    b := Turn(external, row, GOOD);
    SameRows(w, row.w, b.w, d.id);
  }

  lemma SameRows(w: World, v: World, u: World, id: nat)
    requires OwnRowOnly(w, v, id) && u.deploys == v.deploys
    ensures OwnRowOnly(w, u, id) && id in u.deploys && id in w.deploys && u.deploys[id].image == w.deploys[id].image
  {
  }

  lemma LeadsKeepsImage(external: bool, a: Conf, b: Conf)
    requires Leads(external, GOOD, a, b) && !Building(a.run.pc)
    ensures b.run.d.image == a.run.d.image
  {
    var cs :| (forall e | e in cs :: e == GOOD) && Steps(external, a, cs) == b;
    StepsKeepImage(external, a, cs);
  }

  lemma RowsAtPromotion(external: bool, app: App, d: Deploy, w: World, row: Conf)
    requires d.status.Pending? && d.completedAt.None? && d.id in w.deploys && w.deploys[d.id] == d
    requires Leads(external, GOOD, Conf(QueuedRun(app, d), w), row) && row.run.pc.UpdateApp?
    ensures OwnRowOnly(w, row.w, d.id) && d.id in row.w.deploys && row.w.deploys[d.id].status.Success?
  {
    hide Tracks, Synced;
    FreshTracks(app, d);
    var start := Conf(QueuedRun(app, d), w);
    var cs :| (forall e | e in cs :: e == GOOD) && Steps(external, start, cs) == row;
    StepsRows(external, start, cs);
    UpdateAppIsSuccess(row.run, row.w.deploys[d.id]);
  }

  lemma NewestIsLatestSuccess(w: World, d: Deploy, w': World, x: nat)
    requires d.id == w.nextId && d.appId == x && forall j | j in w.deploys :: w.deploys[j].createdAt < d.createdAt && j < w.nextId
    requires OwnRowOnly(CreateDeploy(w, d), w', d.id) && w'.deploys[d.id].status.Success?
    ensures LatestSuccess(w'.deploys, x, Some(d.id))
  {
    assert forall j | j in w'.deploys :: j == d.id || (j in w.deploys && w'.deploys[j] == w.deploys[j]);
  }

  /** From rest and with everything working: a deploy without an image is built, goes live, and
      is what a rollback repeats, but the image in its row, which the rollback pulls, is empty
      while the app row names the built one. */
  lemma BuiltImageIsNotInItsRow(external: bool, w: World, x: nat, now: int) returns (ls: seq<Label>)
    requires GoodWorld(w) && x in w.apps && w.apps[x].buildMode.TalosBuild? && w.apps[x].repoURL != ""
    requires forall j | j in w.deploys :: w.deploys[j].createdAt < now
    ensures forall l | l in ls && l.Advance? :: l.c == GOOD
    ensures var e, t := RunAll(AtRest(external, w), ls), w.nextId;
      && t in e.runs && e.runs[t].Finished() && x in e.w.apps && e.w.apps[x].current == Some(t) && e.w.apps[x].image != ""
      && LatestSuccess(e.w.deploys, x, Some(t)) && t in e.w.deploys && e.w.deploys[t].image == ""
      && var r := Apply(Apply(e, Load(0, x)), RollbackLabel(e.w, 0, t, now + 1));
         e.w.nextId in r.runs && r.runs[e.w.nextId].d.image == "" && r.runs[e.w.nextId].pc.MarkRunning?
  {
    hide Leads, StagingName, DefaultName, LiveName, RunAll, OwnRowOnly, LatestSuccess, Steps;
    var s, app := AtRest(external, w), w.apps[x];
    var t, d := w.nextId, NewDeploy(w, app.id, "", "", "", None, now);
    Requested(s, x, "", now);
    LiveIsOld(app, w.nextId);
    var n := RunAll(s, Request(x, "", now));
    var end := BuiltRun(external, app, d, n.w);
    var rest := Driven(n, t, GOOD, end);
    RunAllAppend(s, Request(x, "", now), rest);
    ls := Request(x, "", now) + rest;
    NewestIsLatestSuccess(w, d, end.w, x);
  }
}
