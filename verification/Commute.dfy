/** Runs of different apps do not interfere: their steps commute, up to the order in which
    the events of different deploys were stored. */
module Commute {
  import opened Domain
  import opened Names
  import opened DeployMachine
  import opened DeployStatus
  import opened Cutover

  /** What the step of a run does to each part of the shared state. */
  function Minus(r: Run, c: Choice): set<string>
  {
    if r.todo == [] && Stops(r.pc) && !c.stop.NotStopped? then {StopTarget(r)} else {}
  }

  function Plus(r: Run, c: Choice): set<string>
  {
    if r.todo == [] && r.pc.StartStaging? && (c.start == Started(true) || c.start == StartFailed(true))
    then {r.Staging()} else {}
  }

  function RoutesAfter(r: Run, routes: map<string, string>, c: Choice): map<string, string>
  {
    if r.todo == [] && r.pc.SwitchRoute? then
      match c.route
      case Routed => routes[r.app.name := r.Staging()]
      case RouteKept => routes
      case RouteTruncated => routes - {r.app.name}
    else routes
  }

  function DeploysAfter(r: Run, deploys: map<nat, Deploy>, c: Choice): map<nat, Deploy>
  {
    if r.d.id in deploys then deploys[r.d.id := RowAfter(r, deploys[r.d.id], c)] else deploys
  }

  function AppsAfter(r: Run, apps: map<nat, App>, c: Choice): map<nat, App>
  {
    if r.todo == [] && r.pc.UpdateApp? && c.stored && r.app.id in apps then apps[r.app.id := Promoted(r)] else apps
  }

  function Emitted(r: Run, c: Choice): seq<Event>
  {
    if r.todo != [] && c.stored then [r.todo[0]] else []
  }

  lemma StepParts(r: Run, w: World, c: Choice)
    ensures var w' := StepWorld(r, w, c);
      && w'.running == w.running - Minus(r, c) + Plus(r, c)
      && w'.routes == RoutesAfter(r, w.routes, c)
      && w'.deploys == DeploysAfter(r, w.deploys, c)
      && w'.apps == AppsAfter(r, w.apps, c)
      && w'.events == w.events + Emitted(r, c)
      && w'.nextId == w.nextId
  {
    hide StagingName, DefaultName, RowAfter, StepWorld;
    StepRunningPart(r, w, c);
    StepRoutesPart(r, w, c);
    StepAppsPart(r, w, c);
    StepWorldFrame(r, w, c);
    if r.d.id in w.deploys {
      StepRow(r, w, c);
    }
  }

  lemma StepRunningPart(r: Run, w: World, c: Choice)
    ensures StepWorld(r, w, c).running == w.running - Minus(r, c) + Plus(r, c)
  {
    hide StagingName, DefaultName;
  }

  lemma StepRoutesPart(r: Run, w: World, c: Choice)
    ensures StepWorld(r, w, c).routes == RoutesAfter(r, w.routes, c)
  {
    hide StagingName, DefaultName, StopTarget, Written;
  }

  lemma StepAppsPart(r: Run, w: World, c: Choice)
    ensures StepWorld(r, w, c).apps == AppsAfter(r, w.apps, c) && StepWorld(r, w, c).events == w.events + Emitted(r, c)
  {
    hide StagingName, DefaultName;
  }

  /** The names and keys of two runs are all different. */
  predicate Apart(q: Run, r: Run)
  {
    && q.d.id != r.d.id && q.app.id != r.app.id && q.app.name != r.app.name
    && {q.Live(), q.Staging()} !! {r.Live(), r.Staging()}
  }

  /** q's copy has no recorded container, and its app's default name is a container of r. */
  predicate Colliding(q: Run, r: Run)
  {
    q.app.live == "" && DefaultName(q.app.name) in {r.Live(), r.Staging()}
  }

  /** Runs of different apps are apart if and only if no default name collides, so always when
      both live containers are recorded, whatever the apps are called. */
  lemma DifferentAppsAreApartExactly(s: Sys, t: nat, u: nat)
    requires Inv(s) && t in s.runs && u in s.runs && s.runs[t].app.id != s.runs[u].app.id
    ensures Apart(s.runs[t], s.runs[u]) <==> !Colliding(s.runs[t], s.runs[u]) && !Colliding(s.runs[u], s.runs[t])
  {
    hide StagingName, DefaultName, Inv;
    var q, r := s.runs[t], s.runs[u];
    InvAt(s, t);
    InvAt(s, u);
    assert q.app.name != r.app.name;
    RecordedApart(q, r, s.w.nextId);
    RecordedApart(r, q, s.w.nextId);
  }

  lemma RecordedApart(q: Run, r: Run, bound: nat)
    requires Recorded(q.app, bound) && Recorded(r.app, bound) && q.app.name != r.app.name
    ensures q.Staging() != r.Staging()
    ensures q.app.live != "" && r.app.live != "" ==> q.Live() != r.Live()
    ensures q.app.live != "" ==> q.Live() != r.Staging()
  {
    hide StagingName, DefaultName;
    if q.Staging() == r.Staging() {
      StagingNameInjective(q.app.name, q.d.id, r.app.name, r.d.id);
    }
    if q.app.live != "" && r.app.live != "" && q.Live() == r.Live() {
      StagingNameInjective(q.app.name, q.app.current.value, r.app.name, r.app.current.value);
    }
    if q.app.live != "" && q.Live() == r.Staging() {
      StagingNameInjective(q.app.name, q.app.current.value, r.app.name, r.d.id);
    }
  }

  /** A step of one run does not change what a step of the other leads to. */
  lemma StepUnaffected(external: bool, q: Run, r: Run, w: World, c: Choice, e: Choice)
    requires Apart(q, r)
    ensures StepRun(external, r, StepWorld(q, w, c), e) == StepRun(external, r, w, e)
  {
    hide StagingName, DefaultName, AfterBuilding, AfterPreparing, StepWorld;
    StepParts(q, w, c);
    assert r.Staging() in StepWorld(q, w, c).running <==> r.Staging() in w.running;
  }

  function EventsOf(events: seq<Event>, id: nat): seq<Event>
  {
    if events == [] then []
    else (if events[0].deploy == id then [events[0]] else []) + EventsOf(events[1..], id)
  }

  lemma {:induction false} EventsOfAppend(a: seq<Event>, b: seq<Event>, id: nat)
    ensures EventsOf(a + b, id) == EventsOf(a, id) + EventsOf(b, id)
  {
    hide EventsOf;
    if a == [] {
      assert a + b == b;
      assert EventsOf(a, id) == [] by { NoEvents(id); }
    } else {
      EventsOfAppend(a[1..], b, id);
      OneMoreEvent(a[0], a[1..], id);
      OneMoreEvent(a[0], a[1..] + b, id);
      assert a == [a[0]] + a[1..] && a + b == [a[0]] + (a[1..] + b);
    }
  }

  lemma NoEvents(id: nat)
    ensures EventsOf([], id) == []
  {
  }

  lemma OneMoreEvent(e: Event, rest: seq<Event>, id: nat)
    ensures EventsOf([e] + rest, id) == (if e.deploy == id then [e] else []) + EventsOf(rest, id)
  {
    assert ([e] + rest)[1..] == rest;
  }

  /** Same state, and each deploy's event log is the same. */
  ghost predicate SameUpToLogOrder(a: World, b: World)
  {
    && a.(events := []) == b.(events := [])
    && forall id: nat :: EventsOf(a.events, id) == EventsOf(b.events, id)
  }

  lemma WorldsCommute(q: Run, r: Run, w: World, c: Choice, e: Choice)
    requires Apart(q, r)
    requires q.todo != [] ==> q.todo[0].deploy == q.d.id
    requires r.todo != [] ==> r.todo[0].deploy == r.d.id
    ensures SameUpToLogOrder(StepWorld(r, StepWorld(q, w, c), e), StepWorld(q, StepWorld(r, w, e), c))
  {
    hide StagingName, DefaultName, StepWorld, RowAfter;
    var a, b := StepWorld(r, StepWorld(q, w, c), e), StepWorld(q, StepWorld(r, w, e), c);
    StepParts(q, w, c);
    StepParts(r, w, e);
    StepParts(r, StepWorld(q, w, c), e);
    StepParts(q, StepWorld(r, w, e), c);
    PartsCommute(q, r, w, c, e);
    forall id: nat ensures EventsOf(a.events, id) == EventsOf(b.events, id) {
      var m, n := Emitted(q, c), Emitted(r, e);
      EventsOfAppend(w.events + m, n, id);
      EventsOfAppend(w.events, m, id);
      EventsOfAppend(w.events + n, m, id);
      EventsOfAppend(w.events, n, id);
      assert EventsOf(m, id) == [] || EventsOf(n, id) == [];
    }
  }

  lemma PartsCommute(q: Run, r: Run, w: World, c: Choice, e: Choice)
    requires Apart(q, r)
    ensures w.running - Minus(q, c) + Plus(q, c) - Minus(r, e) + Plus(r, e)
         == w.running - Minus(r, e) + Plus(r, e) - Minus(q, c) + Plus(q, c)
    ensures RoutesAfter(r, RoutesAfter(q, w.routes, c), e) == RoutesAfter(q, RoutesAfter(r, w.routes, e), c)
    ensures DeploysAfter(r, DeploysAfter(q, w.deploys, c), e) == DeploysAfter(q, DeploysAfter(r, w.deploys, e), c)
    ensures AppsAfter(r, AppsAfter(q, w.apps, c), e) == AppsAfter(q, AppsAfter(r, w.apps, e), c)
  {
    hide StagingName, DefaultName, RowAfter;
  }

  /** Every event a run has still to emit carries its own deploy id. */
  ghost predicate OwnEvents(r: Run)
  {
    forall e | e in r.todo :: e.deploy == r.d.id
  }

  lemma StepKeepsOwnEvents(external: bool, r: Run, w: World, c: Choice)
    requires OwnEvents(r)
    ensures OwnEvents(StepRun(external, r, w, c))
  {
    hide StagingName, DefaultName, AfterBuilding, AfterPreparing, AfterCutover;
    if r.todo == [] {
      PhasesKeepOwnEvents(external, r, w, c);
    }
  }

  lemma PhasesKeepOwnEvents(external: bool, r: Run, w: World, c: Choice)
    requires r.todo == []
    ensures Building(r.pc) ==> OwnEvents(AfterBuilding(r, c))
    ensures Preparing(r.pc) ==> OwnEvents(AfterPreparing(external, r, c))
    ensures CuttingOver(r.pc) ==> OwnEvents(AfterCutover(external, r, w, c))
  {
    hide StagingName, DefaultName;
  }

  /** Non-interference: two steps of runs of different apps can be taken in either order. */
  lemma StepsOfDifferentAppsCommute(s: Sys, t: nat, c: Choice, u: nat, e: Choice)
    requires Inv(s) && t in s.runs && u in s.runs && s.runs[t].app.id != s.runs[u].app.id
    requires !Colliding(s.runs[t], s.runs[u]) && !Colliding(s.runs[u], s.runs[t])
    requires !s.runs[t].Finished() && !s.runs[u].Finished() && OwnEvents(s.runs[t]) && OwnEvents(s.runs[u])
    ensures var a := Apply(Apply(s, Advance(t, c)), Advance(u, e));
            var b := Apply(Apply(s, Advance(u, e)), Advance(t, c));
            a.runs == b.runs && a.reqs == b.reqs && SameUpToLogOrder(a.w, b.w)
  {
    hide StagingName, DefaultName, StepRun, StepWorld, Inv, SameUpToLogOrder;
    var q, r := s.runs[t], s.runs[u];
    DifferentAppsAreApartExactly(s, t, u);
    StepUnaffected(s.external, q, r, s.w, c, e);
    StepUnaffected(s.external, r, q, s.w, e, c);
    WorldsCommute(q, r, s.w, c, e);
  }
}
