/** Whole runs of different apps do not interfere: any interleaving of background runs amounts
    to the runs of one app first and all others after them. */
module Reorder {
  import opened Domain
  import opened Names
  import opened DeployMachine
  import opened DeployStatus
  import opened Cutover
  import opened Commute

  /** Same state and runs, and the same event log of every deploy. */
  ghost predicate Same(a: Sys, b: Sys)
  {
    (a.external, a.reqs, a.runs) == (b.external, b.reqs, b.runs) && SameUpToLogOrder(a.w, b.w)
  }

  /** The labels whose run is among the given ones, or is not. */
  function Pick(ls: seq<Label>, ids: set<nat>, chosen: bool): seq<Label>
  {
    if ls == [] then []
    else (if ls[0].Advance? && (ls[0].id in ids) == chosen then [ls[0]] else []) + Pick(ls[1..], ids, chosen)
  }

  predicate AllAdvance(ls: seq<Label>)
  {
    forall l | l in ls :: l.Advance?
  }

  /** The copies of app x itself that name no recorded container spare all other apps. */
  ghost predicate SparesOthers(s: Sys, x: nat)
  {
    forall a | a in Copies(s) && a.id == x && a.live == "" :: Untaken(a.name, s.w.apps)
  }

  /** The given runs are those of app x, and x and the others are out of each other's way.
      Collisions among the others do not matter. */
  ghost predicate Divided(s: Sys, ids: set<nat>, x: nat)
  {
    && Inv(s) && Spared(s, x) && SparesOthers(s, x)
    && (forall t | t in s.runs :: OwnEvents(s.runs[t]) && (t in ids <==> s.runs[t].app.id == x))
  }

  lemma SparesOthersKept(s: Sys, l: Label, x: nat)
    requires Inv(s) && SparesOthers(s, x) && l.Advance?
    ensures SparesOthers(Apply(s, l), x)
  {
    hide StepRun, StepWorld, Inv, Copies, Untaken;
    NewCopies(s, l);
    if l.id in s.runs && !s.runs[l.id].Finished() {
      AdvanceSameApps(s, l.id, l.c);
      forall app ensures Untaken(app, s.w.apps) <==> Untaken(app, Apply(s, l).w.apps) {
        UntakenKept(app, s.w, Apply(s, l).w);
      }
    }
  }

  lemma DividedKept(s: Sys, l: Label, ids: set<nat>, x: nat)
    requires Divided(s, ids, x) && l.Advance?
    ensures Divided(Apply(s, l), ids, x)
  {
    hide StepRun, StepWorld, Inv, Spared, SparesOthers, OwnEvents;
    ApplyKeepsInv(s, l);
    ApplyKeepsSpared(s, l, x);
    SparesOthersKept(s, l, x);
    if l.id in s.runs && !s.runs[l.id].Finished() {
      StepKeepsOwnEvents(s.external, s.runs[l.id], s.w, l.c);
      StepFrame(s.external, s.runs[l.id], s.w, l.c);
    }
  }

  /** A run of app x and one of another app do not collide, either way. */
  lemma DividedDoNotCollide(s: Sys, t: nat, u: nat)
    requires Inv(s) && t in s.runs && u in s.runs && s.runs[t].app.id != s.runs[u].app.id
    requires Spared(s, s.runs[t].app.id) && SparesOthers(s, s.runs[t].app.id)
    ensures !Colliding(s.runs[t], s.runs[u]) && !Colliding(s.runs[u], s.runs[t])
  {
    hide StagingName, DefaultName, Inv;
    var q, r := s.runs[t], s.runs[u];
    InvAt(s, t);
    InvAt(s, u);
    assert q.app in Copies(s) && r.app in Copies(s);
    assert q.app.name != r.app.name && s.w.apps[r.app.id].name == r.app.name;
    SparedRun(r, q, s.w.nextId);
    if q.app.live == "" {
      forall j: nat ensures DefaultName(q.app.name) != StagingName(r.app.name, j) {
        assert DefaultName(q.app.name) != StagingName(s.w.apps[r.app.id].name, j);
      }
    }
    SparedRun(q, r, s.w.nextId);
  }

  lemma SparedRun(q: Run, r: Run, bound: nat)
    requires Recorded(r.app, bound) && q.app.name != r.app.name
    requires q.app.live == "" ==> Spares(q.app.name, r.app.name)
    ensures !Colliding(q, r)
  {
    hide StagingName, DefaultName;
    if q.app.live == "" && r.app.live == "" && DefaultName(q.app.name) == DefaultName(r.app.name) {
      DefaultNameInjective(q.app.name, r.app.name);
    }
  }

  lemma SameIsTransitive(a: Sys, b: Sys, c: Sys)
    requires Same(a, b) && Same(b, c)
    ensures Same(a, c)
  {
  }

  /** Equivalent systems stay equivalent: no step reads the event log. */
  lemma SameStep(a: Sys, b: Sys, l: Label)
    requires Same(a, b) && l.Advance?
    ensures Same(Apply(a, l), Apply(b, l))
  {
    hide StepRun, StepWorld, EventsOf, RowAfter;
    if l.id in a.runs && !a.runs[l.id].Finished() {
      var r := a.runs[l.id];
      StepReadsContainers(a.external, r, a.w, b.w, l.c);
      StepParts(r, a.w, l.c);
      StepParts(r, b.w, l.c);
      forall id: nat ensures EventsOf(StepWorld(r, a.w, l.c).events, id) == EventsOf(StepWorld(r, b.w, l.c).events, id) {
        EventsOfAppend(a.w.events, Emitted(r, l.c), id);
        EventsOfAppend(b.w.events, Emitted(r, l.c), id);
      }
    }
  }

  lemma StepReadsContainers(external: bool, r: Run, w: World, w': World, c: Choice)
    requires w.running == w'.running
    ensures StepRun(external, r, w, c) == StepRun(external, r, w', c)
  {
    hide StagingName, DefaultName, AfterBuilding, AfterPreparing;
  }

  lemma {:induction false} SameRun(a: Sys, b: Sys, ls: seq<Label>)
    requires Same(a, b) && AllAdvance(ls)
    ensures Same(RunAll(a, ls), RunAll(b, ls))
    decreases |ls|
  {
    hide Same, Apply;
    if ls != [] {
      assert ls[0] in ls && forall l | l in ls[1..] :: l in ls;
      SameStep(a, b, ls[0]);
      SameRun(Apply(a, ls[0]), Apply(b, ls[0]), ls[1..]);
    }
  }

  /** Two labels of different sides can be swapped, finished runs included. */
  lemma Swap(s: Sys, l: Label, m: Label, ids: set<nat>, x: nat)
    requires Divided(s, ids, x) && l.Advance? && m.Advance? && l.id !in ids && m.id in ids
    ensures Same(Apply(Apply(s, l), m), Apply(Apply(s, m), l))
  {
    hide StepRun, StepWorld, Inv, Spared, SparesOthers, OwnEvents, Colliding, EventsOf;
    if l.id in s.runs && m.id in s.runs && !s.runs[l.id].Finished() && !s.runs[m.id].Finished() {
      DividedDoNotCollide(s, m.id, l.id);
      StepsOfDifferentAppsCommute(s, l.id, l.c, m.id, m.c);
    }
  }

  /** A label of another app moves behind any number of labels of app x. */
  lemma {:induction false} MoveBack(s: Sys, l: Label, ms: seq<Label>, ids: set<nat>, x: nat)
    requires Divided(s, ids, x) && l.Advance? && l.id !in ids
    requires forall m | m in ms :: m.Advance? && m.id in ids
    ensures Same(RunAll(Apply(s, l), ms), Apply(RunAll(s, ms), l))
    decreases |ms|
  {
    hide Divided, Same, Apply;
    if ms == [] {
      SameSelf(Apply(s, l));
    } else {
      var m := ms[0];
      assert m in ms && forall n | n in ms[1..] :: n in ms;
      Swap(s, l, m, ids, x);
      SameRun(Apply(Apply(s, l), m), Apply(Apply(s, m), l), ms[1..]);
      DividedKept(s, m, ids, x);
      MoveBack(Apply(s, m), l, ms[1..], ids, x);
      SameIsTransitive(RunAll(Apply(s, l), ms), RunAll(Apply(Apply(s, m), l), ms[1..]), Apply(RunAll(s, ms), l));
    }
  }

  lemma SameSelf(s: Sys)
    ensures Same(s, s)
  {
  }

  lemma {:induction false} PickKinds(ls: seq<Label>, ids: set<nat>, chosen: bool)
    ensures forall l | l in Pick(ls, ids, chosen) :: l.Advance? && (l.id in ids) == chosen
  {
    if ls != [] {
      PickKinds(ls[1..], ids, chosen);
    }
  }

  /** Any interleaving of background runs leads where the runs of app x, followed by all the
      others, lead: to the same state, and to the same event log of every deploy. */
  lemma {:induction false} RunsOfOneAppFirst(s: Sys, ls: seq<Label>, ids: set<nat>, x: nat)
    requires Divided(s, ids, x) && AllAdvance(ls)
    ensures Same(RunAll(s, ls), RunAll(s, Pick(ls, ids, true) + Pick(ls, ids, false)))
    decreases |ls|
  {
    hide Divided, Same, Apply;
    if ls == [] {
      assert Pick(ls, ids, true) + Pick(ls, ids, false) == [];
      SameSelf(s);
    } else {
      var l, first, rest := ls[0], Pick(ls[1..], ids, true), Pick(ls[1..], ids, false);
      assert l in ls && forall n | n in ls[1..] :: n in ls;
      DividedKept(s, l, ids, x);
      RunsOfOneAppFirst(Apply(s, l), ls[1..], ids, x);
      if l.id in ids {
        assert Pick(ls, ids, true) + Pick(ls, ids, false) == [l] + (first + rest);
        assert ([l] + (first + rest))[1..] == first + rest;
      } else {
        PickKinds(ls[1..], ids, true);
        PickKinds(ls[1..], ids, false);
        MoveBack(s, l, first, ids, x);
        SameRun(RunAll(Apply(s, l), first), Apply(RunAll(s, first), l), rest);
        RunAllAppend(Apply(s, l), first, rest);
        RunAllAppend(s, first, [l] + rest);
        assert ([l] + rest)[1..] == rest;
        assert Pick(ls, ids, true) + Pick(ls, ids, false) == first + ([l] + rest);
        SameIsTransitive(RunAll(s, ls), RunAll(Apply(s, l), first + rest), RunAll(s, first + ([l] + rest)));
      }
    }
  }
}
