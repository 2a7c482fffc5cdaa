/** Deploys of one app that do not overlap: the next request reads the app row only when the
    previous run of that app is over, while other apps deploy as they like in between. */
module Serial {
  import opened Domain
  import opened Names
  import opened DeployMachine
  import opened DeployStatus
  import opened Cutover

  ghost predicate Quiet(s: Sys, x: nat)
  {
    && (forall q | q in s.reqs :: s.reqs[q].id != x)
    && (forall t | t in s.runs && s.runs[t].app.id == x :: s.runs[t].Finished())
  }

  ghost predicate Orderly(s: Sys, l: Label, x: nat)
  {
    l.Load? && l.app == x ==> Quiet(s, x)
  }

  /** At most one request or unfinished run of app x, working on the current app row. */
  ghost predicate One(s: Sys, x: nat)
  {
    && x in s.w.apps
    && (forall q | q in s.reqs && s.reqs[q].id == x ::
          s.reqs[q] == s.w.apps[x]
          && (forall p | p in s.reqs && s.reqs[p].id == x :: p == q)
          && (forall t | t in s.runs && s.runs[t].app.id == x :: s.runs[t].Finished()))
    && (forall t | t in s.runs && s.runs[t].app.id == x && !s.runs[t].Finished() ::
          (s.runs[t].pc.Done? || s.runs[t].app == s.w.apps[x])
          && (forall u | u in s.runs && s.runs[u].app.id == x && !s.runs[u].Finished() :: u == t))
  }

  lemma OneKeptLoad(s: Sys, req: nat, app: nat, x: nat)
    requires One(s, x) && (app == x ==> Quiet(s, x))
    requires forall a | a in s.w.apps :: s.w.apps[a].id == a
    ensures One(Apply(s, Load(req, app)), x)
  {
    hide StagingName, DefaultName, Run.Finished;
  }

  lemma OneKeptLaunch(s: Sys, l: Label, x: nat)
    requires One(s, x) && l.Launch? && s.w.nextId !in s.runs
    ensures One(Apply(s, l), x)
  {
    hide StagingName, DefaultName;
  }

  lemma OneKeptAdvance(s: Sys, t: nat, c: Choice, x: nat)
    requires Inv(s) && One(s, x) && t in s.runs && !s.runs[t].Finished()
    ensures One(Apply(s, Advance(t, c)), x)
    ensures s.runs[t].app.id != x ==> Apply(s, Advance(t, c)).w.apps[x] == s.w.apps[x]
  {
    hide StagingName, DefaultName, StepRun, StepWorld, Inv;
    InvAt(s, t);
    AdvanceSameApps(s, t, c);
    StepFrame(s.external, s.runs[t], s.w, c);
    StepWorldFrame(s.runs[t], s.w, c);
    OwnRowKept(s.external, s.runs[t], s.w, c);
  }

  lemma OwnRowKept(external: bool, r: Run, w: World, c: Choice)
    requires r.app.id in w.apps
    ensures var r', w' := StepRun(external, r, w, c), StepWorld(r, w, c);
            r'.pc.Done? || (r'.app == r.app && w'.apps == w.apps)
  {
    hide StagingName, DefaultName, AfterBuilding, AfterPreparing, AfterCutover;
  }
}
