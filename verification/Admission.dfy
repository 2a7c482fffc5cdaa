/** Which deploys may start: Deploy refuses while the app's latest deploy is in progress,
    Rollback never refuses. */
module Admission {
  import opened Domain
  import opened Names
  import opened DeployMachine
  import opened DeployStatus
  import opened Cutover

  predicate InProgress(d: Deploy)
  {
    d.status.Pending? || d.status.Running?
  }

  /** ORDER BY created_at DESC LIMIT 1 among the app's deploys; which one wins a tie is open. */
  ghost predicate Newest(deploys: map<nat, Deploy>, app: nat, id: nat)
  {
    && id in deploys && deploys[id].appId == app
    && forall j | j in deploys && deploys[j].appId == app :: deploys[j].createdAt <= deploys[id].createdAt
  }

  /** The row GetLatestDeploy may return, None standing for ErrNotFound. */
  ghost predicate LatestDeploy(deploys: map<nat, Deploy>, app: nat, r: Option<nat>)
  {
    if r.Some? then Newest(deploys, app, r.value) else forall j | j in deploys :: deploys[j].appId != app
  }

  /** The row GetLatestSuccessfulDeploy may return. */
  ghost predicate LatestSuccess(deploys: map<nat, Deploy>, app: nat, r: Option<nat>)
  {
    LatestDeploy(map j | j in deploys && deploys[j].status.Success? :: deploys[j], app, r)
  }

  /** Each app has at most one deploy in progress, and that one is strictly its newest. */
  ghost predicate SingleActive(deploys: map<nat, Deploy>)
  {
    forall i, j | i in deploys && j in deploys && i != j && deploys[i].appId == deploys[j].appId && InProgress(deploys[i]) ::
      !InProgress(deploys[j]) && deploys[j].createdAt < deploys[i].createdAt
  }

  /** Deploy with its check and its create as one step: latest is what GetLatestDeploy returned. */
  function Submit(s: Sys, app: nat, latest: Option<nat>, image: string, commit: string, branch: string, now: int): Sys
  {
    if app !in s.w.apps || !s.w.apps[app].managed then s
    else if latest.Some? && latest.value in s.w.deploys && InProgress(s.w.deploys[latest.value]) then s
    else Apply(Apply(s, Load(0, app)), Launch(0, image, commit, branch, None, now))
  }

  /** Rollback creates a deploy with the image and branch of the latest successful one. */
  function RollbackLabel(w: World, req: nat, prev: nat, now: int): Label
    requires prev in w.deploys
  {
    Launch(req, w.deploys[prev].image, "", w.deploys[prev].branch, Some(prev), now)
  }

  datatype Request =
    | Deploys(app: nat, latest: Option<nat>, image: string, commit: string, branch: string, now: int)
    | Continues(id: nat, c: Choice)

  function Serve(s: Sys, q: Request): Sys
  {
    match q
    case Deploys(app, latest, image, commit, branch, now) => Submit(s, app, latest, image, commit, branch, now)
    case Continues(id, c) => Apply(s, Advance(id, c))
  }

  function ServeAll(s: Sys, qs: seq<Request>): Sys
    decreases |qs|
  {
    if qs == [] then s else ServeAll(Serve(s, qs[0]), qs[1..])
  }

  /** The store answers GetLatestDeploy correctly and creation times strictly increase. */
  ghost predicate Consistent(s: Sys, q: Request)
  {
    q.Deploys? ==>
      && LatestDeploy(s.w.deploys, q.app, q.latest)
      && forall j | j in s.w.deploys :: s.w.deploys[j].createdAt < q.now
  }

  ghost predicate AllConsistent(s: Sys, qs: seq<Request>)
    decreases |qs|
  {
    qs == [] || (Consistent(s, qs[0]) && AllConsistent(Serve(s, qs[0]), qs[1..]))
  }

  /** Runs and their rows agree. */
  ghost predicate RunsTrack(s: Sys)
  {
    && (forall j | j in s.w.deploys :: j < s.w.nextId && WellFormed(s.w.deploys[j]))
    && (forall a | a in s.w.apps :: s.w.apps[a].id == a)
    && (forall t | t in s.runs :: t in s.w.deploys && s.runs[t].d.id == t && Tracks(s.runs[t], s.w.deploys[t])
                                  && s.runs[t].app.id == s.w.deploys[t].appId)
  }

  lemma AdvanceKeepsTrack(s: Sys, t: nat, c: Choice)
    requires RunsTrack(s) && t in s.runs && !s.runs[t].Finished()
    ensures var s' := Apply(s, Advance(t, c));
      && RunsTrack(s') && s'.w.deploys.Keys == s.w.deploys.Keys
      && (forall j | j in s.w.deploys :: RowEvolves(s.w.deploys[j], s'.w.deploys[j]))
      && (forall j | j in s.w.deploys && j != t :: s'.w.deploys[j] == s.w.deploys[j])
  {
    hide StepRun, StepWorld, RowAfter, Tracks;
    var r := s.runs[t];
    StepFrame(s.external, r, s.w, c);
    StepWorldFrame(r, s.w, c);
    StepRow(r, s.w, c);
    StepTracks(s.external, r, s.w, c);
    var s' := Apply(s, Advance(t, c));
    TracksWellFormed(s'.runs[t], s'.w.deploys[t]);
    forall a | a in s'.w.apps ensures s'.w.apps[a].id == a { AppIdKept(r, s.w, c, a); }
  }

  lemma TracksWellFormed(r: Run, row: Deploy)
    requires Tracks(r, row)
    ensures WellFormed(row) && row.id == r.d.id
  {
  }

  lemma AppIdKept(r: Run, w: World, c: Choice, a: nat)
    requires a in w.apps && w.apps[a].id == a
    ensures a in StepWorld(r, w, c).apps && StepWorld(r, w, c).apps[a].id == a
  {
  }

  /** A launch, by Deploy or by Rollback, keeps the app at one active deploy exactly when none
      is in progress and the new one is strictly the newest. */
  lemma LaunchKeepsSingleActiveExactly(s: Sys, l: Label)
    requires l.Launch? && l.req in s.reqs && SingleActive(s.w.deploys)
    requires forall j | j in s.w.deploys :: j < s.w.nextId
    ensures SingleActive(Apply(s, l).w.deploys) <==>
            forall j | j in s.w.deploys && s.w.deploys[j].appId == s.reqs[l.req].id ::
              !InProgress(s.w.deploys[j]) && s.w.deploys[j].createdAt < l.now
  {
    var ds := Apply(s, l).w.deploys;
    var id := s.w.nextId;
    assert forall j | j in s.w.deploys :: j in ds && ds[j] == s.w.deploys[j];
    assert InProgress(ds[id]) && ds[id].appId == s.reqs[l.req].id && ds[id].createdAt == l.now;
  }

  /** What the check in Deploy learns from the latest deploy alone. */
  lemma LatestTerminalMeansNoneActive(deploys: map<nat, Deploy>, app: nat, latest: Option<nat>)
    requires SingleActive(deploys) && LatestDeploy(deploys, app, latest)
    requires latest.Some? ==> !InProgress(deploys[latest.value])
    ensures forall j | j in deploys && deploys[j].appId == app :: !InProgress(deploys[j])
  {
  }

  lemma ServeKeeps(s: Sys, q: Request)
    requires RunsTrack(s) && SingleActive(s.w.deploys) && Consistent(s, q)
    ensures RunsTrack(Serve(s, q)) && SingleActive(Serve(s, q).w.deploys)
  {
    hide StepRun, StepWorld, Tracks;
    match q
    case Continues(id, c) =>
      if id in s.runs && !s.runs[id].Finished() {
        AdvanceKeepsTrack(s, id, c);
      }
    case Deploys(app, latest, image, commit, branch, now) =>
      var loaded := Apply(s, Load(0, app));
      if Serve(s, q) != s {
        var l := Launch(0, image, commit, branch, None, now);
        LatestTerminalMeansNoneActive(s.w.deploys, app, latest);
        LaunchKeepsSingleActiveExactly(loaded, l);
        LaunchTracks(loaded, l);
      }
  }

  lemma LaunchTracks(s: Sys, l: Label)
    requires RunsTrack(s) && l.Launch?
    ensures RunsTrack(Apply(s, l))
  {
  }

  /** Deploys admitted through an atomic check and create, any number of apps, all runs
      interleaved: every reachable state has at most one active deploy per app, its newest. */
  lemma {:induction false} OneActiveDeployPerApp(s: Sys, qs: seq<Request>)
    requires RunsTrack(s) && SingleActive(s.w.deploys) && AllConsistent(s, qs)
    ensures RunsTrack(ServeAll(s, qs)) && SingleActive(ServeAll(s, qs).w.deploys)
    decreases |qs|
  {
    hide RunsTrack, Serve, SingleActive;
    if qs != [] {
      ServeKeeps(s, qs[0]);
      OneActiveDeployPerApp(Serve(s, qs[0]), qs[1..]);
    }
  }

  /** The code checks and creates in two store calls. Two requests for app x whose check, made
      before either created its row, found the latest deploy over leave x with two deploys in
      progress. */
  lemma CheckThenCreateRaces(s: Sys, p: nat, q: nat, x: nat, latest: Option<nat>, image: string, now: int)
    requires RunsTrack(s) && p != q && p in s.reqs && q in s.reqs && s.reqs[p].id == s.reqs[q].id == x
    requires LatestDeploy(s.w.deploys, x, latest) && (latest.Some? ==> !InProgress(s.w.deploys[latest.value]))
    ensures var ds := Apply(Apply(s, Launch(p, image, "", "", None, now)), Launch(q, image, "", "", None, now + 1)).w.deploys;
            var i := s.w.nextId;
      && i in ds && i + 1 in ds && ds[i].appId == ds[i + 1].appId == x && InProgress(ds[i]) && InProgress(ds[i + 1])
      && !SingleActive(ds)
  {
    var s1 := Apply(s, Launch(p, image, "", "", None, now));
    var s2 := Apply(s1, Launch(q, image, "", "", None, now + 1));
    var i := s.w.nextId;
    assert s2.w.deploys[i] == s1.w.deploys[i] && s2.w.deploys[i + 1].appId == x;
  }

  /** Rollback makes no check at all: during a deploy it starts a second active one. */
  lemma RollbackDuringDeploy(s: Sys, p: nat, t: nat, prev: nat, image: string, now: int)
    requires RunsTrack(s) && p in s.reqs && t in s.w.deploys
    requires InProgress(s.w.deploys[t]) && s.w.deploys[t].appId == s.reqs[p].id
    ensures !SingleActive(Apply(s, Launch(p, image, "", "", Some(prev), now)).w.deploys)
  {
    var s' := Apply(s, Launch(p, image, "", "", Some(prev), now));
    assert InProgress(s'.w.deploys[s.w.nextId]) && s'.w.deploys[t] == s.w.deploys[t];
  }

  /** No app has two deploys in progress, in whatever order their rows were created. */
  ghost predicate OneInProgress(deploys: map<nat, Deploy>)
  {
    forall i, j | i in deploys && j in deploys && i != j && deploys[i].appId == deploys[j].appId ::
      !(InProgress(deploys[i]) && InProgress(deploys[j]))
  }

  /** Even as one step, check and create admit a second deploy next to one in progress, if and
      only if the row that the store returned as the latest is over and another one is not. */
  lemma SubmitAdmitsSecondExactly(s: Sys, x: nat, latest: Option<nat>, now: int)
    requires RunsTrack(s) && x in s.w.apps && s.w.apps[x].managed && OneInProgress(s.w.deploys)
    requires LatestDeploy(s.w.deploys, x, latest)
    ensures !OneInProgress(Submit(s, x, latest, "", "", "", now).w.deploys) <==>
              && latest.Some? && !InProgress(s.w.deploys[latest.value])
              && exists j :: j in s.w.deploys && s.w.deploys[j].appId == x && InProgress(s.w.deploys[j])
  {
    hide Submit, LatestDeploy;
    var i := s.w.nextId;
    SubmitIs(s, x, latest, now);
    assert latest.Some? ==> latest.value in s.w.deploys by { LatestIsRow(s.w.deploys, x, latest); }
    if latest.Some? && !InProgress(s.w.deploys[latest.value]) {
      AddedToOne(s.w.deploys, i, NewDeploy(s.w, x, "", "", "", None, now));
    } else if latest.None? {
      LatestIsRow(s.w.deploys, x, latest);
      AddedToOne(s.w.deploys, i, NewDeploy(s.w, x, "", "", "", None, now));
    }
  }

  lemma SubmitIs(s: Sys, x: nat, latest: Option<nat>, now: int)
    requires RunsTrack(s) && x in s.w.apps && s.w.apps[x].managed && LatestDeploy(s.w.deploys, x, latest)
    ensures Submit(s, x, latest, "", "", "", now).w.deploys ==
              if latest.Some? && latest.value in s.w.deploys && InProgress(s.w.deploys[latest.value]) then s.w.deploys
              else s.w.deploys[s.w.nextId := NewDeploy(s.w, x, "", "", "", None, now)]
    ensures s.w.nextId !in s.w.deploys
  {
  }

  lemma LatestIsRow(deploys: map<nat, Deploy>, x: nat, latest: Option<nat>)
    requires LatestDeploy(deploys, x, latest)
    ensures latest.Some? ==> latest.value in deploys
    ensures latest.None? ==> forall j | j in deploys :: deploys[j].appId != x
  {
  }

  lemma AddedToOne(deploys: map<nat, Deploy>, i: nat, d: Deploy)
    requires OneInProgress(deploys) && i !in deploys && InProgress(d)
    ensures !OneInProgress(deploys[i := d]) <==> exists j :: j in deploys && deploys[j].appId == d.appId && InProgress(deploys[j])
  {
    var ds := deploys[i := d];
    if j :| j in deploys && deploys[j].appId == d.appId && InProgress(deploys[j]) {
      assert j in ds && ds[j] == deploys[j] && ds[i] == d;
    }
  }

  /** created_at has one-second resolution. With a tie GetLatestDeploy may return the finished
      deploy, and a new one is admitted: the busy one and the new one are both in progress. */
  lemma TieAdmitsSecond(s: Sys, app: nat, done: nat, busy: nat, now: int)
    requires RunsTrack(s) && app in s.w.apps && s.w.apps[app].managed
    requires done in s.w.deploys && busy in s.w.deploys
    requires s.w.deploys[done].appId == app && s.w.deploys[busy].appId == app
    requires !InProgress(s.w.deploys[done]) && InProgress(s.w.deploys[busy])
    requires s.w.deploys[done].createdAt == s.w.deploys[busy].createdAt && Newest(s.w.deploys, app, busy)
    ensures LatestDeploy(s.w.deploys, app, Some(done))
    ensures var ds, i := Submit(s, app, Some(done), "", "", "", now).w.deploys, s.w.nextId;
      && i != busy && i in ds && busy in ds && ds[i].appId == ds[busy].appId == app
      && InProgress(ds[i]) && InProgress(ds[busy])
  {
    var ds := Submit(s, app, Some(done), "", "", "", now).w.deploys;
    assert ds[busy] == s.w.deploys[busy];
  }

  /** An atomic check would still not make the runs of an app follow one another: success is
      stored before the app row is. A deploy admitted in between works on the old row, and the
      container it is going to stop is not the one that has just gone live. */
  lemma AdmittedBeforePromotion(s: Sys, t: nat, now: int)
    requires Inv(s) && RunsTrack(s) && t in s.runs && s.runs[t].pc.UpdateApp? && s.runs[t].app.id in s.w.apps
    requires s.w.apps[s.runs[t].app.id].managed && s.w.deploys[t].status.Success?
    requires Newest(s.w.deploys, s.runs[t].app.id, t)
    ensures var x := s.runs[t].app.id; var s' := Submit(s, x, Some(t), "", "", "", now);
      && LatestDeploy(s.w.deploys, x, Some(t)) && s.w.apps[x].current != Some(t)
      && s.w.nextId in s'.runs && s'.runs[s.w.nextId].app == s.w.apps[x]
      && s'.runs[s.w.nextId].Live() != s.runs[t].Staging() && !s'.runs[t].Finished()
  {
    hide StagingName, DefaultName;
    InvAt(s, t);
    assert s.w.nextId !in s.w.deploys;
    LiveNotStaged(s, s.w.apps[s.runs[t].app.id], t);
  }
}
