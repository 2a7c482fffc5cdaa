/** What the app row says after a sequence of deploys: CurrentDeployID, LiveContainerName and
    ImageRef all describe the newest successful deploy, which is the one Rollback repeats. */
module Bookkeeping {
  import opened Domain
  import opened Names
  import opened DeployMachine
  import opened DeployStatus
  import opened Cutover
  import opened Serial
  import opened Admission

  /** Row j is a successful deploy of app x. */
  predicate Succeeded(w: World, x: nat, j: nat)
  {
    j in w.deploys && w.deploys[j].appId == x && w.deploys[j].status.Success?
  }

  /** The app row describes the newest successful deploy; except is a deploy whose success is
      stored and whose promotion is the run's next operation. */
  ghost predicate Coherent(w: World, x: nat, except: Option<nat>)
  {
    && x in w.apps
    && (w.apps[x].current.None? ==> forall j: nat | Succeeded(w, x, j) :: Some(j) == except)
    && (w.apps[x].current.Some? ==>
          var i := w.apps[x].current.value;
          && Succeeded(w, x, i)
          && (forall j: nat | Succeeded(w, x, j) && Some(j) != except :: w.deploys[j].createdAt <= w.deploys[i].createdAt)
          && w.apps[x].live == StagingName(w.apps[x].name, i)
          && (w.deploys[i].image != "" ==> w.apps[x].image == w.deploys[i].image))
  }

  /** A run of app x against its row and the app's other rows. */
  ghost predicate RunBook(r: Run, w: World, x: nat)
  {
    && r.d.id in w.deploys && (r.pc.UpdateApp? ==> w.deploys[r.d.id].status.Success?)
    && w.deploys[r.d.id].appId == x && r.app.id == x
    && (w.deploys[r.d.id].image == "" || r.d.image == w.deploys[r.d.id].image)
    && (Building(r.pc) ==> w.deploys[r.d.id].image == "")
    && (forall j | j in w.deploys && j != r.d.id && w.deploys[j].appId == x ::
          w.deploys[j].createdAt < w.deploys[r.d.id].createdAt)
  }

  /** One of the two final writes, success and then the app row, does not go through. */
  predicate FinalWriteLost(r: Run, c: Choice)
  {
    r.todo == [] && (r.pc.StoreSuccess? || r.pc.UpdateApp?) && !c.stored
  }

  function Exception(r: Run): Option<nat>
  {
    if r.pc.UpdateApp? then Some(r.d.id) else None
  }

  ghost predicate Book(s: Sys, x: nat)
  {
    && One(s, x) && RunsTrack(s)
    && (forall t | t in s.runs && s.runs[t].app.id == x && !s.runs[t].pc.Done? ::
          RunBook(s.runs[t], s.w, x) && Coherent(s.w, x, Exception(s.runs[t])))
    && ((forall t | t in s.runs && s.runs[t].app.id == x :: s.runs[t].pc.Done?) ==> Coherent(s.w, x, None))
  }

  lemma ImageStep(external: bool, r: Run, w: World, c: Choice, image: string)
    requires !r.pc.Done?
    requires image == "" || r.d.image == image
    requires Building(r.pc) ==> image == ""
    ensures var n := StepRun(external, r, w, c);
            (image == "" || n.d.image == image) && (Building(n.pc) ==> image == "")
  {
    hide StagingName, DefaultName, AfterBuilding, AfterPreparing, AfterCutover;
  }

  lemma SuccessBeforePromotion(external: bool, r: Run, w: World, c: Choice, row: Deploy)
    requires Tracks(r, row) && !r.pc.Done? && !FinalWriteLost(r, c)
    ensures StepRun(external, r, w, c).pc.UpdateApp? ==> RowAfter(r, row, c).status.Success?
  {
    hide StagingName, DefaultName, AfterBuilding, AfterPreparing, AfterCutover;
  }

  lemma RunBookStep(external: bool, r: Run, w: World, c: Choice, x: nat)
    requires RunBook(r, w, x) && Tracks(r, w.deploys[r.d.id]) && !FinalWriteLost(r, c) && !r.pc.Done?
    ensures RunBook(StepRun(external, r, w, c), StepWorld(r, w, c), x)
  {
    hide StepRun, StepWorld, Tracks, RowAfter;
    var row := w.deploys[r.d.id];
    StepFrame(external, r, w, c);
    StepWorldFrame(r, w, c);
    StepRow(r, w, c);
    StepTracks(external, r, w, c);
    SuccessBeforePromotion(external, r, w, c, row);
    ImageStep(external, r, w, c, row.image);
  }

  /** The deploys of app x that succeeded change only when its own run stores its success. */
  lemma SucceededStep(external: bool, r: Run, w: World, c: Choice, x: nat, j: nat)
    requires RunBook(r, w, x) && Tracks(r, w.deploys[r.d.id]) && !FinalWriteLost(r, c) && !r.pc.Done?
    ensures var w' := StepWorld(r, w, c);
            Succeeded(w', x, j) <==> Succeeded(w, x, j) || (j == r.d.id && r.pc.StoreSuccess? && r.todo == [])
    ensures j in w.deploys ==> var w' := StepWorld(r, w, c);
            j in w'.deploys && w'.deploys[j].createdAt == w.deploys[j].createdAt && w'.deploys[j].image == w.deploys[j].image
  {
    hide StepRun, StepWorld, StagingName, DefaultName;
    StepWorldFrame(r, w, c);
    StepRow(r, w, c);
  }

  /** Which operations touch the app row, and where they lead. */
  lemma PromotionStep(external: bool, r: Run, w: World, c: Choice)
    requires !FinalWriteLost(r, c) && !r.pc.Done? && r.app.id in w.apps && (r.pc.UpdateApp? ==> r.todo == [])
    ensures var n, w' := StepRun(external, r, w, c), StepWorld(r, w, c);
      && (r.pc.UpdateApp? ==> n.pc.Done? && w'.apps == w.apps[r.app.id := Promoted(r)])
      && (!r.pc.UpdateApp? ==> w'.apps == w.apps)
      && (n.pc.UpdateApp? <==> r.pc.StoreSuccess? && r.todo == [])
      && (r.pc.StoreSuccess? ==> !n.pc.Done?)
  {
    hide StagingName, DefaultName, AfterBuilding, AfterPreparing, AfterCutover;
  }

  lemma CoherentStep(external: bool, r: Run, w: World, c: Choice, x: nat)
    requires RunBook(r, w, x) && Tracks(r, w.deploys[r.d.id]) && !FinalWriteLost(r, c) && !r.pc.Done?
    requires Coherent(w, x, Exception(r)) && w.apps[x] == r.app
    ensures var n, w' := StepRun(external, r, w, c), StepWorld(r, w, c);
            Coherent(w', x, if n.pc.Done? then None else Exception(n))
  {
    hide StepRun, StepWorld, StagingName, DefaultName;
    var n, w' := StepRun(external, r, w, c), StepWorld(r, w, c);
    StepFrame(external, r, w, c);
    PromotionStep(external, r, w, c);
    forall j: nat
      ensures Succeeded(w', x, j) <==> Succeeded(w, x, j) || (j == r.d.id && r.pc.StoreSuccess? && r.todo == [])
      ensures j in w.deploys ==> j in w'.deploys && w'.deploys[j].createdAt == w.deploys[j].createdAt
                                 && w'.deploys[j].image == w.deploys[j].image
    {
      SucceededStep(external, r, w, c, x, j);
    }
  }

  lemma AdvanceKeepsBookOwn(s: Sys, t: nat, c: Choice)
    requires Inv(s) && t in s.runs && !s.runs[t].Finished() && Book(s, s.runs[t].app.id) && !FinalWriteLost(s.runs[t], c)
    ensures Book(Apply(s, Advance(t, c)), s.runs[t].app.id)
  {
    hide StagingName, DefaultName, StepRun, StepWorld, Inv, RunBook, Coherent, RowEvolves, Tracks, WellFormed, GoodWorld, NotYetLive, GoodRun;
    var r, x := s.runs[t], s.runs[t].app.id;
    var s' := Apply(s, Advance(t, c));
    OneKeptAdvance(s, t, c, x);
    AdvanceKeepsTrack(s, t, c);
    StepFrame(s.external, r, s.w, c);
    assert forall u | u in s'.runs && s'.runs[u].app.id == x && !s'.runs[u].pc.Done? :: u == t;
    assert s'.runs[t].app.id == x;
    if r.pc.Done? {
      DoneKeepsBooks(s.external, r, s.w, c, x);
    } else {
      RunBookStep(s.external, r, s.w, c, x);
      CoherentStep(s.external, r, s.w, c, x);
    }
  }

  lemma DoneKeepsBooks(external: bool, r: Run, w: World, c: Choice, x: nat)
    requires r.pc.Done?
    ensures StepRun(external, r, w, c).pc.Done?
    ensures Coherent(w, x, None) ==> Coherent(StepWorld(r, w, c), x, None)
  {
    hide StagingName, DefaultName;
  }

  /** The rows of app x, and nothing else, decide. */
  lemma BooksFrame(w: World, w': World, x: nat)
    requires x in w.apps && x in w'.apps && w'.apps[x] == w.apps[x]
    requires forall j | j in w.deploys && w.deploys[j].appId == x :: j in w'.deploys && w'.deploys[j] == w.deploys[j]
    requires forall j | j in w'.deploys && w'.deploys[j].appId == x :: j in w.deploys && w.deploys[j] == w'.deploys[j]
    ensures forall e | Coherent(w, x, e) :: Coherent(w', x, e)
    ensures forall r | RunBook(r, w, x) :: RunBook(r, w', x)
  {
    hide StagingName;
    forall j: nat ensures Succeeded(w', x, j) == Succeeded(w, x, j) { }
  }

  /** Nothing of app x has changed. */
  lemma BookCarried(s: Sys, s': Sys, x: nat)
    requires Book(s, x) && One(s', x) && RunsTrack(s')
    requires forall e | Coherent(s.w, x, e) :: Coherent(s'.w, x, e)
    requires forall r | RunBook(r, s.w, x) :: RunBook(r, s'.w, x)
    requires forall u | u in s.runs && s.runs[u].app.id == x :: u in s'.runs && s'.runs[u] == s.runs[u]
    requires forall u | u in s'.runs && s'.runs[u].app.id == x :: u in s.runs && s'.runs[u] == s.runs[u]
    ensures Book(s', x)
  {
    hide One, RunsTrack, RunBook, Coherent;
  }

  lemma AdvanceKeepsBookOther(s: Sys, t: nat, c: Choice, x: nat)
    requires Inv(s) && Book(s, x) && t in s.runs && !s.runs[t].Finished() && s.runs[t].app.id != x
    ensures Book(Apply(s, Advance(t, c)), x)
  {
    hide StagingName, DefaultName, StepRun, StepWorld, Inv, RunBook, Coherent, RunsTrack, Tracks, WellFormed;
    var s' := Apply(s, Advance(t, c));
    OneKeptAdvance(s, t, c, x);
    AdvanceKeepsTrack(s, t, c);
    StepFrame(s.external, s.runs[t], s.w, c);
    OtherRowsApart(s, t, x);
    BooksFrame(s.w, s'.w, x);
    BookCarried(s, s', x);
  }

  lemma OtherRowsApart(s: Sys, t: nat, x: nat)
    requires RunsTrack(s) && t in s.runs && s.runs[t].app.id != x
    ensures t in s.w.deploys && s.w.deploys[t].appId != x
  {
    hide Tracks;
  }

  lemma LaunchOtherKeepsBook(s: Sys, l: Label, x: nat)
    requires Inv(s) && Book(s, x) && l.Launch? && l.req in s.reqs && s.reqs[l.req].id != x
    ensures Book(Apply(s, l), x)
  {
    hide StagingName, DefaultName, Inv, RunBook, Coherent, RunsTrack, Tracks, WellFormed, One;
    OneHas(s, x);
    FreshRun(s);
    OneKeptLaunch(s, l, x);
    LaunchTracks(s, l);
    LaunchOtherFrame(s, l, x);
    BookCarried(s, Apply(s, l), x);
  }

  lemma OneHas(s: Sys, x: nat)
    requires One(s, x)
    ensures x in s.w.apps
  {
  }

  lemma LaunchOtherFrame(s: Sys, l: Label, x: nat)
    requires x in s.w.apps && s.w.nextId !in s.w.deploys && l.Launch? && l.req in s.reqs && s.reqs[l.req].id != x
    ensures forall e | Coherent(s.w, x, e) :: Coherent(Apply(s, l).w, x, e)
    ensures forall r | RunBook(r, s.w, x) :: RunBook(r, Apply(s, l).w, x)
  {
    hide RunBook, Coherent;
    BooksFrame(s.w, Apply(s, l).w, x);
  }

  lemma FreshRun(s: Sys)
    requires Inv(s)
    ensures s.w.nextId !in s.runs && s.w.nextId !in s.w.deploys
  {
    if s.w.nextId in s.runs {
      InvAt(s, s.w.nextId);
    }
  }

  lemma LaunchedRunBook(s: Sys, l: Label, x: nat)
    requires l.Launch? && l.req in s.reqs && s.reqs[l.req].id == x && s.w.nextId !in s.w.deploys
    requires forall j | j in s.w.deploys && s.w.deploys[j].appId == x :: s.w.deploys[j].createdAt < l.now
    ensures var s' := Apply(s, l); RunBook(s'.runs[s.w.nextId], s'.w, x) && !s'.runs[s.w.nextId].pc.UpdateApp?
    ensures Coherent(s.w, x, None) ==> Coherent(Apply(s, l).w, x, None)
  {
    hide StagingName, DefaultName;
    var s' := Apply(s, l);
    forall j: nat ensures Succeeded(s'.w, x, j) == Succeeded(s.w, x, j) { }
  }

  lemma LaunchOwnKeepsBook(s: Sys, l: Label)
    requires Inv(s) && l.Launch? && l.req in s.reqs && Book(s, s.reqs[l.req].id)
    requires forall j | j in s.w.deploys && s.w.deploys[j].appId == s.reqs[l.req].id :: s.w.deploys[j].createdAt < l.now
    ensures Book(Apply(s, l), s.reqs[l.req].id)
  {
    hide StagingName, DefaultName, Inv, Tracks, WellFormed, RunBook, Coherent;
    var x := s.reqs[l.req].id;
    FreshRun(s);
    OneKeptLaunch(s, l, x);
    LaunchTracks(s, l);
    LaunchedRunBook(s, l, x);
    var s' := Apply(s, l);
    assert forall u | u in s'.runs && s'.runs[u].app.id == x && !s'.runs[u].pc.Done? :: u == s.w.nextId;
    assert s'.runs[s.w.nextId].app.id == x;
  }

  /** App x deploys one run at a time, its two final writes go through, its clock moves on. All
      other writes, events included, may be lost. */
  ghost predicate BookDisciplined(s: Sys, l: Label, x: nat)
  {
    && Orderly(s, l, x)
    && (l.Advance? && l.id in s.runs && s.runs[l.id].app.id == x ==> !FinalWriteLost(s.runs[l.id], l.c))
    && (l.Launch? && l.req in s.reqs && s.reqs[l.req].id == x ==>
          forall j | j in s.w.deploys && s.w.deploys[j].appId == x :: s.w.deploys[j].createdAt < l.now)
  }

  ghost predicate AllBookDisciplined(s: Sys, ls: seq<Label>, x: nat)
    decreases |ls|
  {
    ls == [] || (BookDisciplined(s, ls[0], x) && AllBookDisciplined(Apply(s, ls[0]), ls[1..], x))
  }

  lemma ApplyKeepsBook(s: Sys, l: Label, x: nat)
    requires Inv(s) && Book(s, x) && BookDisciplined(s, l, x)
    ensures Book(Apply(s, l), x)
  {
    hide StagingName, DefaultName, StepRun, StepWorld, Coherent, RunBook, Tracks;
    match l
    case Load(req, app) => OneKeptLoad(s, req, app, x);
    case Launch(req, _, _, _, _, _) =>
      if req in s.reqs {
        if s.reqs[req].id == x { LaunchOwnKeepsBook(s, l); } else { LaunchOtherKeepsBook(s, l, x); }
      }
    case Advance(t, c) =>
      if t in s.runs && !s.runs[t].Finished() {
        if s.runs[t].app.id == x { AdvanceKeepsBookOwn(s, t, c); } else { AdvanceKeepsBookOther(s, t, c, x); }
      }
  }

  /** Between the deploys of app x, whatever else happens, its row is coherent: current deploy,
      live container and image are those of its newest successful deploy. */
  lemma {:induction false} RowDescribesNewestSuccess(s: Sys, ls: seq<Label>, x: nat)
    requires Inv(s) && Book(s, x) && AllBookDisciplined(s, ls, x)
    ensures var e := RunAll(s, ls); Book(e, x) && (Quiet(e, x) ==> Coherent(e.w, x, None))
    decreases |ls|
  {
    hide StagingName, DefaultName, Inv, One, RunsTrack, RunBook, Coherent, BookDisciplined, Apply;
    if ls != [] {
      ApplyKeepsInv(s, ls[0]);
      ApplyKeepsBook(s, ls[0], x);
      RowDescribesNewestSuccess(Apply(s, ls[0]), ls[1..], x);
    }
  }

  /** Wherever its image came from, a local build included: the row's image is that of the run
      of its current deploy. */
  ghost predicate ImageIsRuns(s: Sys, x: nat)
  {
    && x in s.w.apps
    && (s.w.apps[x].current.Some? && s.w.apps[x].current.value in s.runs ==>
          s.w.apps[x].image == s.runs[s.w.apps[x].current.value].d.image)
  }

  lemma RowImageStep(external: bool, r: Run, w: World, c: Choice)
    ensures var n, w' := StepRun(external, r, w, c), StepWorld(r, w, c);
      && (forall x | x in w.apps :: x in w'.apps && (w'.apps[x] == w.apps[x]
            || (w'.apps[x].current == Some(r.d.id) && w'.apps[x].image == r.d.image && n.d == r.d)))
      && (r.pc.Done? ==> n.d == r.d)
  {
    hide StagingName, DefaultName, AfterBuilding, AfterPreparing, AfterCutover;
  }

  lemma ApplyKeepsImage(s: Sys, l: Label, x: nat)
    requires Inv(s) && ImageIsRuns(s, x)
    ensures ImageIsRuns(Apply(s, l), x)
  {
    hide StagingName, DefaultName, StepRun, StepWorld, UniqueNames, OwnName;
    if l.Advance? && l.id in s.runs && !s.runs[l.id].Finished() {
      InvAt(s, l.id);
      RowImageStep(s.external, s.runs[l.id], s.w, l.c);
    }
  }

  /** Over every interleaving, overlapping runs and lost writes included. */
  lemma {:induction false} RowHasImageOfCurrentRun(s: Sys, ls: seq<Label>, x: nat)
    requires Inv(s) && ImageIsRuns(s, x)
    ensures ImageIsRuns(RunAll(s, ls), x)
    decreases |ls|
  {
    hide Inv, ImageIsRuns, Apply;
    if ls != [] {
      ApplyKeepsInv(s, ls[0]);
      ApplyKeepsImage(s, ls[0], x);
      RowHasImageOfCurrentRun(Apply(s, ls[0]), ls[1..], x);
    }
  }

  /** Rollback of a coherent app: the created deploy refers to the current one, and it repeats
      the app's image exactly when that image was given at creation. An image that Talos built
      itself is not in the row, and Rollback pulls the empty reference instead. */
  lemma RollbackRepeatsCurrent(s: Sys, x: nat, req: nat, prev: nat, now: int)
    requires Coherent(s.w, x, None) && req in s.reqs && s.reqs[req].id == x
    requires LatestSuccess(s.w.deploys, x, Some(prev))
    requires forall i, j | Succeeded(s.w, x, i) && Succeeded(s.w, x, j) && i != j ::
               s.w.deploys[i].createdAt != s.w.deploys[j].createdAt
    ensures prev in s.w.deploys
    ensures var d := Apply(s, RollbackLabel(s.w, req, prev, now)).w.deploys[s.w.nextId];
      && d.rollbackOf == s.w.apps[x].current == Some(prev) && d.trigger.ByRollback?
      && (d.image == s.w.apps[x].image <==> s.w.deploys[prev].image != "" || s.w.apps[x].image == "")
  {
    assert Succeeded(s.w, x, prev);
    var i := s.w.apps[x].current.value;
    assert Succeeded(s.w, x, i);
    assert s.w.deploys[prev].createdAt <= s.w.deploys[i].createdAt;
    var ok := map j | j in s.w.deploys && s.w.deploys[j].status.Success? :: s.w.deploys[j];
    assert i in ok;
  }

  /** With no successful deploy there is nothing to roll back to, and the row says so. */
  lemma NothingToRollBack(w: World, x: nat)
    requires Coherent(w, x, None)
    ensures LatestSuccess(w.deploys, x, None) <==> w.apps[x].current.None?
  {
    var ok := map j | j in w.deploys && w.deploys[j].status.Success? :: w.deploys[j];
    if w.apps[x].current.Some? {
      var i := w.apps[x].current.value;
      assert Succeeded(w, x, i) && i in ok && ok[i].appId == x;
      assert !LatestDeploy(ok, x, None);
    } else {
      forall j | j in ok ensures ok[j].appId != x { assert !Succeeded(w, x, j); }
    }
  }
}
