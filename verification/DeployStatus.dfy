/** The status machine of a deploy record: what every run, on every path and whatever the
    environment answers, writes to the row it owns. */
module DeployStatus {
  import opened Domain
  import opened Names
  import opened DeployMachine

  /** The run after the given answers, one step each; a finished run stays as it is. */
  function Steps(external: bool, s: Conf, cs: seq<Choice>): Conf
    decreases |cs|
  {
    if cs == [] || s.run.Finished() then s
    else Steps(external, Step(external, s, cs[0]), cs[1..])
  }

  lemma {:induction false} StepsAppend(external: bool, s: Conf, a: seq<Choice>, b: seq<Choice>)
    ensures Steps(external, s, a + b) == Steps(external, Steps(external, s, a), b)
    decreases |a|
  {
    if a == [] {
      assert a + b == b;
    } else if !s.run.Finished() {
      assert (a + b)[0] == a[0] && (a + b)[1..] == a[1..] + b;
      StepsAppend(external, Step(external, s, a[0]), a[1..], b);
    }
  }

  /** Once status b is stored, may it be what follows a stored status a? */
  predicate MayFollow(a: Status, b: Status)
  {
    a == b || (a.Pending? && !b.RolledBack?) || (a.Running? && (b.Success? || b.Failed? || b.AutoRolledBack?))
  }

  /** From one stored row to a later one: the status moves forward, and a terminal row is final. */
  predicate RowEvolves(a: Deploy, b: Deploy)
  {
    && MayFollow(a.status, b.status)
    && (IsTerminal(a.status) ==> b == a)
    && (b.id, b.appId, b.image, b.rollbackOf, b.createdAt) == (a.id, a.appId, a.image, a.rollbackOf, a.createdAt)
  }

  /** A row as CreateDeploy writes it, or as a run left it. */
  predicate WellFormed(row: Deploy)
  {
    && (row.completedAt.Some? <==> IsTerminal(row.status))
    && !row.status.RolledBack?
  }

  /** How the run's own copy and its stored row agree at every step. */
  predicate Tracks(r: Run, row: Deploy)
  {
    && WellFormed(r.d) && WellFormed(row) && row.id == r.d.id
    && (IsTerminal(row.status) ==> IsTerminal(r.d.status))
    && (row.status.Running? ==> !r.d.status.Pending?)
    && match r.pc
       case UpdateApp => r.d.status == Success && r.todo == []
       case Done => IsTerminal(r.d.status)
       case Fail => !IsTerminal(r.d.status)
       case Setup => r.d.status.Pending?
       case Resolve => r.d.status.Pending?
       case StoreCommit => r.d.status.Pending?
       case BuildImage => r.d.status.Pending?
       case StoreImage => r.d.status.Pending?
       case MarkRunning => r.d.status.Pending?
       case _ => r.d.status.Running?
  }

  predicate WritesRow(r: Run)
  {
    r.todo == [] && StoresDeploy(r.pc)
  }

  /** What a step never touches: other rows, other apps, and the run's identity. */
  lemma StepFrame(external: bool, r: Run, w: World, c: Choice)
    ensures var r' := StepRun(external, r, w, c);
      && r'.d.id == r.d.id && r'.d.appId == r.d.appId && r'.d.createdAt == r.d.createdAt
      && r'.app.id == r.app.id && r'.app.name == r.app.name && r'.app.mode == r.app.mode
  {
    hide StagingName, DefaultName, AfterBuilding, AfterPreparing, AfterCutover;
  }

  lemma StepWorldFrame(r: Run, w: World, c: Choice)
    ensures var w' := StepWorld(r, w, c);
      && w'.nextId == w.nextId && w'.deploys.Keys == w.deploys.Keys && w'.apps.Keys == w.apps.Keys
      && (forall id | id in w.deploys && id != r.d.id :: w'.deploys[id] == w.deploys[id])
      && (forall id | id in w.apps && id != r.app.id :: w'.apps[id] == w.apps[id])
      && (!WritesRow(r) ==> w'.deploys == w.deploys)
      && (!(r.pc.UpdateApp? && r.todo == []) ==> w'.apps == w.apps)
  {
    hide StagingName, DefaultName;
  }

  /** What the step writes to the run's own row. */
  function RowAfter(r: Run, row: Deploy, c: Choice): Deploy
  {
    if !WritesRow(r) || !c.stored then row
    else
      var d := Written(r, c);
      row.(status := d.status, container := d.container, health := d.health,
           startedAt := d.startedAt, completedAt := d.completedAt)
  }

  lemma StepRow(r: Run, w: World, c: Choice)
    requires r.d.id in w.deploys
    ensures r.d.id in StepWorld(r, w, c).deploys
    ensures StepWorld(r, w, c).deploys[r.d.id] == RowAfter(r, w.deploys[r.d.id], c)
  {
    hide StagingName, DefaultName;
  }

  lemma WritesForward(r: Run, row: Deploy, c: Choice)
    requires Tracks(r, row) && !r.Finished()
    ensures RowEvolves(row, RowAfter(r, row, c)) && (WritesRow(r) ==> !IsTerminal(row.status))
  {
    hide StagingName, DefaultName;
  }

  lemma EffectTracks(external: bool, r: Run, row: Deploy, w: World, c: Choice)
    requires Tracks(r, row) && r.todo == [] && !r.Finished()
    ensures Tracks(AfterEffect(external, r, w, c), RowAfter(r, row, c))
  {
    hide StagingName, DefaultName, AfterBuilding, AfterPreparing, AfterCutover;
  }

  /** One step of a run moves its own row forward only, and never writes a terminal row. */
  lemma StepTracks(external: bool, r: Run, w: World, c: Choice)
    requires r.d.id in w.deploys && Tracks(r, w.deploys[r.d.id]) && !r.Finished()
    ensures var row, row' := w.deploys[r.d.id], RowAfter(r, w.deploys[r.d.id], c);
            Tracks(StepRun(external, r, w, c), row') && RowEvolves(row, row')
    ensures WritesRow(r) ==> !IsTerminal(w.deploys[r.d.id].status)
  {
    hide StagingName, DefaultName, AfterEffect, RowEvolves, Written;
    WritesForward(r, w.deploys[r.d.id], c);
    if r.todo == [] {
      EffectTracks(external, r, w.deploys[r.d.id], w, c);
    }
  }

  lemma RowEvolvesTransitive(a: Deploy, b: Deploy, c: Deploy)
    requires RowEvolves(a, b) && RowEvolves(b, c)
    ensures RowEvolves(a, c)
  {
  }

  /** Row and run agree at every point of every run. */
  lemma {:induction false} RunTracks(external: bool, s: Conf, cs: seq<Choice>)
    requires s.run.d.id in s.w.deploys && Tracks(s.run, s.w.deploys[s.run.d.id])
    ensures var e := Steps(external, s, cs);
      && e.run.d.id == s.run.d.id && s.run.d.id in e.w.deploys
      && Tracks(e.run, e.w.deploys[s.run.d.id])
      && RowEvolves(s.w.deploys[s.run.d.id], e.w.deploys[s.run.d.id])
    decreases |cs|
  {
    hide Tracks, RowAfter, StepRun, StepWorld, WellFormed;
    if cs != [] && !s.run.Finished() {
      var n := Step(external, s, cs[0]);
      StepTracks(external, s.run, s.w, cs[0]);
      StepRow(s.run, s.w, cs[0]);
      StepFrame(external, s.run, s.w, cs[0]);
      RunTracks(external, n, cs[1..]);
      RowEvolvesTransitive(s.w.deploys[s.run.d.id], n.w.deploys[s.run.d.id],
                           Steps(external, s, cs).w.deploys[s.run.d.id]);
    }
  }

  /** The status machine: at any two points of a run, the later stored row evolves from the
      earlier one; it is well formed, and an operation that stores never finds it terminal. */
  lemma StatusMachine(external: bool, s: Conf, cs: seq<Choice>, i: nat, j: nat)
    requires s.run.d.id in s.w.deploys && Tracks(s.run, s.w.deploys[s.run.d.id])
    requires i <= j <= |cs|
    ensures var id, early, late := s.run.d.id, Steps(external, s, cs[..i]), Steps(external, s, cs[..j]);
      && id in early.w.deploys && id in late.w.deploys
      && RowEvolves(early.w.deploys[id], late.w.deploys[id]) && WellFormed(late.w.deploys[id])
      && (WritesRow(late.run) ==> !IsTerminal(late.w.deploys[id].status))
  {
    hide RowEvolves;
    var early, late := Steps(external, s, cs[..i]), Steps(external, s, cs[..j]);
    assert cs[..j] == cs[..i] + cs[i..j];
    StepsAppend(external, s, cs[..i], cs[i..j]);
    RunTracks(external, s, cs[..i]);
    RunTracks(external, early, cs[i..j]);
  }

  /** Every store write of the run so far went through. */
  predicate Synced(r: Run, row: Deploy)
  {
    row.status == r.d.status && row.completedAt == r.d.completedAt
  }

  lemma StepSynced(external: bool, r: Run, row: Deploy, w: World, c: Choice)
    requires Tracks(r, row) && Synced(r, row) && c.stored
    ensures Synced(StepRun(external, r, w, c), RowAfter(r, row, c))
  {
    hide StagingName, DefaultName, AfterBuilding, AfterPreparing, AfterCutover;
  }

  /** With working stores every run ends with exactly one terminal status in its row. */
  lemma {:induction false} RunEndsTerminal(external: bool, s: Conf, env: nat -> Choice, k: nat)
    requires s.run.d.id in s.w.deploys
    requires Tracks(s.run, s.w.deploys[s.run.d.id]) && Synced(s.run, s.w.deploys[s.run.d.id])
    requires forall n :: k <= n ==> env(n).stored
    ensures var e := RunToEnd(external, s, env, k).0;
      && s.run.d.id in e.w.deploys && e.w.deploys[s.run.d.id].status == e.run.d.status
      && IsTerminal(e.run.d.status) && !e.run.d.status.RolledBack?
    decreases Rank(s.run.pc), |s.run.todo|
  {
    hide RowAfter, StepRun, StepWorld, AfterEffect, EffectOn;
    if !s.run.Finished() {
      var n := Step(external, s, env(k));
      StepTracks(external, s.run, s.w, env(k));
      StepSynced(external, s.run, s.w.deploys[s.run.d.id], s.w, env(k));
      StepRow(s.run, s.w, env(k));
      StepFrame(external, s.run, s.w, env(k));
      StepRanks(external, s.run, s.w, env(k));
      RunEndsTerminal(external, n, env, k + 1);
    }
  }

  lemma StepRanks(external: bool, r: Run, w: World, c: Choice)
    requires !r.Finished()
    ensures var n := StepRun(external, r, w, c);
            Rank(n.pc) < Rank(r.pc) || (n.pc == r.pc && |n.todo| < |r.todo|)
  {
    hide StagingName, DefaultName, AfterBuilding, AfterPreparing, AfterCutover;
  }

  /** The step that finishes a run emits an event, and by then the row is terminal unless
      the write of the final status was lost: subscribers always see an event after it. */
  lemma LastStepEmits(external: bool, r: Run, w: World, c: Choice)
    requires r.d.id in w.deploys && Tracks(r, w.deploys[r.d.id]) && !r.Finished()
    requires StepRun(external, r, w, c).Finished()
    ensures |r.todo| == 1 && (Synced(r, w.deploys[r.d.id]) ==> IsTerminal(w.deploys[r.d.id].status))
    ensures c.stored ==> StepWorld(r, w, c).events == w.events + [r.todo[0]]
  {
    hide StagingName, DefaultName, AfterBuilding, AfterPreparing, AfterCutover;
  }
}
