/** What automatic rollback leaves behind. The documentation says that after a failed health
    check the previous container keeps serving; the code keeps that promise for the apps that
    do not need an exclusive cutover, and for the others only if stopping it has failed. */
module AutoRollback {
  import opened Domain
  import opened Names
  import opened DeployMachine
  import opened DeployStatus

  /** Whether the previous live container is up, operation by operation; left: the stop that an
      exclusive cutover begins with has left it up. */
  predicate LiveFollows(external: bool, r: Run, w: World, live: string, left: bool)
  {
    && live != r.Staging()
    && (r.d.status.AutoRolledBack? ==> r.pc.Done?)
    && (r.pc.UpdateApp? ==> r.d.status.Success?)
    && (!r.pc.Done? ==> r.Live() == live)
    && if Exclusive(external, r.app) then
         !r.pc.StopPrevious? && !r.pc.SwitchRoute?
         && (r.pc.StartStaging? || r.pc.AwaitHealth? || r.pc.CleanupUnhealthy? || r.pc.StoreAutoRollback? || r.d.status.AutoRolledBack?
             ==> (live in w.running <==> left))
         && (Building(r.pc) || Preparing(r.pc) || r.pc.StopFirst? ==> live in w.running)
       else
         !r.pc.StopFirst?
         && (!r.pc.StoreSuccess? && !r.d.status.Success? ==> live in w.running)
  }

  /** The run is at the stop that comes before the start. */
  predicate StopsFirst(r: Run)
  {
    r.pc.StopFirst? && r.todo == []
  }

  /** The answer to that stop, or what was known before if the run does not come to it. */
  function LeftUp(external: bool, s: Conf, cs: seq<Choice>, left: bool): bool
    decreases |cs|
  {
    if cs == [] || s.run.Finished() then left
    else LeftUp(external, Step(external, s, cs[0]), cs[1..], if StopsFirst(s.run) then cs[0].stop.NotStopped? else left)
  }

  lemma LiveFollowsEarly(external: bool, r: Run, w: World, c: Choice, live: string, left: bool)
    requires LiveFollows(external, r, w, live, left) && !r.Finished() && Tracks(r, r.d)
    requires r.todo != [] || Building(r.pc) || Preparing(r.pc)
    ensures LiveFollows(external, StepRun(external, r, w, c), StepWorld(r, w, c), live, if StopsFirst(r) then c.stop.NotStopped? else left)
  {
    hide StagingName, DefaultName, AfterBuilding, AfterCutover;
  }

  lemma LiveFollowsCutover(external: bool, r: Run, w: World, c: Choice, live: string, left: bool)
    requires LiveFollows(external, r, w, live, left) && !r.Finished() && Tracks(r, r.d)
    requires r.todo == [] && CuttingOver(r.pc)
    ensures LiveFollows(external, StepRun(external, r, w, c), StepWorld(r, w, c), live, if StopsFirst(r) then c.stop.NotStopped? else left)
  {
    hide StagingName, DefaultName, AfterBuilding, AfterPreparing;
  }

  lemma LiveFollowsFinal(external: bool, r: Run, w: World, c: Choice, live: string, left: bool)
    requires LiveFollows(external, r, w, live, left) && !r.Finished() && Tracks(r, r.d)
    requires r.todo == [] && !Building(r.pc) && !Preparing(r.pc) && !CuttingOver(r.pc)
    ensures LiveFollows(external, StepRun(external, r, w, c), StepWorld(r, w, c), live, if StopsFirst(r) then c.stop.NotStopped? else left)
  {
    hide StagingName, DefaultName, AfterBuilding, AfterPreparing, AfterCutover;
  }

  lemma {:induction false} LiveFollowsRun(external: bool, s: Conf, cs: seq<Choice>, live: string, left: bool)
    requires LiveFollows(external, s.run, s.w, live, left) && Tracks(s.run, s.run.d)
    ensures var e := Steps(external, s, cs); LiveFollows(external, e.run, e.w, live, LeftUp(external, s, cs, left))
    decreases |cs|
  {
    hide LiveFollows, Tracks, StepRun, StepWorld;
    if cs != [] && !s.run.Finished() {
      var r := s.run;
      if r.todo != [] || Building(r.pc) || Preparing(r.pc) {
        LiveFollowsEarly(external, r, s.w, cs[0], live, left);
      } else if CuttingOver(r.pc) {
        LiveFollowsCutover(external, r, s.w, cs[0], live, left);
      } else {
        LiveFollowsFinal(external, r, s.w, cs[0], live, left);
      }
      OwnCopyTracks(external, r, s.w, cs[0]);
      LiveFollowsRun(external, Step(external, s, cs[0]), cs[1..], live, if StopsFirst(r) then cs[0].stop.NotStopped? else left);
    }
  }

  /** The run's own copy of the record follows the status machine whatever is stored. */
  lemma OwnCopyTracks(external: bool, r: Run, w: World, c: Choice)
    requires Tracks(r, r.d) && !r.Finished()
    ensures var n := StepRun(external, r, w, c); Tracks(n, n.d)
  {
    hide StagingName, DefaultName, AfterBuilding, AfterPreparing, AfterCutover;
  }

  /** A run that starts while the live container is up and ends as auto_rollback, whatever the
      environment answers: the live container is still up if and only if the app does not need
      an exclusive cutover, or the stop that begins the cutover has left it up. */
  lemma AutoRollbackKeepsLiveExactly(external: bool, s: Conf, cs: seq<Choice>)
    requires s.run.pc.Setup? || s.run.pc.MarkRunning?
    requires s.run.d.status.Pending? && Tracks(s.run, s.run.d)
    requires s.run.Live() != s.run.Staging() && s.run.Live() in s.w.running
    requires Steps(external, s, cs).run.d.status.AutoRolledBack?
    ensures s.run.Live() in Steps(external, s, cs).w.running <==>
              !Exclusive(external, s.run.app) || LeftUp(external, s, cs, false)
  {
    hide StagingName, DefaultName;
    LiveFollowsRun(external, s, cs, s.run.Live(), false);
    ModeKept(external, s, cs);
  }

  lemma {:induction false} ModeKept(external: bool, s: Conf, cs: seq<Choice>)
    ensures Steps(external, s, cs).run.app.mode == s.run.app.mode
    decreases |cs|
  {
    hide StepRun, StepWorld;
    if cs != [] && !s.run.Finished() {
      StepFrame(external, s.run, s.w, cs[0]);
      ModeKept(external, Step(external, s, cs[0]), cs[1..]);
    }
  }
}
