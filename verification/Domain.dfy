/** The records of internal/domain that a deploy reads and writes, and the state that all
    deploys share: the stores, the containers and the proxy's route files. */
module Domain {

  datatype Option<+T> = None | Some(value: T)

  datatype Status = Pending | Running | Success | Failed | RolledBack | AutoRolledBack

  predicate IsTerminal(s: Status): (over: bool)
    ensures over <==> !s.Pending? && !s.Running?
  {
    s.Success? || s.Failed? || s.AutoRolledBack? || s.RolledBack?
  }

  datatype Health = Unknown | Healthy | Unhealthy
  datatype Trigger = Requested | ByRollback

  /** domain.Deploy, without the free-text columns. */
  datatype Deploy = Deploy(
    id: nat, appId: nat, image: string, commit: string, branch: string, status: Status,
    container: string, health: Health, startedAt: Option<int>, completedAt: Option<int>,
    trigger: Trigger, rollbackOf: Option<nat>, createdAt: int)

  datatype AccessMode = DomainMode | PortMode
  datatype BuildMode = ExternalCI | TalosBuild

  /** domain.App, with the columns the engine looks at. */
  datatype App = App(
    id: nat, name: string, managed: bool, buildMode: BuildMode, mode: AccessMode,
    repoURL: string, image: string, active: bool, current: Option<nat>, live: string)

  datatype Level = Info | Warn | Error

  datatype Topic =
    | Queue | BuildSetup | ResolveCommit | Build | Start | Pull | StopOld
    | HealthCheck | AutoRollback | RouteUpdate | Finalize | Progress(name: string)

  datatype Event = Event(deploy: nat, level: Level, topic: Topic)

  /** running: names of the containers that are up; routes: the upstream each app's route
      file names; events: the events that were stored and then published, in order. */
  datatype World = World(
    apps: map<nat, App>, deploys: map<nat, Deploy>, nextId: nat,
    running: set<string>, routes: map<string, string>, events: seq<Event>)

  /** The UPDATE statement of UpdateDeploy: image_ref and commit_sha are not among its columns. */
  function StoreDeploy(w: World, d: Deploy, ok: bool): World
  {
    if ok && d.id in w.deploys then
      w.(deploys := w.deploys[d.id := w.deploys[d.id].(
           status := d.status, container := d.container, health := d.health,
           startedAt := d.startedAt, completedAt := d.completedAt)])
    else w
  }

  /** UpdateApp writes every column of the row from the caller's copy. */
  function StoreApp(w: World, a: App, ok: bool): World
  {
    if ok && a.id in w.apps then w.(apps := w.apps[a.id := a]) else w
  }

  /** Exclusive cutover: requiresExclusiveCutover in execute. */
  predicate Exclusive(external: bool, a: App)
  {
    a.mode.PortMode? || RequiresExclusiveSwitch(external, a)
  }

  /** traefik.Manager.RequiresExclusiveSwitch. */
  predicate RequiresExclusiveSwitch(external: bool, a: App)
  {
    external && a.mode.DomainMode?
  }
}
