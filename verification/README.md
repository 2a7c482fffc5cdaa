# Talos: a verified model

Talos is a control plane that deploys containers on one server. This project models the parts of
it that carry real state machines or transformations of text and trees, and proves what they keep
over every run.

| files | what they model |
|---|---|
| `Domain`, `Names`, `DeployMachine` | records, container names, and one background run of a deploy as a machine whose steps are single store writes, container or route operations and emitted events; what the outside world answers is an arbitrary `Choice` |
| `DeployEngine` | the engine itself as a class that updates its records in place; `Execute` and `ExecuteQueued` are proved to end exactly where the machine ends, for every sequence of answers |
| `Endings`, `QueuedEndings`, `Announced` | one run from its answers: exactly when it succeeds, is rolled back or fails, what each ending leaves, and the events on the way |
| `DeployStatus`, `AutoRollback` | one run: the stored status, the completion time, what a failed health check leaves behind |
| `Cutover`, `Commute`, `Reorder`, `Serial`, `ExclusiveCutover`, `Admission`, `Bookkeeping`, `Failures` | many runs: any interleaving of requests and run steps over shared stores, containers and routes, and schedules that go wrong |
| `Broadcaster`, `Delivery` | the event broadcaster, as a class and under every interleaving of its lock sections, sends and receives |
| `Stream`, `StreamLive` | the event stream handler, as a class and next to the run, the broadcaster and other deploys it races with |
| `Text`, `StringOrder`, `EnvFile`, `EnvEdit`, `Settings` | the env-file parser and editor, and the settings service over them |
| `Migrations` | the schema migration runner over any sequence of startups |
| `Archive`, `Retention` | backup archives and their restoration, retention and bookkeeping of backups |

`dafny verify dfyconfig.toml` checks everything.

## What the proofs found

Where a promise is false of the code, the model keeps the code as it is, and a lemma says exactly
when the promise holds.

- **Zero downtime** of an app holds without any admission control and whatever befalls other apps:
  overlapping runs do not break it, nor do other apps that collide or lose their routes. App names
  need not be apart either, `x` and `x-5` included, as long as both live containers are recorded;
  then the app is served throughout if and only if no update of its own route fails after truncating
  the file (`Cutover.ZeroDowntime`). Without that, `Cutover.ServingStep` says exactly which step takes
  an app down: such a truncation, a stop under a colliding default name, or a switch to a container
  that is down, which again takes such a stop (`Cutover.StagedGoesDownExactly`). A default name
  collides when it is another app's staging name: `talos-x-5` is container 5 of app `x` and the
  default container of app `x-5`. From rest and with everything working, the first deploy of `x-5`
  then takes `x` down (`Failures.FirstDeployTakesOtherAppDown`).
- **Exclusive cutover** needs four things, and one schedule from rest for each of them shows two
  containers up when it alone is missing (`Failures`): runs of an app that follow one another, stops
  that work, failed starts that leave nothing behind, and the write of the app row. A start that
  fails while connecting a network does leave its container running
  (internal/runtime/docker/client.go:282). Checking and creating in one step would not keep runs
  apart, because success is stored before the app row is (`Failures.OverlapLeavesTwo`). Every other
  store write may be lost.
- **Automatic rollback** is announced as leaving the live container running
  (internal/deploy/engine.go:316, README.md:338). It is up if and only if the app needs no exclusive
  cutover, or the stop that begins the cutover has failed to stop it
  (`AutoRollback.AutoRollbackKeepsLiveExactly`; `Failures.RollbackLeavesNothingUp` is a schedule in
  which nothing is up afterwards).
- **Rollback** repeats the image of the current deploy if and only if that image was given when the
  deploy was created: an image built by Talos is never stored, and an empty reference is pulled
  (`Bookkeeping.RollbackRepeatsCurrent`; `Failures.BuiltImageIsNotInItsRow` is a schedule).
- **One active deploy per app** fails in three ways: check and create are two store calls, Rollback
  does not check at all, and the store can return a finished deploy as the latest when creation
  times tie (`Admission`). The documentation speaks of a
  running deploy only (docs/architecture/deployment-flow.md:258); the code refuses for pending ones
  as well, and the model follows the code.
- **A send can hit a closed channel** when a subscriber leaves between the snapshot and the sends of
  a Publish (`Delivery.SendPanicsExactly`).
- **A stream never ends** when the handler subscribes after the last Publish of a deploy whose status
  it read before the end (`StreamLive.SubscribingAfterTheEndHangs`, `LateSubscriberHangs`;
  `HangsFromTheStart` is a run), and an
  event is shown twice or lost unless the subscription begins where the backfill ended
  (`StreamLive.ShownOnceExactly`; `EventLostBeforeSubscribing` and `EventShownTwice` are runs).
- **Env-file updates** change the first line of a key only: a further or an indented line for it can
  override the update, and removing a key twice can remove two lines
  (`EnvEdit.UpdateTakesEffectExactly`, `IdempotentExactly`).
- **Migrations** run exactly once if no record is lost right after its statement. A lost record makes
  the next startup repeat the statement; a lost record of version 1 makes it skip all later ones;
  a seeding that breaks off makes it execute old statements (`Migrations`).
- **A restore** always leaves the archive it came from without a record, because the archived
  database was copied before that record was written (`Retention.RestoreForgetsItself`). Two backups
  in the same second share a file (`Retention.CreateKeepsMatchedExactly`).

## Model

| member | source | states |
|---|---|---|
| `Names.StagingNameInjective` | internal/deploy/engine.go:260 | staging names of different deploys differ, whatever dashes and digits app names contain |
| `Names.DefaultNameCollision` | internal/deploy/engine.go:261-264 | the default name of one app is a staging name of another exactly when its name is that app's name, a dash and the deploy id |
| `Names.DefaultNameInjective` | internal/deploy/engine.go:263 | default names of different apps differ |
| `Names.StagingExtendsDefault` | internal/deploy/engine.go:260-264 | a staging name is the default name, a dash and the deploy id in digits |
| `Text.DecimalInjective` | internal/deploy/engine.go:260 | different ids are printed differently |
| `DeployMachine.RunToEnd` | internal/deploy/engine.go:224-385 | every run finishes, whatever the environment answers |
| `DeployEngine.Engine.Execute` | internal/deploy/engine.go:224-385 | for every sequence of answers the stores, containers, routes and events, and the records in memory, end up where the step machine ends, after as many operations; the deploy succeeds if and only if everything asked for was granted, and refused settings, a failed pull and a failed start end it as failed with routes and apps as they were |
| `DeployEngine.Engine.ExecuteQueued` | internal/deploy/engine.go:167-180 | the same for a queued deploy, with or without a local build first; a build that fails ends the deploy as failed with containers, routes and apps as they were |
| `Endings.SucceedsExactly` | internal/deploy/engine.go:224-385 | a run succeeds if and only if the settings were valid, the image was pulled or built here, the container started and was seen up and healthy, and the route was switched where there is one to switch |
| `Endings.FailsUntouched` | internal/deploy/engine.go:234-307 | refused settings or a failed pull end as failed with every container, route and app row as before; a failed start as well, but for the container it left and the old one an exclusive cutover had stopped |
| `Endings.RollsBackExactly` | internal/deploy/engine.go:311-333 | a started run is rolled back automatically if and only if it was not seen healthy; the new container goes if it could be stopped, routes and apps are as before |
| `Endings.UnroutedFails` | internal/deploy/engine.go:341-350 | a failed route switch ends as failed, without the new container if it could be stopped, with the old one up as before |
| `Endings.SuccessServes` | internal/deploy/engine.go:335-381 | after a success the route names the new container, which is up, the old one was told to stop, and the app row names deploy, image and container and is active |
| `Endings.RecordIsFilled` | internal/deploy/engine.go:224-385 | the record at the end: start and completion times, container id, health, and an unchanged image and commit |
| `QueuedEndings.QueuedSucceedsExactly` | internal/deploy/engine.go:167-385 | the same if-and-only-if with the answers of a local build, which replaces the pull |
| `QueuedEndings.UnbuiltFails` | internal/deploy/engine.go:182-213 | a build without builder, repository, commit or image ends as failed before anything is started |
| `QueuedEndings.BuiltImageIsRun` | internal/deploy/engine.go:193-221 | what runs, and what the app row gets, is the image that was built, from the given or the resolved commit |
| `Announced.SaidExactly` | internal/deploy/engine.go:167-488 | the events of a run are, in order, exactly what each operation it carried out makes it say |
| `Announced.LogGainsSaid` | internal/deploy/engine.go:476-488 | with a working store those are what the event log gains |
| `Announced.RefusalsAreTold` | internal/deploy/engine.go:234-384 | every refusal is told as an error of its own step, and every ending as its last step |
| `DeployEngine.Engine.PrepareTalosBuild` | internal/deploy/engine.go:182-222 | the build phase of the machine: commit, image, both stores, every event, and which failures end it |
| `DeployEngine.Engine.Cutover` | internal/deploy/engine.go:288-384 | from the first container operation to the end of the run as the machine has it |
| `DeployEngine.Engine.ClearTheWay` | internal/deploy/engine.go:289-300 | the old container is stopped before the start exactly in an exclusive cutover |
| `DeployEngine.Engine.CheckHealth` | internal/deploy/engine.go:311-333 | healthy only for a container that is up; otherwise the automatic rollback has been carried out to its end |
| `DeployEngine.Engine.SwitchRouteTo` | internal/deploy/engine.go:339-351 | the route switch, or the clean-up and failure after a failed one |
| `DeployEngine.Engine.StopOldLive` | internal/deploy/engine.go:356-365 | the old container is asked to stop, with a warning event if that fails |
| `DeployEngine.Engine.FinalizeSuccess` | internal/deploy/engine.go:367-384 | success is stored, then the app row, then the last event is emitted |
| `DeployEngine.Engine.FailDeploy` | internal/deploy/engine.go:462-474 | failure is stored with its time before the last event is emitted |
| `DeployEngine.Engine.EmitEvent` | internal/deploy/engine.go:476-488 | an event that could be stored is appended to the log and handed to Publish, one that could not is neither, and nothing else changes |
| `DeployEngine.Engine.EmitProgress` | internal/deploy/engine.go:208-210 | the builder's progress events are emitted in order |
| `DeployEngine.Engine.UpdateDeploy` | internal/store/deploy_repo.go:102-111 | status, container, health and both times of the row are written, its other columns and all other rows are as before |
| `DeployEngine.Engine.UpdateApp` | internal/store/app_repo.go:133-145 | the whole row is replaced by the caller's copy |
| `DeployEngine.Engine.UpdateRoute` | internal/proxy/traefik/manager.go:111-166 | the route names the container, or on an error is as before or gone |
| `DeployEngine.Engine.GetLatestDeploy` | internal/store/deploy_repo.go:46-61 | a deploy of the app that no other one is younger than, or none if there is none |
| `DeployEngine.Engine.GetLatestSuccessfulDeploy` | internal/store/deploy_repo.go:63-78 | the same among the successful ones |
| `DeployEngine.Engine.Deploy` | internal/deploy/engine.go:73-106 | accepted, with one pending row created, if and only if both reads succeed, the app is managed, its latest deploy is over and the row can be created; refused otherwise, with the reason that applies first and without a change; the new row has the given image, commit and branch, each in its own column, is pending and never started, and all other rows are as before |
| `DeployEngine.Engine.Rollback` | internal/deploy/engine.go:135-165 | accepted, with the image and branch of the latest success, if and only if both reads succeed, the app is managed, there is a success and the row can be created; never refused for a deploy in progress; the new row has no commit, names the deploy it repeats, is pending, and all other rows are as before |
| `DeployStatus.RunTracks` | internal/deploy/engine.go:167-385 | at every point of every run the row follows the run's own copy and has evolved from the earlier row |
| `DeployStatus.StatusMachine` | internal/deploy/engine.go:167-385 | between any two points of a run: the status moves forward only, a terminal row is never written again, the completion time is set exactly when the status is terminal, and the value rollback is never stored |
| `DeployStatus.RunEndsTerminal` | internal/deploy/engine.go:317-384 | with working stores every run ends with a terminal status in its row |
| `DeployStatus.LastStepEmits` | internal/deploy/engine.go:321-328 | a run ends by emitting exactly one event after its terminal status was stored |
| `DeployStatus.StepRow` | internal/store/deploy_repo.go:102-111 | what one step does to the run's own row |
| `DeployStatus.StepWorldFrame` | internal/deploy/engine.go:224-385 | a step leaves all other rows and all other apps alone |
| `Cutover.ApplyKeepsInv` | internal/deploy/engine.go:224-385 | the invariant of all runs in flight, kept by every request and every step of every run, for any unique app names |
| `Cutover.ServingStep` | internal/deploy/engine.go:335-365 | a step takes a served app down if and only if it truncates the app's route file, stops its container under a colliding default name, or routes it to a container that is down |
| `Cutover.ZeroDowntime` | internal/deploy/engine.go:224-385 | over every interleaving of deploys, rollbacks and run steps of any number of apps, overlapping runs and trouble with other apps included, the route of a served domain-mode app under Talos's proxy names a running container in every state if and only if no step truncates that app's route file, provided no default name in use is a staging name of this app |
| `Cutover.IdleIsGood` | internal/deploy/engine.go:224 | the invariant holds at rest |
| `Cutover.IdleIsClear` | internal/deploy/engine.go:260-264 | at rest an app is out of the way of all others when every live container is recorded, whatever the apps are called |
| `Cutover.ApplyKeepsClear` | internal/deploy/engine.go:224-385 | no request and no step of any run brings a name into use that collides with the app's, or takes down its container on the way to the route |
| `Cutover.StopsRoutedByCollision` | internal/deploy/engine.go:296-359 | a stop names the routed container of an app only under a default name: of an unrecorded copy of another app, or the app's own |
| `Cutover.StagedGoesDownExactly` | internal/deploy/engine.go:296-359 | the container a run is about to promote goes down if and only if an unrecorded copy of another app, whose default name it has, is told to stop and the stop goes through |
| `Cutover.StopSparesStaged` | internal/deploy/engine.go:296-359 | no stop of any run touches a container about to be promoted, if no default name in use is a staging name of its app |
| `Cutover.NextNameIsFresh` | internal/deploy/engine.go:260 | the staging name of a new deploy is on no route but as a default name |
| `AutoRollback.LiveFollowsRun` | internal/deploy/engine.go:289-331 | whether the previous container is up, at every point of a run and for all answers |
| `AutoRollback.AutoRollbackKeepsLiveExactly` | internal/deploy/engine.go:311-331 | after an automatic rollback, whatever was answered, the previous container is up if and only if the app needs no exclusive cutover or the stop that begins it left it up |
| `Serial.OneKeptLaunch` | internal/deploy/engine.go:102-103 | a launch keeps the runs of an app one at a time |
| `Serial.OneKeptAdvance` | internal/deploy/engine.go:224-385 | so does every step of a run |
| `ExclusiveCutover.NeverTwoUp` | internal/deploy/engine.go:288-309 | over every schedule in which runs of the app follow one another, its stops work, its failed starts leave nothing up and its row is written, with other apps' runs interleaved and all other writes free to fail, at most one of its containers is up |
| `ExclusiveCutover.SecondContainerExactly` | internal/deploy/engine.go:302-309 | without any such assumption: a step leads to two containers if and only if it starts one while another is up |
| `ExclusiveCutover.IdleIsExclusive` | internal/deploy/engine.go:261-264 | the invariant holds at rest when nothing but the live container runs |
| `ExclusiveCutover.StartMakesSecondExactly` | internal/deploy/engine.go:289-302 | in one run the start makes a second container if and only if the live one was up, the stop left it up, and the start leaves one up |
| `ExclusiveCutover.OwnStep` | internal/deploy/engine.go:288-384 | which container of the app is up, step by step |
| `Failures.FirstDeployTakesOtherAppDown` | internal/deploy/engine.go:260-264 | from rest and with everything working, the first deploy of an app whose default name is another app's live container takes that app down |
| `Failures.RollbackLeavesNothingUp` | internal/deploy/engine.go:289-330 | from rest and with nothing failing but the health check, an exclusive app ends its automatic rollback with the old container gone |
| `Failures.BuiltImageIsNotInItsRow` | internal/deploy/engine.go:216-219 | from rest and with everything working, a locally built deploy goes live with an empty image in its row, which the next rollback starts from |
| `Failures.FailedStopLeavesTwo` | internal/deploy/engine.go:296-299 | from rest, a schedule disciplined but for stops leads to two containers of an exclusive app |
| `Failures.LeakyStartLeavesTwo` | internal/runtime/docker/client.go:275-286 | the same but for starts that fail and leave a container up |
| `Failures.LostRowLeavesTwo` | internal/deploy/engine.go:375-381 | the same but for the write of the app row |
| `Failures.OverlapLeavesTwo` | internal/deploy/engine.go:367-381 | the same but for overlap, with nothing failing and the second deploy admitted by a check and create in one step |
| `Admission.LaunchKeepsSingleActiveExactly` | internal/deploy/engine.go:90-103 | creating a deploy keeps an app at one active deploy, its newest, if and only if none is in progress and the new one is younger than all |
| `Admission.LatestTerminalMeansNoneActive` | internal/deploy/engine.go:82-88 | checking the latest deploy is enough |
| `Admission.OneActiveDeployPerApp` | internal/deploy/engine.go:73-106 | with an atomic check and create and increasing times, over every interleaving for any number of apps, each app has at most one pending or running deploy and it is its newest |
| `Admission.CheckThenCreateRaces` | internal/deploy/engine.go:82-98 | two requests whose check found the latest deploy over, both made before either row was created, leave two deploys of the app in progress |
| `Admission.RollbackDuringDeploy` | internal/deploy/engine.go:135-165 | a rollback during a deploy makes a second active one |
| `Admission.SubmitAdmitsSecondExactly` | internal/deploy/engine.go:82-98 | even as one step, check and create admit a deploy next to one in progress if and only if the row the store returned is over and another is not |
| `Admission.TieAdmitsSecond` | internal/store/deploy_repo.go:50 | with equal creation times that happens: the busy deploy and the new one are both in progress |
| `Admission.AdmittedBeforePromotion` | internal/deploy/engine.go:367-381 | a deploy admitted between the two final stores works on the row from before, and the container it will stop is not the one that has gone live |
| `Bookkeeping.RowDescribesNewestSuccess` | internal/deploy/engine.go:367-381 | over every schedule with non-overlapping runs of the app whose two final writes go through, all others free to fail, its current deploy, live container and image are those of its newest success |
| `Bookkeeping.RowHasImageOfCurrentRun` | internal/deploy/engine.go:375-381 | over every interleaving, the image in the app row is that of the run of its current deploy, a locally built one included |
| `Bookkeeping.RollbackRepeatsCurrent` | internal/deploy/engine.go:144-156 | a rollback refers to the current deploy, and repeats its image if and only if that was given at creation |
| `Bookkeeping.NothingToRollBack` | internal/deploy/engine.go:144-147 | there is no successful deploy if and only if the app row names no current one |
| `Commute.DifferentAppsAreApartExactly` | internal/deploy/engine.go:260-264 | runs of different apps share no container, row or route if and only if no unrecorded default name of one is a container of the other |
| `Commute.StepsOfDifferentAppsCommute` | internal/deploy/engine.go:224-385 | without such a collision two steps of runs of different apps lead to the same state in either order, and to the same event log of every deploy |
| `Reorder.RunsOfOneAppFirst` | internal/deploy/engine.go:224-385 | any interleaving of background runs leads to the same state and event logs as the runs of one app first and all others after them, if that app's names do not collide with those of the others, whatever collides among these |
| `Commute.StepParts` | internal/deploy/engine.go:224-385 | what a step does to each part of the shared state |
| `Broadcaster.EventBroadcaster.Subscribe` | internal/deploy/event_broadcaster.go:23-58 | a new, open, empty channel under a new id, in the map of its deploy |
| `Broadcaster.EventBroadcaster.Unsubscribe` | internal/deploy/event_broadcaster.go:36-55 | the channel leaves the map and is closed, once; calling again changes nothing |
| `Broadcaster.EventBroadcaster.SnapshotTargets` | internal/deploy/event_broadcaster.go:65-81 | the first lock section: the subscribers of the deploy |
| `Broadcaster.EventBroadcaster.TrySend` | internal/deploy/event_broadcaster.go:83-91 | a send that never waits: appended if there is room, reported slow otherwise, and a panic exactly on a closed channel |
| `Broadcaster.EventBroadcaster.DropSlow` | internal/deploy/event_broadcaster.go:97-110 | the second lock section: exactly the slow ones that are still there are removed and closed |
| `Broadcaster.EventBroadcaster.Publish` | internal/deploy/event_broadcaster.go:60-111 | run without interruption: one copy to every subscriber with fewer than 256 events queued, exactly the others removed and closed, every other channel as it was |
| `Broadcaster.EventBroadcaster.SubscriberCount` | internal/deploy/event_broadcaster.go:113-118 | the number of live subscriptions |
| `Broadcaster.SubscribedKeepsLifecycle` | internal/deploy/event_broadcaster.go:27-33 | subscribing keeps: ids unique, a channel open exactly while it is in the map, no empty inner map, queues bounded |
| `Broadcaster.DroppedKeepsLifecycle` | internal/deploy/event_broadcaster.go:49-53 | so does removing |
| `Broadcaster.PublishedInPhases` | internal/deploy/event_broadcaster.go:60-111 | the three phases add up to an uninterrupted Publish |
| `Delivery.BStepKeeps` | internal/deploy/event_broadcaster.go:23-111 | lifecycle and gap-freedom are kept by every lock section, send and receive |
| `Delivery.GapFreeDelivery` | internal/deploy/event_broadcaster.go:60-111 | under every interleaving, received plus buffered events are a contiguous run of those published since the subscription, from the first one on: all of them while it is live and nothing is being published |
| `Delivery.ClosedForGood` | internal/deploy/event_broadcaster.go:105-106 | a closed channel stays closed and gets no more events |
| `Delivery.SubscriptionsConserved` | internal/deploy/event_broadcaster.go:27-33 | subscriptions created equal live plus closed |
| `Delivery.SendPanicsExactly` | internal/deploy/event_broadcaster.go:83-91 | a send hits a closed channel if and only if its target left the map after the snapshot |
| `Delivery.PoliteRunsNeverPanic` | internal/deploy/event_broadcaster.go:60-111 | without such removals no send ever does |
| `Delivery.DisconnectDuringPublishPanics` | internal/deploy/event_broadcaster.go:81-87 | with one it happens |
| `Stream.Connection.StreamEvents` | internal/server/handlers/deploy.go:142-242 | the frames written are those of the transcript, up to the first that cannot be written; if none is cut off they carry the stored events and then every event received up to the end of the loop |
| `Stream.Connection.Relay` | internal/server/handlers/deploy.go:203-241 | the same for the select loop |
| `Stream.TranscriptIs` | internal/server/handlers/deploy.go:169-191 | the transcript is the stored events, the status connected with, and a terminal frame for a finished deploy or else the loop |
| `Stream.LoopFramesAre` | internal/server/handlers/deploy.go:203-241 | the loop frame by frame: an event or a keepalive for every wake before the last, then the last event and the terminal frame if a final status was read |
| `Stream.TranscriptShows` | internal/server/handlers/deploy.go:169-221 | the events in the frames are exactly the stored ones and then, for a deploy not over, those received up to the one that ends the loop |
| `Stream.LoopFramesAppend` | internal/server/handlers/deploy.go:203-241 | each turn of the loop adds its own frames |
| `StreamLive.LiveStepKeeps` | internal/server/handlers/deploy.go:142-242 | the invariant between run, store, broadcaster and handler, kept by every step of any of them |
| `StreamLive.StreamTerminates` | internal/server/handlers/deploy.go:214-240 | in every interleaving, once the run is over a handler that subscribed before the last Publish and is still attached finds an event, and after the next one it takes, whatever others do in between, it writes a terminal frame as its last |
| `StreamLive.HowStreamsEnd` | internal/server/handlers/deploy.go:203-241 | a stream that ends writes at most one terminal frame, as its last, with the stored status; there is none exactly when the client left, the subscription was dropped or a read failed |
| `StreamLive.FinishedDeployEndsAtOnce` | internal/server/handlers/deploy.go:184-191 | a stream opened on a finished deploy is backfill, connected and terminal frame |
| `StreamLive.EmptyQueueExactly` | internal/server/handlers/deploy.go:203-214 | after the run the queue of a waiting handler is empty if and only if it subscribed after the last Publish began |
| `StreamLive.LateSubscriberHangs` | internal/server/handlers/deploy.go:197-241 | then no terminal frame is ever written, whatever happens, short of the client leaving |
| `StreamLive.SubscribingAfterTheEndHangs` | internal/server/handlers/deploy.go:148-197 | and that is where a handler that subscribes after the end ends up |
| `StreamLive.HangsFromTheStart` | internal/server/handlers/deploy.go:148-197 | a run from the creation of the deploy that gets there |
| `StreamLive.ShownOnceExactly` | internal/server/handlers/deploy.go:169-219 | the events in the frames written are two stretches of the stored events; each is shown exactly once if and only if the second begins where the first ended |
| `StreamLive.EventLostBeforeSubscribing` | internal/server/handlers/deploy.go:169-197 | a run from the start in which the first event is in no frame |
| `StreamLive.EventShownTwice` | internal/server/handlers/deploy.go:169-219 | a run from the start in which it is in two frames |
| `Text.SplitOfJoin` | internal/settings/service.go:228-291 | splitting joined lines gives the lines back |
| `Text.JoinOfSplit` | internal/settings/service.go:228-291 | joining split text gives the text back |
| `Text.StripsSpaces` | internal/settings/service.go:453-458 | trimming leaves the text between its first and its last character that is no space |
| `StringOrder.BelowExactly` | internal/settings/service.go:283 | the order: a string is below another if and only if it is a shorter prefix of it or has the smaller character at the first difference |
| `StringOrder.SortSorts` | internal/settings/service.go:283 | sorting gives the same keys in increasing order |
| `StringOrder.IncreasingUnique` | internal/settings/service.go:276-283 | the sorted listing depends on the set of keys alone, not on the order they came in |
| `EnvFile.ParseLineExactly` | internal/settings/service.go:205-215 | a line sets a key to a value if and only if that is what stands between its surrounding spaces, it is no comment, and the key has no equals sign |
| `EnvFile.LookupExactly` | internal/settings/service.go:205-215 | the parsed value is that of the last line that sets the key |
| `EnvFile.LookupAppend` | internal/settings/service.go:205-215 | the last line for a key wins |
| `EnvFile.RawLineParses` | internal/settings/service.go:206-213 | a line the editor matches to a plain key is a line the parser reads for that key |
| `EnvFile.LeftoverExactly` | internal/settings/service.go:231-255 | the updates left over are exactly those whose key begins no line |
| `EnvFile.EditKeeps` | internal/settings/service.go:236-255 | lines of other keys survive byte for byte and in order |
| `EnvFile.ReplacedInPlace` | internal/settings/service.go:248-254 | a present key is replaced where it stands, between the edits of what was before and after it |
| `EnvFile.EditedLookup` | internal/settings/service.go:236-255 | what the parser finds in the edited lines, for every key |
| `EnvEdit.AppendedExactly` | internal/settings/service.go:257-289 | appended are exactly the unmatched non-empty updates, each once |
| `EnvEdit.WrittenLines` | internal/settings/service.go:291-294 | reading the written text back gives the lines written and at most one empty line more |
| `EnvEdit.ParsedAfterUpdate` | internal/settings/service.go:199-306 | the parsed file after an update, for every key, in terms of the file before |
| `EnvEdit.UpdateTakesEffectExactly` | internal/settings/service.go:220-306 | the parser finds the new value, or none for an empty one, if and only if no line that stays says otherwise |
| `EnvEdit.OnceIsEnough` | internal/settings/service.go:220-306 | in particular for a key on one line at most that is not indented |
| `EnvEdit.UntouchedLinesSurvive` | internal/settings/service.go:220-306 | in the written file, lines of keys not updated are the old ones byte for byte and in order, up to the final newline |
| `EnvEdit.IdempotentExactly` | internal/settings/service.go:220-306 | the same update twice gives the bytes of once if and only if no key to be removed begins two lines |
| `EnvEdit.DuplicatedKeyDefeatsTheEditor` | internal/settings/service.go:244-251 | a key on two lines defeats update and removal |
| `EnvEdit.SuchAFile` | internal/settings/service.go:244-251 | the file with the lines A=1 and A=2 is an example |
| `Settings.SettingsService.ReadEnvValues` | internal/settings/service.go:199-218 | the map holds, for every key, what the last line for it says |
| `Settings.SettingsService.UpdateEnvFile` | internal/settings/service.go:220-306 | whatever order maps are iterated in, the one output is written; what each file error leaves behind |
| `Settings.SettingsService.EditLines` | internal/settings/service.go:231-255 | the loop over the lines computes the edit and the leftover updates |
| `Settings.SettingsService.OtherKeys` | internal/settings/service.go:276-282 | the leftover keys, each once, in some order |
| `Settings.SettingsService.Save` | internal/settings/service.go:126-160 | the Snapshot and the edited file, or an error; the Snapshot shows each input without its surrounding spaces, the named default for one that is blank, and the address made of them; a file that did not exist has one line for each value |
| `Settings.SettingsService.Load` | internal/settings/service.go:90-124 | the Snapshot of the parsed file: its values without surrounding spaces, the named default for what is blank, and the address made of them |
| `Settings.FirstSaveWrites` | internal/settings/service.go:126-306 | the bytes of a new env file: one line for each value, in the preferred order and then sorted, none for an empty domain or email |
| `Settings.ConfiguredURLAddresses` | internal/settings/service.go:308-323 | the address shown: https for a domain, else http for the host of the request, with the port unless it has one, localhost for none or the wildcard |
| `Settings.SaveLoadExactly` | internal/settings/service.go:90-160 | Load after Save returns the Snapshot Save returned if and only if the lines that stay do not say otherwise |
| `Settings.LoadReturnsWhatSaveReturned` | internal/settings/service.go:90-160 | so it does when every update takes effect |
| `Migrations.Store.Migrate` | internal/store/migrations.go:124-174 | one startup: what is seeded, executed and recorded, and whether it succeeds, for every failure pattern |
| `Migrations.ApplyReaches` | internal/store/migrations.go:157-171 | how far the loop gets, and what it executed and recorded on the way |
| `Migrations.StartupExactly` | internal/store/migrations.go:124-174 | from a clean state the next versions are executed and recorded in order, success means the end of the table, and the state is clean again if and only if no record was lost |
| `Migrations.ExactlyOnce` | internal/store/migrations.go:124-174 | over any sequence of startups with growing tables, each failing at any statement: versions 1 to k recorded, every statement executed once and in order, k the table size after a success |
| `Migrations.FromScratch` | internal/store/migrations.go:124-174 | the same from an empty database |
| `Migrations.SeedingExecutesNothing` | internal/store/migrations.go:139-154 | a pre-tracking database gets all versions recorded and none executed |
| `Migrations.BrokenSeeding` | internal/store/migrations.go:146-151 | a seeding that breaks off records what the map iteration came to |
| `Migrations.AfterBrokenSeeding` | internal/store/migrations.go:133-171 | the next startup then executes every version above the highest one seeded; none if and only if none or the last was seeded |
| `Migrations.GapStopsStartup` | internal/store/migrations.go:161-164 | a table with a hole: what comes before it is executed, the startup fails there, nothing after it is executed |
| `Migrations.LostRecordRepeats` | internal/store/migrations.go:165-170 | a lost record makes the next startup execute its statement again |
| `Migrations.LostFirstRecordSkipsAll` | internal/store/migrations.go:141-154 | a lost record of version 1 makes the next startup record all versions and execute none |
| `Archive.DataDir.Pack` | internal/backup/manager.go:75-86 | the archive: the database, then every entry of the walk |
| `Archive.DataDir.Restore` | internal/backup/manager.go:169-206 | entries are restored in order up to the first that fails |
| `Archive.ExtractExactly` | internal/backup/manager.go:327-340 | a file is extracted if and only if nothing above it is a file and it is no directory; missing directories appear, all else is as it was |
| `Archive.StopsAtFirstFailure` | internal/backup/manager.go:169-206 | the first entry that fails ends the restore with what came before it in place |
| `Archive.OthersAreSkipped` | internal/backup/manager.go:183-192 | what is neither the database nor below services is skipped |
| `Archive.EntryRestored` | internal/backup/manager.go:192-203 | one archived path below services: when it can be restored, and the tree afterwards |
| `Archive.RoundTripExactly` | internal/backup/manager.go:75-206 | restoring an archive over any other data directory succeeds if and only if no archived path changed kind; then database bytes, directories and file contents are the archived ones and every other path is as it was |
| `Retention.RetainCount` | internal/backup/manager.go:28-31 | at least one backup is retained |
| `Retention.Manager.constructor` | internal/backup/manager.go:28-31 | the configured number of backups is retained, ten if that is not positive |
| `Retention.Manager.EnforceRetentionPolicy` | internal/backup/manager.go:121-142 | exactly the records beyond position retain of the listing and the files they name are deleted, all others are as before; for records of different times, exactly those beyond the newest |
| `Retention.Manager.CreateFullBackup` | internal/backup/manager.go:43-119 | the archive and its record are added, then retention is enforced on some listing |
| `Retention.Manager.DeleteBackup` | internal/backup/manager.go:213-229 | for a known id exactly its record and the file of its name go, all others are as before; nothing changes for an unknown id |
| `Retention.Manager.ListBackups` | internal/store/backup_repo.go:52-70 | all records once, newest first |
| `Retention.OldestAreLast` | internal/backup/manager.go:131-132 | what is beyond position retain of the listing is exactly what is not among the newest |
| `Retention.CreateKeepsNewest` | internal/backup/manager.go:43-142 | the survivors are exactly the newest, as many as retain allows; the new one is among them if and only if fewer than retain others are newer |
| `Retention.CreateKeepsMatchedExactly` | internal/backup/manager.go:48-50 | records and files stay one to one if and only if no archive of the same second exists or all records of that second fall to retention, whatever the times and the order of the listing |
| `Retention.TwoInOneSecond` | internal/backup/manager.go:48-50 | so with room left, or a new record that is newest, if and only if no archive of the same second exists |
| `Retention.CorrespondenceOverRuns` | internal/backup/manager.go:43-229 | over any sequence of backups and deletions on a clock that moves on, records and files stay one to one, and within the retain count from the first backup on |
| `Retention.RestoreForgetsItself` | internal/backup/manager.go:153-186 | a restore leaves the archive it came from without a record |

## Left out

- Docker, GitHub, Garage, Traefik, git and SQL clients: each call is an arbitrary outcome with its effect on the model's state; SQL statements are atomic.
- Free-text columns and event messages: logs, environment snapshot and message texts are not modelled; events carry deploy, level and step.
- validateEnvVars and collectEnvVars: reduced to one arbitrary answer; they decide a branch and fill the container's environment.
- Network aliases, labels, ports and access URLs of containers: only names and whether a container is up.
- Containers that die by themselves, and settings pages that edit an app row during a deploy.
- WaitForHealth: the wait is one step that may succeed only for a running container, looked up by name instead of container id.
- The builder's inner steps: one operation with any progress events and any outcome.
- Real time: timeouts, the keepalive ticker and the backup scheduler are arbitrary choices.
- A crash of the process during a run, and the recovery of such runs: there is none in the source.
- StreamEvents: answers before the stream starts (bad id, unknown deploy, no flusher) and a handler without a broadcaster.
- StreamTerminates: says what the next event taken does; that the handler is scheduled at all is the runtime's fairness.
- EnvEdit.UpdateTakesEffectExactly: values with line breaks are excluded, as they would make lines of their own; the editor itself accepts them.
- Settings.SettingsService.Load: detection of the installation and of the env file's path is an argument, the same for both calls; the three texts that tell how to apply a change are represented by the arguments they are made from.
- Archive.RoundTripExactly: directories and regular files only; modes, owners, symbolic links, tar and gzip formats and half-written files after a full disk are not modelled, nor are entry names with `.` or `..`, which CreateFullBackup never writes.
- Retention.Manager.CreateFullBackup: the order of records with equal times is the database's choice. Failing file operations are not modelled.
- Retention.RestoreForgetsItself: a restore counts from the restart that it asks for, for a database file named talos.db and without the write-ahead log beside it.
- StreamLive.ShownOnceExactly: stored events are listed in the order they were stored; timestamps that go backwards would list them in another.
- The second backup implementation in internal/backup/service.go, which is not wired up.
- HTTP routing, templates, authentication, cryptography and the other handlers.
