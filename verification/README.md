# Onboard autonomy: verified flight-command protocol

A Dafny model of the companion computer that flies an ArduPilot multicopter to a
precision landing, with proofs about every run of it. `dafny verify dfyconfig.toml`
checks the whole project.

The companion application polls. In each poll it takes at most one camera frame,
decodes the messages that have arrived, takes one snapshot of the vehicle and then
runs, in a fixed order, the link-failsafe cache, the heartbeat, the telemetry setup,
the failsafe parameter requests, the version and battery queries, the GUIDED / ARM /
TAKEOFF startup machine and the guidance / LAND runtime machine.

## How the model is built

- Each component that the program updates in place is a `class` with the program's
  fields. Its methods are proved against a step function on a value (`Update`, `OnAck`,
  `Step`, ...), and the properties are lemmas about that function over every sequence of
  events: `Run` is the state after a history, `Trace`, `Log`, `Looks` and the like record it.
  Where it matters (`Hits`, `FirstSeen`, `Latest`, `LastSeen`, `Answered`, `Unpaired`) they are computed from
  the events alone and the state is proved to agree.
- `Application` composes them twice. `PollWorld` says what a poll does to the components'
  states and `PollMail` which frames it writes, and `CompanionApplication.PollOnce` is proved to do
  exactly that, down to the bytes on the wire. `LogsOf` says which
  events every component has been told over a run, and `PollTracks` proves that the two
  agree, so every theorem about one component's histories holds inside every run of the
  application. The other `Application...` modules state the theorems about whole runs: polls, start
  requests and snapshots in any order.
- What a component decides is also stated without its own functions: `VehicleReports` reads a
  snapshot off the reports, and `StartupTable`, `RuntimeTable` and `StreamTable` are decision tables
  with the numbers written out. `ApplicationDecisions`, `ApplicationMessages`, `ApplicationVision` and
  `ApplicationQueries` carry them into every run, from the messages and frames that arrive to the
  frames that are written.
- Time is an integer number of nanoseconds. A double is a real or one of NaN and the
  infinities; rounding is not modelled. Locked sections of threads are atomic steps.
- The deadlines, limits and masks are the program's own.

| file | what it models |
|---|---|
| `FlightTypes`, `CommandTrace` | shared values; the language of a bounded-retry command protocol |
| `FlightStartup` | `FlightStartupController` |
| `AutonomyRuntime`, `AutonomyHistory`, `Guidance` | `AutonomyRuntime`, `DecisionEngine`, `SafetySupervisor`, `WorldState` |
| `StartupTable`, `RuntimeTable`, `StreamTable` | the decision tables of both flight machines and of the telemetry setup |
| `CompanionLinkFailsafe`, `TelemetryStreams`, `VehicleState`, `VehicleReports`, `WarningOrder` | the failsafe cache, the telemetry setup, the vehicle state, what it shows and the order of its warnings |
| `TargetTracker`, `Smoothing`, `TargetTransform` | the vision track, its smoothing, camera-to-body transform |
| `CameraMailbox`, `FrameReader`, `LineReader`, `FramePairing` | the camera workers and the consumer's accounting |
| `CompanionApplication`, `Transport` | the composition and its transport |
| `ApplicationRuns`, `ApplicationTiming`, `ApplicationFlights`, `ApplicationMessages`, `ApplicationVision`, `ApplicationDecisions`, `ApplicationQueries`, `HandoverWitness` | its runs |
| `LogRotation` | `rotate_jsonl_logs.py` |

## Where the code differs from what its documentation or its shape suggests

- `docs/architecture.md:114-115` says that retry attempts do not masquerade as dropped frames because
  only complete frames get sequence numbers. A complete rpicam frame whose capture time never
  arrives gets one too, and its attempt shows up as a dropped frame although every published frame was
  delivered (`Mailbox.UnpairedFrameCountsAsDropped`). The statement holds if and only if no such frame
  was numbered between the first and the last delivery (`Mailbox.GapsArePublishedFrames`).
- The report can also miss more than one lost frame per restart: `Mailbox.TwoLossesInOneRestart` is six
  steps that lose two frames in one restart and report none. `Mailbox.ReportedBoundExactly` says exactly
  when the bound holds; without unpaired frames it always does
  (`Mailbox.ReportedIsCloseWithoutMetadata`).
- `docs/architecture.md:159-172` speaks of the one autopilot that is discovered and whose parameters are
  validated. In the code these may be two: the startup pins the first vehicle its flight sees, while the
  failsafe session follows the last heartbeat. They are the same exactly if the vehicle's id is still the
  first one (`ApplicationRuns.CommandsGoToTheFirst`), and `HandoverWitness.CommandMissesTheSession` is a
  run in which they are not.
- The order in which warnings are listed can depend on how often somebody looked; nothing else does.
  `WarningOrder.OrderSettledExactly` says which re-reports make it so.
- The "too many immediate transitions" failure of the startup cannot happen: no poll makes more than
  two phase changes (`FlightStartup.SettledAfterTwo`).
- Not claimed because the code does not give it: an end to the `active` phase under a target that keeps
  coming and going faster than the warm-up and the loss timeout, a bound on waiting while LAND is
  answered "in progress", the attribution of a late duplicate telemetry acknowledgement, and
  freshness of battery values that later messages leave out.

## Model

| member | source | states |
|---|---|---|
| `ApplicationRuns.CoupledAlways` | src/application/CompanionApplication.cpp:418-457 | At every poll boundary of every run the runtime waits exactly while the startup is enabled and unfinished, is active, landing or completed only after a completed startup, and has failed whenever the startup has |
| `ApplicationRuns.OneMachineSends` | src/application/CompanionApplication.cpp:649-701 | In no poll of any run do both machines send; startup commands only while the runtime waits, runtime requests only with the startup completed |
| `ApplicationRuns.CommandsComeFirst` | src/application/CompanionApplication.cpp:649-701 | A completed startup, as in every poll in which the runtime sends, is silent until a start request is granted: all startup commands of a flight precede all its runtime requests |
| `ApplicationRuns.FinishedTogether` | src/application/CompanionApplication.cpp:750-768 | The two-part finished test of a start request is equivalent to "the runtime has finished" |
| `ApplicationRuns.NoPermissionNoCommand` | src/application/CompanionApplication.cpp:424-432 | An application built without motion permission sends no flight command in any run |
| `ApplicationRuns.CommandsAreBacked` | src/application/CompanionApplication.cpp:492-701 | Every flight command is sent in a poll whose vehicle is connected and is the failsafe session, with the whole parameter policy last heard from that system's autopilot in that session; runtime requests go to that very id, which is the configured GCS id |
| `ApplicationRuns.CommandsGoToTheFirst` | src/application/FlightStartupController.cpp:104-156 | In every run a startup command goes to the first vehicle seen connected since the run began or was last restarted; that is the accepted failsafe session if and only if the poll's vehicle still has that id |
| `FlightStartup.PinnedToTheFirst` | src/application/FlightStartupController.cpp:119-138 | The pinned id is the first connected vehicle's of the flight, and the startup waits exactly while there has been none |
| `HandoverWitness.CommandMissesTheSession` | src/application/CompanionApplication.cpp:492-672 | For every enabled application there is a run in which GUIDED goes to system 1 while the accepted failsafe session is system 2 |
| `ApplicationRuns.LostLinkEndsTheFlight` | src/application/CompanionApplication.cpp:649-701 | In every run a poll that finds the vehicle disconnected or the failsafe no longer accepted while commands are due or the runtime flies (or disconnected before readiness) sends nothing and leaves both machines finished, the flight failed; nothing is sent until a start request is granted |
| `ApplicationRuns.GuidanceIsGrounded` | src/application/CompanionApplication.cpp:819-840 | Every LANDING_TARGET is the transformed smoothed position of one tag with at least three valid observations, the first three in consecutive frames, gaps at most 500 ms, the newest at most 250 ms old, below the vehicle |
| `ApplicationVision.TargetExactly` | src/application/CompanionApplication.cpp:819-840 | In every run with vision the runtime is given a target if and only if the frames hold at least three sightings of one tag, the last at most 250 ms old, and it is their smoothed position in body coordinates |
| `ApplicationVision.ApprovedExactly` | src/application/CompanionApplication.cpp:819-840 | In every run a supervised look is approved if and only if there is such a tag and it lies below the vehicle |
| `ApplicationMessages.MessagesAreTold` | src/application/CompanionApplication.cpp:297-417 | In every run each component has been told exactly what the messages say, in the order they were read: reports, parameter values, and acknowledgements by the numbers 176, 400, 22, 21, 20 and 511, the results 0 and 5, and the components 0 and 191 |
| `ApplicationMessages.StartupHears` | src/application/CompanionApplication.cpp:38-57 | An acknowledgement decides the startup command if and only if it carries the number of the awaited one (176, 400, 22), comes from the pinned system and is for component 0 or 191: result 0 accepts it, 5 grants 2 s more, any other fails the startup with it |
| `ApplicationMessages.RuntimeHears` | src/application/CompanionApplication.cpp:38-57 | The same of number 21 and LAND, where result 0 starts the 90 s of the landing |
| `ApplicationMessages.StreamsHear` | src/application/CompanionApplication.cpp:297-417 | The same of number 511 and the interval request that the setup awaits |
| `ApplicationMessages.CompletedFlightIsHeard` | src/application/CompanionApplication.cpp:297-417 | The milestones of every completed flight hold messages with result 0 and the numbers 176, 400 and 22 from the pinned system, and 21 |
| `ApplicationMessages.FramesAreTracked` | src/application/CompanionApplication.cpp:473-491 | In every run the tracker has been given exactly the frames that the camera had for the polls, in order |
| `ApplicationDecisions.VehicleIsShown` | src/application/CompanionApplication.cpp:492-507 | In every run each poll sees of the vehicle exactly what the reports up to then say (`VehicleReports.SnapshotShows`) |
| `ApplicationDecisions.StartupDecides` | src/application/CompanionApplication.cpp:649-672 | In every run a poll takes the startup by its decision table to its next state and its command, with the failsafe policy and the six telemetry answers read off the messages |
| `ApplicationDecisions.CommandIsExact` | src/application/CompanionApplication.cpp:649-672 | In every run a startup command names the first vehicle of the flight and says nothing but its confirmation and, in TAKEOFF alone, the configured altitude |
| `ApplicationDecisions.RuntimeDecides` | src/application/CompanionApplication.cpp:673-701 | In every run a poll takes the runtime by its decision table to its next state and its requests, with the target read off the camera frames |
| `ApplicationDecisions.LandingGuidance` | src/application/AutonomyRuntime.cpp:86-112 | In every run a landing at most 0.20 m high sends nothing and lets go of the target; higher or of unknown height, a usable target is sent if and only if none went out in the last 200 ms of its streak |
| `ApplicationDecisions.StreamsDecide` | src/application/CompanionApplication.cpp:524-553 | In every run a poll takes the telemetry setup by its decision table |
| `ApplicationDecisions.StartIsGranted` | src/application/CompanionApplication.cpp:704-779 | In every run a start request is granted if and only if permitted and configured, with a heartbeat at most 3 s old that says disarmed, and both machines completed or failed; it puts both back to waiting with nothing remembered, and otherwise changes neither |
| `ApplicationTiming.EveryRunSpeaksTheProtocol` | src/application/CompanionApplication.cpp:469-701 | In every run the startup commands, the LANDs (confirmations 0, 1, 2, two seconds after a delivered one) and the telemetry requests obey their command languages |
| `ApplicationTiming.CompletedFlightIsEarned` | src/application/CompanionApplication.cpp:649-701 | A completed flight rests on the nine startup milestones and the three landing milestones of the same run |
| `ApplicationTiming.StartupEndsInTime` | src/application/CompanionApplication.cpp:469-672 | With polls at most delta apart the startup is over 155 s + 2 delta after it left waiting |
| `ApplicationTiming.BeatsAreUnconditional` | src/application/CompanionApplication.cpp:508-523 | The heartbeat timer depends on poll times alone, not on connection or write results |
| `ApplicationTiming.HeartbeatsArrive` | src/application/CompanionApplication.cpp:508-523 | While the link stays up and writes succeed, heartbeats go out at least 1 s and less than 1 s + delta apart |
| `ApplicationTiming.HeartbeatIsShown` | src/application/CompanionApplication.cpp:492-523 | In every run the heartbeat is shown as active if and only if one was sent and every poll since has seen the vehicle connected |
| `ApplicationTiming.HeartbeatsOutpaceTheFailsafe` | src/application/CompanionApplication.cpp:508-523 | On a live link with polls at most 1 s apart, the time without a heartbeat, between two sent ones or since the last, stays below the timeout that the run's failsafe has accepted |
| `ApplicationQueries.MailIsExactly` | src/application/CompanionApplication.cpp:508-701 | In every run a poll writes exactly these frames in this order, each with its result: the heartbeat if 1 s is over, the interval request, the parameter due, the version and battery queries while unanswered and due, then the startup command, guidance and LAND; nothing without a vehicle id |
| `ApplicationQueries.QueriesExactly` | src/application/CompanionApplication.cpp:595-648 | In every run the version (battery) query is written if and only if the streams run, the last heartbeat names the vehicle, its last query is 2 s old and the reports say that the current controller has not answered (that the vehicle is disconnected, the last battery report is over 10 s old or no arming voltage was ever reported) |
| `ApplicationQueries.AskedUntilAnswered` | src/application/CompanionApplication.cpp:595-648 | In every run, as long as such an answer is missing, no poll at or after the epoch of the clock leaves its last query 2 s or more behind |
| `ApplicationQueries.ParametersRotate` | src/application/CompanionApplication.cpp:554-594 | In every run the parameters are read in turn, from the first whenever the connection comes up, at least 200 ms apart, and rounds 10 s apart with the failsafe accepted, 2 s if not |
| `ApplicationFlights.LandsExactlyWhenSteady` | src/application/AutonomyRuntime.cpp:113-170 | `LandExactlyWhenSteady` in every poll of every application run |
| `ApplicationFlights.LandRequestedInTime` | src/application/AutonomyRuntime.cpp:113-170 | In every run, from max(1 s, loss timeout) + delta after the last change of verdict on, LAND has been requested or the runtime is no longer active, at any time at most delta after the last poll |
| `ApplicationFlights.LandingEndsInTime` | src/application/AutonomyRuntime.cpp:86-90 | In every run a poll 90 s or more after the accepted LAND leaves the flight completed or failed |
| `ApplicationFlights.TargetsExactlyAtInterval` | src/application/AutonomyRuntime.cpp:147-162 | In every run an approved look sends guidance if and only if none went out in the last 200 ms of its streak |
| `ApplicationFlights.GuidanceRate` | src/application/AutonomyRuntime.cpp:147-162 | In every run, over any stretch without a disapproved look or a granted restart, any window of length w holds at most w / 200 ms + 1 LANDING_TARGETs |
| `Application.PollTracks` | src/application/CompanionApplication.cpp:469-701 | A poll on the components' states is the poll on their histories: each component always is where its own events have brought it |
| `Application.RestartTracks` | src/application/CompanionApplication.cpp:704-779 | A start request restarts both machines exactly when permitted, configured, connected, disarmed and finished |
| `Application.CompanionApplication.Create` | src/application/CompanionApplication.cpp:418-457 | The constructor refuses exactly the ill-formed options; it does not look at whether the extrinsics are rigid |
| `Application.CompanionApplication.Dispatch` | src/application/CompanionApplication.cpp:297-417 | One message reaches exactly the components it concerns; flight acknowledgements only when addressed to the companion |
| `Application.CompanionApplication.PollOnce` | src/application/CompanionApplication.cpp:473-701 | The imperative poll computes `PollWorld` and the timers, whatever each write returned; on the wire go the heartbeat, the interval request, the parameter read, the two queries, the startup command, guidance and LAND of this poll, in that order, each whole if reported sent and otherwise a proper prefix; it faults exactly when the guidance target does |
| `Application.CompanionApplication.RequestAutonomyStart` | src/application/CompanionApplication.cpp:704-779 | The imperative start request computes `Restarted` |
| `Application.CompanionApplication.RequestParameter` | src/application/CompanionApplication.cpp:554-594 | The next of the four parameters is requested when due; 200 ms between them, then 10 s or 2 s |
| `Application.CompanionApplication.RequestQueries` | src/application/CompanionApplication.cpp:595-648 | The version and battery queries go out when due, at most every 2 s, while the snapshot lacks their answer |
| `Application.CompanionApplication.SendActions` | src/application/CompanionApplication.cpp:682-700 | The requests go out as frames one after another and the runtime hears how each write went |
| `Application.CompanionApplication.CurrentTarget` | src/application/CompanionApplication.cpp:819-840 | The guidance target is the locked, recent track in body coordinates, or none, or the fault for which the transform throws |
| `Transports.Transport.WriteFrame` | src/application/CompanionApplication.cpp:984-1005 | A prefix of the frame is on the wire, and it counts as sent exactly when that is all of it |
| `FlightStartup.StartupLanguage` | src/application/FlightStartupController.cpp:119-297 | The commands of any flight spell a prefix of GUIDED{1..3} ARM{1..3} TAKEOFF{1..3} with confirmations from zero in each block, at most nine |
| `FlightStartup.CompletedIsConfirmed` | src/application/FlightStartupController.cpp:156-297 | A completed startup sent each of its three commands to the pinned system, had the awaited acknowledgement of each accepted by that system, and saw telemetry confirm it, in this order |
| `FlightStartup.StartupTerminates` | src/application/FlightStartupController.cpp:326-358 | With polls at most delta apart it is completed or failed 155 s + 2 delta after leaving the waiting phase |
| `FlightStartup.SettledAfterTwo` | src/application/FlightStartupController.cpp:119-243 | No poll makes more than two phase changes, and only one unless it starts from waiting |
| `FlightStartup.CommandsArePinned` | src/application/FlightStartupController.cpp:104-156 | A command is sent only to the pinned vehicle, connected and with the failsafe accepted |
| `StartupTable.PollFollowsTable` | src/application/FlightStartupController.cpp:91-244 | A poll goes to the phase, deadline and command that a table of all cases gives, with the deadlines of 90, 10, 10 and 45 s, mode 4 and the altitude less 0.35 m written out |
| `StartupTable.CommandSays` | src/application/FlightStartupController.cpp:210-235 | A command carries the pinned id, the number of earlier attempts, and the configured altitude in TAKEOFF, 0.0 otherwise |
| `FlightStartup.FlightStartupController.Poll` | src/application/FlightStartupController.cpp:91-244 | The eight-step transition loop computes `Update` and never gets past its third pass |
| `FlightStartup.FlightStartupController.UpdateCommand` | src/application/FlightStartupController.cpp:394-428 | Sending, waiting, resending and giving up after three attempts |
| `FlightStartup.FlightStartupController.OnActionSent` | src/application/FlightStartupController.cpp:246-260 | A failed write frees the attempt for an immediate resend, or fails the third |
| `FlightStartup.FlightStartupController.OnCommandAck` | src/application/FlightStartupController.cpp:262-297 | Only the expected action's acknowledgement from the pinned system counts |
| `Autonomy.ActionsAreSafe` | src/application/AutonomyRuntime.cpp:60-180 | Each request is for the connected, armed vehicle of this poll with the failsafe accepted; guidance carries the approved target unchanged |
| `RuntimeTable.PollFollowsTable` | src/application/AutonomyRuntime.cpp:27-180 | A poll goes to the state and requests that a table of all cases gives, with 0.20 m, 200 ms, 1 s and 2 s written out |
| `RuntimeTable.LandingGuidance` | src/application/AutonomyRuntime.cpp:86-112 | While landing, guidance goes on above 0.20 m or at unknown height at its pace and ends at or below it; the landing goes on |
| `Autonomy.LandLanguage` | src/application/AutonomyRuntime.cpp:272-298 | At most three LANDs a flight with confirmations 0, 1, 2, a delivered one at least 2 s before the next |
| `Autonomy.AutonomyRuntime.Poll` | src/application/AutonomyRuntime.cpp:27-180 | The imperative update computes `Update` and returns guidance before LAND |
| `Autonomy.AutonomyRuntime.UpdateLandCommand` | src/application/AutonomyRuntime.cpp:272-298 | LAND is sent, awaited, resent after its deadline and given up after three attempts |
| `Autonomy.AutonomyRuntime.OnCommandAck` | src/application/AutonomyRuntime.cpp:204-237 | Only an awaited LAND acknowledgement from the guided vehicle counts; acceptance starts the landing deadline |
| `AutonomyHistory.LandExactlyWhenSteady` | src/application/AutonomyRuntime.cpp:113-170 | A poll sends LAND if and only if guidance is active, every look for at least 1 s was approved or none for at least the loss timeout, no earlier LAND is still within its acknowledgement deadline and fewer than three were sent |
| `AutonomyHistory.SteadyMeansRequested` | src/application/AutonomyRuntime.cpp:113-170 | Whenever the runtime is still active after such a steady streak, LAND has been requested |
| `AutonomyHistory.LandRequestedInTime` | src/application/AutonomyRuntime.cpp:113-170 | With polls at most delta apart that is so from max(1 s, loss timeout) + delta after the last change of verdict on |
| `AutonomyHistory.LandingTerminates` | src/application/AutonomyRuntime.cpp:86-90 | A poll 90 s or more after the accepted LAND leaves the landing completed or failed |
| `AutonomyHistory.CompletedIsLanded` | src/application/AutonomyRuntime.cpp:76-80 | Completed means a LAND was sent, its awaited acknowledgement accepted, and then a connected, disarmed vehicle seen |
| `AutonomyHistory.TargetsExactlyAtInterval` | src/application/AutonomyRuntime.cpp:147-162 | An approved poll sends guidance if and only if it is the first of its streak or 200 ms have passed since the last |
| `AutonomyHistory.TargetRate` | src/application/AutonomyRuntime.cpp:147-162 | Over any stretch without an unapproved look or a restart, any window of length w holds at most w / 200 ms + 1 LANDING_TARGETs |
| `Guidance.SupervisorIsSound` | src/application/SafetySupervisor.cpp:17-64 | What is approved is the decided intent unchanged, for a connected, armed vehicle, at most 250 ms old and pointing below the vehicle; and nothing else is refused |
| `Guidance.SupervisorSaysWhy` | src/application/SafetySupervisor.cpp:17-64 | What is refused is refused for the first of these: no intent, disconnected, disarmed, older than 250 ms, not below the vehicle |
| `Guidance.PipelineApproves` | src/application/AutonomyRuntime.cpp:100-112 | For the vehicle the runtime hands over, exactly the valid targets are approved; disconnected, disarmed and stale cannot be reported |
| `LinkFailsafe.AcceptedIffPolicy` | src/application/CompanionLinkFailsafe.cpp:106-205 | The verdict is accepted if and only if the session's latest values satisfy the whole policy, non-finite and fractional values included |
| `LinkFailsafe.VerdictSays` | src/application/CompanionLinkFailsafe.cpp:85-205 | The reported phase, session, count and four values are those of the last values heard: whole numbers in range and nothing else |
| `LinkFailsafe.CacheIsLatest` | src/application/CompanionLinkFailsafe.cpp:42-83 | The cache is the session and the last value per name heard in it |
| `LinkFailsafe.LatestMeaning` | src/application/CompanionLinkFailsafe.cpp:58-83 | What "last heard" means: a message of that system's component 1, the session unchanged since, and none later |
| `LinkFailsafe.MessagesReorder` | src/application/CompanionLinkFailsafe.cpp:58-83 | Messages of different names commute; an overwritten one can be dropped |
| `LinkFailsafe.ForeignMessagesVanish` | src/application/CompanionLinkFailsafe.cpp:64-83 | Messages from other sources or of other names leave no trace |
| `LinkFailsafe.ExactInteger` | src/application/CompanionLinkFailsafe.cpp:17-28 | Exactly the whole finite numbers in range are read, as themselves |
| `LinkFailsafe.CompanionLinkFailsafe.Validate` | src/application/CompanionLinkFailsafe.cpp:106-205 | The chain of early exits computes the verdict from scratch |
| `TelemetryStreams.SetupLanguage` | src/adapters/mavlink/TelemetryStreamConfigurator.cpp:53-146 | In a session requests go in index order, at most three each with confirmations 0, 1, 2 and at least 2 s between repeats; active exactly after six accepted acknowledgements, each after a request for its own stream |
| `TelemetryStreams.SetupProgresses` | src/adapters/mavlink/TelemetryStreamConfigurator.cpp:59-146 | (6 - current, 3 - attempt) strictly decreases with every request and acceptance |
| `StreamTable.PollFollowsTable` | src/adapters/mavlink/TelemetryStreamConfigurator.cpp:58-102 | A poll goes to the state and request that a table of all cases gives: six streams, three attempts, 2 s |
| `TelemetryStreams.TelemetryStreamConfigurator.Poll` | src/adapters/mavlink/TelemetryStreamConfigurator.cpp:58-102 | The imperative update computes `Update` |
| `TelemetryStreams.TelemetryStreamConfigurator.OnCommandAck` | src/adapters/mavlink/TelemetryStreamConfigurator.cpp:104-146 | The imperative acknowledgement handler computes `OnAck` |
| `VehicleStates.ScheduleIsIrrelevant` | src/domain/VehicleState.cpp:400-513 | A snapshot depends on the reports and the time alone: however often the state was looked at, all fields and the set of warnings are the same |
| `VehicleReports.SnapshotShows` | src/domain/VehicleState.cpp:400-513 | Every field of a snapshot read off the reports: connected by a heartbeat at most 3 s old; GPS ready by a fix of at least 3 at most 5 s old; health OK by a status at most 5 s old with every enabled sensor healthy; battery ready by a report at most 10 s old, voltage, threshold, 20 % and sensor bit, and no battery text for 30 s; armable if and only if the three hold and no text is at most 5 s old; the altitude, ids, mode and texts |
| `VehicleStates.WarningsAgree` | src/domain/VehicleState.cpp:370-420 | A text is shown exactly when last reported at most 30 s before, and once only |
| `VehicleStates.BatteryWarningBlocksArming` | src/domain/VehicleState.cpp:405-513 | A noted battery text keeps the vehicle from being armable for 30 s |
| `WarningOrder.OrderSettledExactly` | src/domain/VehicleState.cpp:370-420 | The list of warnings is the same under every schedule of looks if and only if no shown text that was reported before another shown one ever came back after more than 30 s of silence during which the other was reported |
| `VehicleStates.OrderDependsOnSchedule` | src/domain/VehicleState.cpp:370-420 | A concrete case: two schedules of looks over the same reports list the warnings in different orders |
| `VehicleStates.VehicleState.Snapshot` | src/domain/VehicleState.cpp:400-513 | The snapshot is the view of the pruned state, and prunes it |
| `VehicleStates.VehicleState.Handle` | src/domain/VehicleState.cpp:230-398 | Each message changes the fields it carries and no others, except that a heartbeat after more than 3 s of silence or from another system or component also forgets the autopilot metadata |
| `VehicleStates.MetadataExactlyWhenAnswered` | src/domain/VehicleState.cpp:241-249 | The metadata is known exactly if a version was heard with neither a reconnection nor a change of controller since |
| `VehicleStates.NewControllerForgets` | src/domain/VehicleState.cpp:241-249 | After a reconnection or a change of controller only a version heard later counts |
| `Tracking.TrackIsExplained` | src/application/TargetTracker.cpp:75-148 | After any frames the track is the summary of the accepted observations, which are selected from the frames alone: since the last silence longer than the loss timeout or the last break in an acquisition; identity, both counts, last time, margin and smoothed position |
| `Tracking.LockIsEarned` | src/application/TargetTracker.cpp:150-191 | Tracking is reported if and only if there are enough such observations and the last is at most the loss timeout old; its position is their smoothed one, in front of the camera |
| `Tracking.BestMeaning` | src/application/TargetTracker.cpp:83-118 | The selected observation is the first eligible one of the greatest margin |
| `Tracking.SmoothedInBox` | src/application/TargetTracker.cpp:30-44 | The position lies in every box that holds the accepted measurements |
| `Tracking.TargetTracker.Update` | src/application/TargetTracker.cpp:75-148 | The two-scan update computes the one-scan `Step` |
| `Smoothing.ClosedForm` | src/application/TargetTracker.cpp:30-44 | Smoothing is the weighted sum of all measurements |
| `Smoothing.WeightClosed` | src/application/TargetTracker.cpp:30-44 | The weights are (1 - a)^(n-1) for the first and a (1 - a)^(n-i) for the i-th |
| `Smoothing.WeightsSumToOne` | src/application/TargetTracker.cpp:30-44 | The weights sum to one |
| `Smoothing.ErrorDecays` | src/application/TargetTracker.cpp:30-44 | Under a constant measurement the error decays by exactly 1 - a per update |
| `Smoothing.DecayIsPower` | src/application/TargetTracker.cpp:30-44 | k updates leave (1 - a)^k of it |
| `Transform.TransformRoundTrip` | src/domain/TargetTransform.cpp:41-126 | For every accepted rotation, transforming the camera coordinates of a body offset gives it back from the origin up to 1e-6 of its size |
| `Transform.AcceptedExactly` | src/domain/TargetTransform.cpp:41-89 | A rotation is accepted if and only if its entries and the origin are finite, its rows have length one and are orthogonal, and the first is the cross product of the others, each up to 1e-6 |
| `Transform.ColumnsOrthonormal` | src/domain/TargetTransform.cpp:13-89 | Orthonormal right-handed rows make orthonormal columns |
| `Transform.DistancesPreserved` | src/domain/TargetTransform.cpp:91-126 | With an exact rotation all distances are preserved |
| `Transform.Determinant` | src/domain/TargetTransform.cpp:26-37 | The expansion is the triple product of the rows |
| `Transform.Validate` | src/domain/TargetTransform.cpp:41-89 | The nested checks accept exactly the finite rigid rotations and name the first fault |
| `Transform.CameraToBody` | src/domain/TargetTransform.cpp:91-126 | The accumulating loops compute rotation times position plus origin, or the fault |
| `Mailbox.FramesAreConserved` | src/adapters/camera/GStreamerCameraSource.cpp:364-413 | Under every interleaving each complete frame is delivered, lost, waiting or in hand, and produced = delivered + overwritten + discarded + waiting |
| `Mailbox.DeliveriesAreReceived` | src/adapters/camera/GStreamerCameraSource.cpp:83-90 | Delivered sequence numbers strictly increase and are what the monitor counts |
| `Mailbox.GapsAreLosses` | src/application/CameraMonitor.cpp:24-40 | The counted gaps are exactly the frames lost between the first and the last delivery, and received + gaps = last - first + 1 |
| `Mailbox.GapsArePublishedFrames` | src/adapters/camera/RpicamCameraSource.cpp:252-272 | The counted gaps are published frames only, as documented, if and only if no frame without metadata was numbered between the first and the last delivery |
| `Mailbox.ReportedIsClose` | src/application/CameraMonitor.cpp:77-95 | The reported drops never exceed the losses and miss at most one frame per restart plus the frames without metadata |
| `Mailbox.ReportedBoundExactly` | src/application/CameraMonitor.cpp:77-95 | losses - restarts <= reported if and only if restarts that lost nothing make up for those that lost two frames, or at most that many frames were lost outside the delivered span |
| `Mailbox.TwoLossesInOneRestart` | src/adapters/camera/RpicamCameraSource.cpp:252-272 | Six steps after which two frames are lost, one restart counted and no drop reported |
| `Mailbox.ReportedIsCloseWithoutMetadata` | src/adapters/camera/GStreamerCameraSource.cpp:195-219 | For a source without metadata: losses - restarts <= reported <= losses |
| `Mailbox.UnpairedFrameCountsAsDropped` | src/adapters/camera/RpicamCameraSource.cpp:252-272 | A numbered frame without metadata adds one to the reported drops though every published frame was delivered |
| `Mailbox.CameraSource.PublishFrame` | src/adapters/camera/GStreamerCameraSource.cpp:387-398 | Publishing replaces the waiting frame and counts it as overwritten |
| `Mailbox.CameraMonitor.PollOnce` | src/application/CameraMonitor.cpp:24-40 | The consumer takes the frame and accounts for the gap |
| `FrameReader.ReadExact` | src/adapters/camera/GStreamerCameraSource.cpp:312-362 | The loop fills the destination with the next bytes of the stream, with the same result as `Read` |
| `FrameReader.ReadTakesAPrefix` | src/adapters/camera/GStreamerCameraSource.cpp:312-362 | No byte is lost, repeated or reordered; complete means the whole size |
| `FrameReader.NoTimeoutWhileProgressing` | src/adapters/camera/GStreamerCameraSource.cpp:330-340 | Reading never times out while no idle round ends a whole timeout after the last progress |
| `FrameReader.TimesOutExactly` | src/adapters/camera/GStreamerCameraSource.cpp:330-340 | A read times out if and only if its last round is idle and ends a whole timeout or more after the last progress; no earlier round does |
| `FrameReader.FramesAreConsecutive` | src/adapters/camera/GStreamerCameraSource.cpp:195-219 | The frames are the stream cut into consecutive pieces |
| `Lines.ReadLines` | src/adapters/camera/RpicamCameraSource.cpp:366-398 | However the stream is cut into chunks, exactly its lines are consumed |
| `Lines.SplitLosesNothing` | src/adapters/camera/RpicamCameraSource.cpp:366-398 | Lines and tail put together again are the stream |
| `Lines.SplitIsUnique` | src/adapters/camera/RpicamCameraSource.cpp:366-398 | There is no other way to write it as newline-free lines and a tail |
| `Pairing.FramesCarryTheirTimes` | src/adapters/camera/RpicamCameraSource.cpp:195-272 | For every interleaving of chunks, lines and frames, frame i published in an attempt carries the i-th capture time of the metadata text, whatever arrives later |
| `Pairing.RunsWhilePaired` | src/adapters/camera/RpicamCameraSource.cpp:195-272 | An attempt goes on if and only if every frame it has read was published |
| `Pairing.EndsWithItsLines` | src/adapters/camera/RpicamCameraSource.cpp:366-398 | The metadata has ended exactly when its end was met with every complete line handled |
| `Pairing.ReaderReadsLines` | src/adapters/camera/RpicamCameraSource.cpp:366-398 | The lines handled so far and the pending text are always the text that has arrived, and the handled ones a prefix of its lines |
| `Pairing.TimesAreQueued` | src/adapters/camera/RpicamCameraSource.cpp:452-481 | Published times and queued times together are all the times read, in order |
| `Pairing.ParseMeaning` | src/adapters/camera/RpicamCameraSource.cpp:559-594 | A time is read from exactly the lines that spell a 64-bit number after the key and a colon |
| `Pairing.ClockRoundTrip` | src/adapters/camera/RpicamCameraSource.cpp:559-594 | Every 64-bit time survives being written out and read back |
| `LogRotation.Rotate` | python/rotate_jsonl_logs.py:23-64 | The loop computes what is kept, removed and retained, or refuses the limits |
| `LogRotation.RetentionPartitions` | python/rotate_jsonl_logs.py:44-58 | Each candidate is kept or removed, none twice |
| `LogRotation.RetentionIsGreedy` | python/rotate_jsonl_logs.py:44-58 | Newest first, a log is kept if and only if none is kept yet or it fits both limits beside those kept |
| `LogRotation.RetentionBounds` | python/rotate_jsonl_logs.py:44-58 | At most max_files are kept, the newest among them, with bytes at most the limit or the newest file's size |
| `LogRotation.RetentionIsMaximal` | python/rotate_jsonl_logs.py:47-58 | No removed log could have stayed beside what was kept |
| `LogRotation.RetentionIsIdempotent` | python/rotate_jsonl_logs.py:44-58 | A second rotation removes nothing |
| `LogRotation.Stream` | python/rotate_jsonl_logs.py:67-118 | The files in creation order and the mirror hold the lines; a file exceeds the bound only with a single line, none is closed early, suffixes increase and avoid taken names, and the active file survives within the limits |
| `LogRotation.FilesHoldTheStream` | python/rotate_jsonl_logs.py:85-108 | The bytes of the files in creation order are the bytes of the stream |
| `LogRotation.Probe` | python/rotate_jsonl_logs.py:94-101 | The name-probing loop ends at the first free suffix |

## Left out

- MAVLink framing, decoding and encoding: messages arrive decoded, and a frame is whatever an arbitrary encoding function gives. What the decoder drops (heartbeats without an autopilot, versions of other components) does not arrive, and one `BATT_ARM_VOLT` value arrives as an arming voltage and as a parameter.
- Transports, processes, pipes, HTTP preview, AprilTag detection and the JSON loaders: their answers are inputs that may be anything the interface allows.
- Extrinsics that are not rigid: the constructor and `PollOnce` model them, fault included, but the runs of `LogsOf` consist of polls that return, since the exception ends the program; theorems that need it assume the extrinsics validated, as their loader does.
- Floating-point rounding and overflow of finite values: reals stand for finite doubles.
- Counters are unbounded naturals except the tracker's two, which saturate and wrap as in the program.
- Detail texts, link events, activity records and JSON rendering.
- Local position, attitude, the contents of the autopilot metadata (not its presence) and the stored battery current: no decision reads them.
- Mutexes and condition variables: each locked section is one atomic step, and waiting is represented by how it ended.
- The camera's phase and error text, latency and frame-rate figures.
- `LogRotation.Stream`: does not model file modification times, because which file is newest is the file system's answer; each write is taken to make the active log the newest, and the stem to match the rotated pattern. The encoding of lines and file handles are not modelled either.
- `LogRotation.Rotate`: takes the candidates already sorted newest first, as the directory listing gives them.
- `ApplicationTiming.StartupEndsInTime`: says nothing about a startup that never sees an eligible vehicle, which may wait for ever.
- `MotionSafetyPolicy`, `BoardTypeCatalog`, camera geometry, console and command line: a finite table, a lookup, an iteration without a convergence promise, and presentation.
