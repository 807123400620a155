# Verification of the mower bridge

This project models the safety-relevant state machines of the repository in Dafny and proves properties of every
run of them. Each part has a file of transition functions on values (`*Protocol.dfy`), files of theorems about
runs of these functions, and a class that updates its fields in place, as the original object does; every method
of the class is proved to change its state exactly as the functions say.
Beside the theorems about runs, `*Commands.dfy`, `*Fields.dfy`, `GnssMatching.dfy`, `TickIntegral.dfy`,
`WheelPublication.dfy` and `Bridge{Answers,Calls,Demands,Effects,Stops}.dfy` say what each operation does in the fields that
a user of it sees, without the functions that compute it.

- **Blade commands** (`Blade*.dfy`): the OFF/FORWARD/REVERSE sequencer with one command in flight, token fencing,
  ACK and stop deadlines, a latched fault, and the proof of a real stop that must precede every ON.
- **FCU session** (`Session*.dfy`, `FcuSessionController.dfy`): reconciliation of a wanted mode, arm state and
  safety with the observed FCU over calls that may be refused, late or lost.
- **The bridge node** (`Bridge*.dfy`, `MavrosBridge.dfy`): both controllers, the safety record and the queues of
  `mower_control` callers under one lock. An event is one callback; all replies, service states, send failures and
  clock readings are free inputs. Answers, dispatched blade commands and FCU orders are kept as a history.
- **Wheel measurement** (`MotorTick*.dfy`, `WheelTick*.dfy`, `WheelTravel.dfy`, `TravelPipeline.dfy`,
  `Observation*.dfy`): trapezoidal integration, quantisation to a 32-bit count with direction, and the engine that
  selects, pairs, fences and publishes.
- **GNSS adapter** (`Gnss*.dfy`): bounded queues, unique matching of heights and fencing of incarnations.
- **Base 64** (`Base64.dfy`): the encoder of the NTRIP client.

## Choices

- Tokens, serials, revisions, epochs, segments and arrival numbers are unbounded naturals. The widths that matter are
  explicit: the count of stop samples, the published wheel count and the base 64 accumulator wrap at 2^32.
- Times are integers. The safety theorems of the blade and the bridge assume no order of the clock; the progress
  theorems (`OnResolvesInTime`, `EndingDisarmsInTime`, `CorrectedExactly`, `NodeEndsInTime`) assume ordered events and
  a bound on the gap between polls.
- Ticks, distances, speeds and angles are exact reals. A test for finite values appears where a branch depends on
  it: a voltage or current that is not finite is absent, a distance or legacy packet carries a flag.
- A drive of the bridge reads the clock once at its start and again where the original reads it again; both readings
  are free.
- Callers of `mower_control`, GNSS messages and filled slots carry a number or an origin that no branch reads; it lets
  the theorems name them.

## Results that are not what the source suggests

Each comes with a run that shows it and with the exact condition.

- `FcuSessionController::demand` accepts ARM together with a safety DISARM. The session then storms exactly if the
  connected FCU is armed (`StormsExactly`). None of the node's callers makes such a demand, which is part of the bridge
  invariant.
- The controller alone lets an FCU put off the DISARM of an ordinary session end by leaving HOLD after each
  confirmation: the delay is bounded exactly if the departures are (`HoldsExactly`, `BoundedExactly`). The node drives
  the session after every report, so there the bound holds whatever modes are reported (`NodeEndsInTime`).
- The comment in `demand` promises a corrective DISARM for any observed ARM under safety. It comes exactly if no DISARM
  is pending at that report (`CorrectedExactly`): a pending one may be refused, and then the failure is latched while
  the FCU stays armed.
- The comment in `ObservationEngine::select` says that the per-wheel floors fence cached data when another source is
  left. They do not for one kind of packet: a malformed wheel-distance packet of another component, after the active
  distance has gone stale and while no other source is ready. `CachedSamplePublished` shows a run, `LeavingFences`
  gives the exact condition, `PublishedAfterLeaving` the guarantee for every other exit.
- GNSS stamps rise strictly within one tenure of an identity, not over its lifetime (`StampsRepeatAcrossTenures`).
  They can fall exactly if the identity is back after an earlier delivery (`FallsExactly`, `ReturnFallsExactly`).
- A refused or overdue neutral is not retried. A fault leaves a neutral queued, in flight or confirmed exactly if it is
  not the lapse of the neutral that was to bring the first confirmed OFF (`FaultNeutral`, `NeutralCanBeLost`).

Private stages of the methods listed below are methods of their own, proved against the same transition functions; they
have no row.

## Model

| member | source | states |
|---|---|---|
| `BridgeTheorems.OnDispatchedOnlyWhenPermitted` | ros2/src/mowgli_mavros_bridge/src/mavros_hardware_bridge_node.cpp:723-852 | over every run of the node, at the instant any blade ON is dispatched: the session is ready with ARM requested, the FCU was last seen connected and armed at most 2500 ms ago, hardware safety is released on an observation at most 3000 ms old, no emergency is active or latched, mowing is enabled; the dispatches are exactly the blade controller's commands, each ON behind its own stop proof |
| `BridgeTheorems.OutstandingOnIsPermitted` | ros2/src/mowgli_mavros_bridge/src/mavros_hardware_bridge_node.cpp:734-852 | after every drive that finds the transport, an ON is the newest command on the wire only if everything still permits it at that instant; otherwise a neutral has replaced it |
| `BridgeTheorems.DriveIsPermitted` | ros2/src/mowgli_mavros_bridge/src/mavros_hardware_bridge_node.cpp:734-852 | the same for any state that satisfies the invariant |
| `BridgeTheorems.EveryCallerExactlyOnce` | ros2/src/mowgli_mavros_bridge/src/mavros_hardware_bridge_node.cpp:595-708 | over every run, each caller heard is answered, waiting to start or waiting for a reply exactly once in total, and a caller never heard never appears; both queues hold at most 32 |
| `BridgeTheorems.NoCallerOverdue` | ros2/src/mowgli_mavros_bridge/src/mavros_hardware_bridge_node.cpp:744-804 | after every drive neither queue holds a call older than 20000 ms |
| `BridgeTheorems.TrueMeansConfirmed` | ros2/src/mowgli_mavros_bridge/src/mavros_hardware_bridge_node.cpp:624-629 | a `true` answer was given while the confirmed direction was the caller's own, with no fault, nothing in flight and no neutral queued |
| `BridgeTheorems.BridgeSessionNeverStorms` | ros2/src/mowgli_mavros_bridge/src/mavros_hardware_bridge_node.cpp:1202-1317 | every demand the node makes is consistent, so from every reachable state a steady demand and observation lead to at most one MODE and one ARM/DISARM |
| `BridgeTheorems.EmergencyDisarmsAtOnce` | ros2/src/mowgli_mavros_bridge/src/mavros_hardware_bridge_node.cpp:1342-1356 | an emergency on a connected FCU: the callback that reports it leaves no ON newest on the wire and sends exactly one FCU command, the DISARM; if another callback had already demanded safety, the DISARM is sent now, pending, refused, behind another transaction in flight, or carried out |
| `BridgeEnding.NodeEndsInTime` | ros2/src/mowgli_mavros_bridge/src/mavros_hardware_bridge_node.cpp:395-444 | the end of an ordinary session on the node, after any run and under arbitrary modes reported by an FCU that stays connected and armed: some callback orders the DISARM within two confirmation timeouts and two gaps between drives, because every report is followed by a drive |
| `BridgeTheorems.EmergencyDisarms` | ros2/src/mowgli_mavros_bridge/src/mavros_hardware_bridge_node.cpp:1342-1356 | the same for any state that satisfies the invariant |
| `BridgeTheorems.DispatchesAreWired` | ros2/src/mowgli_mavros_bridge/src/mavros_hardware_bridge_node.cpp:812-823 | in every run each command handed to the transport carries the configured channel and the configured neutral, forward or reverse value of its direction |
| `BridgeAnswers.DriveAnswers` | ros2/src/mowgli_mavros_bridge/src/mavros_hardware_bridge_node.cpp:793-804 | a drive answers `true` to exactly the waiting callers whose request is current, in time and without a fault once nothing is in flight or queued and the requested direction is confirmed, `false` to exactly those superseded, faulted or overdue, in order, and lets all others wait |
| `BridgeAnswers.WaitingCallerIsTold` | ros2/src/mowgli_mavros_bridge/src/mavros_hardware_bridge_node.cpp:734-804 | the same in terms of the state before the drive, when nothing else intervenes |
| `BridgeAnswers.SubmissionIsAnswered` | ros2/src/mowgli_mavros_bridge/src/mavros_hardware_bridge_node.cpp:671-675 | a submitted request is answered at once exactly if it is refused, cannot wait, or has nothing left to do, `true` exactly in the last case with the transport there; otherwise it waits under its revision |
| `BridgeCalls.CallerGetsItsDirection` | ros2/src/mowgli_mavros_bridge/src/mavros_hardware_bridge_node.cpp:600-607 | in every run a caller told `true` was in range, and the blade was confirmed OFF for `enabled` 0, FORWARD for direction 0 and REVERSE for direction 1 |
| `BridgeCalls.MalformedIsRefused` | ros2/src/mowgli_mavros_bridge/src/mavros_hardware_bridge_node.cpp:600-604 | a call out of range is answered `false` and changes nothing |
| `BridgeCalls.OffCallStops` | ros2/src/mowgli_mavros_bridge/src/mavros_hardware_bridge_node.cpp:610-633 | after every OFF call that finds the transport, in every run, no ON is newest on the wire, no start waits and no test runs |
| `BridgeCalls.RunContinues` | ros2/src/mowgli_mavros_bridge/src/mavros_hardware_bridge_node.cpp:395-852 | no run takes back what was heard, answered, dispatched or ordered |
| `BridgeEffects.OffCallerIsServed` | ros2/src/mowgli_mavros_bridge/src/mavros_hardware_bridge_node.cpp:610-632 | the caller of an OFF at rest is told `true` or goes on waiting, never `false` on account of its own call, since the permission is brought up to date before it is bound to a revision |
| `BridgeEffects.DispatchIsInFlightOrFailed` | ros2/src/mowgli_mavros_bridge/src/mavros_hardware_bridge_node.cpp:807-851 | a dispatched blade command is in flight since the drive, or, if it could not be handed over, a refusal: a fault, and after an ON a neutral |
| `BridgeEffects.OrderIsPendingOrFailed` | ros2/src/mowgli_mavros_bridge/src/mavros_hardware_bridge_node.cpp:1254-1316 | an FCU command handed over is pending, one that could not be has failed as refused, and latched |
| `BridgeEffects.SafetySecures` | ros2/src/mowgli_mavros_bridge/src/mavros_hardware_bridge_node.cpp:1342-1356 | before it drives anything the safety callback has given up test and starts, forced OFF and demanded disarmed for safety, in HOLD if asked to |
| `BridgeEffects.RepliesReachBlade` | ros2/src/mowgli_mavros_bridge/src/mavros_hardware_bridge_node.cpp:838-841 | an ACK reaches the blade controller and is acted upon |
| `BridgeEffects.TelemetryReachesBlade` | ros2/src/mowgli_mavros_bridge/src/mavros_hardware_bridge_node.cpp:555-577 | so does telemetry while the FCU is connected |
| `BridgeEffects.OutputReachesBlade` | ros2/src/mowgli_mavros_bridge/src/mavros_hardware_bridge_node.cpp:245-262 | so does a servo output |
| `BridgeStops.NeutralStops` | ros2/src/mowgli_mavros_bridge/src/mavros_hardware_bridge_node.cpp:686-693 | a request for neutral leaves no ON newest on the wire, in every run |
| `BridgeStops.RemapStops` | ros2/src/mowgli_mavros_bridge/src/mavros_hardware_bridge_node.cpp:156-173 | so does a new ESC slot of the blade |
| `BridgeStops.LinkChangeStops` | ros2/src/mowgli_mavros_bridge/src/mavros_hardware_bridge_node.cpp:414-444 | so does a change of the FCU link |
| `BridgeStops.LeavingStops` | ros2/src/mowgli_mavros_bridge/src/mavros_hardware_bridge_node.cpp:395-412 | leaving a movement level leaves no ON newest on the wire, nothing but OFF requested, no start waiting and no test |
| `BridgeStops.DeadlineWithdraws` | ros2/src/mowgli_mavros_bridge/src/mavros_hardware_bridge_node.cpp:771-782 | an ON that has not come about when a caller of it is overdue is withdrawn: nothing but OFF is requested, and no ON is newest on the wire |
| `BridgeStops.DriveEndsTest` | ros2/src/mowgli_mavros_bridge/src/mavros_hardware_bridge_node.cpp:740-806 | an isolated test ends with a drive that finds the session failed, the FCU gone, a start overdue, or nothing waiting and nothing requested, and has then demanded HOLD and disarmed |
| `BridgeStops.ReportRecords` | ros2/src/mowgli_mavros_bridge/src/mavros_hardware_bridge_node.cpp:414-444 | what a report of the FCU records before the drives, and what a lost link forgets and cancels |
| `BridgeDemands.DriveDemands` | ros2/src/mowgli_mavros_bridge/src/mavros_hardware_bridge_node.cpp:1204-1220 | a drive of the session demands a safety DISARM exactly in an emergency, armed exactly for a movement or test without one, HOLD in a holding emergency and at rest, the present mode in any other emergency, GUIDED for a guided autonomous session and MANUAL for any other movement |
| `BridgeDemands.OrdersAreSafe` | ros2/src/mowgli_mavros_bridge/src/mavros_hardware_bridge_node.cpp:1245-1316 | a drive orders at most one command over a service that is there: a MODE only for a wanted mode not observed, an ARM only in the wanted mode, with no emergency and the switch released |
| `BridgeDemands.DrivePermits` | ros2/src/mowgli_mavros_bridge/src/mavros_hardware_bridge_node.cpp:723-742 | a drive leaves the blade permitted if and only if every condition of an ON holds and no test ends in it for a failed session |
| `BridgeDemands.ReportsOfSafety` | ros2/src/mowgli_mavros_bridge/include/mowgli_mavros_bridge/safety_state.hpp:29-97 | what the reports of the switch, the wheels, the tilt, the service and the clearing of latches change, and nothing else |
| `BridgeDemands.StartsWait` | ros2/src/mowgli_mavros_bridge/src/mavros_hardware_bridge_node.cpp:751-770 | while the session is not ready exactly the starts that cannot begin any more are answered `false`, in order; all others wait and the blade is untouched |
| `BridgeDemands.StartsBegin` | ros2/src/mowgli_mavros_bridge/src/mavros_hardware_bridge_node.cpp:751-770 | once it is ready no start is left waiting |
| `BridgeDemands.OnCallBegins` | ros2/src/mowgli_mavros_bridge/src/mavros_hardware_bridge_node.cpp:634-653 | when an ON call is refused at once, and how it begins otherwise |
| `BridgeDemands.OnCallEnlists` | ros2/src/mowgli_mavros_bridge/src/mavros_hardware_bridge_node.cpp:653-677 | when its caller is told `false`, waits to start, or is submitted |
| `BridgeWitness.AnOnIsDispatched` | ros2/src/mowgli_mavros_bridge/src/mavros_hardware_bridge_node.cpp:634-852 | some run of the node does dispatch an ON, so the guarantees about dispatched ONs are not empty |
| `BridgeInvariant.RevisionBindsDirection` | ros2/src/mowgli_mavros_bridge/include/mowgli_mavros_bridge/blade_control.hpp:83-136 | every event either advances the revision or leaves the requested direction alone, which is what binds a waiting caller to its own direction; permission and link change only by their own events |
| `BridgeInvariant.BladeKeeps` | ros2/src/mowgli_mavros_bridge/src/mavros_hardware_bridge_node.cpp:734-852 | a blade event inside any callback keeps conservation of callers, queue bounds, truth of answers and the permission of every dispatched ON |
| `BridgeSteps.DriveBladeKeeps` | ros2/src/mowgli_mavros_bridge/src/mavros_hardware_bridge_node.cpp:734-852 | one drive of the blade keeps the whole invariant, including the session demand changed halfway by the end of a failed test, and leaves no overdue caller |
| `BridgeSteps.StepKeeps` | ros2/src/mowgli_mavros_bridge/src/mavros_hardware_bridge_node.cpp:395-852 | every callback keeps the invariant of the composed node |
| `BridgeSteps.RunKeeps` | ros2/src/mowgli_mavros_bridge/src/mavros_hardware_bridge_node.cpp:395-852 | so does every run |
| `MavrosBridge.HardwareBridge.ReplyBlade` | ros2/src/mowgli_mavros_bridge/src/mavros_hardware_bridge_node.cpp:695-708 | appends exactly one answer for the caller |
| `MavrosBridge.HardwareBridge.CancelPendingStarts` | ros2/src/mowgli_mavros_bridge/src/mavros_hardware_bridge_node.cpp:679-684 | answers every waiting start `false`, in order, and empties the queue |
| `MavrosBridge.HardwareBridge.EndFailedBladeTest` | ros2/src/mowgli_mavros_bridge/src/mavros_hardware_bridge_node.cpp:710-721 | an isolated test ends: starts cancelled, neutral forced, HOLD and disarmed demanded; nothing changes otherwise |
| `MavrosBridge.HardwareBridge.AdmitStarts` | ros2/src/mowgli_mavros_bridge/src/mavros_hardware_bridge_node.cpp:751-770 | the erasing loop over waiting starts, as the recursive specification |
| `MavrosBridge.HardwareBridge.ReapReplies` | ros2/src/mowgli_mavros_bridge/src/mavros_hardware_bridge_node.cpp:793-804 | the erasing loop over waiting replies, as the recursive specification |
| `MavrosBridge.HardwareBridge.SendBlade` | ros2/src/mowgli_mavros_bridge/src/mavros_hardware_bridge_node.cpp:807-851 | polls the controller only with the transport, records the dispatch, and refuses the token if sending fails |
| `MavrosBridge.HardwareBridge.DriveBladeLocked` | ros2/src/mowgli_mavros_bridge/src/mavros_hardware_bridge_node.cpp:734-852 | the whole new state is the specified drive of the old one |
| `MavrosBridge.HardwareBridge.SendOrder` | ros2/src/mowgli_mavros_bridge/src/mavros_hardware_bridge_node.cpp:1246-1317 | at most one FCU command, refused at once if sending fails |
| `MavrosBridge.HardwareBridge.DriveSessionLocked` | ros2/src/mowgli_mavros_bridge/src/mavros_hardware_bridge_node.cpp:1202-1317 | the whole new state is the specified drive of the session |
| `MavrosBridge.HardwareBridge.OnMowerControl` | ros2/src/mowgli_mavros_bridge/src/mavros_hardware_bridge_node.cpp:595-677 | a whole call, malformed ones included |
| `MavrosBridge.HardwareBridge.RequestSafetyDisarm` | ros2/src/mowgli_mavros_bridge/src/mavros_hardware_bridge_node.cpp:1342-1356 | the callback and its answer: DISARM pending or disarmed already observed |
| `MavrosBridge.HardwareBridge.OnMavrosState` | ros2/src/mowgli_mavros_bridge/src/mavros_hardware_bridge_node.cpp:414-444 | a whole FCU report |
| `MavrosBridge.HardwareBridge.OnHighLevelStatus` | ros2/src/mowgli_mavros_bridge/src/mavros_hardware_bridge_node.cpp:395-412 | a whole status report |
| `MavrosBridge.HardwareBridge.OnBladeReply` | ros2/src/mowgli_mavros_bridge/src/mavros_hardware_bridge_node.cpp:825-842 | a blade ACK followed by a drive |
| `MavrosBridge.HardwareBridge.OnFcuReply` | ros2/src/mowgli_mavros_bridge/src/mavros_hardware_bridge_node.cpp:1263-1279 | an FCU ACK followed by both drives |
| `BladeSafety.OnNeedsRealStop` | ros2/src/mowgli_mavros_bridge/include/mowgli_mavros_bridge/blade_control.hpp:117-243 | over every run, each ON on the wire follows a neutral sent after any earlier ON and acknowledged, and after that ACK a run of at least five accepted zero-speed samples of one source with rising stamps, changing counters for source 2, gaps within the freshness, spanning the coast time and still fresh |
| `BladeSafety.NeutralBetweenOns` | ros2/src/mowgli_mavros_bridge/include/mowgli_mavros_bridge/blade_control.hpp:117-243 | between two ONs on the wire there is an acknowledged neutral, so FORWARD and REVERSE are never adjacent |
| `BladeSafety.NoOrphanedOn` | ros2/src/mowgli_mavros_bridge/include/mowgli_mavros_bridge/blade_control.hpp:83-131 | in every reachable state an ON newest on the wire is in flight, or the next poll sends a neutral at whatever time, or it is confirmed and requested without fault |
| `BladeSafety.FaultNeedsNewProof` | ros2/src/mowgli_mavros_bridge/include/mowgli_mavros_bridge/blade_control.hpp:309-322 | after a fault an ON needs a neutral sent after the fault, its ACK and a whole new stop proof |
| `BladeSafety.AnOnIsReachable` | ros2/src/mowgli_mavros_bridge/include/mowgli_mavros_bridge/blade_control.hpp:198-218 | the stop proof can be met: some run sends an ON |
| `BladeCommands.CommandsAreWired` | ros2/src/mowgli_mavros_bridge/include/mowgli_mavros_bridge/blade_control.hpp:198-218 | in every run a poll sends the configured channel and value of its direction, the two ON values on opposite sides of neutral |
| `BladeCommands.OffStops` | ros2/src/mowgli_mavros_bridge/include/mowgli_mavros_bridge/blade_control.hpp:83-116 | in every reachable linked state without a fault an OFF request is not refused, and if the blade was turning or to turn the next poll sends a neutral, whenever it comes |
| `BladeCommands.RequestIsAnswered` | ros2/src/mowgli_mavros_bridge/include/mowgli_mavros_bridge/blade_control.hpp:83-116 | a request is refused exactly without a link, for an unknown direction, in a fault, or for an ON without permission or fresh telemetry; confirmed exactly if confirmed and requested with nothing on its way |
| `BladeCommands.PollSends` | ros2/src/mowgli_mavros_bridge/include/mowgli_mavros_bridge/blade_control.hpp:198-218 | before any deadline a poll sends a neutral exactly if one is queued with nothing in flight, and an ON exactly if all its conditions hold and the blade has stood still |
| `BladeCommands.SampleCounts` | ros2/src/mowgli_mavros_bridge/include/mowgli_mavros_bridge/blade_control.hpp:138-176 | which samples count, and how they continue or restart a standstill |
| `BladeCommands.TimersFault` | ros2/src/mowgli_mavros_bridge/include/mowgli_mavros_bridge/blade_control.hpp:183-197 | a timer latches a fault exactly when an ACK, the telemetry or the stop is overdue |
| `BladeCommands.ReplyCounts` | ros2/src/mowgli_mavros_bridge/include/mowgli_mavros_bridge/blade_control.hpp:219-243 | what an ACK confirms and a refusal faults, and that any other reply changes nothing |
| `BladeCommands.OutputContradicts` | ros2/src/mowgli_mavros_bridge/include/mowgli_mavros_bridge/blade_control.hpp:244-250 | a servo output forces OFF exactly if it is not the configured value of the confirmed direction with nothing on its way |
| `BladeCommands.LossForcesOff` | ros2/src/mowgli_mavros_bridge/include/mowgli_mavros_bridge/blade_control.hpp:66-82 | a change of the link and the loss of permission force OFF, and nothing else about them does |
| `BladeCommands.PhaseAlwaysTrue` | ros2/src/mowgli_mavros_bridge/include/mowgli_mavros_bridge/blade_control.hpp:275-278 | in every reachable state the reported phase is a cutting phase exactly if that direction is confirmed and requested with nothing on its way, and failed exactly in a fault |
| `BladeSafety.CoherentStep` | ros2/src/mowgli_mavros_bridge/include/mowgli_mavros_bridge/blade_control.hpp:66-250 | every event keeps the relation of the fields to each other and to the newest command on the wire |
| `BladeSafety.SoundStep` | ros2/src/mowgli_mavros_bridge/include/mowgli_mavros_bridge/blade_control.hpp:66-250 | every event keeps the stop proof of each ON and the record behind the fields |
| `BladeSafety.SoundRun` | ros2/src/mowgli_mavros_bridge/include/mowgli_mavros_bridge/blade_control.hpp:66-250 | so does every run |
| `BladeProgress.TokensIncrease` | ros2/src/mowgli_mavros_bridge/include/mowgli_mavros_bridge/blade_control.hpp:198-218 | over every run the tokens on the wire strictly increase |
| `BladeProgress.RetiredTokenIsInert` | ros2/src/mowgli_mavros_bridge/include/mowgli_mavros_bridge/blade_control.hpp:219-243 | a reply to a command no longer in flight changes nothing, after any further run |
| `BladeProgress.FaultEndsOnlyByForcedOff` | ros2/src/mowgli_mavros_bridge/include/mowgli_mavros_bridge/blade_control.hpp:117-131 | a fault rejects every request, and an event ends it if and only if it forces OFF |
| `BladeFaults.FaultNeutral` | ros2/src/mowgli_mavros_bridge/include/mowgli_mavros_bridge/blade_control.hpp:183-322 | in every run the event that latches a fault leaves a neutral queued, in flight or confirmed if and only if it is not the lapse of the one neutral that was to bring the first confirmed OFF; a confirmed OFF has its acknowledged neutral on record with no ON after it |
| `BladeFaults.NeutralCanBeLost` | ros2/src/mowgli_mavros_bridge/include/mowgli_mavros_bridge/blade_control.hpp:225-229 | the exception is reached: a refused first neutral |
| `BladeProgress.OnResolvesInTime` | ros2/src/mowgli_mavros_bridge/include/mowgli_mavros_bridge/blade_control.hpp:183-243 | from any reachable unresolved ON, with ordered events and polls at most `gap` apart, the ON is confirmed or faulted within three ACK timeouts, one stop timeout and three gaps |
| `BladeController.BladeControl.constructor` | ros2/src/mowgli_mavros_bridge/include/mowgli_mavros_bridge/blade_control.hpp:38-64 | the initial state, for a valid configuration |
| `BladeController.BladeControl.SetConnection` | ros2/src/mowgli_mavros_bridge/include/mowgli_mavros_bridge/blade_control.hpp:66-76 | the link edge, as specified on the whole state |
| `BladeController.BladeControl.SetPermission` | ros2/src/mowgli_mavros_bridge/include/mowgli_mavros_bridge/blade_control.hpp:77-82 | the permission edge |
| `BladeController.BladeControl.Request` | ros2/src/mowgli_mavros_bridge/include/mowgli_mavros_bridge/blade_control.hpp:83-116 | the answer to a request and the state it leaves |
| `BladeController.BladeControl.ForceOff` | ros2/src/mowgli_mavros_bridge/include/mowgli_mavros_bridge/blade_control.hpp:117-131 | neutral queued, fault cleared, revision advanced |
| `BladeController.BladeControl.ServiceTimeout` | ros2/src/mowgli_mavros_bridge/include/mowgli_mavros_bridge/blade_control.hpp:132-137 | an ON past its deadline is withdrawn |
| `BladeController.BladeControl.Sample` | ros2/src/mowgli_mavros_bridge/include/mowgli_mavros_bridge/blade_control.hpp:138-176 | a sample is accepted or ignored, and the standstill run continued or restarted |
| `BladeController.BladeControl.Tick` | ros2/src/mowgli_mavros_bridge/include/mowgli_mavros_bridge/blade_control.hpp:183-197 | the three timeouts, in order |
| `BladeController.BladeControl.Next` | ros2/src/mowgli_mavros_bridge/include/mowgli_mavros_bridge/blade_control.hpp:198-218 | the command polled, if any, its token and the state behind it |
| `BladeController.BladeControl.Complete` | ros2/src/mowgli_mavros_bridge/include/mowgli_mavros_bridge/blade_control.hpp:219-243 | an ACK or refusal of the token in flight, and of no other |
| `BladeController.BladeControl.ObserveOutput` | ros2/src/mowgli_mavros_bridge/include/mowgli_mavros_bridge/blade_control.hpp:244-250 | a contradicting servo output forces OFF |
| `BladeController.BladeControl.Fail` | ros2/src/mowgli_mavros_bridge/include/mowgli_mavros_bridge/blade_control.hpp:309-322 | a fault is latched, with or without a neutral |
| `SessionTheorems.NoRetryStorm` | ros2/src/mowgli_mavros_bridge/include/mowgli_mavros_bridge/fcu_session_controller.hpp:72-155 | while demand and observation stay as they are, any timers, replies, refusals and services lead to at most one MODE and, for a demand without ARM under safety, to at most one ARM/DISARM |
| `SessionStorms.StormsExactly` | ros2/src/mowgli_mavros_bridge/include/mowgli_mavros_bridge/fcu_session_controller.hpp:90-155 | while demand and observation stay as they are, any number of ARM/DISARM can be sent if and only if the connected FCU is armed and demanded both armed and, for safety, disarmed, whatever is pending or has failed; otherwise at most two, and at most one for a consistent demand |
| `SessionStorms.ContradictionIsReachable` | ros2/src/mowgli_mavros_bridge/include/mowgli_mavros_bridge/fcu_session_controller.hpp:72-109 | two public calls lead to that contradiction |
| `SessionTheorems.SafetyPreempts` | ros2/src/mowgli_mavros_bridge/include/mowgli_mavros_bridge/fcu_session_controller.hpp:80-87 | whatever was pending when safety rises on a connected session, nothing is sent before the DISARM, and the first poll with the arming service sends it |
| `SessionEnding.EndingDisarmsInTime` | ros2/src/mowgli_mavros_bridge/include/mowgli_mavros_bridge/fcu_session_controller.hpp:110-155 | the end of an ordinary session, for arbitrary reports of an FCU that stays connected and armed: the DISARM is sent within two confirmation timeouts and two poll gaps, plus one of each for every time the FCU leaves the wanted mode; a refused, unavailable or unconfirmed HOLD included |
| `SessionEnding.HoldsExactly` | ros2/src/mowgli_mavros_bridge/include/mowgli_mavros_bridge/fcu_session_controller.hpp:116-155 | the end of a session can draw n HOLDs without a DISARM if and only if n is at most the departures of the FCU from the wanted mode, plus one if a HOLD is due |
| `SessionEnding.BoundedExactly` | ros2/src/mowgli_mavros_bridge/include/mowgli_mavros_bridge/fcu_session_controller.hpp:116-155 | the time to the DISARM of an ordinary end is bounded if and only if the departures of the FCU from the wanted mode are |
| `SessionCorrection.CorrectedExactly` | ros2/src/mowgli_mavros_bridge/include/mowgli_mavros_bridge/fcu_session_controller.hpp:82-98 | an FCU seen arming while safety is demanded is sent a DISARM within one confirmation timeout and one poll gap, whatever else happens and was pending, if and only if no DISARM is pending at that report |
| `SessionCorrection.PendingAtEdgeIsReachable` | ros2/src/mowgli_mavros_bridge/include/mowgli_mavros_bridge/fcu_session_controller.hpp:72-98 | the exception is reached: the FCU arms while the DISARM of a new safety demand is on its way |
| `SessionCommands.PollSends` | ros2/src/mowgli_mavros_bridge/include/mowgli_mavros_bridge/fcu_session_controller.hpp:116-155 | when exactly a MODE, an ARM and a DISARM are sent, and over which service |
| `SessionCommands.SentIsPending` | ros2/src/mowgli_mavros_bridge/include/mowgli_mavros_bridge/fcu_session_controller.hpp:150-154 | what is sent is pending under the next serial, and takes care of an owed DISARM |
| `SessionCommands.TimeoutFails` | ros2/src/mowgli_mavros_bridge/include/mowgli_mavros_bridge/fcu_session_controller.hpp:110-115 | a transaction fails by its timeout exactly after 3000 ms |
| `SessionCommands.ReplySettles` | ros2/src/mowgli_mavros_bridge/include/mowgli_mavros_bridge/fcu_session_controller.hpp:156-195 | a timeout and a refusal fail the pending command under its kind and latch it for a target still wanted; an acceptance ends it once reported; any other reply changes nothing |
| `SessionCommands.ReportSettles` | ros2/src/mowgli_mavros_bridge/include/mowgli_mavros_bridge/fcu_session_controller.hpp:90-109 | what a report records, ends, forgets and owes |
| `SessionCommands.DemandRenews` | ros2/src/mowgli_mavros_bridge/include/mowgli_mavros_bridge/fcu_session_controller.hpp:72-89 | a new demand forgets failures, a rising safety drops what is pending and owes a DISARM, a repeated demand changes nothing |
| `SessionTheorems.ExchangeProgress` | ros2/src/mowgli_mavros_bridge/include/mowgli_mavros_bridge/fcu_session_controller.hpp:116-183 | one exchange with an FCU that acknowledges and reports, in either order and with timers, polls, late replies and repeated demands and reports in between, removes exactly one needed command; no command is sent exactly when none is needed |
| `SessionTheorems.Converges` | ros2/src/mowgli_mavros_bridge/include/mowgli_mavros_bridge/fcu_session_controller.hpp:67-183 | two exchanges at most make the session ready, as many as are needed, and a ready session sends nothing |
| `SessionTheorems.ArmsOnlyInWantedMode` | ros2/src/mowgli_mavros_bridge/include/mowgli_mavros_bridge/fcu_session_controller.hpp:139-147 | over every run serials count the commands and ARM is sent only while the observed mode is the wanted one |
| `SessionTheorems.RetiredSerialIsInert` | ros2/src/mowgli_mavros_bridge/include/mowgli_mavros_bridge/fcu_session_controller.hpp:156-168 | a reply to a serial no longer pending only lets the timer run, after any further run |
| `SessionController.FcuSessionController.Demand` | ros2/src/mowgli_mavros_bridge/include/mowgli_mavros_bridge/fcu_session_controller.hpp:72-89 | a changed demand forgets failures, a rising safety drops the pending transaction |
| `SessionController.FcuSessionController.Observe` | ros2/src/mowgli_mavros_bridge/include/mowgli_mavros_bridge/fcu_session_controller.hpp:90-109 | the report, late confirmation of a failed target, and the owed DISARM of a late ARM |
| `SessionController.FcuSessionController.Tick` | ros2/src/mowgli_mavros_bridge/include/mowgli_mavros_bridge/fcu_session_controller.hpp:110-115 | the confirmation timeout |
| `SessionController.FcuSessionController.Next` | ros2/src/mowgli_mavros_bridge/include/mowgli_mavros_bridge/fcu_session_controller.hpp:116-155 | the command sent, if any, and the state behind it |
| `SessionController.FcuSessionController.Complete` | ros2/src/mowgli_mavros_bridge/include/mowgli_mavros_bridge/fcu_session_controller.hpp:156-168 | an ACK or refusal of the pending serial, and of no other |
| `SessionController.FcuSessionController.Settle` | ros2/src/mowgli_mavros_bridge/include/mowgli_mavros_bridge/fcu_session_controller.hpp:171-183 | an acknowledged transaction ends when the report confirms it |
| `SessionController.FcuSessionController.Fail` | ros2/src/mowgli_mavros_bridge/include/mowgli_mavros_bridge/fcu_session_controller.hpp:184-195 | a failure latches only if its target is still wanted |
| `TravelPipeline.TravelIsNeverInvented` | ros2/src/mavros_esc_wheel_odometry/include/mavros_esc_wheel_odometry/wheel_tick_projection.hpp:31-114 | over any interleaving of observations, invalidations, resets and masked projections on one integrator, the counts added for a wheel are at most 1000 per revolution of the variation integrated by its contiguous observations |
| `TravelPipeline.CreditRun` | ros2/src/mavros_esc_wheel_odometry/include/mavros_esc_wheel_odometry/wheel_tick_projection.hpp:72-114 | the same from any state, with the travel integrated but not yet counted as credit |
| `TravelPipeline.SegmentNamesOneStretch` | ros2/src/mavros_esc_wheel_odometry/src/motor_tick_integrator.cpp:7-37 | two moments carry the same (epoch, segment) if and only if no reset and no gap lies between them, and then the ticks differ by the integral of the observations in between |
| `TravelPipeline.StretchesAdvance` | ros2/src/mavros_esc_wheel_odometry/src/motor_tick_integrator.cpp:7-37 | (epoch, segment) never goes back |
| `TickIntegral.TicksIntegrateSpeed` | ros2/src/mavros_esc_wheel_odometry/src/motor_tick_integrator.cpp:7-25 | between two valid moments of one stretch in any run the ticks grow by between the lowest and the highest observed revolutions per minute times the minutes between the samples, exactly so at constant speed; the travel that may be counted is just this |
| `TickIntegral.ObservationIntegrates` | ros2/src/mavros_esc_wheel_odometry/src/motor_tick_integrator.cpp:7-25 | an accepted contiguous observation adds the mean of the two speeds times the seconds in between, any other accepted one starts a segment, one not accepted changes nothing |
| `WheelPublication.PublishesTravel` | ros2/src/mavros_esc_wheel_odometry/include/mavros_esc_wheel_odometry/wheel_tick_projection.hpp:31-55 | a projection is published exactly when a wheel is anchored or moved; left and right count and direction are each those of their own wheel, advanced by the whole thousandths of its own travel |
| `WheelTravel.QuantisationBound` | ros2/src/mavros_esc_wheel_odometry/include/mavros_esc_wheel_odometry/wheel_tick_projection.hpp:98-113 | with F flips of direction the counts added fall short of 1000 per revolution of the path by at least 0 and less than F + 1; without a flip they are exactly the floor of the net travel; the published count is the sum modulo 2^32 |
| `WheelTravel.QuantisationLoss` | ros2/src/mavros_esc_wheel_odometry/include/mavros_esc_wheel_odometry/wheel_tick_projection.hpp:98-113 | the same from any fraction, with the exact loss |
| `WheelTravel.OneWay` | ros2/src/mavros_esc_wheel_odometry/include/mavros_esc_wheel_odometry/wheel_tick_projection.hpp:98-106 | without a flip the path is the net travel, in the recorded direction |
| `WheelTravel.ProjectWheelSane` | ros2/src/mavros_esc_wheel_odometry/include/mavros_esc_wheel_odometry/wheel_tick_projection.hpp:107-113 | the fraction stays in [0, 1) and the cast to 32 bits never overflows |
| `WheelTickProjection.ProjectedWheel.Project` | ros2/src/mavros_esc_wheel_odometry/include/mavros_esc_wheel_odometry/wheel_tick_projection.hpp:72-114 | one wheel's update, as specified on its whole state |
| `WheelTickProjection.WheelTickProjector.ResetReferences` | ros2/src/mavros_esc_wheel_odometry/include/mavros_esc_wheel_odometry/wheel_tick_projection.hpp:67-70 | both references and fractions are dropped, the counts kept |
| `WheelTickProjection.WheelTickProjector.ProjectTicks` | ros2/src/mavros_esc_wheel_odometry/include/mavros_esc_wheel_odometry/wheel_tick_projection.hpp:31-55 | the published counts and the whole new state |
| `MotorTicks.MotorTickIntegrator.Observe` | ros2/src/mavros_esc_wheel_odometry/src/motor_tick_integrator.cpp:7-25 | exactly the accepted observations change the wheel, by the trapezoid if contiguous |
| `MotorTicks.MotorTickIntegrator.ResetAll` | ros2/src/mavros_esc_wheel_odometry/src/motor_tick_integrator.cpp:26 | a new epoch |
| `MotorTicks.MotorTickIntegrator.InvalidateWheel` | ros2/src/mavros_esc_wheel_odometry/src/motor_tick_integrator.cpp:29-31 | one wheel loses its validity and nothing else |
| `MotorTicks.MotorTickIntegrator.ForgetReferences` | ros2/src/mavros_esc_wheel_odometry/src/motor_tick_integrator.cpp:32-37 | both wheels lose their reference, ticks and segments stay |
| `MotorTicks.MotorTickIntegrator.Snapshot` | ros2/src/mavros_esc_wheel_odometry/src/motor_tick_integrator.cpp:38-43 | the state the projector is given |
| `ObservationTheorems.NoSampleTwice` | ros2/src/mavros_esc_wheel_odometry/src/observation_engine.cpp:217-299 | in every run, of two ESC publications in one COMMON epoch the later one uses a newer sample of each wheel, whatever happens in between |
| `ObservationTheorems.PublicationDescribesThePair` | ros2/src/mavros_esc_wheel_odometry/src/observation_engine.cpp:279-298 | a publication is the mean and the difference of the speeds of the samples stored in the mapped slots, which are valid, fresh, in count, of the packet's component and within the skew bound; the integrator agrees with the slots |
| `ObservationTheorems.DuePairIsPublished` | ros2/src/mavros_esc_wheel_odometry/src/observation_engine.cpp:278-298 | a publication happens if and only if the lease is granted, the pair is available and newer than the floors on both wheels, and no epoch baseline is due: neither the integrator nor the odometry equation withholds it |
| `ObservationTheorems.PublicationRaisesFloors` | ros2/src/mavros_esc_wheel_odometry/src/observation_engine.cpp:291-298 | a publication lies above the floors it met and leaves its own samples as floors |
| `ObservationTheorems.RunAdvances` | ros2/src/mavros_esc_wheel_odometry/src/observation_engine.cpp:86-94 | over every run epochs never return and within an epoch the floors only rise |
| `ObservationFields.PublishesPaired` | ros2/src/mavros_esc_wheel_odometry/src/observation_engine.cpp:217-299 | an ESC observation is published if and only if the packet is admissible, the lease is granted, and the two mapped slots are valid, recent, in count, at most `maxSkew` seconds apart and both newer than published |
| `ObservationFields.PublishedIsPaired` | ros2/src/mavros_esc_wheel_odometry/src/observation_engine.cpp:163-174 | what is published is so paired at that moment, in every run |
| `ObservationFields.PollSelectsDue` | ros2/src/mavros_esc_wheel_odometry/src/observation_engine.cpp:175-216 | after a poll the active source is the one due: wheel distance before the ESC pair before legacy, each by mode and recency |
| `ObservationFields.StatusFillsSlots` | ros2/src/mavros_esc_wheel_odometry/src/observation_engine.cpp:239-276 | a STATUS packet of the owner fills exactly its own slots with its own entries, a contradicted repetition becomes invalid |
| `ObservationFields.MetadataAnnounces` | ros2/src/mavros_esc_wheel_odometry/src/observation_engine.cpp:307-336 | metadata announce the number of slots and end the validity of exactly those beyond |
| `ObservationFields.DistanceIsTaken` | ros2/src/mavros_esc_wheel_odometry/src/observation_engine.cpp:410-451 | a malformed or contradicting distance packet ends the distance as a source, a repetition changes nothing, any other becomes the distance wheel by wheel |
| `ObservationFields.LegacyPublishes` | ros2/src/mavros_esc_wheel_odometry/src/observation_engine.cpp:393-395 | a legacy observation is the mean and the difference of the speeds of its motion, while legacy is due |
| `ObservationFencing.LeavingFences` | ros2/src/mavros_esc_wheel_odometry/src/observation_engine.cpp:194-214 | when another source is left, the cached COMMON samples end up at or below the floors if and only if the event is not the unfenced exit, or nothing was above them before |
| `ObservationFencing.PublishedAfterLeaving` | ros2/src/mavros_esc_wheel_odometry/src/observation_engine.cpp:194-214 | after any other exit, an ESC publication of the same epoch uses samples newer than those cached when the source was left |
| `ObservationFencing.CachedSamplePublished` | ros2/src/mavros_esc_wheel_odometry/src/observation_engine.cpp:406-416 | the unfenced exit is reachable: a malformed packet of another component after the distance went stale drops the source before the selection, and an already cached sample is published later |
| `ObservationLease.ComponentsNeverMix` | ros2/src/mavros_esc_wheel_odometry/src/observation_engine.cpp:111-133 | in every reachable state all seen STATUS and INFO slots were filled by one component, the recorded one |
| `ObservationLease.LeaseChangesHands` | ros2/src/mavros_esc_wheel_odometry/src/observation_engine.cpp:111-133 | a STATUS lease is lost if and only if the connection event, a clock that runs backwards or a STATUS takeover after the timeout ends it; only STATUS acquires one |
| `ObservationLease.OnlyNewSamplesRenew` | ros2/src/mavros_esc_wheel_odometry/src/observation_engine.cpp:225-262 | while the owner keeps it the lease is renewed exactly by its STATUS packets that bring something new: a sample that is no repetition, an older one that starts an epoch, or the first after a clock that ran backwards |
| `ObservationDistance.DistancePublishesExactly` | ros2/src/mavros_esc_wheel_odometry/src/observation_engine.cpp:397-452 | a wheel-distance observation is published if and only if the packet is the next one of the active component, in time and at a plausible speed |
| `ObservationDistance.ObservationSpans` | ros2/src/mavros_esc_wheel_odometry/src/observation_engine.cpp:430-451 | each observation spans two packets of one component with 0 < dt <= timeout and both wheel speeds within the limit, and speed times dt is the displacement |
| `ObservationDistance.DistanceConserved` | ros2/src/mavros_esc_wheel_odometry/src/observation_engine.cpp:397-452 | over any unbroken stretch the sums of the published speeds times their intervals are the displacements of both wheels between its ends |
| `ObservationDistance.PublishesContinuing` | ros2/src/mavros_esc_wheel_odometry/src/observation_engine.cpp:397-452 | the condition of a wheel-distance observation in the fields of packet and state, the speed limit as a displacement |
| `ObservationDistance.PacketsConserve` | ros2/src/mavros_esc_wheel_odometry/src/observation_engine.cpp:397-452 | from one publishing packet to another over an unbroken stretch the published speeds times their seconds are the difference of the distances the packets report for the left and for the right wheel |
| `ObservationSteps.StepKeeps` | ros2/src/mavros_esc_wheel_odometry/src/observation_engine.cpp:86-452 | every call keeps the engine invariant: unmixed slots, floors at or below stored times, integrator and slots in agreement, baseline equal to the last accepted packet |
| `ObservationSteps.RunKeeps` | ros2/src/mavros_esc_wheel_odometry/src/observation_engine.cpp:86-452 | so does every run |
| `ObservationInvariant.SelectFloors` | ros2/src/mavros_esc_wheel_odometry/src/observation_engine.cpp:194-214 | a selection keeps the floors at or below the stored times, except in a rewound epoch whose baseline is about to be set |
| `WheelObservation.ObservationEngine.constructor` | ros2/src/mavros_esc_wheel_odometry/src/observation_engine.cpp:24-60 | the initial engine, for a configuration the constructor does not reject |
| `WheelObservation.ObservationEngine.ResetCommon` | ros2/src/mavros_esc_wheel_odometry/src/observation_engine.cpp:86-94 | both slot tables, ownership, floors and the integrator start a new epoch |
| `WheelObservation.ObservationEngine.ResetDistance` | ros2/src/mavros_esc_wheel_odometry/src/observation_engine.cpp:95-99 | the distance source is dropped, and the selection with it |
| `WheelObservation.ObservationEngine.ReceiveClock` | ros2/src/mavros_esc_wheel_odometry/src/observation_engine.cpp:106-110 | a receipt before the last one resets everything |
| `WheelObservation.ObservationEngine.Connection` | ros2/src/mavros_esc_wheel_odometry/src/observation_engine.cpp:134-135 | reset and record |
| `WheelObservation.ObservationEngine.AcceptStatus` | ros2/src/mavros_esc_wheel_odometry/src/observation_engine.cpp:111-121 | the lease of a STATUS packet is granted exactly as specified |
| `WheelObservation.ObservationEngine.AcceptInfo` | ros2/src/mavros_esc_wheel_odometry/src/observation_engine.cpp:122-133 | metadata may nominate a component but not take a lease |
| `WheelObservation.ObservationEngine.CommonReady` | ros2/src/mavros_esc_wheel_odometry/src/observation_engine.cpp:163-174 | whether the pair is available |
| `WheelObservation.ObservationEngine.Choose` | ros2/src/mavros_esc_wheel_odometry/src/observation_engine.cpp:179-193 | which source is due |
| `WheelObservation.ObservationEngine.Select` | ros2/src/mavros_esc_wheel_odometry/src/observation_engine.cpp:175-215 | the change of source with its floors and baseline |
| `WheelObservation.ObservationEngine.Poll` | ros2/src/mavros_esc_wheel_odometry/src/observation_engine.cpp:216 | clock, then selection |
| `WheelObservation.ObservationEngine.StoreSamples` | ros2/src/mavros_esc_wheel_odometry/src/observation_engine.cpp:239-276 | the loop over its four slots |
| `WheelObservation.ObservationEngine.PublishPair` | ros2/src/mavros_esc_wheel_odometry/src/observation_engine.cpp:278-298 | the observation published, if any, and the floors behind it |
| `WheelObservation.ObservationEngine.ReceiveMotion` | ros2/src/mavros_esc_wheel_odometry/src/wheel_odometry_core.cpp:13-28 | the differential-drive equation, guarded by the last observation |
| `WheelObservation.ObservationEngine.CommonStatus` | ros2/src/mavros_esc_wheel_odometry/src/observation_engine.cpp:217-299 | a whole STATUS packet: output and new state |
| `WheelObservation.ObservationEngine.StoreInformation` | ros2/src/mavros_esc_wheel_odometry/src/observation_engine.cpp:313-335 | the loop over its four slots |
| `WheelObservation.ObservationEngine.CommonInfo` | ros2/src/mavros_esc_wheel_odometry/src/observation_engine.cpp:300-337 | a whole INFO packet |
| `WheelObservation.ObservationEngine.LegacyRpm` | ros2/src/mavros_esc_wheel_odometry/src/observation_engine.cpp:370-396 | a legacy RPM message with the adapter's verdict: output and new state |
| `WheelObservation.ObservationEngine.LegacyCounters` | ros2/src/mavros_esc_wheel_odometry/src/observation_engine.cpp:338-346 | legacy counters reach this part of the engine only through the clock |
| `WheelObservation.ObservationEngine.PublishDistance` | ros2/src/mavros_esc_wheel_odometry/src/observation_engine.cpp:433-451 | the velocity published, if any, and the baseline behind it |
| `WheelObservation.ObservationEngine.WheelDistancePacket` | ros2/src/mavros_esc_wheel_odometry/src/observation_engine.cpp:397-452 | a whole wheel-distance packet: output and new state |
| `GnssTheorems.DeliveriesAreSound` | ros2/src/mavros_gnss_adapter/include/mavros_gnss_adapter/adapter_state.hpp:51-143 | in every run each delivered stamp was announced by the identity of its tenure, rests on messages queued since the last replacement and on a new position no older than the timeout; within a tenure stamps strictly rise; deliveries follow arrival; no altitude sample serves twice |
| `GnssTheorems.NothingCrossesIncarnations` | ros2/src/mavros_gnss_adapter/include/mavros_gnss_adapter/adapter_state.hpp:53-65 | whatever is delivered after a replacement of the identity was queued, fix and height alike, after it |
| `GnssTheorems.RepetitionNeverRefreshes` | ros2/src/mavros_gnss_adapter/include/mavros_gnss_adapter/adapter_state.hpp:66-80 | past the timeout since the last new position, no run of repeated statuses, fixes and altitudes leads to a delivery or a valid status |
| `GnssTheorems.HeightOnlyFromUniqueMatch` | ros2/src/mavros_gnss_adapter/include/mavros_gnss_adapter/adapter_state.hpp:119-137 | a height is delivered if and only if exactly one queued sample describes the fix and carries an ellipsoid height, which is the one delivered; never the MSL height |
| `GnssTheorems.TakingIsComplete` | ros2/src/mavros_gnss_adapter/include/mavros_gnss_adapter/adapter_state.hpp:105-143 | taking leaves no due fix behind, and delivers exactly what it records, in order |
| `GnssTheorems.StampsRepeatAcrossTenures` | ros2/src/mavros_gnss_adapter/include/mavros_gnss_adapter/adapter_state.hpp:54-65 | the order of stamps holds within a tenure only: a receiver that is replaced and returns can have the same stamp delivered again |
| `GnssMatching.OldestFixIsTaken` | ros2/src/mavros_gnss_adapter/include/mavros_gnss_adapter/adapter_state.hpp:105-143 | a fix is taken exactly after 100 ms and delivered exactly if the position is recent, the status valid, its stamp announced and new; with the ellipsoid height of the one sample within 20 ms that has its position rounded to 1e-7 degrees and 1 mm, which is consumed, and without one otherwise |
| `GnssMatching.NearIsCorrelated` | ros2/src/mavros_gnss_adapter/include/mavros_gnss_adapter/adapter_state.hpp:124-127 | the tolerances of the match are rounding: each coordinate of the sample is the strictly nearest integer to that of the fix |
| `GnssMatching.SampleGivesHeight` | ros2/src/mavros_gnss_adapter/include/mavros_gnss_adapter/adapter_state.hpp:119-137 | for example |
| `GnssMatching.StatusIsValid` | ros2/src/mavros_gnss_adapter/include/mavros_gnss_adapter/adapter_state.hpp:51-80 | when a status is valid, and what it records and drops |
| `GnssMatching.WithdrawalClears` | ros2/src/mavros_gnss_adapter/include/mavros_gnss_adapter/adapter_state.hpp:82-91 | when a status is withdrawn, and that the queues go with it |
| `GnssMatching.QueuesForgetOldest` | ros2/src/mavros_gnss_adapter/include/mavros_gnss_adapter/adapter_state.hpp:93-103 | the queues keep the 32 newest |
| `GnssReturns.FallsExactly` | ros2/src/mavros_gnss_adapter/include/mavros_gnss_adapter/adapter_state.hpp:53-65 | in every reachable state the identity can, without a further replacement, have a stamp delivered at or below an earlier one of its own if and only if it has already delivered a stamp above the last one of this tenure |
| `GnssReturns.ReturnFallsExactly` | ros2/src/mavros_gnss_adapter/include/mavros_gnss_adapter/adapter_state.hpp:53-65 | before a status that changes the identity: stamps may fall in the new tenure if and only if the identity has had a delivery in an earlier one |
| `GnssTheorems.RunKeeps` | ros2/src/mavros_gnss_adapter/include/mavros_gnss_adapter/adapter_state.hpp:51-143 | every run keeps bounded, ordered queues, announced stamps and the soundness of the record |
| `GnssStates.AdapterState.ObserveStatus` | ros2/src/mavros_gnss_adapter/include/mavros_gnss_adapter/adapter_state.hpp:51-80 | a status: replacement, rollback, new position, freshness |
| `GnssStates.AdapterState.Expire` | ros2/src/mavros_gnss_adapter/include/mavros_gnss_adapter/adapter_state.hpp:82-91 | a valid status that is no longer fresh is withdrawn |
| `GnssStates.AdapterState.ObserveAltitude` | ros2/src/mavros_gnss_adapter/include/mavros_gnss_adapter/adapter_state.hpp:93-97 | a bounded queue that forgets its oldest |
| `GnssStates.AdapterState.ObserveFix` | ros2/src/mavros_gnss_adapter/include/mavros_gnss_adapter/adapter_state.hpp:99-103 | likewise |
| `GnssStates.AdapterState.CountMatches` | ros2/src/mavros_gnss_adapter/include/mavros_gnss_adapter/adapter_state.hpp:121-133 | the counting loop finds one match if and only if the match is unique, and then finds that one |
| `GnssStates.AdapterState.TakeFixes` | ros2/src/mavros_gnss_adapter/include/mavros_gnss_adapter/adapter_state.hpp:105-143 | the draining loop: output and new state |
| `Base64.Base64Encode` | ros2/src/mowgli_ntrip_client/src/ntrip_connection.cpp:509-537 | the loop on a 32-bit accumulator that is never masked computes the encoding of section 4 of RFC 4648, for every input |
| `Base64.AccumulateRemembers` | ros2/src/mowgli_ntrip_client/src/ntrip_connection.cpp:520 | dropping high bits never loses an octet the current group still needs |
| `Base64.DecodeInvertsEncode` | ros2/src/mowgli_ntrip_client/src/ntrip_connection.cpp:509-537 | a strict decoder undoes the encoding, for every input |
| `Base64.EncodeInvertsDecode` | ros2/src/mowgli_ntrip_client/src/ntrip_connection.cpp:509-537 | and accepts nothing but encodings |
| `Base64.EncodedInFours` | ros2/src/mowgli_ntrip_client/src/ntrip_connection.cpp:532-534 | whole groups of four |
| `Base64.EncodedLength` | ros2/src/mowgli_ntrip_client/src/ntrip_connection.cpp:514-515 | four characters for each group of three octets begun |

## Left out

- BladeProgress.OnResolvesInTime: the bound contains three poll gaps, because only a poll or a tick notices that a
  deadline has passed; with continuous polling they vanish. Its events are ordered in time.
- SessionEnding.EndingDisarmsInTime: the bound contains poll gaps, for the same reason; polls that do not find the arming
  service are allowed but do not count as polls.
- BridgeEnding.NodeEndsInTime: a gap is the time between two drives of the session, and each of them finds the arming
  service; an FCU that is seen disarmed or disconnected, a new movement or test, and an emergency end its scope.
- WheelObservation.ObservationEngine.LegacyRpm: the verdict of the legacy adapter on a message is an input.
- WheelObservation.ObservationEngine.LegacyCounters: only the effect on the receive clock is modelled.
- TravelPipeline.TravelIsNeverInvented: speaks of one integrator; a replaced engine starts a new numbering of epochs.
- ROS publishers, subscriptions, parameters, logging, diagnostics text and MAVLink decoding: plumbing around the
  state machines.
- The bridge's expectations of its own servo outputs and its tables of RPC identifiers: an unexpected servo output is
  an event of its own, and replies name their token or serial directly.
- The drive-enable flag, neutral velocity messages and charging state of the node: no modelled branch reads them.
- Reconfiguration of a running wheel engine (`retain_esc_observations`, `common_configuration_ns_`, `retain_counts`): a
  replaced engine starts a new numbering of epochs, so the theorems speak of one engine.
- The legacy wheel adapter and its counters: its verdict on a message, a motion or none, is an input of the engine.
- Reporting of ESC data and tick states (`esc`, `touched`, `motor_ticks`): queries without effect; the masks they put on
  the integrator's wheels are free inputs of `TravelPipeline`.
- The scale factor published beside the wheel counts: one guarded conversion to a float.
- Rounding, infinities and overflow of floating-point numbers: the arithmetic is exact here.
- Wheel tick segments and epochs that wrap at 2^64.
- The mapping of GNSS status fields: whether a status maps to a valid fix is an input, the other fields of the published
  status, its stamp among them, are not modelled.
- Sockets, timers, handshake and chunking of the NTRIP client: network input and output.
- Firmware providers, readiness, power and button decoding: tables and one-branch facts.
- Whether a blade has physically stopped, or a lost companion is noticed by the FCU: not decided by this code.
