# Verification of the FMU's arbitration, acknowledgement and upload logic

The flight management unit (FMU) decides, from operator commands, search-management (SMM) outcomes, battery and
altitude readings and the health of two links, what an autopilot is told to fly. This project models the state
machines that take and carry out those decisions and proves what they guarantee over every run.

Each component is modelled twice. A *specification* on values (a datatype for the fields, a function for each
handler, `Run` for a whole history) carries the whole-run theorems. A *class* with the component's own fields and
methods, updated in place with the component's own branches and loops, is proved equal to it, method by method:
the view after a call is the specification's step of the view before. Sequences that only record what happened
(ledgers, logs, reports) are history and influence nothing.

| file | component |
|---|---|
| `FmuTypes.dfy` | values shared by the others; a `double` is a real or not finite |
| `Since.dfy` | what was started and not ended since, over a run |
| `StateMachine.dfy` | priority state machine, its latches and retained commands, and the declarative reading of a history |
| `MissionPlan.dfy` | layout of the search and goto missions, resume arithmetic, search progress |
| `MissionUpload.dfy` | the ground-station side of a mission upload: takeovers, deferred modes, acknowledgements, restarts, link loss |
| `Arbiter.dfy` | state machine, dispatcher, autopilot connection and searching role composed, one handler per step |
| `CommandAckGroup.dfy` | the group that makes redundant deliveries one command |
| `AckProtocol.dfy` | receive threads, event loop and FSS worker interleaved around that group |
| `CommandFlow.dfy` | the acknowledgement protocol and the arbiter composed: one operator command, end to end |
| `WorkQueue.dfy` | the two coalescing task queues (FSS uses no retry task) |
| `LogQueue.dfy` | the bounded log queue and its gap markers |
| `SearchAcquire.dfy` | the search worker: acquire, hold, resume, complete, abandon |
| `MavLink.dfy` | reporting, retiring and redialling the autopilot link |
| `AdsbThrottle.dfy` | the pruned per-aircraft rebroadcast throttle |
| `Aircraft.dfy` | tracked aircraft, their keys and synthetic addresses |

## Assumptions

- A handler is one atomic step, except where the model says otherwise: command acknowledgement interleaves the
  steps of all threads, waypoint serving interleaves every critical section, the reconnector's pass is three steps,
  and the search worker's reads of the role and answers from the server are arbitrary inputs.
- Clocks do not run backwards where a statement is about time; latch counts are at least 1; searches are not null.
- Whether a send succeeds, what the network and the server answer, and the time are parameters.

## Where the code promises less

- An AUTO deferred for want of the autopilot's type survives a disarm or a terminate: `Arbiter.DisarmedCanStillSendAuto`
  is a run that shows it, and `Arbiter.NoMissionOutsideMissionStates` says exactly when it happens.
- A search whose item count does not fit 16 bits is advertised short: `MissionPlan.SearchLayout` gives the exact
  condition, `MissionUpload.LoadedSearchIsServed` what is sent either way. Resuming is sound for a search of any size
  (`MissionPlan.ResumeIsSound`); only a reached event for an item that upload never advertised can lead to a setup
  item (`MissionPlan.ResumeLandsOnCurrentPoint` says exactly when, `MissionPlan.LongSearchResumesAtTakeoff` is the
  instance).
- Critical section by critical section an acknowledgement can be awaited for a goto no longer active:
  `MissionUpload.GotoSplitsExactlyWhen` says exactly when, `MissionUpload.RestartCanSplitAGoto` is the instance. Serving
  waypoints is safe there too (`MissionUpload.WaypointsAreServable`).
- A goto outlives its state: continuing from it, or adjusting altitude, makes no call that would end it, so while searching
  its upload can still be open, and acceptance engages AUTO towards it. `Arbiter.GotoOutlivesItsState` says exactly when a
  goto is served or open in any state, `Arbiter.SearchingCanFlyAGoto` is a run.
- Payload identity is not transitive (`CommandAckGroup.SameAsIsNotTransitive`); two payloads share a match exactly when
  they are less than twice the tolerance apart (`CommandAckGroup.SharedMatchExactlyWhen`), which is how far apart two
  copies of one command may be (`AckProtocol.CopiesOfAnEpochAgree`).
- The dial backoff is read off a 16-bit counter, so it starts over after 65536 failed dials in a row; the bound in
  `MavLink.DialsAreSpaced` says so.
- A search task reports RTL without looking at the role (src/smm/smm.cpp:432-449) exactly when it starts with nothing
  held and the server disconnected: `SearchAcquire.RtlWithoutLookingExactlyWhen`, with a run in which the role was last
  seen revoked in `SearchAcquire.RevokedRoleStillReportsRtl`. Every other report follows a read that saw the role
  granted, or the completion of the held search (`SearchAcquire.CommitsFollowAGrantedRole`).

## Model

| member | source | states |
|---|---|---|
| StateMachine.StateIsDeclared | src/fmu.cpp:89-141 | after any history the state is the declarative one: terminate iff ever commanded, low battery iff the latch count of consecutive low readings ever occurred, breach iff the latest long enough run of usable readings was over the cap, comms flags and commands by last value, in that priority; Manual before the first evaluation |
| StateMachine.CommandsAreObeyed | src/fmu.cpp:29-141 | once anything has been evaluated the state is that of the highest-priority engaged latch, or with none what the operator's last command asks for, command by command; continue or none leaves it to the search worker's |
| StateMachine.SustainedAltitudeDecides | src/fmu.cpp:351-409 | after any history, the latch count of readings in a row with a valid fix, a finite value and an altitude greater than the cap set the breach and, with no higher latch, RTL; as many not greater leave it clear |
| StateMachine.UnusableReadingIsIgnored | src/fmu.cpp:358-363 | a reading without a valid fix or a finite value changes nothing |
| StateMachine.BatteryCounts | src/fmu.cpp:313-349 | a battery reading keeps the saturated count and the one-way latch equal to what the sequence of readings says |
| StateMachine.AltitudeCounts | src/fmu.cpp:351-409 | a usable altitude reading keeps both saturated counts and the self-clearing latch equal to what the sequence of readings says |
| StateMachine.EverRanExtends | src/fmu.cpp:326-334 | a run of the latch count has ever occurred after a reading iff it had before or the reading completes one |
| StateMachine.OverReadingExtends | src/fmu.cpp:365-382 | after an over-cap reading the latest full run is over the cap iff it was or this reading completes one |
| StateMachine.UnderReadingExtends | src/fmu.cpp:383-400 | after an under-cap reading the latest full run is over the cap iff it was and this reading does not complete one under it |
| StateMachine.UnusableReadingsLeaveNoTrace | src/fmu.cpp:358-363 | readings without a valid fix or a finite value, however many and wherever, change no field |
| StateMachine.RecoveredOutageLeavesNoTrace | src/fmu.cpp:411-462 | an outage of either link that recovers leaves the machine as if it had never happened, whatever came during and after it |
| StateMachine.ResolutionIsExact | src/fmu.cpp:143-174 | a non-terminate command is actioned iff no latch is engaged or only the breach is and it maps to RTL; else superseded, naming the highest-priority latch |
| StateMachine.TerminateIsAlwaysActioned | src/fmu.cpp:111-120 | terminate is always actioned, and moves the state iff it is the first |
| MissionPlan.SearchLayout | src/mav/mission-plan.hpp:87-133 | the kinds of the items 0..count-1 are two takeoffs, every point index in order and exactly one return home iff the count fits 16 bits; any later number is answered with return home |
| MissionPlan.GotoLayout | src/mav/mission-plan.hpp:87-133 | a goto mission is its waypoint twice, then the return home, whatever is asked for after that |
| MissionPlan.ReachStaysInRange | src/smm/smm.cpp:668-684 | until it completes, a search's resume point is one of its points |
| MissionPlan.ProgressIsTheLastReached | src/smm/smm.cpp:668-684 | a search is complete iff its last point's item or a later one was ever reached; until then it resumes at the point after the search item last reached, setup items counting for nothing |
| MissionPlan.ResumeIsSound | src/mav/mission-plan.hpp:55-80 | whatever a search's size, after any reached events for items its upload advertised, resuming it unfinished selects its current point's item |
| MissionPlan.ResumeLandsOnCurrentPoint | src/mav/mission-plan.hpp:55-80 | after any reached events at all, resuming an unfinished search selects its current point's item, never setup or return home, iff that sequence number fits 16 bits |
| MissionPlan.ResumeFollowsLastReached | src/mav/mavlink.cpp:1640-1654 | the point resumed from is the one after the last search item reached |
| MissionPlan.LongSearchResumesAtTakeoff | src/mav/mission-plan.hpp:55-60 | 65536 points advertise 3 items; a reached event for item 65535, never advertised, would resume them at a takeoff |
| MissionPlan.SmmSearch.ReachedPoint | src/smm/smm.cpp:668-684 | a reached point moves the current point or completes the search, once |
| MissionPlan.SmmSearch.ReachedItem | src/mav/mavlink.cpp:1640-1654 | a reached item is dropped if it is a setup item, and otherwise moves the search to the next point |
| MissionUpload.HandleAccounts | src/mav/mavlink.cpp:181-321 | every handler keeps the upload invariant: at most one upload open, an open one served, a loaded search excluding both, and the ledger well bracketed |
| MissionUpload.AckIs | src/mav/mavlink.cpp:607-683 | at most one of the two acknowledgement branches engages AUTO, and only on an accepted, still open upload |
| MissionUpload.BracketsBalance | src/mav/mavlink.cpp:607-683 | in a well-bracketed ledger opens equal closes plus the open one, and AUTO commands equal accepted closes but for one still due |
| MissionUpload.UploadsAreConserved | src/mav/mavlink.cpp:181-202 | every opened upload is closed once (accepted, rejected, dropped, or for a goto link loss) or is the one open; AUTO commands equal accepted uploads; the two flags are never both set |
| MissionUpload.AutoNeedsAnAcceptedUpload | src/mav/mavlink.cpp:243-321 | AUTO mode changes sent or deferred never outnumber accepted uploads |
| MissionUpload.StepLoads | src/mav/mavlink.cpp:637-656 | a handler leaves a search loaded iff it accepts an upload of exactly that search, or it was loaded and the handler does not displace it |
| MissionUpload.SkipIsSound | src/mav/mavlink.cpp:748-764 | loadSearch skips the upload iff an upload of exactly that search was accepted and no takeover, goto, other upload or detected restart came since |
| MissionUpload.RunHasATrace | src/mav/mavlink.cpp:748-764 | every run has the sequence of states that statement ranges over |
| MissionUpload.HandlerIsItsRegions | src/mav/mavlink.cpp:243-321 | a handler does to the guarded fields exactly what its critical sections do in order |
| MissionUpload.WaypointsAreServable | src/mav/mavlink.cpp:484-595 | under any interleaving of all threads' critical sections and for every 16-bit sequence number, an item built from a search is built from a held one and indexes one of its points |
| MissionUpload.EnterSplits | src/mav/mavlink.cpp:358-396 | a critical section leaves an acknowledgement awaited without an active goto iff it starts to await one with no goto active, or found that so and does not mend it |
| MissionUpload.GotoSplitsExactlyWhen | src/mav/mavlink.cpp:358-396 | over any interleaving of critical sections that is so iff one began to await an acknowledgement with no goto active and none since has mended it |
| MissionUpload.RegionsHoldTheLast | src/mav/mavlink.cpp:685-764 | over any interleaving of critical sections a search held is the one last handed over |
| MissionUpload.RegionsLoadExactlyWhen | src/mav/mavlink.cpp:607-764 | over any interleaving a search counts as loaded iff an acceptance was taken while one was being uploaded and no section since has unloaded it |
| MissionUpload.RestartCanSplitAGoto | src/mav/mavlink.cpp:358-396 | the instance: a restart between the two critical sections of a goto |
| MissionUpload.LoadedSearchIsServed | src/mav/mavlink.cpp:484-595 | from any state, loading a search announces a count, and requests for that many items in order are answered with two takeoffs, its points at their own coordinates in order, and home, cut off iff the count does not fit; the current flag is on the resume point, and on the second takeoff when that is the first |
| MissionUpload.GotoIsServed | src/mav/mavlink.cpp:484-595 | a goto announces three items and is served its own position twice, then home |
| MissionUpload.AcceptedMissionStarts | src/mav/mavlink.cpp:607-683 | an accepted goto starts at its first item, an accepted search at the item its upload flagged current, the point to resume from; AUTO follows |
| MissionUpload.StandsExactlyWhen | src/mav/mavlink.cpp:110-396 | over every run a goto is being served, a goto's or a search's upload is open, and a search is held, each iff some call started it and none since has ended it: losing the link ends only the wait for a goto's acknowledgement, and heartbeats, requests and altitudes end nothing |
| MissionUpload.EachCloseHasItsCause | src/mav/mavlink.cpp:181-683 | a handler closes the open upload as accepted or rejected by an acknowledgement, as lost only with the link and only a goto, and as dropped only if it supersedes it; an accepted one is followed by AUTO |
| MissionUpload.HeldSearchIsTheLastLoaded | src/mav/mavlink.cpp:685-764 | over every run the search held, and any being uploaded, is the one last handed over for loading |
| MissionUpload.RestartsAreSeen | src/mav/mavlink.cpp:845-893 | over every run an uptime is judged against the last one reported: back by more than the margin it drops the upload and the loaded search, otherwise it is only remembered |
| MissionUpload.DeferralEndsWithTheType | src/mav/mavlink.cpp:243-321 | over every run no mode waits once the last heartbeat has told the autopilot's type |
| MissionUpload.MavConnection.InvalidateInFlightUpload | src/mav/mavlink.cpp:181-202 | closes the upload in flight, drops the search being loaded, and says whether there was one |
| MissionUpload.MavConnection.SetMode | src/mav/mavlink.cpp:243-290 | sends the mode, or defers it while the autopilot's type is unknown, and on a takeover drops the upload |
| MissionUpload.MavConnection.CommandGotoTo | src/mav/mavlink.cpp:358-396 | takes over to RTL, opens a goto upload and awaits its acknowledgement iff the count was sent |
| MissionUpload.MavConnection.CommandDisarm | src/mav/mavlink.cpp:335-355 | disarms and drops the upload, leaving a deferred mode alone |
| MissionUpload.MavConnection.CommandTerminate | src/mav/mavlink.cpp:461-481 | terminates and drops the upload, leaving a deferred mode alone |
| MissionUpload.MavConnection.UploadSearch | src/mav/mavlink.cpp:685-746 | takes over to RTL and opens the search's upload |
| MissionUpload.MavConnection.Load | src/mav/mavlink.cpp:748-764 | uploads unless this very search is already loaded |
| MissionUpload.MavConnection.ReplayPendingMode | src/mav/mavlink.cpp:292-321 | sends and clears the deferred mode once the type is known; a mode other than AUTO unloads the search |
| MissionUpload.MavConnection.TakeAckLocked | src/mav/mavlink.cpp:607-683 | closes the open upload and engages AUTO iff it was accepted |
| MissionUpload.MavConnection.AckMission | src/mav/mavlink.cpp:607-683 | the acknowledgement handler, equal to its specification |
| MissionUpload.MavConnection.ServeWaypoint | src/mav/mavlink.cpp:484-595 | answers a request from the goto or the search being served, or not at all |
| MissionUpload.MavConnection.TimeBoot | src/mav/mavlink.cpp:845-893 | a backwards jump of uptime beyond the margin drops the upload and the loaded search |
| MissionUpload.MavConnection.LinkWentDown | src/mav/mavlink.cpp:108-121 | the down edge closes a goto awaiting its acknowledgement and leaves a search alone |
| Arbiter.NextKeepsInv | src/event-dispatcher.cpp:49-238 | every step of the composition keeps the upload, role and action invariants |
| Arbiter.InboundAuto | src/mav/mavlink.cpp:607-683 | an inbound message engages AUTO iff it accepts an open upload or is the heartbeat that releases a deferred AUTO |
| Arbiter.NoMissionOutsideMissionStates | src/fmu.cpp:176-262 | outside searching, goto and altitude adjustment no upload is open or served and no search believed loaded, and inbound messages send AUTO iff disarmed or terminated with AUTO deferred and the type just revealed |
| Arbiter.DisarmedCanStillSendAuto | src/mav/mavlink.cpp:335-355 | a run that reaches that exception |
| Arbiter.MachineRunsItsInputs | src/event-dispatcher.cpp:49-238 | in the composition the machine is in the state its own inputs alone put it in |
| Arbiter.MachineIsAsTheEventsSay | src/event-dispatcher.cpp:49-238 | over every run each retained field and latch is read off the events: link reports and operator commands by last value, low battery iff the latch count of reports in a row were known and under the threshold, breach by the positions with a usable altitude, the search worker's command by the last operator event, RTL report or search found while waiting |
| Arbiter.AutopilotFollowsDeclaredState | src/fmu.cpp:176-269 | over every run the state is the one the events call for, Manual before the machine had cause to evaluate it, and from then on the last action was for that state; the searching role is held only while searching or waiting for tasking, and always while searching |
| Arbiter.OperatorIsObeyed | src/fmu.cpp:29-262 | with no latch engaged by the events, the operator's last command decides the state and the mode the autopilot is told, command by command |
| Arbiter.LatchesOverrule | src/fmu.cpp:103-262 | an engaged latch decides the state, and low battery, a lost link and a breach command return to launch |
| Arbiter.EventSends | src/event-dispatcher.cpp:49-201 | what dispatching an event sends and uploads: if acted on, what the resulting state sends; if a search found while searching and not loaded, its announcement; else nothing |
| Arbiter.AutopilotIsInTheStatesMode | src/fmu.cpp:192-262 | over every run, whatever arrives from the autopilot, the last mode commanded (sent or deferred) is the one the current state stands for: manual, hold or return to launch |
| Arbiter.KnownAutopilotIsToldTheMode | src/fmu.cpp:192-262 | once the last heartbeat has told the autopilot's type, the last mode actually sent is the one the current state stands for |
| Arbiter.ConnectionRunsItsCalls | src/fmu.cpp:176-269 | in the composition the connection is as its own calls alone leave it, so every result over its runs holds there |
| Arbiter.SearchFlownIsTheOneDispatched | src/event-dispatcher.cpp:135-160 | over every run a search held or being uploaded is the one last dispatched while searching |
| Arbiter.GotoOutlivesItsState | src/fmu.cpp:198-253 | in any state a goto is served, a goto or search upload is open, or a search is held iff some call started it and none since has ended it; searching itself makes no call |
| Arbiter.SearchingCanFlyAGoto | src/fmu.cpp:198-253 | the instance: goto then continue leaves the goto open while searching, and its acceptance engages AUTO |
| Arbiter.RoleIsHeldExactlyWhen | src/fmu.cpp:176-201 | the searching role is held iff the latest state acted on is searching, or waiting for tasking entered with the role held |
| Arbiter.NothingToSearchWaits | src/event-dispatcher.cpp:161-176 | a report of nothing to search moves to waiting for tasking iff no latch is engaged and the operator's command is to search, and otherwise changes no state |
| Arbiter.AcquiredSearchResumes | src/event-dispatcher.cpp:145-159 | a search acquired while waiting for tasking sends the machine back to searching |
| Arbiter.ActionsFollowTheHistory | src/fmu.cpp:271-474 | over every run the states acted on are exactly those left by the events that change the state, re-assert it after an autopilot restart, or bring the MAV link back, one action each |
| Arbiter.GotoFliesToItsTarget | src/fmu.cpp:220-253 | while in the goto state the position served is the operator's last target as of the last action, any upload open is that goto's and no search is loaded; while adjusting altitude the last altitude sent is that target's |
| Arbiter.ShutdownsAreSent | src/fmu.cpp:254-261 | while disarmed or terminated the last shutdown message sent is the one configured for that state |
| Arbiter.FmuStateMachine.UpdateState | src/fmu.cpp:103-141 | re-evaluates the state from the fields and reports a change |
| Arbiter.FmuStateMachine.Act | src/fmu.cpp:176-269 | the side effects of a state on the autopilot and on the searching role |
| Arbiter.FmuStateMachine.ResolveFssCommand | src/fmu.cpp:143-174 | applies an operator command and says how it resolved |
| Arbiter.FmuStateMachine.FssNewCommand | src/fmu.cpp:271-295 | the whole operator-command handler, equal to its specification |
| Arbiter.FmuStateMachine.SmmNewCommand | src/fmu.cpp:297-311 | the search-management command handler, equal to its specification |
| Arbiter.FmuStateMachine.CountBattery | src/fmu.cpp:313-349 | the one-way debounced latch, equal to its specification |
| Arbiter.FmuStateMachine.CountAltitude | src/fmu.cpp:351-409 | the self-clearing debounced latch, equal to its specification |
| Arbiter.FmuStateMachine.SetCommsFailure | src/fmu.cpp:411-425 | the FSS comms handler, equal to its specification |
| Arbiter.FmuStateMachine.NoteMavComms | src/fmu.cpp:427-462 | acts on a change, and on a recovery without one |
| Arbiter.FmuStateMachine.ReassertState | src/fmu.cpp:464-474 | re-acts for the current state |
| Arbiter.EventDispatcher.Dispatch | src/event-dispatcher.cpp:49-201 | dispatches an event as specified, keeps the composed invariant, returns the command's resolution for acknowledgement, and passes on every position and battery report, and reached points only while searching |
| Arbiter.EventDispatcher.DispatchSmm | src/event-dispatcher.cpp:135-186 | a loaded search reaches the autopilot only while searching, and resumes searching while waiting for tasking |
| CommandAckGroup.SameAsIsNotTransitive | src/fss/command-ack-group.hpp:62-80 | the instance: three payloads for which payload identity is not transitive |
| CommandAckGroup.SharedMatchExactlyWhen | src/fss/command-ack-group.hpp:62-80 | two payloads can both match a third iff both are empty, or equal altitudes, or positions with each coordinate less than twice the tolerance apart |
| CommandAckGroup.CloseCopiesCohere | src/fss/command-ack-group.hpp:161-272 | two copies close to one opener are within twice each tolerance of each other |
| CommandAckGroup.AckGroup.OnDelivery | src/fss/command-ack-group.hpp:161-246 | queues, answers, rejects as stale or opens a group, equal to its specification |
| CommandAckGroup.AckGroup.ResolveEpoch | src/fss/command-ack-group.hpp:252-264 | caches the outcome and hands back the waiting copies, or does nothing for a displaced epoch |
| AckProtocol.ArrivalIsADelivery | src/fss/fss-client-ssl.cpp:180-255 | a protocol arrival is one onDelivery and what the handler makes of its answer |
| AckProtocol.CopiesAreConserved | src/fss/command-ack-group.hpp:161-264 | at every point each copy that arrived has one terminal acknowledgement, sent, owed or awaited, and no other copy has any |
| AckProtocol.CommandsAreConserved | src/fss/fss-client-ssl.cpp:221-255 | each epoch opened is dispatched once or still to be, and its responder run once or still to be |
| AckProtocol.RunKeepsInv | src/fss/command-ack-group.hpp:161-264 | every interleaving keeps each copy judged against its epoch's opener, one id per connection, and one verdict per epoch |
| AckProtocol.EachCopyIsAckedOnce | src/fss/fss-client-ssl.cpp:180-255 | over every interleaving each copy is sent at most one terminal acknowledgement, and exactly one once all is quiet |
| AckProtocol.EachCommandIsActuatedOnce | src/event-dispatcher.cpp:54-67 | each epoch's command reaches the state machine at most once, and exactly once when all is quiet |
| AckProtocol.ArrivalIsJudged | src/fss/command-ack-group.hpp:161-246 | in any reachable state an actionable copy with the opener's command and payload joins the epoch in hand iff its timestamp is less than the tolerance from the opener's either way, and opens the next otherwise; an older, different one joins none; one reissued over its connection under another id always opens the next |
| AckProtocol.LikeCopiesAreOneCommand | src/fss/command-ack-group.hpp:161-264 | if all actionable copies of a run have the same command and payload, timestamps less than the tolerance apart and one id per connection, the state machine is given at most one command, and exactly one when all is quiet if any arrived |
| AckProtocol.CopiesOfAnEpochAgree | src/fss/command-ack-group.hpp:161-264 | copies answered from one epoch get the identical answer, are within twice the tolerances of each other, and name one id per connection |
| AckProtocol.CopiesGetTheirResolution | src/fss/fss-client-ssl.cpp:221-235 | a copy of an epoch is told the resolution the event loop gave that epoch's command, or that it is stale; stale iff a newer command displaced the epoch before its responder ran; a copy is rejected iff it is not actionable |
| AckProtocol.InternalStepsProgress | src/fss/fss.cpp:161-186 | every step the threads take by themselves leaves less to do |
| AckProtocol.SomeStepIsEnabled | src/fss/fss.cpp:161-186 | while anything is left some such step can be taken |
| AckProtocol.AlwaysQuiesces | src/fss/fss.cpp:161-186 | from every reachable state the threads can run to quiescence by themselves, so no copy need stay unanswered |
| AckProtocol.FssClient.HandleCommandFrom | src/fss/fss-client-ssl.cpp:55-255 | the delivery handler: receipt confirmed at once, the terminal acknowledgements it sends, and the event it posts |
| AckProtocol.FssClient.AckEach | src/fss/fss-client-ssl.cpp:216-219 | acknowledges every displaced copy, in order |
| AckProtocol.FssClient.Respond | src/fss/fss-client-ssl.cpp:226-235 | the responder resolves its epoch and answers every copy it held |
| CommandFlow.OperatorsAreToldTheTruth | src/event-dispatcher.cpp:54-67 | over every interleaving, a copy answered with a resolution had its own command given to the state machine, with its own target (a position to within the tolerance, an altitude exactly), and is told how that resolved there: actioned iff terminate, or no latch engaged, or only the breach and RTL; else superseded by the highest-priority latch |
| CommandFlow.OneCommandPerEpoch | src/event-dispatcher.cpp:54-67 | the state machine is given exactly one command per epoch the event loop takes, and takes none twice |
| CommandFlow.LikeCopiesAreOneInput | src/event-dispatcher.cpp:54-67 | however many copies of one command arrive, the state machine is given at most one command, and exactly one once quiet if any actionable copy arrived |
| CommandFlow.NextKeepsInv | src/event-dispatcher.cpp:54-67 | every step keeps both systems' invariants, the machine on its inputs, and every decided epoch answered as the machine then was |
| WorkQueue.CoalescingKeepsWorks | src/fss/fss.cpp:106-117 | dropping queued positions leaves the other tasks and their order alone |
| WorkQueue.QueueIsLawful | src/smm/smm.cpp:96-125 | taken plus queued is what was enqueued, in order, less outdated positions and refused retries; at most one of each waits; nothing else is lost |
| WorkQueue.RetryRefusedExactlyWhen | src/smm/smm.cpp:111-119 | a retry is refused, then and for good, iff an earlier one that was accepted has not been taken by then |
| WorkQueue.ExitsOnlyDrained | src/fss/fss.cpp:161-186 | the worker exits only when stopped and with everything accepted taken |
| WorkQueue.TaskQueue.ErasePositions | src/fss/fss.cpp:113-116 | the erasing loop removes exactly the queued positions |
| WorkQueue.TaskQueue.Put | src/smm/smm.cpp:96-125 | enqueue, equal to its specification |
| WorkQueue.TaskQueue.RetryQueued | src/smm/smm.cpp:113-118 | whether a retry waits already |
| WorkQueue.TaskQueue.Next | src/smm/smm.cpp:126-143 | one pass of the worker: the oldest task, or the exit |
| WorkQueue.TaskQueue.StopAndDrain | src/fss/fss.cpp:206-223 | stopping takes every queued task before the worker exits; stopping again does nothing |
| LogQueue.RunIsExact | src/logger.cpp:136-178 | the queue is the most recent accepted lines within its bound, and everything before it is written, claimed or counted as dropped; only a full queue has lost lines since the last marker |
| LogQueue.GapsAreExact | src/logger.cpp:230-271 | every marker counts exactly the lines missing where it stands, and nothing is unaccounted for when the writer exits |
| LogQueue.UnmarkedLinesAreConsecutive | src/logger.cpp:253-261 | between two lines written without a marker none was dropped |
| LogQueue.Logger.LogLine | src/logger.cpp:136-178 | keeps a line of each level exactly under the configured levels that include it, drops the oldest at the bound, and queues |
| LogQueue.Logger.ClaimLine | src/logger.cpp:231-252 | takes the oldest line and the count of drops before it, once |
| LogQueue.Logger.WriterPass | src/logger.cpp:231-270 | one pass of the writer: the marker if any, then the line |
| LogQueue.Logger.StopWorker | src/logger.cpp:59-84 | stopping finishes the write in hand and writes everything queued; stopping again does nothing |
| SearchAcquire.CommitsFollowAGrantedRole | src/smm/smm.cpp:428-508 | whatever the role does meanwhile, a commit comes directly after a read that saw it granted, and an RTL report directly after such a read, the completion of the held search, or the start of a search task |
| SearchAcquire.RtlWithoutLookingExactlyWhen | src/smm/smm.cpp:432-449 | a search task reports RTL as its first act iff nothing is held and the server is disconnected |
| SearchAcquire.ResumesExactlyWhen | src/smm/smm.cpp:519-547 | a search task hands over a search without fetching iff one is held, and then that one |
| SearchAcquire.RevokedRoleStillReportsRtl | src/smm/smm.cpp:432-449 | the instance: it does so right after a read that saw the role revoked |
| SearchAcquire.PublishedExactlyWhenAccepted | src/smm/smm.cpp:484-493 | a search is published iff, and directly after, the server accepts it, and is handed over for flying directly after that; nothing else is, but at the start of a search task |
| SearchAcquire.HandlesAreConserved | src/smm/smm.cpp:428-592 | every search fetched has been destroyed, completed or dropped exactly once, except the one held, which never has; the cached count is the held search's |
| SearchAcquire.LoadedSearchesAreLive | src/smm/smm.cpp:519-547 | every search handed over for flying, fresh or resumed, was accepted by the server and not yet let go |
| SearchAcquire.AcquireEndsOneWay | src/smm/smm.cpp:450-508 | a call does nothing while backing off, and reports RTL and backs off with no server; otherwise it makes at most three fetches and ends in one of three ways: a search held and the timer cleared, RTL reported once and the timer set, or revoked and neither |
| SearchAcquire.AcquiresExactlyWhen | src/smm/smm.cpp:450-508 | a search is acquired iff connected, not backing off, and some try succeeds after tries that each called for another |
| SearchAcquire.RetryFetchesExactlyWhen | src/smm/smm.cpp:394-451 | a retry fetches iff the role is granted, nothing is held, the server is there and no backoff runs |
| SearchAcquire.SearchFetchesExactlyWhen | src/smm/smm.cpp:519-547 | a search task fetches iff nothing is held and the server is there, whatever backoff ran before |
| SearchAcquire.LastPointCompletes | src/smm/smm.cpp:567-592 | over every run a reached point completes and releases the held search and reports RTL iff it is past the last one; any other only moves the resume point |
| SearchAcquire.AbandonLetsGo | src/smm/smm.cpp:328-370 | over every run a due report that comes to show an abandon drops the held search and, while the role is granted, fetches at once whatever backoff ran; no other report drops a held search |
| SearchAcquire.ServerIsAsLastConnected | src/smm/smm.cpp:155-275 | the server counts as there iff the last connect found the asset |
| SearchAcquire.OperatorIsHeardOnEdges | src/smm/smm.cpp:328-370 | over every run abandon and mission-complete are acted on once each time the asset comes to show them |
| SearchAcquire.ReportsAreSpaced | src/smm/smm.cpp:286-316 | over every run positions are reported iff due, at least the configured interval apart |
| SearchAcquire.BackoffHolds | src/smm/search-acquire.hpp:24-36 | until its backoff runs out a failed acquire is neither repeated nor reported again, short of a search task or an abandon command |
| SearchAcquire.SearchWorker.TryAcquireSearch | src/smm/smm.cpp:428-508 | the acquire loop, equal to its specification |
| SearchAcquire.SearchWorker.OfferSearch | src/smm/smm.cpp:476-507 | the re-check, commit and publication of a candidate, or its refusal |
| SearchAcquire.SearchWorker.TryOnce | src/smm/smm.cpp:453-507 | one trip round the acquire loop |
| SearchAcquire.SearchWorker.PublishSearch | src/smm/smm.cpp:405-415 | the held search and its cached point count change together |
| SearchAcquire.SearchWorker.MaybeAcquireSearch | src/smm/smm.cpp:394-401 | acquires only when wanted and nothing is held |
| SearchAcquire.SearchWorker.StartSearch | src/smm/smm.cpp:519-547 | resumes the held search, or acquires without an inherited backoff |
| SearchAcquire.SearchWorker.ReachPoint | src/smm/smm.cpp:567-592 | the last point completes and releases the search and reports RTL |
| SearchAcquire.SearchWorker.CheckCommand | src/smm/smm.cpp:328-370 | acts once per distinct operator command; an abandon drops the held search and the backoff |
| SearchAcquire.SearchWorker.ReportPositionTask | src/smm/smm.cpp:286-326 | checks for a command before each report that is due, then tries to acquire |
| MavLink.ReportsAlternate | src/mav/mavlink.cpp:80-137 | reported statuses strictly alternate, failure first |
| MavLink.TickTellsAndRetires | src/mav/mavlink.cpp:69-156 | after a tick the reported status is the truth; the socket is flagged iff already, or its send failed, or both its age and the silence exceed the timeout, and then the link is reported down |
| MavLink.PassDialsExactlyWhenDue | src/mav/mavlink.cpp:1569-1618 | a pass closes the socket iff flagged, and dials iff it is closed and the backoff of the failures so far has run out |
| MavLink.StandsExactlyWhen | src/mav/mavlink.cpp:69-156 | over every run the socket is open, and flagged, each iff some event made it so (an accepted dial; a failed send, the end of receiving, or silence) and none since has ended that |
| MavLink.DialsAreSpaced | src/mav/mavlink.cpp:1569-1618 | dials are further apart than the backoff of the failures in a row before them: 1, 2, 4, 8, 15, then 30 seconds |
| MavLink.SilentLinkIsRedialled | src/mav/mav-comms.hpp:92-109 | once a tick finds the open socket silent for longer than the timeout, the very next pass closes it and goes on to dial |
| MavLink.AutopilotLink.Tick | src/mav/mavlink.cpp:69-156 | the heartbeat pass, equal to its specification |
| MavLink.AutopilotLink.DialInTurn | src/mav/mavlink.cpp:1341-1372 | tries addresses in order and stops at the first that accepts |
| MavLink.AutopilotLink.ConnectToMav | src/mav/mavlink.cpp:1298-1422 | stamps the attempt, and on success zeroes the backoff and stamps the socket |
| MavLink.AutopilotLink.AttemptReconnect | src/mav/mavlink.cpp:1569-1618 | a pass, equal to its three steps in a row |
| AdsbThrottle.PruningIsInvisible | src/event-dispatcher.cpp:35-47 | the pruned map makes exactly the decisions a never-pruned one makes, and after a considered report holds only entries younger than the interval |
| AdsbThrottle.ForwardsAreSpaced | src/event-dispatcher.cpp:202-234 | two forwards of one aircraft are at least a second apart |
| AdsbThrottle.ForwardedExactlyWhen | src/event-dispatcher.cpp:202-234 | over every run a report is forwarded iff it is another aircraft's, its position is usable, and no forward of that aircraft came in the second before |
| AdsbThrottle.HeldBackOnlyBehindAForward | src/event-dispatcher.cpp:202-234 | a report is held back only behind a forward of the same aircraft less than a second old |
| AdsbThrottle.Throttle.PruneEntries | src/event-dispatcher.cpp:35-47 | the erasing loop removes exactly the entries that no longer hold anything back |
| AdsbThrottle.Throttle.OtherAircraft | src/event-dispatcher.cpp:202-234 | the report handler, equal to its specification |
| Aircraft.AllocatedIs | src/aircraft.hpp:25-33 | the n-th synthetic address is the first plus n modulo the range |
| Aircraft.AllocationsAreDistinct | src/aircraft.hpp:25-33 | the allocator's sequence of addresses is 24-bit and repeats none within a full range |
| Aircraft.UnaddressedHoldTheirNumber | src/aircraft.hpp:126-145 | over every run an aircraft tracked without an address holds the one its own allocation gave |
| Aircraft.AddressedHoldTheirOwn | src/aircraft.hpp:126-145 | an aircraft tracked by its address holds that address |
| Aircraft.SyntheticAddressesAreDistinct | src/aircraft.hpp:126-145 | two aircraft tracked without addresses come from different allocations, and hold the same address iff those are a multiple of the range apart |
| Aircraft.KeysMeetOnlyWhenMeantTo | src/aircraft.hpp:49-57 | two reports share an entry iff they have the same address, or both none and the same callsign |
| Aircraft.ReportSweeps | src/aircraft.hpp:147-191 | a report never evicts its own entry, and of the others leaves exactly those within the window, unchanged |
| Aircraft.AcceptedReportsAreSpaced | src/aircraft.hpp:81-91 | accepted reports of one aircraft are at least a second apart, even across eviction and re-creation |
| Aircraft.AcceptedExactlyWhen | src/aircraft.hpp:81-91 | over every run a report is accepted iff no accepted report of the same aircraft came in the second before, once the clock has run a second |
| Aircraft.AllocatorFollowsCount | src/aircraft.hpp:126-145 | the allocator's last address is that of the number of allocations made |
| Aircraft.KnownAircraft.FindAircraft | src/aircraft.hpp:126-145 | finds or creates the entry, allocating an address iff none is reported |
| Aircraft.KnownAircraft.EvictStale | src/aircraft.hpp:151-165 | the erasing loop removes exactly the entries past the window |
| Aircraft.KnownAircraft.NewPositionReport | src/aircraft.hpp:179-191 | a report is accepted at most once a second, then the table is swept |
| Aircraft.KnownAircraft.GetIcaoAddress | src/aircraft.hpp:192-198 | the address of a callsign: the one its entry's own allocation gave |

## Left out

- Sockets, address resolution, message packing and parsing, HTTP, TLS: only their outcomes appear, as parameters.
- Arbiter.NoMissionOutsideMissionStates: handlers are atomic; `setResolvedMode` sends before it invalidates and an acknowledgement acts after unlocking, so a late AUTO can overtake a takeover between critical sections.
- Arbiter.AutopilotIsInTheStatesMode: a message counts as sent when it is handed to the link; whether it got through is only reported, and a lost one is re-driven by the recovery edge.
- The filters on a MAVLink message's sender and target, stream requests and failsafe-parameter checks around the handlers.
- Arbiter.EventDispatcher.Dispatch: new search-server settings only reach the search worker's connect task, and the aircraft reports have their own model; neither is an event here.
- AckProtocol.FssClient.HandleCommandFrom: whether a command is actionable (known, and a goto's coordinates valid) is an input.
- CommandFlow.OperatorsAreToldTheTruth: the wire's command numbers are a parameter, since the transport library is not part of this model.
- MissionUpload.MavConnection.SetMode: a mode resolves as soon as the autopilot's type is known; the per-airframe mode table is a finite lookup.
- A retargeted goto or altitude received while already in that state is retained but not re-sent, as in the code; no theorem claims otherwise.
- Commands need not reach the state machine in epoch order, and an older different command is actuated when its connection reports a changed id; no theorem claims otherwise.
- Altitude clamps, unit conversions, degE7 encoding, battery voltage and velocity helpers: decided by floating-point rounding.
- AckProtocol.EachCopyIsAckedOnce: an attempt to send counts as the acknowledgement; a connection that has gone away, the wire values of outcomes and the feature negotiation are not modelled.
- CommandAckGroup.AckGroup.OnDelivery: the epoch counter and timestamps are unbounded, where the code has 64 bits; a copy is a value, where the code has a weak reference to a connection.
- MissionUpload.MavConnection.ServeWaypoint: a search is identified by a number, where the code compares shared pointers, and the current point is read atomically.
- SearchAcquire.HandlesAreConserved: dropping the held search is the worker letting go of it; its memory lives on while the autopilot side still holds a reference.
- SearchAcquire.SearchWorker.ReportPositionTask: connecting and discovering the asset are reduced to whether the asset was found.
- LogQueue.GapsAreExact: rotation, timestamps and file errors are left out; a record is handed to the writer, not known to be on disk.
- MavLink.AutopilotLink.AttemptReconnect: joining the receive thread and re-arming the per-system setup are left out.
- Configuration loading, failsafe-parameter checks, signal handling, thread start and shutdown order.
