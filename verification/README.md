# CompositeInput vcomponent: a verified model

The component is the middle of a HAL for composite video inputs: clients open a port, start and
stop it through a controller, and close it; observers receive its state events; when a client
process dies, the port must stop and close itself. This project models the port lifecycle with
its death cleanup, the property cache, and the path from the hardware feature profile to loaded
ports, and proves what holds of them.

`dafny verify dfyconfig.toml` verifies everything.

## How the model is built

**Protocol** (`Lifecycle` to `Witnesses`, in the order below). `Lifecycle.Advance` is one atomic step of one call:
one `m_mutex` region, one `g_startedMutex` region, one binder interaction or one callback
dispatch. `Service` lets any number of calls on any number of ports take such steps in any order;
clients may call at any moment, and a linked death recipient fires at most once, at any moment.
Each port carries its history: states visited, events published, deaths delivered, periods begun,
ended and given back.

- `Ownership`: who may move a port; the session coupling; the death obligation as one token.
- `Slots`: two books of the shared counter.
- `Deaths`: the flag, who watches it, when a session stays parked, what a stale cleanup can touch.
- `Publication`, `Grammar`, `Serial`: the published log against the transitions.
- `Reachable`: all invariants over all runs. `Drain`: ranks, and calls that run undisturbed.
- `Protocol`: the main theorems. `Locks`: the same steps with the two kinds of mutex explicit.
- `Overtaking`: exactly when observers see the transitions in order. `Releases`: exactly when a cleanup
  gives its slot back inside its session. `Sessions`: the lifecycle and each port's data together.
- `Rounds`: undisturbed calls field by field, and a whole session as a round trip.
- `Witnesses`: concrete runs where a stronger claim would fail.

**Objects** (`CompositeInput`, `Manager`). `CompositeInputPort` has the fields of the C++ class and
updates them in place. Its ghost field `session` is the protocol's port; every lifecycle method is
proved to do to it what the undisturbed call does in the protocol, so that the two descriptions
cannot drift apart. `Properties` specifies the data side: cache, status snapshot and metrics; `Observed` says what each region does and
what clients, observers and the controller get, in plain values.

**Profile** (`Tokens`, `ParseConfig`, `Numerals`, `Diagnosis`, `Render`, `Mapping`, `Manager`). A key/value store is a set of
keys, their texts and list lengths, with no consistency assumed. The parser's loops are proved to
report the first problem in reading order; acceptance is then characterised without reference to
the parser, every problem reported is shown to be real, and every valid configuration to have a store.

## What the proofs show about the code

- A dead client's session is not always closed. A cleanup that has passed its stop stage on a READY
  port and finds it STARTED again sets the flag (`src/aidl/vcomponent_CompositeInputPort.cpp:1772-1782`) when the start's
  own check of the flag may be over. The comment there says that the racing transition completes the
  cleanup; `Protocol.DeadSessionsEnd` states exactly when it does, `Witnesses.ADeadSessionCanBeLeftStarted`
  is a run where it does not, and `Witnesses.StopRecovers` shows that the next stop repairs it.
- A cleanup can give its slot back after its session was closed by the owner
  (`Witnesses.ASlotCanBeGivenBackLate`); it is still the slot of that session's period, so the count is right.
  `Releases.GivesBackInSession` says when: exactly if a close has retired the session in between.
- start, stop and the property setters do not check which controller calls; only close does. Nothing is
  claimed about who can start or stop.
- The two CLOSED tests that follow a matching epoch check are never true (`Protocol.SessionCoupling`), and
  the guard `g_startedPorts > 0` is never false (`Protocol.SlotConservation`).
- Duplicate property tokens are compared as written but looked up trimmed. `" SIGNAL_QUALITY"` beside
  `"SIGNAL_QUALITY"` is accepted and maps to the same property twice; `Mapping.MapsInjectivelyIffTrimmedDiffer`
  gives the condition, `Mapping.UntrimmedListsAreUnbounded` the family of profiles.
- A UT video mode refreshes the signal telemetry of a running port without a property event, unlike a UT signal
  status. `Properties.UtWritesWhatItReports` gives the exact condition, `Properties.AVideoModeCanBeSilent` an input.
- The start time is written after STARTED without looking at the state again (`src/aidl/vcomponent_CompositeInputPort.cpp:1142-1145`), so it can land
  on a port that is already CLOSED (`Witnesses.AClosedPortCanBeStamped`); `Sessions.ClosedPortIsStampedLate` says exactly when.
- The port loader's skips and its clamp of the limit are dead for every profile the parser accepts
  (`Manager.CompositeInputManager.BuildPorts`).
- Events are dispatched with the lock released, so observers of concurrent calls can see transitions out of
  order (`Witnesses.EventsCanBeSeenOutOfOrder`). They see them in order exactly if no event is published while
  another call carries an earlier one (`Overtaking.InOrderUnlessOvertaken`), in particular if calls do not overlap
  (`Protocol.SerialPublication`); `Protocol.PublicationIsFaithful` is what holds always.

## Model

| member | source | states |
|---|---|---|
| Protocol.SlotConservation | src/aidl/vcomponent_CompositeInputPort.cpp:1067-1220 | In every reachable state of any number of ports and calls, `g_startedPorts` is exactly the number of slot holders (calls past the gate, ports in STARTING, STARTED or STOPPING, calls that have set READY and not yet given back) and equally the periods begun and not given back; it never exceeds the limit, so at most that many ports are STARTED, and no guarded decrement ever finds zero. |
| Protocol.TransientOwnership | src/aidl/vcomponent_CompositeInputPort.cpp:780-1229 | A port is in OPENING, STARTING, STOPPING or CLOSING exactly when one in-flight call owns that stretch of code, and every unguarded `setStateLocked` finds the old state it expects, in every interleaving. |
| Protocol.OnlyTheOwnerLeaves | src/aidl/vcomponent_CompositeInputPort.cpp:876-976 | Only the owning call can take a port out of a transient state. |
| Protocol.SessionCoupling | src/aidl/vcomponent_CompositeInputPort.cpp:806-976 | The epoch is odd iff the port is not CLOSED iff controller and listener are both set; CLOSED means no flag and no recipient; a cleanup of the current session never finds the port CLOSED; the listener notified in STARTING is the one of that session. |
| Protocol.DeathIsNeverDropped | src/aidl/vcomponent_CompositeInputPort.cpp:1654-1782 | A delivered death is, in every later state, exactly one of: its session is over, the flag is set with no cleanup for it in flight, or one single cleanup for it is in flight with the flag clear; a set flag belongs to the current session. |
| Protocol.ExecExtends | src/aidl/vcomponent_CompositeInputPort.cpp:826-969 | Over any run the epoch only grows, deliveries are never forgotten, and both logs are only appended to. |
| Protocol.Quiescence | src/aidl/vcomponent_CompositeInputPort.cpp:1067-1229 | With no call in flight: one slot per STARTED port, no port between states, every period ended has given its slot back, and every delivered death has ended its session or is parked as a flag on a STARTED port. |
| Protocol.DeadSessionsEnd | src/aidl/vcomponent_CompositeInputPort.cpp:1654-1782 | The implicit stop and close promised on client death, exactly: once a port's calls are done every delivered session is over if and only if no cleanup was left deferring its close stage on a STARTED port with nobody bound to its tail and no stop entered since. |
| Protocol.StaleStaysOut | src/aidl/vcomponent_CompositeInputPort.cpp:1675-1821 | Once its session is over, a cleanup never again changes state, epoch, flag, controller, listener or recipient, in any run. |
| Protocol.EachPeriodEndsOnce | src/aidl/vcomponent_CompositeInputPort.cpp:1176-1229 | For each period a port spends started, exactly one transition to STOPPING and exactly one slot release happen, counted over the run, up to the period still running and the release still on its way. |
| Protocol.RaceHasOneWinner | src/aidl/vcomponent_CompositeInputPort.cpp:1687-1762 | Once one racer has taken STARTED to STOPPING, no call does so again before the port is started anew. |
| Protocol.StepCounts | src/aidl/vcomponent_CompositeInputPort.cpp:1751-1761 | The history counters count exactly the transitions read off the port's states, and each release lowers the shared counter by one. |
| Protocol.LifecycleGrammar | src/aidl/vcomponent_CompositeInputPort.cpp:806-976 | The states any port visits in any run spell (CLOSED OPENING (aborted or READY (STARTING STARTED STOPPING READY)* CLOSING))* CLOSED, cut off at any point. |
| Protocol.PublicationIsFaithful | src/aidl/vcomponent_CompositeInputPort.cpp:841-948 | In every interleaving each published event is a transition really made, none is published twice, none belongs to an aborted open, and the event into a transient state precedes the one out of it; with no call in flight, the transitions not published are exactly those of aborted opens. |
| Protocol.SerialPublication | src/aidl/vcomponent_CompositeInputPort.cpp:844-893 | If calls on a port never overlap, the published log equals the transition log with aborted opens left out. |
| Protocol.CleanupRefinesStopAndClose | include/aidl/vcomponent_CompositeInputPort.h:369-382 | Undisturbed, the death cleanup of a started session leaves the same port, counter and published events as stop followed by the owner's close, but for the record of the dead recipient. |
| Reachable.StepKeeps | src/aidl/vcomponent_CompositeInputPort.cpp:1067-1229 | Every enabled step of any call, any new call and any delivery keeps all invariants together and leaves the limit alone. |
| Reachable.Reached | src/aidl/vcomponent_CompositeInputPort.cpp:203-231 | All invariants hold after any run from the freshly loaded service. |
| Ownership.StepKeepsOwn | src/aidl/vcomponent_CompositeInputPort.cpp:780-1229 | Each step establishes what its call relies on at the next program counter, keeps the session coupling, and hands the ownership token on with the transient state. |
| Ownership.StepSparesOthers | src/aidl/vcomponent_CompositeInputPort.cpp:1182-1206 | No step of one call disturbs what any other call on the port relies on. |
| Ownership.StepKeepsObligation | src/aidl/vcomponent_CompositeInputPort.cpp:1654-1673 | A step passes the death obligation between flag and cleanup without losing or doubling it, or ends the session it belongs to. |
| Ownership.RunKeepsCore | src/aidl/vcomponent_CompositeInputPort.cpp:1675-1821 | One step of one call keeps ownership, session coupling and the death obligation for the port with all its calls. |
| Ownership.DeliverKeepsCore | src/aidl/vcomponent_CompositeInputPort.cpp:1639-1652 | Delivering a death creates its one obligation. |
| Slots.StepKeepsBooks | src/aidl/vcomponent_CompositeInputPort.cpp:1067-1220 | Every step moves the shared counter exactly as it moves slot holders and period counts, never above the limit. |
| Slots.HolderSeesSlot | src/aidl/vcomponent_CompositeInputPort.cpp:1217-1219 | Whoever is about to give a slot back finds the counter positive, so the guard is always true. |
| Deaths.ParkingIsTheDeferral | src/aidl/vcomponent_CompositeInputPort.cpp:1772-1782 | A step newly parks a dead session if and only if it is the close-stage deferral on a STARTED port with no call bound to its tail. |
| Deaths.StopEndsParking | src/aidl/vcomponent_CompositeInputPort.cpp:1184-1194 | A parked session is taken up again if and only if a stop leaves STARTED. |
| Deaths.ParkedIsStarted | src/aidl/vcomponent_CompositeInputPort.cpp:1709-1722 | A session can only be parked in STARTED, and then no cleanup for it is in flight. |
| Deaths.CleanupActsInItsSession | src/aidl/vcomponent_CompositeInputPort.cpp:1802-1811 | A cleanup changes session fields only inside its own session; outside it can at most publish an event it carries or give back the slot it holds. |
| Releases.GivesBackInSession | src/aidl/vcomponent_CompositeInputPort.cpp:1740-1762 | A cleanup makes the port READY inside its session; from there, in every run, as long as it still owes its slot the port is in that session iff no close has retired a session of the port since. |
| Releases.EndsByClose | src/aidl/vcomponent_CompositeInputPort.cpp:954-976 | While a cleanup of a session past its open is under way, a step of any other call ends that session iff it is the retiring region of close. |
| Publication.StepTreatsLogs | src/aidl/vcomponent_CompositeInputPort.cpp:841-893 | Every step is silent, makes one legal transition it will announce, announces the one it carries, or rolls an unannounced open back. |
| Publication.RunKeepsLogs | src/aidl/vcomponent_CompositeInputPort.cpp:1102-1136 | Every step keeps the two logs in agreement, whatever other calls are in flight. |
| Grammar.TrailIsSpelled | src/aidl/vcomponent_CompositeInputPort.cpp:806-976 | Every legal trail is spelled by the session grammar. |
| Grammar.SpelledIsLegal | src/aidl/vcomponent_CompositeInputPort.cpp:806-976 | Everything the grammar spells is a legal trail, so the grammar is exact. |
| Serial.ExecStaysUpToDate | src/aidl/vcomponent_CompositeInputPort.cpp:1102-1136 | While calls do not overlap, the only transition not yet published is the one carried by the single call in flight. |
| Overtaking.InOrderUnlessOvertaken | src/aidl/vcomponent_CompositeInputPort.cpp:1203-1212 | Once a port's calls are done, its published events are in the order of its transitions, and are exactly its transitions without aborted opens, iff no event was published while another call carried an earlier one. |
| Overtaking.StepStaysInStep | src/aidl/vcomponent_CompositeInputPort.cpp:1203-1212 | One step leaves the published events in order and ahead of all carried ones iff they were and it overtakes nothing. |
| Overtaking.AnnouncedIs | src/aidl/vcomponent_CompositeInputPort.cpp:844-893 | The announced transitions are, in order, all transitions that belong to no aborted open. |
| Overtaking.NoOverlapNoOvertaking | src/aidl/vcomponent_CompositeInputPort.cpp:1182-1225 | Calls that do not overlap overtake nothing. |
| Drain.RankDrops | src/aidl/vcomponent_CompositeInputPort.cpp:1067-1174 | Every step of a call lowers its rank, the call of the pending cleanup at its tail included. |
| Drain.RunsAreBounded | src/aidl/vcomponent_CompositeInputPort.cpp:1167-1225 | The calls in flight can take no more steps than their ranks add up to, in any interleaving. |
| Drain.SomeCallCanRun | src/aidl/vcomponent_CompositeInputPort.cpp:780-1229 | Until everything is finished some call can step. |
| Drain.CanDrain | src/aidl/vcomponent_CompositeInputPort.cpp:780-1229 | From every state the calls in flight can be brought to an end without any new call. |
| Drain.SoloIsARun | src/aidl/vcomponent_CompositeInputPort.cpp:780-995 | What a call does undisturbed is a run of the step system. |
| Drain.SoloOpen | src/aidl/vcomponent_CompositeInputPort.cpp:806-900 | Undisturbed open of a closed port: CLOSED to READY with both events published and the recipient linked if the listener is remote. |
| Drain.SoloOpenAborted | src/aidl/vcomponent_CompositeInputPort.cpp:841-870 | Open for a client already gone ends CLOSED with the epoch advanced twice, nothing published and the error answered. |
| Drain.SoloStart | src/aidl/vcomponent_CompositeInputPort.cpp:1071-1170 | Undisturbed start below the limit takes one slot, publishes two events and ends in its tail. |
| Drain.SoloStop | src/aidl/vcomponent_CompositeInputPort.cpp:1182-1225 | Undisturbed stop publishes two events, gives the slot back and ends in its tail. |
| Drain.SoloClose | src/aidl/vcomponent_CompositeInputPort.cpp:918-994 | Undisturbed close by the owner publishes two events, retires the session and unlinks its recipient. |
| Drain.SoloRejected | src/aidl/vcomponent_CompositeInputPort.cpp:807-816 | Calls in the wrong state or by another controller change nothing and say so. |
| Drain.SoloStartRejected | src/aidl/vcomponent_CompositeInputPort.cpp:1073-1099 | A start over the limit or in the wrong state leaves port and counter as they were. |
| Drain.SoloParkedStop | src/aidl/vcomponent_CompositeInputPort.cpp:1654-1673 | A lone stop of a parked session runs the deferred cleanup to CLOSED. |
| Locks.LockDiscipline | src/aidl/vcomponent_CompositeInputPort.cpp:1089-1103 | With both mutexes explicit: whoever holds `g_startedMutex` waits for no `m_mutex` and can act at once, no callback is dispatched under either, and some call can always go on, so there is no lock deadlock in spite of the nested acquisition. |
| Locks.LockedRunsAreRuns | src/aidl/vcomponent_CompositeInputPort.cpp:1071-1103 | Every run with explicit locks is a run of the atomic steps, so nothing proved about those is lost. |
| Locks.SlotsHolderKeeps | src/aidl/vcomponent_CompositeInputPort.cpp:1214-1220 | Nobody else's step can make the holder of `g_startedMutex` need a port lock. |
| Locks.CallsOutOrLocks | src/aidl/vcomponent_CompositeInputPort.cpp:1071-1136 | A step dispatches a callback or binder call iff it needs neither mutex. |
| Witnesses.ADeadSessionCanBeLeftStarted | src/aidl/vcomponent_CompositeInputPort.cpp:1772-1782 | A concrete run after which every call has finished and the dead client's session is still STARTED, slot taken and flag set. |
| Witnesses.StopRecovers | src/aidl/vcomponent_CompositeInputPort.cpp:1222-1225 | From any parked port one lone stop ends in CLOSED with the session retired and its slot freed. |
| Witnesses.ASlotCanBeGivenBackLate | src/aidl/vcomponent_CompositeInputPort.cpp:1748-1761 | A concrete run in which a cleanup gives its slot back only after the owner's close has ended the session. |
| Witnesses.EventsCanBeSeenOutOfOrder | src/aidl/vcomponent_CompositeInputPort.cpp:1203-1212 | A concrete run, brought to its end, after which observers of a port have seen READY after the STARTING that followed it. |
| Witnesses.AClosedPortCanBeStamped | src/aidl/vcomponent_CompositeInputPort.cpp:1138-1145 | A concrete run that leaves a start time on a CLOSED port. |
| CompositeInput.CompositeInputPort.constructor | src/aidl/vcomponent_CompositeInputPort.cpp:203-231 | A new port is closed, has never had a session, and holds the eight properties at zero. |
| CompositeInput.CompositeInputPort.Open | src/aidl/vcomponent_CompositeInputPort.cpp:780-901 | The object's new state is that of the protocol's undisturbed open, errors included; the controller handed out is new, its listener hears the connection state once iff the open succeeds; an aborted open ends the session's data too. |
| CompositeInput.CompositeInputPort.Close | src/aidl/vcomponent_CompositeInputPort.cpp:903-995 | The object's new state and answer are those of the protocol's undisturbed close; the data is reset only if the session ended. |
| CompositeInput.CompositeInputPort.Start | src/aidl/vcomponent_CompositeInputPort.cpp:1067-1174 | The object's and the counter's new state are those of the protocol's undisturbed start with its deferred cleanup; a refused start changes and reports nothing, an accepted one tells the session's listener the cached signal status and observers the cached telemetry. |
| CompositeInput.CompositeInputPort.Stop | src/aidl/vcomponent_CompositeInputPort.cpp:1176-1229 | The same for stop with its deferred cleanup. |
| CompositeInput.CompositeInputPort.CleanupAfterControllerDeath | src/aidl/vcomponent_CompositeInputPort.cpp:1675-1821 | The same for the death cleanup in every starting state. |
| CompositeInput.CompositeInputPort.RunPendingDeathCleanupIfNeeded | src/aidl/vcomponent_CompositeInputPort.cpp:1654-1673 | The same for the deferred cleanup: a clear flag changes nothing, a set one is consumed and run for the current epoch. |
| CompositeInput.CompositeInputPort.RetireSession | src/aidl/vcomponent_CompositeInputPort.cpp:954-976 | Ending a session clears controller, listener, recipient and flag, advances the epoch and resets the metrics. |
| CompositeInput.CompositeInputPort.ResetSessionState | src/aidl/vcomponent_CompositeInputPort.cpp:1539-1593 | The reset loop zeroes exactly the six session metrics that are numeric, keeping their type, and touches nothing else. |
| CompositeInput.CompositeInputPort.ResetHardwareBaselineForBoot | src/aidl/vcomponent_CompositeInputPort.cpp:1595-1618 | Boot clears the hardware snapshot and the supported signal properties only. |
| CompositeInput.CompositeInputPort.SetCapabilities | src/aidl/vcomponent_CompositeInputPort.cpp:242-254 | Installing capabilities keeps the supported list in step with them. |
| CompositeInput.StartedSlots.SetMaxConcurrentStartedPorts | src/aidl/vcomponent_CompositeInputPort.cpp:189-201 | The limit in force is never below one. |
| CompositeInput.CompositeInputPort.RegisterEventListener | src/aidl/vcomponent_CompositeInputPort.cpp:997-1026 | A listener is registered once, in order; a null one is refused. |
| CompositeInput.CompositeInputPort.UnregisterEventListener | src/aidl/vcomponent_CompositeInputPort.cpp:1028-1065 | Succeeds iff the listener is registered, and then removes it alone, keeping the order. |
| CompositeInput.CompositeInputPort.IsPropertyWritable | src/aidl/vcomponent_CompositeInputPort.cpp:1482-1498 | The scan answers by the first metadata entry for the property. |
| CompositeInput.CompositeInputPort.IsPropertyValueTypeValid | src/aidl/vcomponent_CompositeInputPort.cpp:1500-1537 | The scan answers by the first metadata entry; a null value never fits. |
| CompositeInput.CompositeInputPort.SetProperty | src/aidl/vcomponent_CompositeInputPort.cpp:1342-1405 | Status and cache of a single write; an accepted one is told to every observer in order, a refused one changes and notifies nothing. |
| CompositeInput.CompositeInputPort.SetPropertyMulti | src/aidl/vcomponent_CompositeInputPort.cpp:1407-1480 | The validate, write and notify loops amount to single writes in turn or to nothing at all, and every observer hears of every pair in list order. |
| CompositeInput.CompositeInputPort.GetProperty | src/aidl/vcomponent_CompositeInputPort.cpp:646-706 | Refuses exactly the invalid properties; before STARTING the signal properties read zero whatever the cache holds. |
| CompositeInput.CompositeInputPort.GetPropertyMulti | src/aidl/vcomponent_CompositeInputPort.cpp:708-778 | On a nonempty list of valid properties agrees element by element with the single read, absent becoming null; refuses otherwise. |
| CompositeInput.CompositeInputPort.GetStatus | src/aidl/vcomponent_CompositeInputPort.cpp:609-644 | Outside STARTING and STARTED the disconnected baseline, otherwise the snapshot. |
| CompositeInput.CompositeInputPort.ResetMetrics | src/aidl/vcomponent_CompositeInputPort.cpp:1231-1303 | Refused outside STARTED without effect; otherwise zeroes the metrics, stamps both clocks and reports each metric in order. |
| CompositeInput.CompositeInputPort.HandleUt | src/aidl/vcomponent_CompositeInputPort.cpp:256-537 | The effect of every control-plane command on status, cache, property events and the controller's listener, incomplete and invalid ones changing nothing. |
| Registry.UnregisterUndoesRegister | src/aidl/vcomponent_CompositeInputPort.cpp:1058-1064 | Unregistering a listener just registered restores the registry. |
| Registry.WithoutKeepsOthers | src/aidl/vcomponent_CompositeInputPort.cpp:1043-1058 | Unregistering removes that listener and no other. |
| Properties.BatchSucceedsIffEachDoes | src/aidl/vcomponent_CompositeInputPort.cpp:1407-1480 | A nonempty batch succeeds iff every element would succeed alone; otherwise the cache is unchanged and the status is that of the first element that fails. |
| Properties.ValidateThenWrite | src/aidl/vcomponent_CompositeInputPort.cpp:1426-1465 | Validating the whole batch first and writing afterwards is the same as single writes in turn, up to the first failure. |
| Properties.LastWriteWins | src/aidl/vcomponent_CompositeInputPort.cpp:1462-1465 | After a batch a property has the value of its last occurrence. |
| Properties.UnwrittenIsKept | src/aidl/vcomponent_CompositeInputPort.cpp:1462-1465 | Properties not in the batch keep their value. |
| Properties.UtWritesWhatItReports | src/aidl/vcomponent_CompositeInputPort.cpp:365-460 | A UT message writes to the cache exactly the properties it reports, in that order, iff it is not a valid video mode that changes the telemetry of a running port. |
| Properties.AVideoModeCanBeSilent | src/aidl/vcomponent_CompositeInputPort.cpp:443-475 | A started port without a signal that is told its video mode: the cached strength changes and no property event is sent. |
| Properties.ControllerHearsTheStatus | src/aidl/vcomponent_CompositeInputPort.cpp:312-316 | The controller is told what the status then says; a connection is reported iff it changed, while a signal or a video mode is reported each time. |
| Properties.ResetWritesWhatItReports | src/aidl/vcomponent_CompositeInputPort.cpp:1264-1299 | A metric reset writes to the cache exactly the properties it reports, in the order it reports them. |
| CompositeInput.CompositeInputPort.ReportReset | src/aidl/vcomponent_CompositeInputPort.cpp:1284-1299 | Six dispatches report each reset metric to every observer, in order. |
| CompositeInput.CompositeInputPort.ReportTelemetry | src/aidl/vcomponent_CompositeInputPort.cpp:1138-1165 | The property events that end start carry the cached telemetry, strength first. |
| Properties.AlwaysShaped | src/aidl/vcomponent_CompositeInputPort.cpp:213-228 | After any sequence of locked regions the cache has exactly the eight properties, a detected resolution is positive and implies a STABLE signal, and the port is active iff STARTED. |
| Properties.AlwaysTyped | src/aidl/vcomponent_CompositeInputPort.cpp:508-521 | With native metadata types and native SET_PROPERTY messages, every value keeps the type it was constructed with through telemetry, resets and writes, in any sequence. |
| Properties.UtKeepsTypesIffNative | src/aidl/vcomponent_CompositeInputPort.cpp:508-521 | A UT message keeps the types of the cache iff the value it sets is of the property's own type. |
| Properties.SessionEndResets | include/aidl/vcomponent_CompositeInputPort.h:402-419 | After any history of data regions, the end of a session zeroes the numeric session metrics, keeps signal properties and hardware snapshot, and shows clients the disconnected baseline. |
| Sessions.EveryPathIntoClosedResets | src/aidl/vcomponent_CompositeInputPort.cpp:854-976 | In every run of calls, deaths, writes and UT messages together, each step that takes a port into CLOSED, by whatever path, zeroes session metrics and counters and keeps the hardware snapshot. |
| Sessions.AlwaysInPhase | src/aidl/vcomponent_CompositeInputPort.cpp:1620-1637 | In every such run each port's data follows its state: well shaped, and `active` iff STARTED. |
| Sessions.ClosedPortIsStampedLate | src/aidl/vcomponent_CompositeInputPort.cpp:1142-1145 | In every such run a CLOSED port has a nonzero start time iff a start stamped a nonzero time after the port was last closed. |
| Sessions.ClosingEndsSession | src/aidl/vcomponent_CompositeInputPort.cpp:1793-1812 | The only steps into CLOSED are the three regions that end a session. |
| Sessions.RunsLift | src/aidl/vcomponent_CompositeInputPort.cpp:780-1229 | Every run of the calls alone is a run with the data beside it. |
| Tokens.Trim | src/utility/vcomponent_CompositeInputHelper.cpp:139-156 | The two index loops compute the trimmed string. |
| Tokens.TrimmedSplits | src/utility/vcomponent_CompositeInputHelper.cpp:139-156 | Trimming removes white space at both ends and nothing else. |
| Tokens.TrimmedIsUnique | src/utility/vcomponent_CompositeInputHelper.cpp:139-156 | There is only one string that trimming can give. |
| Tokens.FromString | src/utility/vcomponent_CompositeInputHelper.cpp:158-178 | The table scan finds the entry of the trimmed token, or there is none. |
| Tokens.FindIsEntry | src/utility/vcomponent_CompositeInputHelper.cpp:167-177 | A lookup answers with an entry of the table under that token, and fails only if there is none. |
| Tokens.SamePropertySameWord | src/utility/vcomponent_CompositeInputHelper.cpp:82-91 | Two known tokens mean the same property iff they trim to the same word. |
| ParseConfig.Parse | src/utility/vcomponent_CompositeInputParseConfig.cpp:610-703 | All or nothing for every store: accepts iff the path opens a complete and valid profile and then returns exactly what it holds; otherwise returns the default configuration and the first problem in reading order. |
| ParseConfig.AcceptsExactlyTheValid | include/utility/vcomponent_CompositeInputParseConfig.h:60-64 | No problem is reported iff every required field is present and readable, there is a port, port IDs are nonnegative and unique, every declared property and type is known, metadata follows the property order, and both limits are at least one. |
| ParseConfig.ReadPorts | src/utility/vcomponent_CompositeInputParseConfig.cpp:655-683 | The port loop stops at the first faulty or repeated port, and otherwise reads all of them in order. |
| ParseConfig.ReadPort | src/utility/vcomponent_CompositeInputParseConfig.cpp:473-507 | Reports the port's first problem in reading order, or returns the port as stored. |
| ParseConfig.ReadPlatformCapabilities | src/utility/vcomponent_CompositeInputParseConfig.cpp:518-576 | The same for the platform section; the parts read earlier are kept. |
| ParseConfig.ValidateProperties | src/utility/vcomponent_CompositeInputParseConfig.cpp:333-409 | Reports the first unsupported or repeated token, then a count mismatch, then the first metadata entry that is unknown, untyped, out of order or undescribed. |
| ParseConfig.DeclarationSound | src/utility/vcomponent_CompositeInputParseConfig.cpp:333-409 | It passes iff tokens are known and pairwise different and each metadata entry describes the token at its own index. |
| ParseConfig.PortSound | src/utility/vcomponent_CompositeInputParseConfig.cpp:488-506 | A port passes iff its fields are there and its declaration is valid. |
| ParseConfig.PlatformSound | src/utility/vcomponent_CompositeInputParseConfig.cpp:529-575 | The platform section passes iff its fields are there, both limits are at least one and its declaration is valid. |
| ParseConfig.ReadStringList | src/utility/vcomponent_CompositeInputParseConfig.cpp:281-321 | Reads every item in order or reports the first that cannot be read; an absent optional list is empty. |
| ParseConfig.ReadPropertyMetadata | src/utility/vcomponent_CompositeInputParseConfig.cpp:421-461 | Reads every entry in order or reports the first field that cannot be read. |
| ParseConfig.ReadStringField | src/utility/vcomponent_CompositeInputParseConfig.cpp:150-190 | Missing, unreadable and empty are told apart, in that order; an absent optional field keeps the caller's value. |
| ParseConfig.ReadInt32Field | src/utility/vcomponent_CompositeInputParseConfig.cpp:203-229 | A field that is there but no int32 is reported with its text; an optional one may be absent or empty. |
| ParseConfig.ReadBoolField | src/utility/vcomponent_CompositeInputParseConfig.cpp:242-268 | A field that is there but no boolean is reported with its text; an optional one may be absent or empty. |
| ParseConfig.DecimalRoundTrip | src/utility/vcomponent_CompositeInputParseConfig.cpp:88-107 | The integer parser reads back every index `std::to_string` writes, and refuses those beyond int32. |
| ParseConfig.ItemKeysDiffer | src/utility/vcomponent_CompositeInputParseConfig.cpp:308-312 | Different list entries are read from different keys. |
| Render.ParseUndoesRender | src/utility/vcomponent_CompositeInputParseConfig.cpp:636-698 | Every valid configuration has a store, and parsing that store is accepted and gives the configuration back. |
| Render.KeysDiffer | src/utility/vcomponent_CompositeInputParseConfig.cpp:486-494 | No two fields of a profile, in any section, share a key. |
| Render.JoinIsInjective | src/utility/vcomponent_CompositeInputParseConfig.cpp:443-452 | The parts of a key between dots can be told from the key. |
| Mapping.ToPortProperties | src/utility/vcomponent_CompositeInputHelper.cpp:275-297 | The loop yields the known tokens' properties in order, skipping the others. |
| Mapping.ToPropertyMetadata | src/utility/vcomponent_CompositeInputHelper.cpp:299-348 | The loop yields the known entries in order, description included, skipping the others. |
| Mapping.ToNullablePropertyMetadata | src/utility/vcomponent_CompositeInputHelper.cpp:350-371 | Null iff there are no entries, otherwise every mapped entry engaged. |
| Mapping.MapPortCapabilities | src/aidl/vcomponent_CompositeInputManager.cpp:89-102 | Both mappings applied to the one port entry. |
| Mapping.NothingIsSkipped | src/utility/vcomponent_CompositeInputHelper.cpp:281-294 | A token list maps entry by entry iff every token is known. |
| Mapping.NoEntryIsSkipped | src/utility/vcomponent_CompositeInputHelper.cpp:305-337 | The same for metadata entries. |
| Mapping.DeclaredIsFirstEntry | src/aidl/vcomponent_CompositeInputPort.cpp:1489-1495 | For an accepted port entry nothing is skipped, the port supports exactly the listed properties, and what it declares of one is the metadata at its first index. |
| Mapping.WritableIffProfileSays | src/aidl/vcomponent_CompositeInputPort.cpp:1482-1498 | A controller may write a property iff the profile lists it and the metadata at its first index is not read-only. |
| Mapping.WriteAnswersByProfile | src/aidl/vcomponent_CompositeInputPort.cpp:1342-1405 | The answer to a write, told from the profile entry alone. |
| Mapping.MapsInjectivelyIffTrimmedDiffer | src/utility/vcomponent_CompositeInputParseConfig.cpp:345-353 | Duplicates are compared untrimmed: an accepted list maps without repetition iff its tokens also differ once trimmed. |
| Mapping.AtMostEight | src/utility/vcomponent_CompositeInputParseConfig.cpp:333-360 | With tokens that differ once trimmed there are at most eight. |
| Mapping.UntrimmedListsAreUnbounded | src/utility/vcomponent_CompositeInputParseConfig.cpp:345-353 | Otherwise there is no bound: for every length an accepted declaration maps to that many copies of one property, of which only the first entry counts. |
| Manager.CompositeInputManager.constructor | src/aidl/vcomponent_CompositeInputManager.cpp:141-172 | A manager starts with the profile's ports, or with none and the limit untouched. |
| Manager.CompositeInputManager.LoadCapabilitiesFromConfig | src/aidl/vcomponent_CompositeInputManager.cpp:184-297 | Succeeds iff the profile is accepted; then there is one new, closed port per entry in the profile's order with the entry's identity, texts and capabilities, and the profile's limit is in force; on failure nothing changes. |
| Manager.CompositeInputManager.BuildPorts | src/aidl/vcomponent_CompositeInputManager.cpp:216-246 | For an accepted profile neither skip is ever taken: as many distinct ports as entries, in order. |
| Manager.CompositeInputManager.MapPlatformCapabilities | src/aidl/vcomponent_CompositeInputManager.cpp:256-285 | The published capabilities are the configuration's, with the port count clamped to a byte and the limit to at least one. |
| Manager.MaxPortsCovers | src/aidl/vcomponent_CompositeInputManager.cpp:259-270 | The published count is a positive byte, and covers the declared and the actual ports as far as a byte can iff their number fits an int32 or the declared one already exceeds a byte. |
| Manager.CompositeInputManager.GetPortIds | src/aidl/vcomponent_CompositeInputManager.cpp:439-463 | Every port's identity, in order. |
| Manager.CompositeInputManager.GetPort | src/aidl/vcomponent_CompositeInputManager.cpp:465-501 | The one port with the identity, or a refusal iff there is none. |
| Manager.CompositeInputManager.HandleQueuedUtMessage | src/aidl/vcomponent_CompositeInputManager.cpp:361-392 | A decoded message acts on the port it names, port 0 when it names none, and on no other. |
| Observed.ReadInWords | src/aidl/vcomponent_CompositeInputPort.cpp:674-703 | Outside STARTING and STARTED strength and quality read zero, whatever is cached; otherwise a supported property reads its cached value and an unsupported one is absent. |
| Observed.StatusInWords | src/aidl/vcomponent_CompositeInputPort.cpp:622-632 | In STARTING and STARTED clients get the snapshot as it is, otherwise a disconnected, inactive port without signal. |
| Observed.WrittenReadsBack | src/aidl/vcomponent_CompositeInputPort.cpp:1342-1405 | What a write accepted is read back, other properties read as before, and the status is not affected. |
| Observed.BatchReadsBack | src/aidl/vcomponent_CompositeInputPort.cpp:1407-1480 | After an accepted batch each property reads the last value given for it. |
| Observed.CheckInWords | src/aidl/vcomponent_CompositeInputPort.cpp:1351-1392 | The answer to a write by the supported list and the first metadata entry: unknown or unsupported, then read-only or undeclared, then wrong type. |
| Observed.FitsInWords | src/aidl/vcomponent_CompositeInputPort.cpp:1519-1533 | A value fits the one metadata type of its own kind; null fits none. |
| Observed.ConnectionInWords | src/aidl/vcomponent_CompositeInputPort.cpp:289-304 | A connection report sets the flag and, on a disconnect, clears the detected mode; nothing else changes. |
| Observed.SignalInWords | src/aidl/vcomponent_CompositeInputPort.cpp:342-374 | A known signal becomes the status, clears the mode unless stable, and sets -20/85, -50/20, 0/5 or 0/0 as telemetry exactly while the port is running. |
| Observed.VideoModeInWords | src/aidl/vcomponent_CompositeInputPort.cpp:403-460 | A complete mode is reported field by field with a stable signal; an incomplete or non-positive one changes nothing. |
| Observed.ClearInWords | src/aidl/vcomponent_CompositeInputPort.cpp:478-485 | Clearing the mode clears it and nothing else. |
| Observed.SetPropertyInWords | src/aidl/vcomponent_CompositeInputPort.cpp:487-521 | A UT property takes the long value if there is one, else the int value, as signed numbers. |
| Observed.IncompleteIsIgnored | src/aidl/vcomponent_CompositeInputPort.cpp:280-284 | Missing parameters and unknown tokens change nothing and nobody hears of them. |
| Observed.ControllerHears | src/aidl/vcomponent_CompositeInputPort.cpp:312-316 | With a listener there is exactly one call for each known signal, each complete mode and each connection that changes, with that value, and none otherwise; without one there is none. |
| Observed.ObserversHear | src/aidl/vcomponent_CompositeInputPort.cpp:385-391 | Observers hear of the telemetry of a running port, strength first, and of each property set over UT, and of nothing else. |
| Observed.ClientsReadTheSignal | src/aidl/vcomponent_CompositeInputPort.cpp:342-374 | On a started port that supports them, clients read the telemetry and the status of the signal just reported. |
| Observed.ResetInWords | src/aidl/vcomponent_CompositeInputPort.cpp:1245-1277 | A reset outside STARTED changes nothing; otherwise all six metrics are zero but the wall-clock timestamp, the start time restarts, and signals and status are kept. |
| Observed.ResetReportsInWords | src/aidl/vcomponent_CompositeInputPort.cpp:1284-1299 | Each metric is reported once, with the value now stored, the timestamp last. |
| Observed.SessionEndInWords | src/aidl/vcomponent_CompositeInputPort.cpp:1539-1593 | The end of a session zeroes int and long metrics, keeps metrics of other types, the signals and the snapshot. |
| Observed.BootInWords | src/aidl/vcomponent_CompositeInputPort.cpp:1595-1618 | Boot clears the snapshot and zeroes the supported signal properties; everything else is kept. |
| Observed.NewPortHoldsZeroes | src/aidl/vcomponent_CompositeInputPort.cpp:203-231 | A new port is closed and disconnected and holds zero for each of the eight properties, an int for quality and longs for the rest. |
| Observed.SignedInWords | src/aidl/vcomponent_CompositeInputPort.cpp:511-514 | An unsigned field is read as the signed number congruent to it. |
| CompositeInput.EachHearsAll | src/aidl/vcomponent_CompositeInputPort.cpp:1469-1473 | A batch of n pairs yields n times as many callbacks as there are observers, pair by pair and in the order of registration. |
| Registry.RegisteringAppends | src/aidl/vcomponent_CompositeInputPort.cpp:1009-1019 | A new listener is last and the others stay; a known one changes nothing. |
| Rounds.SessionRoundTrip | src/aidl/vcomponent_CompositeInputPort.cpp:780-1229 | Opened, started, stopped and closed by its own controller, a port is as before, its slot and its death link given back; only the epoch, the identities handed out and the history moved on, by exactly eight transitions and their eight events in order. |
| Rounds.OpenInWords | src/aidl/vcomponent_CompositeInputPort.cpp:806-893 | An accepted open gives the session that client's listener, a new controller, and a linked recipient exactly if the client is remote. |
| Rounds.AbortedOpenInWords | src/aidl/vcomponent_CompositeInputPort.cpp:841-870 | An aborted open makes two transitions nobody hears of and leaves no session. |
| Rounds.StartInWords | src/aidl/vcomponent_CompositeInputPort.cpp:1071-1136 | An undisturbed start takes one slot and announces two transitions. |
| Rounds.StopInWords | src/aidl/vcomponent_CompositeInputPort.cpp:1182-1220 | An undisturbed stop announces two transitions and gives the slot back. |
| Rounds.CloseInWords | src/aidl/vcomponent_CompositeInputPort.cpp:918-994 | An undisturbed close announces two transitions, ends the session and unlinks its recipient. |
| Rounds.CleanupOfStartedInWords | src/aidl/vcomponent_CompositeInputPort.cpp:1687-1818 | The cleanup of a started session announces four transitions, gives the slot back and ends the session. |
| Rounds.CleanupOfReadyInWords | src/aidl/vcomponent_CompositeInputPort.cpp:1764-1818 | The cleanup of a ready session closes it. |
| Rounds.CleanupDefersInWords | src/aidl/vcomponent_CompositeInputPort.cpp:1690-1722 | A cleanup in a transition leaves only the flag; one for another or a closed session leaves nothing. |
| Tokens.PropertyTokensInWords | src/utility/vcomponent_CompositeInputHelper.cpp:82-91 | Each of the eight property words means its own property. |
| Tokens.TypeTokensInWords | src/utility/vcomponent_CompositeInputHelper.cpp:116-123 | Each of the six type words means its own type. |
| Tokens.SignalTokensInWords | src/utility/vcomponent_CompositeInputHelper.cpp:93-98 | Each of the four signal words means its own status. |
| Numerals.IntegersReadBack | src/utility/vcomponent_CompositeInputParseConfig.cpp:88-107 | White space, a sign and a number in decimal, octal or hexadecimal, in either case and with padding zeroes, is read as that number if an int32 holds it and refused otherwise. |
| Numerals.OnlyIntegersAreRead | src/utility/vcomponent_CompositeInputParseConfig.cpp:88-107 | Nothing else is read: what is accepted is white space, at most one sign, a prefix and digits of its base to the end. |
| Numerals.MinusNegates | src/utility/vcomponent_CompositeInputParseConfig.cpp:95-105 | A minus sign negates, down to the least int32. |
| Numerals.NegativeIdIsRefused | src/utility/vcomponent_CompositeInputParseConfig.cpp:499-503 | A store with a port ID written as a minus sign and a positive number is refused. |
| Numerals.BooleansInWords | src/utility/vcomponent_CompositeInputParseConfig.cpp:117-137 | Four words are true, four are false. |
| Diagnosis.ReportedProblemsAreReal | include/utility/vcomponent_CompositeInputParseConfig.h:66-68 | Every problem reported is true of the store at the key or the place it names. |
| Diagnosis.PortFieldsByKey | src/utility/vcomponent_CompositeInputParseConfig.cpp:486-497 | Each field of a port is read from the key spelled for it. |
| Diagnosis.PlatformFieldsByKey | src/utility/vcomponent_CompositeInputParseConfig.cpp:536-555 | And each field of the platform. |
| Diagnosis.KeysAsWritten | src/utility/vcomponent_CompositeInputParseConfig.cpp:46-49 | The fixed keys are the ones the profile format names. |
| Mapping.PublishedMetadata | src/utility/vcomponent_CompositeInputHelper.cpp:350-371 | For an accepted declaration a port publishes one engaged entry per profile entry, field by field, or null for none. |
| Mapping.EntryMapsFieldByField | src/utility/vcomponent_CompositeInputHelper.cpp:326-336 | Key, type, both flags and the description of a metadata entry arrive as they are. |
| Manager.PlatformInWords | src/aidl/vcomponent_CompositeInputManager.cpp:256-285 | The published platform is the profile's field by field. |
| Manager.CompositeInputManager.AddressedInWords | src/aidl/vcomponent_CompositeInputManager.cpp:361-366 | Without a port field a UT message addresses port 0; otherwise the field as a signed number. |

## Left out

- Binder transport: linking is a success or failure chosen per call, delivery a step that happens at most once per linked recipient; reference counting, `pingBinder` and `flushCommands` are not modelled, and nothing is claimed about order in the remote process.
- Callbacks: a state event is an entry in the published log, a property event an entry in the result; that a callback may call back into the component is covered by letting any call run between steps.
- Controller-listener callbacks are contentless steps in the protocol, except which listener start notifies; what they say is in the results of `Open`, `Start` and `HandleUt` of the port class.
- CompositeInput.CompositeInputPort.HandleUt: property events and controller callbacks are two lists, so their order relative to each other is not modelled; decoding of the command is foreign code.
- CompositeInput.CompositeInputPort.Start: runs without interference, like the other methods of the class; the interleavings are in the step system (`Service`, `Protocol`), and, with cache, status and counters, in `Sessions`.
- Manager.CompositeInputManager.LoadCapabilitiesFromConfig: takes the store that opening the file gives; creating, opening and destroying the KVP instance is foreign code, and the number of ports is taken as it is, wrap included (`Manager.MaxPortsCovers`).
- ParseConfig.ReadStringField: the fixed buffer a text is copied through is not modelled.
- Manager.CompositeInputManager.constructor: loads the profile only; starting the control plane and its worker thread is not modelled.
- ParseConfig.Parse: the error is a datatype naming rule and key, not the message text.
- The integer notation is that of C17 `strtol` with base 0; binary prefixes of later standards are not modelled.
- Null out-parameters, logging, and the getters that copy one field.
- Clocks: times are arbitrary inputs, and nothing is said about elapsed time; no counter metric is ever advanced by the code.
- Frame rates are reals; only their sign matters to the code. The epoch is a natural number and does not wrap.
- The started-port limit is fixed when the profile is loaded; changing it while ports run is not modelled.
- The UT queue and socket, the inventory text, the service entry point, the controller's forwarding methods and the listener dispatch files are plumbing and would only add easy members.
