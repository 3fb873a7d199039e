# Verified model of the apartment control backend

A Django backend drives Beckhoff PLCs over ADS: it caches a live connection, subscribes automation
rules to PLC variables, fades and chases lights on background threads, scans an apartment's devices,
limits requests, and pushes events to clients. This project models the state machines behind that
and proves what they keep, over every run or every interleaving, with registrations, reads, writes
and database calls that may fail at any point.

Verify it with `dafny verify dfyconfig.toml` (Dafny 4.11).

| File | Subject |
|---|---|
| `Notifications.dfy`, `Automation.dfy` | the listener tables, the rule table on top of them, dispatch and execution of fired rules |
| `AdsClient.dfy` | connection, handle cache, reconnect thread, route repair, at lock granularity |
| `FadePlan.dfy`, `Fades.dfy` | level arithmetic of a DALI fade; fade threads cancelled by generation tokens |
| `Chase.dfy` | start, stop and exit of light shows; the bouncing pattern |
| `Protocols.dfy` | write-then-pulse commands against a controller that captures on a rising edge; active device tests |
| `ScanRows.dfy`, `ScanLaws.dfy`, `SuperScan.dfy`, `ScanLaunch.dfy` | capability rows, the laws of scans and histories of scans, the scan engine, a scan launched on a registry and its devices |
| `RateLimiter.dfy` | the pruned sliding window against the full admission history, in and out of clock order |
| `EventBus.dfy` | bounded per-client queues that drop the oldest event, against the log of all broadcasts |
| `Heartbeat.dfy` | outage alerts over sequences of checks whose saves and sends may raise |
| `FullState.dfy` | the full-state read cut short by a dead PLC, and the Modbus gap fill |
| `MapVersions.dfy` | bulk save, publish and restore of a map |
| `Relabel.dfy` | incremental registry updates against a reload from scratch |
| `Common.dfy` | shared datatypes |

Code that computes a value is a function; code that changes state is a method, in a class where the
source has one, that follows the source statement by statement and is proved against a functional
description of the step. The main results are lemmas over whole runs of those steps. What the outside
world does (the PLC, the database, the clock, the order of threads) is an argument of the step.

Where the code and its comments disagree the model follows the code:

- A failed incremental update after a relabel is logged as "will pick up on next restart"
  (`find_device/relabel_views.py:202`, `:338`). For an input index out of range the next load raises
  instead (`Relabel.PoisonedReload`).
- The docstring of the route repair says the client's lock is held by `connect()`
  (`find_device/plc/ads_client.py:249`), but `connect()` does not hold it there; the model lets other
  threads in between.
- The rate limiter reads its clock before it takes its lock. In clock order the deque decides as the
  full history; out of order it may refuse too much or admit too much (`RateLimiter.OutOfOrderRefuses`,
  `RateLimiter.OutOfOrderOverAdmits`), and the limits hold for windows shortened by the skew.
- The heartbeat task promises an alert on every recovery. It saves the end of the outage before it
  sends, so a send that raises loses that alert (`Heartbeat.LostRecovery`).

Properties one might expect that do not hold, each with an input that shows it and the exact condition
under which it does:

| property | input | condition |
|---|---|---|
| a refused subscription leaves all three tables alone | `Notifications.RefusedResubscribeDropsListener`, `Notifications.RefusedSubscribeLeavesType` | `Notifications.RefusedSubscribe` |
| a completed command is captured | `Protocols.StuckFlagLosesOne` | `Protocols.CompletedCommand` |
| an active test whose calls all return passes | `Protocols.RelayFlashLost` | `Protocols.TestRestores` |
| a dimmer's raw level survives its active test | `Protocols.RawLevelLost` | `Protocols.DaliByteAfterTest` |
| an accepted relabel leaves the registry equal to a reload | `Relabel.OutOfRangeInputPoisons`, `Relabel.SchemeRowDoubled` | `Relabel.AssignKeepsSync` |
| a restore leaves every published object | `MapVersions.RestoreLosesObjects` | `MapVersions.RestoreRebuilds` |
| the deque decides what the history decides | `RateLimiter.OutOfOrderRefuses`, `RateLimiter.OutOfOrderOverAdmits` | `RateLimiter.StepBalance`, with `RateLimiter.OnlyDisorderRefuses` and `RateLimiter.OnlyLateRequestsOverAdmit` for what must have happened before |
| an outage is announced exactly once | `Heartbeat.SpacingMatters` | `Heartbeat.AnnouncedOnce` |

## Model

| member | source | states |
|---|---|---|
| `Notifications.RunKeepsWellFormed` | find_device/plc/ads_notifications.py:108-171 | over every run of subscribe, unsubscribe, unsubscribe-all and restore, however registrations fail, callback lists are non-empty and free of repeats, every handle has listeners and every listened variable has a type |
| `Notifications.RunKeepsCovered` | find_device/plc/ads_notifications.py:108-213 | without restores, every listened variable keeps its handle (its entry in the handle table) over every run |
| `Notifications.StepKeepsCovered` | find_device/plc/ads_notifications.py:202-241 | one operation keeps a handle for every listened variable exactly when it is not a restore in which the PLC refuses one of them |
| `Notifications.SubscribeAccepted` | find_device/plc/ads_notifications.py:77-140 | exactly when a subscription succeeds, and then: callback listed once, in order, variable registered and typed, no other variable touched |
| `Notifications.RefusedSubscribe` | find_device/plc/ads_notifications.py:111-138 | a refused subscription leaves handles alone, always stores the type, and leaves listeners alone exactly when the callback was not listed before; so all three tables are as before exactly when the callback was new and the type was stored already |
| `Notifications.RefusedResubscribeDropsListener` | find_device/plc/ads_notifications.py:111-138 | a concrete run in which a listed callback is lost by a refused retry |
| `Notifications.RefusedSubscribeLeavesType` | find_device/plc/ads_notifications.py:111-138 | on empty tables a refused subscription leaves a type entry, which no unsubscribe takes out |
| `Notifications.UnsubscribeUndoesSubscribe` | find_device/plc/ads_notifications.py:77-171 | unsubscribing a callback that was new restores listeners and handles exactly |
| `Notifications.UnsubscribeExact` | find_device/plc/ads_notifications.py:142-171 | one callback leaves one variable, nothing else; the registration is cancelled exactly when nobody is left |
| `Notifications.RestoreExact` | find_device/plc/ads_notifications.py:215-241 | after a restore exactly the accepted variables hold one handle each, of this session, and listeners are untouched |
| `Notifications.DeliveredOnce` | find_device/plc/ads_notifications.py:386-411 | draining a queue calls each listener of a variable exactly once for each time the event is queued, and nobody else |
| `Notifications.NotificationManager.SubscribeTo` | find_device/plc/ads_notifications.py:77-140 | the method moves the three tables as the functional description says, and refuses in mock mode without registering |
| `Notifications.NotificationManager.UnsubscribeFrom` | find_device/plc/ads_notifications.py:142-171 | same, for removing one callback or all of a variable |
| `Notifications.NotificationManager.UnsubscribeEverything` | find_device/plc/ads_notifications.py:202-213 | the loop over all variables leaves no listener and no handle |
| `Notifications.NotificationManager.RestoreAll` | find_device/plc/ads_notifications.py:215-241 | the re-registration loop yields the restored table |
| `Notifications.NotificationManager.Notify` | find_device/plc/ads_notifications.py:302-326 | a PLC notification is queued behind what is there |
| `Notifications.NotificationManager.Drain` | find_device/plc/ads_notifications.py:386-411 | the dispatch loop empties the queue and calls every listener of each event, first event first |
| `Automation.TablesRefineWatching` | find_device/plc/registry.py:314-403 | over start-up and every serial run of reloads and removals, with registrations refused at will, rule table and listener table stay in bijection and equal one map from rule to what it watches |
| `Automation.RegisteredIffWatched` | find_device/plc/registry.py:323-347 | a variable has an entry in the handle table exactly when a loaded rule watches it |
| `Automation.StartWatches` | find_device/plc/registry.py:314-347 | at start-up, when every handle asked for is given, exactly the enabled rules whose trigger exists are loaded, each on its trigger's variable and state |
| `Automation.ReloadWatches` | find_device/plc/registry.py:386-403 | when a reload leaves its rule loaded, and what it then watches; every other rule is as it was |
| `Automation.EventFiresExactly` | find_device/plc/registry.py:337-345 | one event reaches the executor once for each loaded rule on that variable waiting for that value, and for no other rule |
| `Automation.DispatchExactly` | find_device/plc/ads_notifications.py:386-411 | in every interleaving of the dispatch thread with new events, reloads and removals: events are popped first in first out, and a rule's executor calls, made and still pending, are exactly one per popped event that matched what the rule watched at that pop |
| `Automation.HubKeepsUp` | find_device/plc/ads_notifications.py:386-411 | in every such interleaving no event is lost or reordered on arrival, and the tables are what the rule changes alone make of them |
| `Automation.PendingDrains` | find_device/plc/ads_notifications.py:386-411 | as many turns as there are callbacks at hand make every executor call owed |
| `Automation.ExecutesExactly` | find_device/plc/registry.py:349-384 | an executor call writes a command exactly when the enabled row orders it (brightness the stored number, on exactly for the text "true", curtain stop, up and down to their constants), and nothing exactly when rule or device is missing, the value unreadable or the toggle read-only |
| `Automation.CommandsExactly` | find_device/plc/registry.py:337-384 | in every such interleaving a rule whose row orders a command writes it once per popped event that matched, callbacks still to run counted in |
| `Automation.WritesFollowRows` | find_device/plc/registry.py:349-384 | in every such interleaving, with the database changing at will, a rule writes only what its row orders when its callback runs |
| `Automation.DisabledRuleIsSilent` | find_device/plc/registry.py:352-355 | a rule that is disabled or deleted when its callbacks run writes nothing, whatever was queued or snapshot before |
| `Automation.DeviceRegistry.SubscribeAutomation` | find_device/plc/registry.py:323-347 | the two tables move together, or not at all |
| `Automation.DeviceRegistry.RemoveAutomation` | find_device/plc/registry.py:397-403 | pop and unsubscribe match the removal step |
| `Automation.DeviceRegistry.ReloadAutomation` | find_device/plc/registry.py:386-395 | remove, re-read the row, subscribe if enabled |
| `Automation.DeviceRegistry.LoadAutomations` | find_device/plc/registry.py:314-321 | the start-up loop equals the sequential load |
| `Automation.DeviceRegistry.Dispatch` | find_device/plc/registry.py:337-384 | draining the queue calls the executor for each rule once per queued event that matches what it watches, and each command is written once per callback that finds a row ordering it |
| `AdsClient.EveryInterleaving` | find_device/plc/ads_client.py:151-411 | in every interleaving: at most one reconnect thread alive; a connected real client has a connection; every cached handle was issued by the connection there is; route repairs are at least the cooldown apart |
| `AdsClient.HandleIsCurrent` | find_device/plc/ads_client.py:537-587 | in every reachable state a handle handed out was issued by the connection there is, never an earlier one |
| `AdsClient.HandleOfLostConnection` | find_device/plc/ads_client.py:537-565 | a concrete run in which that connection is already known to be lost and its handle is still handed out |
| `AdsClient.HandleServed` | find_device/plc/ads_client.py:537-565 | a fresh handle is the one the target answers, and is served from then on |
| `AdsClient.ErrorKinds` | find_device/plc/ads_client.py:398-473 | for reads and writes alike: a call that goes through is counted and changes nothing else, a symbol error changes nothing; a transport error disconnects, is counted, keeps the cache, and leaves exactly one reconnect thread |
| `AdsClient.EpochsIncrease` | find_device/plc/ads_client.py:195-225 | a connection published later is newer than every one before |
| `AdsClient.ReopeningConnects` | find_device/plc/ads_client.py:190-225 | an opening the target answers connects the client over a new connection with an empty cache, is counted once, ends the thread, and the next read or write goes through |
| `AdsClient.OnlyReopeningConnects` | find_device/plc/ads_client.py:190-225 | a step connects a client that is down exactly when it is such an opening |
| `AdsClient.UpAgain` | find_device/plc/ads_client.py:335-379 | over every run that takes a client from down to up there was such an opening, before which it was still down |
| `AdsClient.OutageEnds` | find_device/plc/ads_client.py:335-379 | a read that meets an outage starts a thread that, with the target up a second later, has the client connected again, also after an earlier stop |
| `AdsClient.AttemptFails` | find_device/plc/ads_client.py:166-192 | a refused attempt leaves the thread at the top of its loop with one more failure; the repair is tried only when due, and uses the cooldown even without credentials |
| `AdsClient.RepairedAttemptFails` | find_device/plc/ads_client.py:166-192 | when the route is added and the second opening fails too, both failures are counted |
| `AdsClient.StoppedThreadEnds` | find_device/plc/ads_client.py:349-383 | a stopped thread that has not begun an attempt never begins one |
| `AdsClient.BackoffSchedule` | find_device/plc/ads_client.py:349-379 | waits double from one second to the cap, then stay |
| `AdsClient.WaitIsKept` | find_device/plc/ads_client.py:358-370 | a thread already waiting makes no attempt before its wait is over, whatever else happens, unless it is stopped |
| `AdsClient.BackoffKept` | find_device/plc/ads_client.py:349-379 | over every run in which nobody stops it, a reconnect thread at the top of its loop after some failures attempts again no sooner than the backoff for that many failures later |
| `AdsClient.ADSClient.ReadVariable` | find_device/plc/ads_client.py:413-443 | a read updates flags, counters and thread as its step says, whatever the outcome |
| `AdsClient.ADSClient.WriteVariable` | find_device/plc/ads_client.py:445-473 | a write likewise; in mock mode it does nothing and raises nothing |
| `AdsClient.ADSClient.FetchHandle` | find_device/plc/ads_client.py:537-565 | cache hit, fresh handle or none, with the cache updated accordingly |
| `AdsClient.ADSClient.LaunchReconnectThread` | find_device/plc/ads_client.py:335-347 | a thread is started exactly when none is alive |
| `AdsClient.ADSClient.TryRouteRepair` | find_device/plc/ads_client.py:240-290 | a route is added only when the failure looks like one, credentials exist and the cooldown is over; the attempt starts the cooldown |
| `AdsClient.ADSClient.Advance` | find_device/plc/ads_client.py:151-225 | one step of a reconnect thread performs the step of the protocol |
| `AdsClient.ADSClient.Interleave` | find_device/plc/ads_client.py:349-379 | any sequence of steps on the object equals the run of the protocol |
| `FadePlan.PctRoundTrip` | find_device/plc/devices.py:71-75 | byte of a percentage reads back as the percentage, clamped |
| `FadePlan.ByteRoundTrip` | find_device/plc/devices.py:71-75 | a reading written back reads the same; the raw byte survives exactly when a percentage maps to it |
| `FadePlan.PlanShape` | find_device/plc/devices.py:157-168 | an uninterrupted fade makes 2 to 16 writes, in between one per tenth of a second, monotone, never beyond the target, steps at most the ceiling of the even share, last write on the target |
| `FadePlan.PlannedSleep` | find_device/plc/devices.py:158-168 | writes and pauses share the duration evenly; the pauses add up to less than the duration exactly when the duration is positive, which every admitted fade's is (`views.py:155-172`, `:371`); zero and negative durations need a direct call of `fade_to` |
| `FadePlan.FadeTo` | find_device/plc/devices.py:141-168 | the loop writes the whole plan, or the plan up to the first refusal or failed write |
| `Fades.EveryInterleaving` | find_device/plc/registry.py:420-452 | in every interleaving: at most one write after being superseded, one current fade per channel, only a superseded or failed fade stops early, a completed one wrote its whole plan |
| `Fades.SupersededIsSilent` | find_device/plc/registry.py:441-443 | a superseded fade not between its check and its write never writes again |
| `Fades.FadeFollowsRequest` | find_device/plc/registry.py:433-452 | in every interleaving a fade is for the channel, target and duration requested, starts at the level its one read returned, and writes only between that level and the target |
| `Fades.FadeAlone` | find_device/plc/devices.py:157-168 | a fade nobody disturbs, whose calls return, writes its whole plan and leaves the channel on the target |
| `Fades.ChannelShowsLastWrite` | find_device/plc/devices.py:131-168 | in every interleaving a channel shows what was last written to it, by a fade or at once |
| `Fades.GenerationCounts` | find_device/plc/registry.py:437-439 | a channel's token counts the fades started on it and nothing else moves it |
| `Fades.ChannelsAreIndependent` | find_device/plc/registry.py:420-452 | a channel ends where its own steps alone lead, whatever happens on the others |
| `Fades.DaliFader.FadeDali` | find_device/plc/registry.py:433-452 | refuses an unknown channel, else bumps the token and starts a thread holding it |
| `Fades.DaliFader.ShouldContinue` | find_device/plc/registry.py:441-443 | true exactly while the thread's token is the channel's |
| `Fades.DaliFader.Advance` | find_device/plc/devices.py:157-168 | one step of a fade thread performs the step of the protocol |
| `Chase.EveryInterleaving` | find_device/lighting_effects.py:55-85 | in every interleaving: a registered entry is an unfinished, unsignalled show of that apartment; an unregistered unfinished show is signalled or its stop is in flight; with no stop in flight one unsignalled show per apartment |
| `Chase.ExitSparesOthers` | find_device/lighting_effects.py:152-160 | an exiting thread removes its own entry only |
| `Chase.SignalStays` | find_device/lighting_effects.py:73-85 | a stop signal is never taken back |
| `Chase.SignalledShowEnds` | find_device/lighting_effects.py:139-161 | in every interleaving a signalled show that looks once more is out of its loop for good |
| `Chase.StartToEnd` | find_device/lighting_effects.py:55-85 | from any state, a show started and stopped, or giving up by itself, leaves everything as it was but for its own signal |
| `Chase.ShowRegistry.StartChase` | find_device/lighting_effects.py:55-70 | a second start is refused; else a new show is registered |
| `Chase.ShowRegistry.PopStop` | find_device/lighting_effects.py:78-83 | the locked half of a stop takes out the entry it finds |
| `Chase.ShowRegistry.StopChase` | find_device/lighting_effects.py:73-85 | an uninterrupted stop signals and unregisters the show there is |
| `Chase.ShowRegistry.Finish` | find_device/lighting_effects.py:152-160 | the final block performs the exit step |
| `Chase.Bounces` | find_device/lighting_effects.py:133-151 | each step moves to a neighbouring light; a single light stays lit |
| `Chase.BeginsUpwards` | find_device/lighting_effects.py:133-151 | a show begins with the first light and goes up to the last |
| `Chase.VisitsEveryLight` | find_device/lighting_effects.py:133-151 | every light is lit within each full period from any step on |
| `Chase.RunChase` | find_device/lighting_effects.py:121-161 | the show sweeps exactly up to the first turn whose stop event is set, or whose flag is cleared at a positive multiple of ten; it shows just the pattern's light after each clean sweep, and ends dark where the last writes go through |
| `Chase.Sweep` | find_device/lighting_effects.py:101-111 | one sweep writes every output once, and a failed write leaves its output |
| `Protocols.CompletedCommand` | find_device/plc/devices.py:131-139 | a completed command leaves the flag low and is captured exactly when the rise finds the latch low |
| `Protocols.FlagAfter` | find_device/plc/devices.py:234-241 | exactly which failures, applied or not, leave the flag high |
| `Protocols.SerialCommands` | find_device/plc/devices.py:131-139 | over any serial sequence of completed commands, the values captured are exactly those with a scan since the previous pulse, in order; the flag ends low; the last captured value is in force |
| `Protocols.LastCommandInForce` | find_device/plc/devices.py:131-139 | with a scan in every gap all commands are captured and the last is in force |
| `Protocols.StuckFlagLosesOne` | find_device/plc/devices.py:737-754 | after a command whose reset write never arrived, the next command is lost and all later ones are captured |
| `Protocols.SetReadsBack` | find_device/plc/devices.py:131-139 | for every device type: a set call whose writes return, with no pulse still latched, succeeds exactly when the device takes the value, and then reads back as set |
| `Protocols.SetRaisesExactly` | find_device/plc/devices.py:234-241 | which failing writes make a set call raise, and that a first write that did not land leaves the device alone |
| `Protocols.TestRestores` | find_device/superscan.py:441-513 | if every call returns, an active test ends without error on the original reading (stop for a curtain) from any controller state; it passes, except a relay whose flash was lost while off |
| `Protocols.PassedExactly` | find_device/superscan.py:441-513 | whatever goes wrong: a test passes exactly when no call raised, the last reading is the first (stop for a curtain), and in between a relay or appliance read on, a toggle the opposite |
| `Protocols.FlashMoves` | find_device/superscan.py:441-513 | a healthy flash takes a lamp to 20 or 80 percent, at least 11 away, turns a toggle over, sends a curtain up, and switches a relay or appliance on |
| `Protocols.RelayFlashLost` | find_device/superscan.py:468-478 | a relay off with its flag left high fails its test although every call returns, and captures the restore only |
| `Protocols.DaliByteAfterTest` | find_device/superscan.py:451-466 | the dimmer's raw level after its test equals the one before exactly when a percentage maps to it |
| `Protocols.RawLevelLost` | find_device/superscan.py:451-466 | a lamp at raw level 1 passes its test and is left at 0 |
| `Protocols.DaliPassesUnseen` | find_device/superscan.py:451-466 | a dimmer with its flag left high passes although its flash was never captured |
| `Protocols.FailedReadLeavesLampOn` | find_device/superscan.py:468-478 | a failing read between flash and restore ends the test with an error and the lamp on |
| `Protocols.WritesIffRead` | find_device/superscan.py:441-536 | a test writes to its device exactly when its first read returns, never in mock mode; otherwise the device is as it was |
| `Protocols.Device.Pulse` | find_device/plc/devices.py:234-241 | the four statements of a command, each of which may raise, move the controller as the protocol says |
| `Protocols.Device.SetBrightness` | find_device/plc/devices.py:131-139 | percentage to byte, mock or pulse |
| `Protocols.Device.SetState` | find_device/plc/devices.py:300-309 | wall relay, appliance and toggle; a read-only toggle raises and writes nothing |
| `Protocols.Device.SetCommand` | find_device/plc/devices.py:448-456 | curtain buttons in order; an unknown command raises and writes nothing |
| `Protocols.Device.WriteTemplated` | find_device/plc/devices.py:737-754 | no write template raises; without a commit variable the value takes effect at once |
| `Protocols.Device.SafeActiveTest` | find_device/superscan.py:441-536 | the five branches agree with one uniform description: read, flash, look, restore, compare, ended by the first failing call |
| `ScanRows.KnownCapabilities` | find_device/superscan.py:197-228 | every key of every dictionary once, with its direction, so keys are distinct |
| `ScanRows.MarksAreTouches` | find_device/superscan.py:297-300 | before the removal pass the run's mark is on exactly the touched rows, and nothing present was turned off |
| `ScanRows.PresentAfterScan` | find_device/superscan.py:426-435 | after the removal pass exactly the touched rows are present |
| `ScanRows.WritableItems` | find_device/superscan.py:327-328 | the filter keeps exactly the outputs of a testable type, each once |
| `ScanRows.TestsExactly` | find_device/superscan.py:367-368 | a full or deep scan tests the first sixty outputs with a safe test, in order, all of them if there are fewer; other modes none |
| `ScanLaws.ScanBalance` | find_device/superscan.py:350-435 | a completed scan: present rows are the known capabilities and reported symbols; present before + new - removed (+ new symbols of a deep scan) = present after; without a deep pass that is the number of known capabilities |
| `ScanLaws.StoppedRunKeepsPresent` | find_device/superscan.py:166-181 | a run stopped or failed before its removal pass turns no row off and adds just what it touched |
| `ScanLaws.ValueIsLatestReading` | find_device/superscan.py:261-304 | after any history of scans, complete or not, a known capability's value is its most recent successful reading |
| `ScanLaws.ConfidenceIsLastRead` | find_device/superscan.py:279-295 | confidence is high exactly when the last reading succeeded |
| `ScanLaws.StatusAfterScan` | find_device/superscan.py:300-419 | the status a completed scan leaves on every known row: its test's verdict if it was tested, else observed or what was there |
| `ScanLaws.SymbolKeysAre` | find_device/superscan.py:590-628 | the rows a deep scan reports are those of the named symbols of a device list that no known item touches, under their first hundred characters |
| `ScanLaws.NewRunUnseen` | find_device/superscan.py:429-433 | a new run finds no row marked with its id, whatever ran before |
| `SuperScan.SuperScanEngine.ReadItem` | find_device/superscan.py:336-359 | one item: cancel check, progress, upsert, status, and the value left on the row |
| `SuperScan.SuperScanEngine.ReadPass` | find_device/superscan.py:336-364 | new and changed counts against the rows as they were; a stop leaves a prefix of the plan |
| `SuperScan.SuperScanEngine.TestPass` | find_device/superscan.py:366-419 | active tests in order, one log row each, tested = passed + failed |
| `SuperScan.SuperScanEngine.UnknownPass` | find_device/superscan.py:574-628 | a row for each symbol of a device list no known capability touches, and their count |
| `SuperScan.SuperScanEngine.Execute` | find_device/superscan.py:166-185 | whatever is cancelled or raises: the rows are those of a prefix of the plan, the whole plan when completed, with the balance of the counts; the first sixty testable outputs tested, each with one log row in order and its verdict (none in passive and quick mode), passed, changed and unknown counted item by item, last step = total steps |
| `ScanLaunch.RunInBackground` | find_device/superscan.py:103-115 | the same for a scan over the capabilities enumerated from a registry: as many tests as it has writable outputs, sixty at most, each log row with the verdict of the active test of the device behind its key |
| `ScanLaunch.WrittenIffRead` | find_device/superscan.py:383-396 | however far a scan gets: a device is written to exactly when its test found the controller connected and its first read returned, never in mock mode; any other device is as it was |
| `ScanLaunch.HealthyScanRestores` | find_device/superscan.py:366-419 | in a scan whose calls return and whose controller stays connected every device tested ends on its original reading, stop for a curtain, and its log row says success, except exactly for a relay that is off and whose flash was lost to a flag left high |
| `RateLimiter.PrunedLimiterIsExact` | find_device/middleware.py:94-132 | on clock values that do not run back the pruned deque admits exactly what the full history would, and every closed window holds at most the larger limit of requests and the write limit of writes |
| `RateLimiter.WindowBound` | find_device/middleware.py:111-127 | the window bounds for any admission history, although reads and writes share a deque under different limits |
| `RateLimiter.PruneExact` | find_device/middleware.py:117-119 | pruning leaves exactly the entries of the window |
| `RateLimiter.PrunedRefinesFull` | find_device/middleware.py:111-127 | one request: same decision as the full history, and deque and history stay in step |
| `RateLimiter.StepBalance` | find_device/middleware.py:107-127 | in any order of clock values: the deque counts what the history counts exactly when it lost as many live entries as it keeps expired ones; and exactly when a request is admitted, or refused, against the history |
| `RateLimiter.OnlyLateRequestsOverAdmit` | find_device/middleware.py:107-127 | a request not behind the latest clock value loses no live entry, so only one that is behind can be admitted against the history |
| `RateLimiter.OnlyDisorderRefuses` | find_device/middleware.py:107-127 | a deque in clock order keeps no expired entry, so only one with an entry out of order can refuse against the history |
| `RateLimiter.OutOfOrderRefuses` | find_device/middleware.py:107-127 | two requests entering against clock order make the deque refuse what the history would admit |
| `RateLimiter.OutOfOrderOverAdmits` | find_device/middleware.py:107-127 | with a limit of 3 a request 1.5 seconds behind makes a closed window of the configured length hold 4 admitted requests |
| `RateLimiter.SkewedWindowBound` | find_device/middleware.py:94-132 | over every run in which no request is more than some skew behind, every closed window shorter by that skew holds at most the limits |
| `RateLimiter.RateLimitMiddleware.Call` | find_device/middleware.py:94-132 | which path and address is counted in which bucket; passed on exactly when the pruned deque is below the limit of that path and method (10 for logins), deque and history updated accordingly; with the skew zero exactly when the full history is below it |
| `RateLimiter.RateLimitMiddleware.Guarantee` | find_device/middleware.py:94-132 | at any moment, in whatever order requests came, the window bounds hold of everything admitted, for windows shortened by the skew seen: the larger limit and the write limit under /plc/, 10 for logins |
| `EventBus.EveryStep` | find_device/realtime/event_bus.py:279-317 | at every step of every interleaving each client was put exactly the broadcast log since its registration but for the event due to it, its queue is a contiguous end of that, at most 500 long, and broadcasts = received + dropped + pending + due |
| `EventBus.SinceRegistration` | find_device/realtime/event_bus.py:207-232 | from its registration on a client is put every event broadcast, heartbeats included, once and in order |
| `EventBus.GapCountsDrops` | find_device/realtime/event_bus.py:110-120 | between data events received with numbers a then b exactly b - a - 1 data events were dropped, heartbeats aside |
| `EventBus.OwnQueueOnly` | find_device/realtime/event_bus.py:207-246 | a consumer takes the oldest event of its own queue at any moment; clients come empty and go, outside broadcasts, and touch no other |
| `EventBus.ServeUninterrupted` | find_device/realtime/event_bus.py:297-310 | with no consumer between check, drop and put, one client's service is the drop-oldest append |
| `EventBus.ServeAll` | find_device/realtime/event_bus.py:279-317 | a broadcast no consumer disturbs ends, and each client still to serve was offered the event once, nothing else moved |
| `EventBus.PublishUninterrupted` | find_device/realtime/event_bus.py:89-120 | a publish and enough undisturbed steps leave count, log and all queues as one call of `PublishEvent` does, in whatever order clients are visited |
| `EventBus.BeatUninterrupted` | find_device/realtime/event_bus.py:187-205 | a heartbeat likewise as one call of `HeartbeatAll` |
| `EventBus.Bus.Broadcast` | find_device/realtime/event_bus.py:279-317 | every queue gets the event, the oldest dropped when full |
| `EventBus.Bus.PublishEvent` | find_device/realtime/event_bus.py:110-120 | a data event takes the next number |
| `EventBus.Bus.HeartbeatAll` | find_device/realtime/event_bus.py:187-205 | a heartbeat reaches every queue and takes no number |
| `EventBus.Bus.RegisterClient` | find_device/realtime/event_bus.py:207-232 | a new client starts with an empty queue, a known one keeps the queue it has, others untouched |
| `EventBus.Bus.TakeNext` | find_device/realtime/views.py:219-221 | a consumer gets the oldest pending event of its own queue, or nothing |
| `EventBus.Bus.UnregisterClient` | find_device/realtime/event_bus.py:234-246 | one client goes, others untouched |
| `Heartbeat.EveryOutageRecovers` | find_device/tasks.py:171-201 | with saves and sends that may raise: a recovery alert is sent off exactly for outages measured at the threshold or more, once, and every offline alert is followed by one unless its outage is open |
| `Heartbeat.DeliveredExactly` | find_device/tasks.py:171-201 | an alert is delivered exactly when the check that sent it off did not raise on its send, and nothing later changes that |
| `Heartbeat.LostAlertStaysLost` | find_device/tasks.py:173-182 | a recovery alert whose send raised is never delivered, whatever the later checks do |
| `Heartbeat.LostRecovery` | find_device/tasks.py:173-182 | a concrete run with such a loss |
| `Heartbeat.OutageMeasured` | find_device/tasks.py:171-193 | an outage begins at the first failed check whose save goes through and is measured to the check that clears it, with a recovery alert exactly from two minutes on |
| `Heartbeat.AnnouncedPerBandCheck` | find_device/tasks.py:185-201 | over every run an outage is announced once per effective failed check that falls in its band, the minute after the threshold |
| `Heartbeat.AnnouncedOnce` | find_device/tasks.py:185-201 | from a device never checked, an outage is announced exactly once exactly when exactly one check fell in its band |
| `Heartbeat.AtMostOncePerOutage` | find_device/tasks.py:185-201 | checks at least a minute apart announce no outage twice |
| `Heartbeat.AtLeastOncePerOutage` | find_device/tasks.py:185-201 | checks at most a minute apart announce every outage seen at the threshold |
| `Heartbeat.WholeRuns` | find_device/tasks.py:155-204 | the three results for every run from a device never checked |
| `Heartbeat.SpacingMatters` | find_device/tasks.py:185-201 | concrete runs: 50 seconds apart announces twice, 70 seconds apart never |
| `Heartbeat.HeartbeatTask.CheckOne` | find_device/tasks.py:171-201 | one check: what is saved, what is sent off, and exactly when it raises |
| `Heartbeat.HeartbeatTask.CheckAll` | find_device/tasks.py:155-204 | every apartment up to the first whose save or send raises takes its step as if alone, the rest are left out; a failing reachability check skips only its own |
| `FullState.CutPlace` | find_device/plc/registry.py:826-849 | exactly where the attempts stop: just after the first failure that finds the client disconnected |
| `FullState.CutConcat` | find_device/plc/registry.py:821-849 | the flag shared by the groups makes them behave as one concatenated group |
| `FullState.ReadGroup` | find_device/plc/registry.py:826-849 | one group: the devices attempted are that prefix, and every key is returned, with a value exactly for an attempt that answered |
| `FullState.ReadGroups` | find_device/plc/registry.py:807-849 | over all groups the attempts are a prefix of the concatenation, cut just after the first failure that finds the client disconnected; each group returns exactly its keys, a device its value exactly when attempted and answered, so all values when all answer |
| `FullState.SymbolErrorIsLocal` | find_device/plc/registry.py:838-846 | a symbol error blanks its own device; every group returns the keys and every other device the value it would return if the device had answered |
| `FullState.BatchReadGroup` | find_device/plc/registry.py:769-803 | a batch returns every channel once, with the decoded value or nothing |
| `FullState.FillGaps` | find_device/plc/registry.py:739-767 | Modbus fills empty bridged channels only and never replaces an ADS value |
| `FullState.ReadOutputs` | find_device/plc/registry.py:739-803 | DALI 1-16 and relays 1-4 fall back to Modbus, others to nothing |
| `MapVersions.RunKeeps` | find_device/map_views.py:321-336 | over every run versions are numbered 1..k, at most the newest is published, numbers and snapshots never change, and no object names a room, device or layer that is gone |
| `MapVersions.DeletionsAreLocal` | find_device/models.py:978-1003 | deleting a room, a device or layers takes them out of the objects that named them and changes nothing else about any object |
| `MapVersions.RestoreRebuilds` | find_device/map_views.py:384-410 | publish, any edits, restore: accepted exactly when rooms and devices exist, then the published objects in the same order, body, device, room and sort order equal, the layer where it still exists, fresh ids |
| `MapVersions.ReplaceShows` | find_device/map_views.py:208-239 | a bulk replacement is accepted exactly when every reference exists and shows the items in order |
| `MapVersions.PutObjectsShows` | find_device/map_views.py:180-239 | a bulk save shows its objects in the order sent |
| `MapVersions.RefusedRestoreIsPartial` | find_device/map_views.py:384-410 | a restore that meets a dangling reference leaves only the objects in front of it |
| `MapVersions.RestoreLosesObjects` | find_device/map_views.py:384-410 | a concrete run: two objects published, a room deleted, one object left after the refused restore |
| `MapVersions.DisplayOrdered` | find_device/models.py:1018-1045 | the display order of rows is total and by sort order, then id |
| `MapVersions.MapLayout.ReplaceObjects` | find_device/map_views.py:208-239 | the delete-and-create loop, row by row, stopped by the first dangling reference |
| `MapVersions.MapLayout.SeeLayers` | find_device/map_views.py:180-206 | the update-or-create loop with its set of seen ids |
| `MapVersions.MapLayout.SaveLayers` | find_device/map_views.py:180-206 | that loop and the removal of the layers not seen: afterwards the layers are the existing ones named and one new one for each other entry |
| `MapVersions.MapLayout.PublishVersion` | find_device/map_views.py:307-346 | next number, older version unpublished, snapshot of the display |
| `MapVersions.MapLayout.RestoreVersion` | find_device/map_views.py:371-413 | the objects of a version replace the current ones; an unknown version changes nothing |
| `Relabel.ReloadEqualsLive` | find_device/plc/registry.py:206-281 | the live dictionaries equal a reload from scratch, in any row order, exactly when they describe the rows and every row can be built |
| `Relabel.AssignKeepsSync` | find_device/relabel_views.py:187-199 | an accepted assignment leaves the registry equal to a reload exactly when a condition visible before the call holds |
| `Relabel.OutOfRangeInputPoisons` | find_device/relabel_views.py:324-341 | an accepted input index out of range, after which a reload fails |
| `Relabel.SchemeRowDoubled` | find_device/relabel_views.py:187-203 | an accepted assignment to a row with an address scheme, after which the registry holds an object a reload does not build |
| `Relabel.RunsKeepSync` | find_device/relabel_views.py:324-335 | after any number of calls whose accepted assignments met the condition, the registry equals a reload in any row order |
| `Relabel.OneObjectPerRow` | find_device/plc/registry.py:206-247 | a successful reload places each row in exactly one dictionary, once |
| `Relabel.LoadedObject` | find_device/plc/registry.py:206-247 | where the object of a row is after a reload, with the row's name and its room's, which toggle is read-only, and which objects know their row |
| `Relabel.HarmlessNewRow` | find_device/relabel_views.py:187-199 | for a channel nobody has yet the condition is the index range of the device class, in numbers |
| `Relabel.PoisonedReload` | find_device/plc/registry.py:249-281 | a row its class refuses makes every later reload fail, wherever it is listed |
| `Relabel.AssignWellFormed` | find_device/relabel_views.py:187-199 | an assignment keeps keys and room names unique, ids increasing and rooms existing |
| `Relabel.Site.RefreshDevices` | find_device/plc/registry.py:249-281 | clear and reload loop, stopped by the first constructor that raises |
| `Relabel.Site.StoreRow` | find_device/relabel_views.py:187-195 | get-or-create of the row, then name and room; two matching rows raise |
| `Relabel.Site.Assign` | find_device/relabel_views.py:289-347 | exactly when each refusal is given, in the order of the checks; the room, the row with its name and room, the caught live update; outputs never store an index out of range |

## Left out

- pyads, pymodbus, sockets, the Django ORM, HTTP views, permissions and audit logs: only whether a call succeeds and what a table holds is modelled.
- The Modbus client's own reconnect logic: a read or write that may fail.
- Floating point: Python's float expressions are read as exact rationals, `round` as half to even.
- Real time: sleeps are numbers of controller scans, and thread scheduling is any order of steps, with no fairness.
- Two threads pulsing the same commit flag at once, and two reloads of one rule at once: both are modelled serially.
- Rules surviving a reconnect: no code calls `restore_subscriptions`, so only its own effect is stated.
- A reconnect thread being alive whenever the client is down: a launch can be dropped while the old thread exits.
- An instant brightness write winning over a fade: it does not move the generation token.
- At most one light lit within a sweep: two are on for a moment on the way back.
- The security group and the cached event values of the live-state stream.
- Which fade durations are admitted (zero, or 100 to 5000): fades are modelled for every duration, so zero and negative ones stand for direct calls of `fade_to`.
- Type-string parsing, symbol classification and direction guessing by regular expression.
- Text normalisation (`strip`, `lower`, `int`): the normalised value is the argument.
- Columns that nothing here decides on (labels, notes, geometry of map objects) are one opaque field or absent.
- The progress label, error message and time stamps of a scan run.
- A wall switch or motion sensor acting on a device in the middle of its active test: the controller there follows only its command variables.
- The Celery retry of a heartbeat run that raised: it is one more check at a later time.
- Thread start failing after a chase was registered: starting is taken to succeed.
- AdsClient.EveryInterleaving: calls in batches and by handle follow the single read and write and are not separate steps.
- ScanRows.KnownCapabilities: the decimal text of a channel number is taken as injective.
- SuperScan.SuperScanEngine.Execute: a crash of the call that saves the final status is outside; the caller marks that run failed.
- Relabel.AssignKeepsSync: a unique pair of type and channel is assumed, since with two matching rows the lookup raises.
