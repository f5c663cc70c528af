# Verified model of the webOS location service

The location service of webOS OSE (`com.webos.service.location`) answers clients on the Luna
bus with positions, NMEA sentences and satellite data. It drives two providers: a GPS provider
on top of a GNSS HAL and a network provider that asks a geolocation server about Wi-Fi access
points and cells. This project models the parts of it that keep state over many calls, and
proves what the whole of those calls guarantees.

Every operation is written twice: as a pure function on a record of the program's fields, and
as a method of a class that changes those fields step by step, as the source does, and is
proved to do what the function says. The properties are lemmas about the functions, mostly for
every run from the initial state.

| file | what it models |
|---|---|
| `Subscriptions.dfy` | subscription lists, the location request table, response timers, replies and their criteria |
| `GpsProvider.dfy` | the GPS provider: flag word, engine, position timer, parameter overrides |
| `WifiScans.dfy` | the Wi-Fi change detector: two passes over hash tables in any order |
| `NetworkProvider.dfy` | the network provider: running requests, queries, the last fix |
| `ServiceModel.dfy` | the service over the four above: requests, cancels, timeouts, positions, switches; the main results |
| `ServiceOutcomes.dfy` | what each event comes to for each client: replies, list places, providers asked |
| `NetworkRuns.dfy` | when the network provider runs |
| `LocationService.dfy` | the service as a class that updates lists, tables and the two provider objects |
| `GnssThread.dfy` | the one-slot mailbox of the GNSS thread and its writers |
| `DataNetwork.dfy` | telling the HAL about the data network |
| `Geofences.dfy` | the allocator of geofence ids |
| `WakeLock.dfy` | the reference-counted wake lock |
| `GpsConfig.dfy` | `trim_spaces` in place, `strtok_r`, and reading `gps.conf` |
| `GeolocateUrl.dfy`, `Text.dfy` | building the server's URL from a key; trimming |
| `Ntp.dfy` | NTP time stamps and the download with failover |
| `Common.dfy` | small definitions the others share |

## How the outside world is modelled

- The HAL, the bus, the wake-lock service and the network answer yes or no. The n-th answer is
  a function `answers(n)`, for the GNSS HAL one for starts and one for stops, so a lemma for
  every `answers` holds for every behaviour.
- A geofence reply of the HAL carries the subscriber it was asked for, which the program does not
  see; it only appears in specifications.
- The wall clock is a function of the number of readings; it may go backwards.
- Threads: a section that holds the mutex is one step, and a run is any sequence of steps.
- Calls made to the outside, replies sent, posts and requests are kept as histories that the
  program itself does not have; they only appear in specifications.
- A message stands for its `LSMessage` pointer together with what its payload says. A request
  that reaches the service is one it has not seen before.

## What the code does not guarantee

Each is stated as a lemma, with the exact condition where there is one.

- With a network mock request in progress, a stop ends the mock request only: the real one goes
  on with nobody listed (`CancelStopsNetwork`, `TimeOutStopsNetwork`, `LoopStopsNetwork`,
  `NetworkOffEffect`, `MockLeavesNetworkRunning`, `SwitchLeavesNetworkRunning`).
- Switching a mock location restarts the engine for positions only; NMEA and satellite clients
  stay listed and unserved unless the HAL refuses to stop (`ToggleServes`).
- While a GPS mock location is enabled, a hybrid request is listed but the network provider is not
  asked for it (`LocationRequestListed`, `NetworkRunsExactly`).
- `mFixBackend` is the server chosen when a new fix arrives, not the one asked, and a repeated
  fix keeps it (`HandedOutForItsOwnServer`, `HandedOutForTheOtherServer`,
  `RepeatedFixHandedOutForTheOtherServer`).
- A signal strength of 0 counts as a missing access point; if both scans have the key, it is
  counted twice (`PassesExact`, `ZeroReadingMisjudged`).
- An overwritten mailbox post is lost: a lost close leaves the data connection open, a lost open
  leaves it idle, a lost quit leaves the thread running (`ConnectionFollowsNetwork`,
  `OpenWithoutNetworkExactly`, `IdleWithNetworkExactly`, `LostCloseStaysOpen`, `FateOfPending`,
  `LostQuitGoesOn`).
- Also with nothing lost, a network that returns does not open a closed data connection
  (`ClosedWithNetworkExactly`, `ClosedUntilRequested`, `ReturningNetworkOpensNothing`).
- A geofence id can be released for a subscriber that has it by a late confirmation or a cancel
  meant for an earlier one, and only so (`LosesOnlyForAnother`, `TakenForAnEarlierOne`,
  `KeepsUnlessTaken`, `LateConfirmationFreesTheNext`, `FailedAddCancelsTheNext`).
- A forced clear of a wake lock that is not held leaves references behind (`ForcedClearExactly`,
  `ForcedClearLeavesOne`).

## Model

| member | source | states |
|---|---|---|
| ServiceModel.NothingRunsUnasked | src/lunaIpc/LocationService.cpp:3664-3746 | in every run of the service each GPS flag is set only while a request of its kind is listed, the engine runs only then if no HAL stop failed, and the network provider runs only for a network or hybrid request if its mock was never used |
| ServiceModel.RunsExactlyWhatIsAsked | src/lunaIpc/LocationService.cpp:2194-2375 | while GPS stays on, nobody stops it by force and HAL starts succeed, the flags are exactly the kinds of request that are listed, whatever HAL stops do; if no stop failed the engine runs exactly while there is one |
| ServiceModel.ExactAfterResume | src/lunaIpc/LocationService.cpp:4335-4369 | the same from a kernel resume on, after any run whatever, stops by force, switches, mock toggles and failed starts included |
| ServiceModel.RunKeeps | src/lunaIpc/LocationService.cpp:3777-3922 | every reachable state satisfies the invariant over lists, request table, timers, replies, GPS provider and network provider |
| ServiceModel.StepTended | src/lunaIpc/LocationService.cpp:3936-4051 | with GPS on and HAL starts succeeding, every event that does not stop GPS by force keeps what is asked for running |
| ServiceModel.OneShotsAnsweredOnce | src/lunaIpc/LocationService.cpp:4053-4153 | in every run a one-shot location request gets at most one answer, and if it was accepted it is then in no list, not in the table and has no armed timer |
| ServiceModel.NoRequestLost | src/lunaIpc/LocationService.cpp:2273-2317 | an accepted location request that is neither answered nor cancelled is still in a list |
| ServiceModel.TimeoutsAreOwned | src/lunaIpc/LocationService.cpp:3821-3871 | a time-out reply is the first answer to its request; every armed timer is the one of its message's table entry with its live TimerData; every TimerData is held or freed, and freed once |
| ServiceModel.TimeoutsRunExactly | src/lunaIpc/LocationService.cpp:2270-2300 | in every run a request of the table has a timer armed exactly if it asked for one and has had no answer |
| ServiceModel.PositionsRateLimited | src/lunaIpc/LocationService.cpp:4155-4217 | consecutive positions to a subscriber are more than its interval and at least its distance apart; without a "Handler" the second is accurate or more than a minute late |
| ServiceModel.PositionsSpaced | src/lunaIpc/LocationService.cpp:4155-4217 | the positions i and j to a subscriber with an interval are at least (j - i) * (interval + 1) ms apart in every run, also when the clock is set back |
| ServiceModel.PositionReaches | src/lunaIpc/LocationService.cpp:3244-3265 | a position or error reaches, exactly once, each request of the handler's, the hybrid and the passive list to which it may go out at the one clock reading its place in these lists gives it, and nobody else; by the log of replies a position may go out exactly if it is the first one to the request, or is fresh and late, far and accurate enough after the last one |
| ServiceModel.ResumeServes | src/lunaIpc/LocationService.cpp:4335-4369 | after a kernel resume every non-empty GPS-side list is served, and the HAL was asked to start once if the engine was off and some list is filled, otherwise never |
| ServiceModel.SecondResumeIdle | src/lunaIpc/LocationService.cpp:4335-4369 | a second resume makes no HAL call and changes nothing |
| ServiceModel.CancelStopsNetwork | src/lunaIpc/LocationService.cpp:3730-3746 | cancelling the last network or hybrid request leaves the network provider running exactly if a mock request was in progress as well |
| ServiceModel.TimeOutStopsNetwork | src/lunaIpc/LocationService.cpp:3821-3871 | the same for the time-out of the last network or hybrid request |
| ServiceModel.LoopStopsNetwork | src/lunaIpc/LocationService.cpp:4024-4050 | the same for the reply loop that answers the last network or hybrid one-shot requests |
| ServiceModel.MockLeavesNetworkRunning | src/handler/position/network/NetworkPositionProvider.cpp:307-315 | a run of requests and cancels that ends with the provider running and every list empty |
| ServiceModel.SwitchLeavesNetworkRunning | src/lunaIpc/LocationService.cpp:1240-1272 | a run after which both handlers are off and the network provider runs |
| ServiceModel.ToggleServes | src/lunaIpc/LocationService.cpp:2107-2146 | after a mock toggle all that is asked for is still served exactly if the HAL refuses the stop it is asked for next, or there is no NMEA or satellite client and it grants the start after that |
| ServiceModel.GpsOffEffect | src/lunaIpc/LocationService.cpp:1207-1286 | switching GPS off leaves no one-shot NMEA, satellite or GPS request waiting, and no hybrid one if both handlers are off, whatever the HAL does; unless it refuses to stop, the engine and every API are off |
| ServiceModel.NetworkOffEffect | src/lunaIpc/LocationService.cpp:1240-1286 | switching the network handler off leaves no one-shot network request waiting, and with GPS off no hybrid one; its provider goes on running exactly if a mock request was in progress besides the real one and the error replies do not take away the last request that wanted it |
| ServiceModel.RespondLocationKeeps | src/lunaIpc/LocationService.cpp:3969-4051 | the location reply loop, which removes from the list it walks, and the stops after it keep the whole invariant |
| ServiceModel.RespondDataKeeps | src/lunaIpc/LocationService.cpp:3936-3967 | so does the loop for NMEA and satellite replies |
| ServiceModel.GetUpdatesKeeps | src/lunaIpc/LocationService.cpp:2194-2375 | so does a new location request on every path, including refusals, a failed subscription, mock locations and the fix handed out at once |
| ServiceModel.CancelKeepsSound | src/lunaIpc/LocationService.cpp:3664-3746 | so does a cancel, which decides about stops while the message is still listed |
| ServiceModel.TimeOutKeepsSound | src/lunaIpc/LocationService.cpp:3821-3871 | so does a response time-out |
| ServiceModel.SwitchGpsKeeps | src/lunaIpc/LocationService.cpp:1207-1286 | so does switching GPS off or on |
| ServiceModel.StopWithoutIs | src/lunaIpc/LocationService.cpp:3730-3746 | the stops decided before a message leaves are the stops for what nobody asks for once it has left |
| ServiceModel.AcceptedExactly | src/lunaIpc/LocationService.cpp:2216-2273 | which location requests are accepted, by handler, switches and connection |
| ServiceOutcomes.FixReaches | src/lunaIpc/LocationService.cpp:3463-3569 | a GPS fix goes, as it was found, to exactly the GPS, hybrid and passive requests to which by the log of replies it may go out, and once |
| ServiceOutcomes.NetworkEventReaches | src/handler/position/network/NetworkPositionProvider.cpp:438-528 | a valid answer that differs from the last goes to the network, hybrid and passive requests with its latitude, longitude, accuracy and time; a failure goes to them as an error unless the service is online; nothing else does |
| ServiceOutcomes.DataReaches | src/lunaIpc/LocationService.cpp:3936-3967 | NMEA and satellite data go once to exactly the requests for them, and one-shot requests leave |
| ServiceOutcomes.TimeOutReaches | src/lunaIpc/LocationService.cpp:3821-3871 | a time-out is told to its request alone, which then is in no list |
| ServiceOutcomes.DataRequestListed | src/lunaIpc/LocationService.cpp:389-451 | a request for data is listed, and its API asked to start, exactly if GPS is on and the bus adds it |
| ServiceOutcomes.DataRequestReaches | src/lunaIpc/LocationService.cpp:389-451 | it gets an error exactly if GPS is off, the bus refuses an NMEA request or the provider cannot start |
| ServiceOutcomes.LocationRequestListed | src/lunaIpc/LocationService.cpp:2194-2375 | an accepted request that the bus adds comes to the end of its list and the providers it names are asked, the network one unless a GPS mock location or failure comes first; any other changes no list and asks nobody |
| ServiceOutcomes.LocationRequestReaches | src/lunaIpc/LocationService.cpp:2194-2375 | a request gets an error exactly if it is not accepted, not added, or a provider it asks fails; if the network provider is asked and has a last fix, that goes at once to those to which it may go out |
| ServiceOutcomes.HandedOutToNew | src/handler/position/network/NetworkPositionProvider.cpp:272-284 | the new request is always among them, and gets that fix with its place and accuracy |
| ServiceOutcomes.HandedOutListed | src/lunaIpc/LocationService.cpp:2194-2375 | after that a one-shot request is in no list and a subscription in its own |
| ServiceOutcomes.CancelReaches | src/lunaIpc/LocationService.cpp:3664-3716 | a cancel takes the message out of its list and tells nobody |
| ServiceOutcomes.SwitchGpsReaches | src/lunaIpc/LocationService.cpp:1207-1286 | switching GPS off tells each NMEA, satellite and GPS client once, with the network handler off each hybrid client, and nobody else; switching it on tells nobody |
| ServiceOutcomes.SwitchNetworkReaches | src/lunaIpc/LocationService.cpp:1240-1286 | the same for the network handler |
| ServiceOutcomes.SwitchesAsSaid | src/lunaIpc/LocationService.cpp:1207-1286 | in every run the switches and the connection are as they were last set or reported |
| ServiceOutcomes.ForcedStopEffect | src/lunaIpc/LocationService.cpp:4371-4377 | a stop by force ends the engine and every API, or nothing if the HAL refuses |
| ServiceOutcomes.ParametersTold | src/handler/position/gps/GPSPositionProvider.cpp:427-481 | the HAL is told the parameters of setGPSParameters as they are |
| NetworkRuns.NetworkRunsExactly | src/lunaIpc/LocationService.cpp:2330-2354 | while the service is online, the network handler on, HAL starts succeed and no mock location is used, the network provider runs exactly while a network or hybrid request is listed |
| NetworkRuns.StepServes | src/lunaIpc/LocationService.cpp:2194-2375 | every event that leaves these as they are keeps the provider running for whoever is listed |
| Subscriptions.FilledMeansOthers | src/lunaIpc/LocationService.cpp:3883-3922 | in cancel mode isListFilled, which looks at the first place only, says that another message is listed, exactly unless the list is one message repeated |
| Subscriptions.AnswerStepKeeps | src/lunaIpc/LocationService.cpp:4053-4082 | answering a request keeps the invariant over lists, table, timers and the log of replies |
| Subscriptions.ConsiderAllKeeps | src/lunaIpc/LocationService.cpp:3993-4022 | the loop over the list an iterator copied keeps that invariant, removes only one-shot requests among those it met, and for an error all of them |
| Subscriptions.ConsiderAllDelivers | src/lunaIpc/LocationService.cpp:3993-4022 | the i-th message of the loop gets the position, as it was found, or the error exactly if the log of replies before the loop lets it go out at the i-th clock reading, whatever the loop did for the others |
| Subscriptions.MeetsExactly | src/lunaIpc/LocationService.cpp:4155-4217 | the criteria, which read the table entry, let a position out exactly if the log of replies says that it may go out |
| Subscriptions.DeliverAllDelivers | src/lunaIpc/LocationService.cpp:3948-3960 | the NMEA and satellite loop sends one reading to each listed message and nothing to others |
| Subscriptions.DeliverAllKeeps | src/lunaIpc/LocationService.cpp:3948-3960 | the NMEA and satellite loop keeps the invariant and removes every one-shot request |
| Subscriptions.TimeOutKeeps | src/lunaIpc/LocationService.cpp:3821-3871 | a fired timer keeps the invariant, also if its message is no longer listed |
| Subscriptions.EnterKeeps | src/lunaIpc/LocationService.cpp:2273-2317 | a new table entry, timer and list place keep the invariant, also if the bus fails to add the message |
| Subscriptions.CancelKeeps | src/lunaIpc/LocationService.cpp:4119-4153 | removing the request and dropping the message from the lists keeps the invariant |
| Subscriptions.AnsweredOnce | src/lunaIpc/LocationService.cpp:4063-4081 | an answered one-shot request was answered once and nothing of it is left |
| Subscriptions.TimersOwned | include/LocationService.h:156-210 | an armed timer is the one of its message's table entry, which holds its live TimerData |
| Subscriptions.TimeoutExactly | src/lunaIpc/LocationService.cpp:2270-2300 | a request of the table has a timer armed exactly if it asked for one and has had no answer |
| Subscriptions.FreedExactly | include/LocationService.h:156-210 | every TimerData ever made is either held by an entry or freed, and freed once: none leaks |
| Subscriptions.RateLimited | src/lunaIpc/LocationService.cpp:4155-4217 | two consecutive positions in the log satisfy the subscriber's criteria |
| Subscriptions.PositionsSpan | include/LocationService.h:212-284 | k + 1 positions to a subscriber span k intervals and k ms more, for any clock |
| Subscriptions.LoopsReach | src/lunaIpc/LocationService.cpp:3463-3569 | the three loops for one position send it once to each listed message to which it may go out, at the reading of its place |
| LocationService.LocationService.constructor | src/lunaIpc/LocationService.cpp:183-266 | the service starts with empty lists and tables and its two providers initialised |
| LocationService.LocationService.RemoveTimer | src/lunaIpc/LocationService.cpp:4084-4117 | the timer is disarmed and its TimerData freed; the entry stays |
| LocationService.LocationService.LSMessageRemoveReqList | src/lunaIpc/LocationService.cpp:4119-4153 | the entry leaves the table with its timer and TimerData; false if there is none |
| LocationService.LocationService.MeetsCriteria | src/lunaIpc/LocationService.cpp:4155-4217 | a position is let out exactly if by the log it is the first one to the message, or is fresh and late, far and accurate enough after the last; the entry remembers it exactly then |
| LocationService.LocationService.LSMessageReplyLocUpdateCase | src/lunaIpc/LocationService.cpp:4053-4082 | one reply; a one-shot request leaves list and table, a subscription loses its timer |
| LocationService.LocationService.IsListFilled | src/lunaIpc/LocationService.cpp:3883-3922 | the iterator's answer in both modes |
| LocationService.LocationService.LSSubNonSubReplyLocUpdateCase | src/lunaIpc/LocationService.cpp:3969-4051 | the new state of service and providers after the location reply loop |
| LocationService.LocationService.LSSubscriptionNonSubscriptionReply | src/lunaIpc/LocationService.cpp:3936-3967 | the new state after the NMEA or satellite reply loop |
| LocationService.LocationService.GetLocationUpdateReply | src/lunaIpc/LocationService.cpp:3463-3569 | the loops for the handler's key, the hybrid key and the passive key |
| LocationService.LocationService.GetLocationUpdateCb | src/lunaIpc/LocationService.cpp:2677-2699 | a lost connection is passed on only if the service thinks itself offline |
| LocationService.LocationService.EnableHandlers | src/lunaIpc/LocationService.cpp:2523-2605 | a request is accepted exactly if a handler it names is switched on and, for the network handler, the service is online, a passive one if any handler is on; its key and the handlers to start |
| LocationService.LocationService.GetLocationUpdates | src/lunaIpc/LocationService.cpp:2194-2375 | the whole new state for every outcome of a location request; one that no handler serves is refused and changes nothing else |
| LocationService.LocationService.GetData | src/lunaIpc/LocationService.cpp:389-451 | the whole new state for getNmeaData and getGpsSatelliteData, for every answer of the bus and the provider |
| LocationService.LocationService.TimerCallbackLocationUpdate | src/lunaIpc/LocationService.cpp:3821-3871 | reply, removal if listed, and the stops |
| LocationService.LocationService.GetLocRequestStopSubscription | src/lunaIpc/LocationService.cpp:3730-3746 | the providers stopped are those only the message wanted |
| LocationService.LocationService.CancelSubscription | src/lunaIpc/LocationService.cpp:3664-3716 | stops, removal from the table, and the bus dropping the message |
| LocationService.LocationService.ResumeGpsEngine | src/lunaIpc/LocationService.cpp:4335-4369 | the commands a kernel resume issues again |
| LocationService.LocationService.SetGpsState | src/lunaIpc/LocationService.cpp:1207-1286 | GPS off stops the engine and answers its clients with an error; both off, the hybrid clients too |
| LocationService.LocationService.SetNetworkState | src/lunaIpc/LocationService.cpp:1240-1286 | the same for the network handler |
| LocationService.LocationService.SetMockLocationState | src/lunaIpc/LocationService.cpp:2107-2146 | the engine is stopped and started again if the gps list is filled |
| LocationService.LocationService.StopGpsEngine | src/lunaIpc/LocationService.cpp:4371-4377 | the engine is told to stop if GPS is on |
| LocationService.LocationService.HandleNetworkResponse | src/handler/position/network/NetworkPositionProvider.cpp:438-528 | an answer of the server and the replies it leads to |
| GpsProvider.RunKeepsInv | src/handler/position/gps/GPSPositionProvider.cpp:875-1053 | in every reachable state a flag means a started engine (and back, if no stop failed), the position timer is set exactly with the location flag, and unmodified parameters are the defaults, as the HAL was last told |
| GpsProvider.StartsAndStopsAlternate | src/handler/position/gps/GPSPositionProvider.cpp:145-231 | between two granted starts there is a granted stop, and the other way round |
| GpsProvider.OverridesEndWithStop | src/handler/position/gps/GPSPositionProvider.cpp:169-231 | once the engine has stopped, provider and HAL are back at the default mode and interval |
| GpsProvider.ParametersHold | src/handler/position/gps/GPSPositionProvider.cpp:427-481 | in every run the HAL is told an override as it is, and no other command changes it before the HAL is asked to stop |
| GpsProvider.StartApiEffect | src/handler/position/gps/GPSPositionProvider.cpp:891-934 | a start is a duplicate exactly if its flag is set, and succeeds exactly if the engine then runs; nothing else changes |
| GpsProvider.StopApiEffect | src/handler/position/gps/GPSPositionProvider.cpp:988-1044 | a stop clears its own flag whatever the HAL says, and stops the engine exactly after the last flag |
| GpsProvider.StopAllEffect | src/handler/position/gps/GPSPositionProvider.cpp:973-986 | stopGPS clears every flag or, if the HAL refuses, none |
| GpsProvider.GPSPositionProvider.ProcessRequest | src/handler/position/gps/GPSPositionProvider.cpp:875-1053 | the new state and the error code for every command |
| GpsProvider.GPSPositionProvider.HandleGpsDisable | src/handler/position/gps/GPSPositionProvider.cpp:169-231 | parameters reset before the stop; the engine counts as running if the stop fails |
| GpsProvider.GPSPositionProvider.HandleSetGpsParameter | src/handler/position/gps/GPSPositionProvider.cpp:427-481 | the HAL is told the override and the provider remembers it |
| WifiScans.PassesExact | src/handler/position/network/NetworkPositionProvider.cpp:769-801 | the two passes give the L1 distance over, and the size of, the union of access points exactly if no shared one reads 0 in the new scan |
| WifiScans.PassSumMeasured | src/handler/position/network/NetworkPositionProvider.cpp:769-801 | for all scans, by how much the sum is too large |
| WifiScans.QueriedExactly | src/handler/position/network/NetworkPositionProvider.cpp:748-805 | with non-zero signals a scan of two or more is queried exactly if it is the first or the mean change over the union exceeds 20 |
| WifiScans.ConsultedExactly | src/handler/position/network/NetworkPositionProvider.cpp:748-805 | for all scans, zeros included, by the history alone when a scan is queried |
| WifiScans.ZeroReadingMisjudged | src/handler/position/network/NetworkPositionProvider.cpp:775-790 | two scans within the threshold that lead to a query |
| WifiScans.Hysteresis | src/handler/position/network/NetworkPositionProvider.cpp:144-170 | over a run each query is more than 20 on average from the one before, each scan passed over is within it of the last queried, and a queried scan is not queried again |
| WifiScans.NoUnseenDrift | src/handler/position/network/NetworkPositionProvider.cpp:724-843 | small changes cannot add up unseen between two scans passed over |
| WifiScans.JudgedStep | src/handler/position/network/NetworkPositionProvider.cpp:805-836 | the table compared with is always the scan last put into a query |
| WifiScans.FirstPass | src/handler/position/network/NetworkPositionProvider.cpp:772-785 | the first loop's sum, for any order of the keys |
| WifiScans.SecondPass | src/handler/position/network/NetworkPositionProvider.cpp:787-799 | the second loop's sum and count, for any order of the keys |
| WifiScans.SignalChanged | src/handler/position/network/NetworkPositionProvider.cpp:769-805 | the decision, by division, is that of the order-free sums |
| WifiScans.CopyTable | src/handler/position/network/NetworkPositionProvider.cpp:817-823 | the rebuilt table is the new scan |
| NetworkProvider.RunKeepsInv | src/handler/position/network/NetworkPositionProvider.cpp:438-528 | between resets the last fix and its time are those of the latest valid answer, its server the one chosen when that fix first came, the fixes reported as new are the valid answers without repeats (from 0,0,0), and the detector's table is the last queried scan |
| NetworkProvider.HandOutExactly | src/handler/position/network/NetworkPositionProvider.cpp:251-284 | in every run a position command is answered at once exactly if it is no mock request, another one is running, the latest valid answer since the reset has a positive time, and the server chosen when its fix first came is chosen now; with that fix and that time |
| NetworkProvider.PositiveOnceAnswered | src/handler/position/network/NetworkPositionProvider.cpp:472-486 | that time is positive only after a valid answer, and with clock readings after 1970 always then |
| NetworkProvider.ReportedWhenNew | src/handler/position/network/NetworkPositionProvider.cpp:480-510 | an answer is reported exactly if it differs from the one before |
| NetworkProvider.HandedOutForItsOwnServer | src/handler/position/network/NetworkPositionProvider.cpp:495-500 | a fix is handed out only for the server it came from exactly if it is new and that server is still chosen when it arrives, or it repeats the last fix and that one is kept under that server |
| NetworkProvider.HandedOutForTheOtherServer | src/handler/position/network/NetworkPositionProvider.cpp:495-500 | a run in which a new fix is handed out for the other one |
| NetworkProvider.RepeatedFixHandedOutForTheOtherServer | src/handler/position/network/NetworkPositionProvider.cpp:480-487 | a run in which a repeated fix is |
| NetworkProvider.StopExactly | src/handler/position/network/NetworkPositionProvider.cpp:307-335 | a stop fails exactly if nothing runs; the real request survives it exactly if a mock request ran too; data are reset |
| NetworkProvider.StartExactly | src/handler/position/network/NetworkPositionProvider.cpp:251-305 | when a position command succeeds, with which error it fails otherwise, and what runs then |
| NetworkProvider.QueriesExactly | src/handler/position/network/NetworkPositionProvider.cpp:131-240 | which query each event sends: the scan and the cell in it exactly if they are news by the histories, the cell alone from the first cell data or the minute timer while Wi-Fi is off |
| NetworkProvider.CellComparedWithLast | src/handler/position/network/NetworkPositionProvider.cpp:846-900 | in every run the cell registered last is compared with the one queried last, and a reset or loss of telephony forgets both |
| NetworkProvider.SwitchesAsReported | src/handler/position/network/NetworkPositionProvider.cpp:690-715 | in every run Wi-Fi, telephony, connection and server are as they were last reported or chosen |
| NetworkProvider.NetworkPositionProvider.ResetData | include/NetworkPositionProvider.h:41-104 | last fix, tables, cell and scan are forgotten, the server stays |
| NetworkProvider.NetworkPositionProvider.ParseWifiData | src/handler/position/network/NetworkPositionProvider.cpp:725-843 | the scan is put into the query exactly if it has two access points or more and is the first or differs enough from the one queried last |
| NetworkProvider.NetworkPositionProvider.ParseCellData | src/handler/position/network/NetworkPositionProvider.cpp:846-900 | a registered cell is news exactly if it is not the last one queried |
| NetworkProvider.NetworkPositionProvider.TriggerPostQuery | src/handler/position/network/NetworkPositionProvider.cpp:172-205 | the query carries the scan if Wi-Fi is on and it is news, and the registered cell if telephony is on and it is; there is none without either |
| NetworkProvider.NetworkPositionProvider.HandleResponse | src/handler/position/network/NetworkPositionProvider.cpp:438-528 | the new last fix, time and server, and the report |
| NetworkProvider.NetworkPositionProvider.StartRequest | src/handler/position/network/NetworkPositionProvider.cpp:251-305 | every outcome of a position command, and the last fix exactly if a real request runs and that fix is known to be the chosen server's |
| NetworkProvider.NetworkPositionProvider.StopRequest | src/handler/position/network/NetworkPositionProvider.cpp:307-335 | every outcome of a stop command |
| GnssThread.EveryPostHasOneFate | src/handler/position/gps/GPSPositionProvider.cpp:61-139 | in every interleaving the actions executed are those of the posts taken, in order, none twice; each post is taken, overwritten or in the slot; with an empty slot the last post has been taken |
| GnssThread.FateOfPending | src/handler/position/gps/GPSPositionProvider.cpp:61-139 | a post is lost only by another post before the thread's next section; quit ends the thread exactly if it is in the slot then |
| GnssThread.CallsAreGuarded | src/handler/position/gps/GPSPositionProvider.cpp:75-131 | data and times injected are those of the posts taken; data_conn_open only while the network is recorded available, with the name and bearer recorded, data_conn_closed only while not; the connection state is in every run what these calls have led to |
| GnssThread.PostsExactly | src/handler/position/gps/GPSPositionProvider.cpp:549-586 | in every run an event posts exactly the action it asks for by the calls made so far, with the latest data and time |
| GnssThread.CallsExactly | src/handler/position/gps/GPSPositionProvider.cpp:78-131 | in every run a section makes exactly the call due for its action: an open goes to the HAL with the recorded network, or to the WAN interface if that has service, a close to the WAN interface or the HAL; a change of the network is reported once |
| GnssThread.AssistanceIsLatest | src/handler/position/gps/GPSNyxInterface.cpp:795-836 | in every run the assistance data and time kept are those that came last |
| GnssThread.ConnectionFollowsNetwork | src/handler/position/gps/GPSPositionProvider.cpp:549-586 | in every run a waiting thread whose connection is open without a network means that a close was lost, and one idle with a network that an open was lost; the failed state is never reached |
| GnssThread.OpenWithoutNetworkExactly | src/handler/position/gps/GPSPositionProvider.cpp:78-101 | the one kind of step after which the thread waits with an open connection without a network: it finds neither the close, nor an open for the WAN interface, nor quit |
| GnssThread.IdleWithNetworkExactly | src/handler/position/gps/GPSPositionProvider.cpp:75-137 | the one kind of step after which it waits with an idle connection and a network: it finds neither the open nor quit |
| GnssThread.ClosedWithNetworkExactly | src/handler/position/gps/GPSPositionProvider.cpp:553-570 | the two kinds of step after which it waits with a closed connection and a network: the network comes back, which posts no open then, or the thread finds anything but an open or quit |
| GnssThread.ClosedUntilRequested | src/handler/position/gps/GPSPositionProvider.cpp:566-570 | in every run a closed connection stays closed until the HAL asks for a data connection |
| GnssThread.ReturningNetworkOpensNothing | src/handler/position/gps/GPSPositionProvider.cpp:566-570 | a run without a lost post that ends with a closed connection and a network |
| GnssThread.LostCloseStaysOpen | src/handler/position/gps/GPSPositionProvider.cpp:571-580 | a run in which a lost close leaves the connection open |
| GnssThread.LostQuitGoesOn | src/handler/position/gps/GPSPositionProvider.cpp:712-727 | a run in which shutdown's quit is lost |
| GnssThread.GpsThread.UpdateNetworkState | src/handler/position/gps/GPSPositionProvider.cpp:549-586 | the recorded network, the HAL call and the post |
| GnssThread.GpsThread.AgpsStatusCb | src/handler/position/gps/GPSNyxInterface.cpp:235-262 | a request posts an open, a release a close |
| GnssThread.GpsThread.XtraDataCb | src/handler/position/gps/GPSNyxInterface.cpp:795-817 | new data replace the old unless they are empty, and are posted |
| GnssThread.GpsThread.XtraTimeCb | src/handler/position/gps/GPSNyxInterface.cpp:819-836 | the time is stored and posted |
| GnssThread.GpsThread.ThreadSection | src/handler/position/gps/GPSPositionProvider.cpp:61-139 | one turn of the loop takes at most the one action in the slot and makes the call due for it |
| DataNetwork.AcknowledgedAreChanges | src/handler/position/gps/GPSPositionProvider.cpp:604-629 | in every run the acknowledged calls are the reports seen while ready, without those whose call failed and without repeats |
| DataNetwork.ToldWhenNew | src/handler/position/gps/GPSPositionProvider.cpp:604-629 | a report leads to a call exactly if the HAL is ready and did not acknowledge the same report last; a failed one is tried again |
| DataNetwork.HalHearsChanges | src/handler/position/gps/GPSPositionProvider.cpp:768-771 | with all calls acknowledged the HAL hears the last report before readiness and the later ones, repeats dropped |
| DataNetwork.NothingSentOutside | src/handler/position/gps/GPSPositionProvider.cpp:712-721 | nothing is sent before readiness or after shutdown starts |
| DataNetwork.DataNetworkReporter.SendDataNetworkLocked | src/handler/position/gps/GPSPositionProvider.cpp:604-629 | the call, and what is remembered as sent |
| DataNetwork.DataNetworkReporter.UpdateDataNetwork | src/handler/position/gps/GPSPositionProvider.cpp:592-601 | the new report is known and sent if it is news |
| Geofences.IdsAreExclusive | src/lunaIpc/LocationService.cpp:1853-1880 | in every run the used slots are those of the ids handed out and not released since, and between two hand-outs of an id it is released |
| Geofences.LosesOnlyForAnother | src/lunaIpc/LocationService.cpp:3676-3702 | in every run a subscriber loses an id it has not given up exactly at a step that releases the id for another: a cancel whose table entry still names it, or a HAL reply meant for another |
| Geofences.TakenForAnEarlierOne | src/lunaIpc/LocationService.cpp:3686-3695 | that other one is an earlier one: the id had been handed out to it, for a cancel always, for a reply if the HAL replies only about what it was asked |
| Geofences.KeepsUnlessTaken | src/lunaIpc/LocationService.cpp:3393-3433 | a subscriber that does not give its id up still has it later exactly if no step in between took it |
| Geofences.SharedOnlyIfTaken | src/lunaIpc/LocationService.cpp:3014-3018 | two subscribers that have both kept the same id share it only after it was taken from one of them |
| Geofences.AddAreaEffect | src/lunaIpc/LocationService.cpp:1803-1912 | one free id among the draws is taken and no other touched; refusal exactly if none of 200 draws is free, so always in a full table; the slot stays taken if the HAL or the bus refuses |
| Geofences.ReleaseEffect | src/lunaIpc/LocationService.cpp:3014-3018 | a release frees its id only; an id outside 1000..1199 changes nothing |
| Geofences.Slot | src/lunaIpc/LocationService.cpp:133-145 | exactly the ids 1000..1199 have a slot, each its own |
| Geofences.LateConfirmationFreesTheNext | src/lunaIpc/LocationService.cpp:3393-3433 | a run in which two subscribers that have not cancelled hold the same id |
| Geofences.FailedAddCancelsTheNext | src/lunaIpc/LocationService.cpp:3686-3695 | a run in which a cancel frees another subscriber's id |
| Geofences.GeofenceTable.AddGeofenceArea | src/lunaIpc/LocationService.cpp:1853-1903 | the loop of draws takes the first free id |
| Geofences.GeofenceTable.GeofenceAddReply | src/lunaIpc/LocationService.cpp:2978-3018 | a failed add releases the id |
| Geofences.GeofenceTable.SendGeofenceRemoveData | src/lunaIpc/LocationService.cpp:3393-3433 | a confirmed removal releases the id and one table entry with it |
| Geofences.GeofenceTable.CancelSubscription | src/lunaIpc/LocationService.cpp:3676-3702 | a cancel releases the token's id and keeps the table entry |
| WakeLock.HeldWhileCounted | src/lunaIpc/LifeCycleMonitor.cpp:73-109 | with granted calls the service holds the lock exactly while the count is positive, and the count is the saturating balance of requests since registration or the last forced clear |
| WakeLock.CountIsBalance | src/lunaIpc/LifeCycleMonitor.cpp:81-85 | also with failing calls the count is the balance if no clear is forced, and never less |
| WakeLock.RequestsCounted | src/lunaIpc/LifeCycleMonitor.cpp:216-249 | in every run the requests that count are those made since a registration succeeded, until the service goes away |
| WakeLock.CalledExactly | src/lunaIpc/LifeCycleMonitor.cpp:89-108 | when the service is called: for a set while the lock is not held, for a clear while it is held and this is the last reference or forced |
| WakeLock.RetriedAfterFailure | src/lunaIpc/LifeCycleMonitor.cpp:89-108 | in every run, after a failed set the next set calls again, and after a failed clear the next clear exactly if it is forced or at most one reference came back |
| WakeLock.FailedRequestIsRetried | src/lunaIpc/LifeCycleMonitor.cpp:89-108 | in every run the request that follows a failed one in the same direction calls again |
| WakeLock.ForcedClearExactly | src/lunaIpc/LifeCycleMonitor.cpp:89-93 | a forced clear leaves no reference exactly if the lock is held or at most one is left |
| WakeLock.ForcedClearLeavesOne | src/lunaIpc/LifeCycleMonitor.cpp:89-93 | two failed sets and a forced clear leave one |
| WakeLock.LifeCycleMonitor.SetWakeLock | src/lunaIpc/LifeCycleMonitor.cpp:73-109 | the new count, lock and call for every request |
| WakeLock.LifeCycleMonitor.PowerdDown | src/lunaIpc/LifeCycleMonitor.cpp:147-154 | registration, lock and count are gone |
| WakeLock.LifeCycleMonitor.CbRegisterWakeLock | src/lunaIpc/LifeCycleMonitor.cpp:216-249 | registered exactly from the first success on |
| GpsConfig.TrimSpaces | src/handler/position/gps/gps_cfg.cpp:179-207 | in place, the string becomes the trimmed one, an all-space one stays, and nothing outside it changes |
| GpsConfig.ScanStep | src/handler/position/gps/gps_cfg.cpp:188-202 | each turn keeps the write position behind the scan position and the kept text moved to the front |
| GpsConfig.SplitLine | src/handler/position/gps/gps_cfg.cpp:141-152 | the two tokens, cut and trimmed in the line buffer, or a line to skip |
| GpsConfig.PairParses | src/handler/position/gps/gps_cfg.cpp:141-152 | a name and a value around a '=', with any white space around each, come out as they are |
| GpsConfig.StrtokR | src/handler/position/gps/gps_cfg.cpp:141-148 | the next token between '=' and its cut |
| GpsConfig.GpsSetConfigEntry | src/handler/position/gps/gps_cfg.cpp:47-105 | what a line does to an entry of each type |
| GpsConfig.LastLineWins | src/handler/position/gps/gps_cfg.cpp:138-166 | after reading, an entry has the value of the last line that names it; strings have fewer than 80 characters |
| GpsConfig.FlagSaysNamed | src/handler/position/gps/gps_cfg.cpp:131-136 | the validity flag says whether the file named the entry; otherwise the entry is unchanged |
| GpsConfig.FileComesBack | src/handler/position/gps/gps_cfg.cpp:138-166 | a file with one parameter a line is read back name by name, values with the prefix 0x or 0X as hexadecimal |
| GpsConfig.FileSets | src/handler/position/gps/gps_cfg.cpp:117-169 | such a file sets an entry of each type to the value of the last parameter with its name |
| GpsConfig.FileSetsNothing | src/handler/position/gps/gps_cfg.cpp:117-169 | an entry without a parameter keeps its value and its flag is cleared |
| GpsConfig.ChunkLength | src/handler/position/gps/gps_cfg.cpp:138 | a chunk ends at the first newline or after 79 characters |
| GpsConfig.ConfigTable.GpsReadConf | src/handler/position/gps/gps_cfg.cpp:117-169 | the loops over chunks and entries do to every entry what the file's lines say, in order; a missing file changes nothing |
| Text.TrimIs | src/handler/position/gps/gps_cfg.cpp:179-207 | trimming is what lies between the first and the last non-space |
| Text.TrimTrims | src/handler/position/network/NetworkLocationBackend.cpp:79-86 | a trimmed text has no space around and is empty exactly for spaces only |
| Text.TrimPadded | src/handler/position/network/NetworkLocationBackend.cpp:79-86 | spaces added around do not matter |
| GeolocateUrl.BuiltExactly | src/handler/position/network/NetworkLocationBackend.cpp:76-100 | a URL is built exactly if there is one that fits and is the template with, for its first "%s", what the key has between white space, all of it allowed characters; it is that one |
| GeolocateUrl.KeyComesBack | src/handler/position/network/NetworkLocationBackend.cpp:92-99 | without prefix and suffix the URL is the trimmed key |
| GeolocateUrl.DifferentKeysDifferentUrls | src/handler/position/network/NetworkLocationBackend.cpp:92-99 | two keys give the same URL exactly if they are the same but for spaces around |
| GeolocateUrl.PaddingDoesNotMatter | src/handler/position/network/NetworkLocationBackend.cpp:79-86 | spaces around the key change nothing |
| GeolocateUrl.KeyAddsNoSlot | src/handler/position/network/NetworkLocationBackend.cpp:50-53 | the key's part of the URL has neither '%' nor NUL |
| GeolocateUrl.FindSlot | src/handler/position/network/NetworkLocationBackend.cpp:66 | the first "%s" of the template, if there is one |
| GeolocateUrl.BuildGeolocateUrl | src/handler/position/network/NetworkLocationBackend.cpp:59-100 | the buffer holds the URL and its NUL, or the empty string on every refusal, and nothing past its size is written |
| GeolocateUrl.TrimmedKey | src/handler/position/network/NetworkLocationBackend.cpp:79-86 | the two pointer loops trim the key |
| Ntp.StampsComeBack | src/handler/position/gps/NtpClient.cpp:130-151 | a Unix time comes back from its 32-bit big-endian stamp, in ms, exactly if it is in [0, 2^32), past 2036 too, within 64 bits |
| Ntp.TimesComeBack | src/handler/position/gps/NtpClient.cpp:146-151 | every stamp is the stamp of the time it is decoded to |
| Ntp.EpochStamp | src/handler/position/gps/NtpClient.cpp:130-151 | the stamp 0x83AA7E80, most significant byte first, is the first second of 1970, and the stamp 0 the rollover of 2036 |
| Ntp.ServersAre | src/handler/position/gps/NtpClient.cpp:88-96 | the servers tried are those configured, in their order |
| Ntp.DownloadEffect | src/handler/position/gps/NtpClient.cpp:88-192 | servers are tried in order, once each, none after the first answer or a failed socket; one completion; every socket closed |
| Ntp.EveryDownloadCompletesOnce | src/handler/position/gps/NtpClient.cpp:44-68 | in every run each download begun completes exactly once, a failed thread creation included, and the client is idle when none runs |
| Ntp.StartExactly | src/handler/position/gps/NtpClient.cpp:44-68 | a start succeeds exactly if a download runs then, and begins one unless one runs |
| Ntp.NtpClient.Start | src/handler/position/gps/NtpClient.cpp:44-68 | the result and the state for every start |
| Ntp.NtpClient.NtpDownloadThread | src/handler/position/gps/NtpClient.cpp:70-192 | the server loop does exactly what the specification of a download says and ends idle |

## Left out

- The Luna bus itself, JSON parsing and schemas, logging, reply texts, preferences: requests arrive parsed, replies are events.
- Memory exhaustion: allocations succeed.
- Floating point: coordinates and accuracies are reals compared for equality or order, the distance between two places is an arbitrary function; the mean of a Wi-Fi comparison is a real division.
- 32-bit wrap-around of the signal sum, of clock differences and of counters; `atoi`, `strtol` and `atof` are arbitrary functions.
- The position timeout of the GPS provider is a position event like others: its error text counts as a position reply, as it does for the criteria in the source, which only see a zero time stamp.
- `mPosTimer` is the GLib source id the provider holds; that the source may have fired already is not distinguished.
- Clamping of the position mode to the engine's capabilities, the SUPL server settings, time-to-first-fix bookkeeping and the NMEA, CEP and anonymous logs.
- `disable()` of the providers: nothing calls it.
- TimerData and LocationUpdateRequest are values owned by the request table, not heap objects; that each is freed once is stated about their numbers.
- Two live messages never share a pointer: a message the service has seen does not come again.
- Wake-lock calls from replies and cancels: `WakeLock.dfy` takes any sequence of them; `m_enableSuspendBlocker` is never set, so requests make none.
- Subscriptions for provider lists, handler states, geocoding and debug data: a list and a reply, with no state to keep.
- Mock location servers, geocoding, WSP keys, stored positions: file, library or network bound.
- Geofence pause, resume and breach: replies without effect on ids. A geofence's HAL request is an input here and does not touch the engine.
- Entries of a configuration table that share a target: each entry has its own.
- A null output buffer of buildGeolocateUrl, which it refuses at once.
- The round-trip figure of an NTP answer, which mixes milliseconds with seconds in network byte order.
- The interleaving of an NTP start with the callback of a running download: a start during a download does nothing, which is one of the events of a run.
