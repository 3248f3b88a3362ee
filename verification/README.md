# Verified models of the location stack

The directory `gps/` of this device tree holds the location HAL: small stateful engines that sit
between location clients, the Android framework and the modem. This project models the ones whose
behaviour is hard to see from any single function, and proves what they keep over every run.

| file | what it models |
|---|---|
| `TripBatching.dfy` | the trip-batching multiplexer: many trips share one modem odometer |
| `Agps.dfy`, `AgpsObjects.dfy` | the AGPS data-connection state machine, as a function of values and as objects |
| `AgpsManager.dfy`, `AgpsManagerObject.dfy` | the manager that routes to two such machines |
| `AgpsClosedLoop.dfy`, `NativeAgpsHandler.dfy` | the built-in framework handler and the loop it closes through a queue |
| `LocHeap.dfy` | the size-balanced heap with removal by identity |
| `LocIpc.dfy` | the framing of long messages over datagrams |
| `LocApiBase.dfy` | the elapsed-realtime estimator and the table of adapters |
| `SystemStatus.dfy` | the bounded change history and the table of network handles |
| `OsObserver.dfy` | the transposed subscription maps and what clients are told |
| `LocationApiClient.dfy` | the session dictionary and the matching of answers with requests |
| `Geofence.dfy` | the double index of fences, engine restarts and breach dispatch |
| `Wrappers.dfy` | the optional value that several of them use |

Code that changes state is a class whose methods are proved to do to the state's value what a
function says; what the code is for is proved about those functions, step by step and over runs.
Message handlers are atomic steps. What the modem, the engine or the framework decides (odometer
readings, session numbers, answers, clock readings, whether an item is new) is a parameter, and the
theorems hold for every value of it that their `requires` admits.

Integers are unbounded except in `TripBatching.dfy`, where the distances are 32-bit and every
addition and subtraction wraps as in the source.

## What is not as one would hope

These are properties of the code as it is; each has a lemma with the exact condition or a run that
shows it.

- A trip that joins and restarts the modem batch takes away what the other trips have travelled
  since the last report (`ExactIffCutsAreClean`, `JoinCanLoseDistance`); trips are then completed
  late, never early.
- A stopped trip can make the next report come too late for another one (`StopTimelyIff`,
  `StopIsLate`), and so can a start after the modem has overrun its distance (`StartTimelyIff`).
- A trip with interval zero can be missed when the interval is chosen anew (`StepTbfIff`).
- A client that replaces its subscription while it has items loses the items it keeps from the
  other map, and stays in it with those it dropped (`StepTransposed`, `AlwaysReachedIff`,
  `DroppedItemsStayWatched`): `LocUnorderedSetMap::update` returns the values that stay, while its
  own comment and the comment at the call promise the values that go. The code was followed.
- An item that a client opens with a request for data is never subscribed at the framework, not even
  when another client subscribes to it (`StepWatchesIff`, `AllWatchedIff`,
  `AskedItemStaysUnwatched`). The interface promises a subscription only for `subscribe`
  (`gps/core/observer/IDataItemSubscription.h:49-90`).
- A disconnect can erase the bit of a network type that is still connected (`CompletenessStep`,
  `KnowledgeStep`, `LiveTypeForgotten`), and the AGPS handler then refuses connections
  (`LiveMobileIsRefused`, `StillKnowsOfMobileIff`).
- An answer that ends a session while another answer for it is to come leaves a request behind,
  which later answers then meet (`ProceedMatchesIff`, `AllMeetIff`): two stops of one session end
  the next session of the same client (`SecondStopEndsNextSession`).
- An engine restart brings back fences of departed clients (`RestartKeysAreOld`), and the second
  one forgets which fences were paused (`SecondRestartForgetsPauses`). A removal answered after the
  restart can erase a live fence (`StepSoundIff`).
- A network that is lost when the AGPS machine asks for the connection, and a failure that comes only
  after the connection was given up, put the answers out of step (`ActShapeIff`, `ActAlignedIff`,
  `LostNetworkBreaksTheShape`).
- A client that asks for the connection again before it has seen the close of its earlier one loses
  the request with that close (`RequestIsServedIff`).
- The comment on the heap's cached size says that a node does not count itself; the code counts it.
  The code was followed.

Where the source's behaviour is undefined, the intended walk is modelled: `removeAndReturnInterset`
and `trimOrRemove` of `LocUnorderedSetMap.h` use an iterator after erasing it, the report of
completed trips reads an erased map element (`gps/batching/BatchingAdapter.cpp:684-693`), and
`deleteSubscriber` goes on comparing with the subscriber it has just deleted when it is called with
one of the list (`gps/gnss/Agps.cpp:422-428`); the model reads each before it is gone.

## Model

| member | source | states |
|---|---|---|
| TripBatching.StepAccounts | gps/batching/BatchingAdapter.cpp:756-1039 | in any step no offset subtraction underflows, and the shortfall of a trip's record against its true distance changes only at a join that restarts the batch, there by exactly what was travelled since the last report |
| TripBatching.RunAccounts | gps/batching/BatchingAdapter.cpp:668-707 | over every run of travelling, starts, stops and reports the record never exceeds the true distance, and falls short of it by exactly the sum of what restarting joins took |
| TripBatching.RunExact | gps/batching/BatchingAdapter.cpp:894-1039 | when no join forces a restart the record is the distance travelled since the trip joined |
| TripBatching.ExactIffCutsAreClean | gps/batching/BatchingAdapter.cpp:839-850 | a right record stays right if and only if every forced restart came when the trip had travelled nothing since its last report |
| TripBatching.JoinCanLoseDistance | gps/batching/BatchingAdapter.cpp:845-850 | a join that loses 100 metres of another trip |
| TripBatching.ReportSplits | gps/batching/BatchingAdapter.cpp:668-707 | a report completes no trip before its distance is travelled, splits the trips into exactly the completed and the remaining, and leaves what is owed to the remaining unchanged |
| TripBatching.RecordedFits | gps/batching/BatchingAdapter.cpp:678-680 | the wrapping arithmetic on the offsets agrees with unbounded arithmetic in every sound state |
| TripBatching.RunTbf | gps/batching/BatchingAdapter.cpp:804-808 | over every run in which no step misses a zero, the programmed interval is the shortest interval of the live trips |
| TripBatching.PositiveMissesNone | gps/batching/BatchingAdapter.cpp:969-972 | runs whose trips have positive intervals are such runs |
| TripBatching.StepTbfIff | gps/batching/BatchingAdapter.cpp:1007-1012 | every step keeps it so, if and only if it is not a stop or completion after which a noticed drop meets a zero interval below a trip of greater id with a positive one |
| TripBatching.RestartTbfIff | gps/batching/BatchingAdapter.cpp:957-973 | a restart repairs the interval after the trip that set it has gone, exactly unless the scan takes a zero interval for "none yet" |
| TripBatching.StartTimelyIff | gps/batching/BatchingAdapter.cpp:822-843 | a start leaves the modem programmed to report no later than the first completion, if and only if it has not overrun the programmed distance, or no restart follows, or no other trip had less to go at its last report than is now programmed |
| TripBatching.RestartTimely | gps/batching/BatchingAdapter.cpp:991-1005 | so does a restart after the programmed distance is used up, even where the subtraction wraps |
| TripBatching.ReportTimely | gps/batching/BatchingAdapter.cpp:700-706 | so does every report |
| TripBatching.StopTimelyIff | gps/batching/BatchingAdapter.cpp:894-919 | so does a stop, if and only if, where the distance is renewed, no other trip has travelled further since its last report than it exceeds the shortest one left, and where only the interval is, none completes within the whole distance anew |
| TripBatching.StopIsLate | gps/batching/BatchingAdapter.cpp:962-967 | a stop that renews the distance is too late as soon as the trip with the least left has travelled anything unreported |
| TripBatching.StepTimelyIff | gps/batching/BatchingAdapter.cpp:756-1039 | of all events exactly the unsafe starts and stops make the modem late |
| TripBatching.RunTimely | gps/batching/BatchingAdapter.cpp:756-1039 | over every run without them the modem reports no later than the first completion |
| TripBatching.StopCanDelayReports | gps/batching/BatchingAdapter.cpp:962-967 | a stop that does not |
| TripBatching.StartProgramsNearer | gps/batching/BatchingAdapter.cpp:756-843 | the first trip programs its own distance and interval; a join before the programmed distance is used up moves the report to exactly the nearer of the programmed point and its own, with the shorter interval |
| TripBatching.QuietJoin | gps/batching/BatchingAdapter.cpp:804-836 | a join with no shorter interval that is due no earlier than the programmed report (or, past it, than what has wrapped around) adds its own trip at the reading and changes nothing else |
| TripBatching.RestartingStart | gps/batching/BatchingAdapter.cpp:763-776 | every other start begins a new batch here, each trip on top of its record at the last report, and leaves what drops were noticed |
| TripBatching.OverrunJoinPrograms | gps/batching/BatchingAdapter.cpp:822-836 | past the programmed distance a restarting join programs the nearer of its own point and the one a whole word of metres further |
| TripBatching.StopCases | gps/batching/BatchingAdapter.cpp:991-1012 | a stop renews distance and interval exactly in the cases named in the terms of the state before it |
| TripBatching.QuietStop | gps/batching/BatchingAdapter.cpp:991-1012 | on the way to the programmed point, with no drop of the distance noticed, a stop of a trip with another distance keeps the programmed distance, and takes away that trip and nothing else if a trip with the programmed interval stays |
| TripBatching.RenewingStop | gps/batching/BatchingAdapter.cpp:991-1005 | once the trip that set the distance has gone, a stop on the way begins a new batch for exactly the shortest distance that was left at the last report |
| TripBatching.RepacingStop | gps/batching/BatchingAdapter.cpp:1007-1012 | a stop that leaves no trip with the programmed interval begins a new batch with the shortest interval left |
| TripBatching.RepacesIff | gps/batching/BatchingAdapter.cpp:1007-1012 | a restart programs a new interval exactly when no trip has the programmed one any more, or the scan misses the zero of one that has |
| TripBatching.LastStop | gps/batching/BatchingAdapter.cpp:913-916 | the stop of the last trip leaves nothing programmed |
| TripBatching.StopKeepsTrips | gps/batching/BatchingAdapter.cpp:1022-1034 | the trips that stay keep their record through a stop, and go on from it if the batch begins anew |
| TripBatching.DropsAreNoticed | gps/batching/BatchingAdapter.cpp:900-909 | a drop is noticed exactly when a trip with the programmed distance or interval goes, by a stop or a report, and is never forgotten |
| TripBatching.ReportPrograms | gps/batching/BatchingAdapter.cpp:700-706 | a report that completes trips and renews the distance programs the next report exactly where the next trip is complete; one that completes none changes nothing programmed, and one that completes all leaves nothing programmed |
| TripBatching.RedistancesIff | gps/batching/BatchingAdapter.cpp:991-1005 | it renews the distance exactly if the drop of the programmed one was noticed, or the modem reported just there, or less is left to a trip than what has wrapped around |
| TripBatching.NextReportIsAheadIff | gps/batching/BatchingAdapter.cpp:700-706 | after a report that completes some trips and leaves others the next report lies ahead, if and only if the distance is renewed, or a positive one is programmed again with a new interval |
| TripBatching.AboutCompleted | gps/batching/BatchingAdapter.cpp:681-684 | the list of completed trips names each completed trip once, in ascending order, and no other |
| TripBatching.ReportsAll | gps/batching/BatchingAdapter.cpp:674-698 | the loop that erases while it walks does what looking at every trip at once would do, dropped flags included |
| TripBatching.BatchingAdapter.StartTripBatchingMultiplex | gps/batching/BatchingAdapter.cpp:756-864 | leaves the adapter as the start of the runs above, and tells whether the modem batch was restarted |
| TripBatching.BatchingAdapter.StopTripBatchingMultiplexCommon | gps/batching/BatchingAdapter.cpp:895-931 | leaves the adapter as the stop of the runs above |
| TripBatching.BatchingAdapter.RestartTripBatching | gps/batching/BatchingAdapter.cpp:935-1039 | leaves the adapter as the restart of the runs above |
| TripBatching.BatchingAdapter.ReportCompletedTrips | gps/batching/BatchingAdapter.cpp:654-714 | leaves the adapter as the report of the runs above, and returns the completed trips |
| Agps.StepKeepsList | gps/gnss/Agps.cpp:73-283 | every event keeps handles distinct, the list empty in RELEASED, and empty or with an active subscriber in PENDING and ACQUIRED |
| Agps.StepConserves | gps/gnss/Agps.cpp:109-171 | every event keeps the list and the history of callbacks in agreement about who is subscribed and who waits for a close |
| Agps.StepTells | gps/gnss/Agps.cpp:173-194 | every event keeps the clients told: in ACQUIRED each active subscriber has had an open-success for its current request |
| Agps.StepKeepsLine | gps/gnss/Agps.cpp:289-310 | every event keeps the commands to the framework in alternation |
| Agps.StepSafe | gps/gnss/Agps.cpp:41-71 | all four together are kept by every event, modem restart included |
| Agps.RunSafe | gps/gnss/Agps.cpp:73-283 | all four hold over every run of a new machine |
| Agps.RunEndsOnce | gps/gnss/Agps.cpp:311-443 | between two subscriptions of a handle it left exactly once, by a close, a failed open or a modem restart |
| Agps.RunCommandsAlternate | gps/gnss/Agps.cpp:289-310 | never two releases without a request between them, nor two requests without a release or a reported end between them |
| Agps.JoinsApart | gps/gnss/Agps.cpp:393-412 | the list being in agreement with the history means two joins of a handle are parted by an end |
| Agps.EndsApart | gps/gnss/Agps.cpp:346-381 | and two ends by a join |
| Agps.RestartDropsAll | gps/gnss/Agps.cpp:496-507 | a modem restart drops everybody in the order of the list and leaves state and commands as they are |
| Agps.DenialFailsAll | gps/gnss/Agps.cpp:243-287 | a denial in PENDING tells everybody in the order of the list that the open failed, and releases |
| Agps.ForcedReleaseClosesAll | gps/gnss/Agps.cpp:196-241 | a connection taken away in ACQUIRED tells everybody in the order of the list that it closed, and releases |
| Agps.StepPlaces | gps/gnss/Agps.cpp:73-287 | where every event leaves every handle: not listed, listed, or waiting for the close |
| Agps.StepStates | gps/gnss/Agps.cpp:73-287 | the state every event leads to, by who is left in the list and whether any of them is active |
| Agps.StepGains | gps/gnss/Agps.cpp:73-287 | every event adds exactly the named entries to the history, so that each client is told exactly then and exactly that |
| AgpsManager.ManagerStepsItsMachines | gps/gnss/Agps.cpp:515-683 | a call to the manager is at most one event for each machine, or its creation |
| AgpsManager.ManagerRunsItsMachines | gps/gnss/Agps.cpp:515-683 | whatever is called, what happens to each machine is a sequence of events of its own |
| AgpsManager.MachineRuns | gps/gnss/Agps.cpp:515-683 | a machine that is there went through a run from where it was or from its creation, so that all run theorems hold for both |
| AgpsManager.ManagerSafe | gps/gnss/Agps.cpp:515-683 | both machines are safe over every run of the manager, their creation included |
| AgpsManager.RequestGoesByType | gps/gnss/Agps.cpp:538-599 | which machine a request goes to, by its type and the use of the emergency PDN, and that it is refused exactly if that machine is missing |
| AgpsManager.ReportGoesByType | gps/gnss/Agps.cpp:629-670 | which machine a report of the framework goes to, by its type |
| AgpsManager.ReleaseReachesHolder | gps/gnss/Agps.cpp:601-627 | a release makes its handle leave or wait in the first machine that lists it, and nobody else anywhere |
| AgpsManager.CreationIsAsked | gps/gnss/Agps.cpp:515-536 | a missing machine is created exactly if its callback types and the capability ask for it, and one that is there stays |
| AgpsManager.RestartReachesBoth | gps/gnss/Agps.cpp:672-683 | after a modem restart no machine lists anybody |
| AgpsObjects.WalkSubscribers | gps/gnss/Agps.cpp:311-344 | the walk tells exactly the addressed subscribers, in list order, and keeps exactly the others |
| AgpsObjects.AgpsStateMachine.AnyActiveSubscribers | gps/gnss/Agps.cpp:433-443 | true exactly when the list has an active subscriber |
| AgpsObjects.AgpsStateMachine.GetSubscriber | gps/gnss/Agps.cpp:466-479 | finds the first listed subscriber with the handle, and nothing exactly when none is listed |
| AgpsObjects.AgpsStateMachine.AddSubscriber | gps/gnss/Agps.cpp:393-412 | a clone joins unless its handle is listed |
| AgpsObjects.AgpsStateMachine.DeleteSubscriber | gps/gnss/Agps.cpp:414-431 | everyone with the handle goes, the rest stay in order |
| AgpsObjects.AgpsStateMachine.NotifyAllSubscribers | gps/gnss/Agps.cpp:311-344 | the addressed subscribers are told in list order, and leave exactly if they are to be deleted |
| AgpsObjects.AgpsStateMachine.NotifyEventToSubscriber | gps/gnss/Agps.cpp:346-381 | one callback, and the handle leaves exactly if it is to be deleted |
| AgpsObjects.AgpsStateMachine.DropAllSubscribers | gps/gnss/Agps.cpp:496-507 | the list empties without callbacks and the state stays |
| AgpsObjects.AgpsStateMachine.ProcessAgpsEventSubscribe | gps/gnss/Agps.cpp:73-107 | takes the machine's value where the safe step takes it |
| AgpsObjects.AgpsStateMachine.ProcessAgpsEventUnsubscribe | gps/gnss/Agps.cpp:109-171 | likewise, marking the subscriber through its pointer |
| AgpsObjects.AgpsStateMachine.ProcessAgpsEventGranted | gps/gnss/Agps.cpp:173-194 | likewise |
| AgpsObjects.AgpsStateMachine.ProcessAgpsEventReleased | gps/gnss/Agps.cpp:196-241 | likewise |
| AgpsObjects.AgpsStateMachine.ProcessAgpsEventDenied | gps/gnss/Agps.cpp:243-283 | likewise |
| AgpsManagerObject.AgpsManager.RequestATL | gps/gnss/Agps.cpp:564-599 | one step of the manager's run; the other machine and its subscribers are untouched |
| AgpsManagerObject.AgpsManager.ReleaseATL | gps/gnss/Agps.cpp:601-627 | one step of the manager's run, at the machine that lists the handle |
| AgpsManagerObject.AgpsManager.ReportAtlOpenSuccess | gps/gnss/Agps.cpp:629-648 | one step of the manager's run |
| AgpsManagerObject.AgpsManager.ReportAtlOpenFailed | gps/gnss/Agps.cpp:650-659 | one step of the manager's run |
| AgpsManagerObject.AgpsManager.ReportAtlClosed | gps/gnss/Agps.cpp:661-670 | one step of the manager's run |
| AgpsManagerObject.AgpsManager.HandleModemSSR | gps/gnss/Agps.cpp:672-683 | one step of the manager's run, at both machines |
| AgpsManagerObject.AgpsManager.CreateAgpsStateMachines | gps/gnss/Agps.cpp:515-536 | one step of the manager's run: a missing machine is created exactly when its callback type, and for SUPL the capability, asks for it |
| AgpsClosedLoop.ActShapeIff | gps/gnss/NativeAgpsHandler.cpp:140-162 | every action keeps the queue what the state says (empty, one open, or a close with at most one open before it), if and only if the network is there or the machine does not ask for the connection |
| AgpsClosedLoop.RestartEmptiesList | gps/gnss/Agps.cpp:496-507 | in the loop a modem restart empties the list and changes neither the state nor what is under way |
| AgpsClosedLoop.StepIssues | gps/gnss/Agps.cpp:289-310 | the commands each event gives to the framework, with their type |
| AgpsClosedLoop.LoopIsRight | gps/gnss/NativeAgpsHandler.cpp:140-162 | over every run from the start, with the network coming and going except when the machine asks for it, the queue has that shape and no subscriber is ever denied or closed against its will |
| AgpsClosedLoop.SettlesInBacklog | gps/gnss/Agps.cpp:173-283 | deliveries alone bring the loop to rest, and neither lose nor add an active subscriber |
| AgpsClosedLoop.LoopSettles | gps/gnss/Agps.cpp:173-283 | after any such run at most three deliveries reach ACQUIRED or RELEASED with an empty queue, and then exactly the subscribers that were active have an open connection they were told about |
| AgpsClosedLoop.RequestIsServedIff | gps/gnss/Agps.cpp:73-107 | whatever others do after a client's request, once the loop has drained the client holds an open connection if and only if it was not waiting for the close of an earlier one when it asked |
| AgpsClosedLoop.ActAlignedIff | gps/gnss/Agps.cpp:243-283 | whatever the network does, the answers fall out of step if and only if a failure is delivered in RELEASING |
| AgpsClosedLoop.RunAligned | gps/gnss/Agps.cpp:243-283 | over every run without such a delivery they stay in step |
| AgpsClosedLoop.LostNetworkBreaksTheShape | gps/gnss/NativeAgpsHandler.cpp:146-151 | a run from the start in which that happens, after a request without network |
| NativeAgpsHandler.Handler.Notify | gps/gnss/NativeAgpsHandler.cpp:84-104 | the last network item heard decides connectivity and access point name, others change nothing |
| NativeAgpsHandler.Handler.ProcessATLRequestRelease | gps/gnss/NativeAgpsHandler.cpp:140-162 | appends exactly the answer of the closed loop to the adapter's queue, with the known access point name on an open |
| NativeAgpsHandler.LiveMobileIsRefused | gps/gnss/NativeAgpsHandler.cpp:87-96 | a run of network events after which a mobile handle is live in the table and the handler, told the reported mask, answers a request with a failure |
| NativeAgpsHandler.StillKnowsOfMobileIff | gps/gnss/NativeAgpsHandler.cpp:87-90 | a handler that is right about mobile connectivity stays right after one more network event if and only if that is neither a mobile connect that cannot be shown nor a disconnect of another type that drops the bit of a live mobile handle |
| NativeAgpsHandler.KnowsOfMobile | gps/gnss/NativeAgpsHandler.cpp:87-90 | over every run without such events the handler takes itself for connected exactly while a mobile handle is live |
| LocHeap.RunRefinesQueue | gps/utils/LocHeap.cpp:109-195 | any interleaving of push, pop and remove refines a multiset priority queue, with heap order and all cached sizes right throughout |
| LocHeap.StepKeepsSound | gps/utils/LocHeap.cpp:109-195 | each operation keeps heap order at every node and every cached size the true node count |
| LocHeap.StepMovesContent | gps/utils/LocHeap.cpp:230-269 | each operation changes the contents as the queue does: one in, one maximal out, or one occurrence of the named element out |
| LocHeap.StepAnswers | gps/utils/LocHeap.cpp:230-269 | peek and pop answer a maximal element, remove the element exactly when it is there |
| LocHeap.RemoveFindsMembers | gps/utils/LocHeap.cpp:172-195 | despite pruning by rank, removal finds an element if and only if the heap holds that identity |
| LocHeap.RemoveBag | gps/utils/LocHeap.cpp:172-195 | it takes out exactly one occurrence and nothing else |
| LocHeap.PushBag | gps/utils/LocHeap.cpp:109-126 | a push adds exactly its element, however data is swapped on the way down |
| LocHeap.PopBag | gps/utils/LocHeap.cpp:139-167 | a pop takes out exactly the top |
| LocHeap.DrainSorts | gps/utils/LocHeap.cpp:139-167 | popping until empty yields a permutation of the contents, sorted by rank |
| LocHeap.PushKeepsBraun | gps/utils/LocHeap.cpp:109-126 | a push keeps left size minus right size 0 or 1 at every node |
| LocHeap.BraunHeight | gps/utils/LocHeap.cpp:109-126 | such a tree of n nodes has height h with 2^(h-1) <= n < 2^h |
| LocHeap.PushesStayBalanced | gps/utils/LocHeap.cpp:109-126 | so has every heap built by pushes alone |
| LocHeap.PopKeepsBraunIff | gps/utils/LocHeap.cpp:139-167 | a pop keeps that balance if and only if, all the way down, the side that gives up its top is the left one with a node more, or the right one with as many |
| LocHeap.PopCanUnbalance | gps/utils/LocHeap.cpp:139-167 | three pushes and a pop that do not |
| LocHeap.LocHeapNode.Push | gps/utils/LocHeap.cpp:109-126 | the in-place push with its swap of data does to the tree's value what the push of the theorems does |
| LocHeap.LocHeapNode.Pop | gps/utils/LocHeap.cpp:139-167 | the in-place pop does what the pop of the theorems does, and hands back the detached leaf with the top's data |
| LocHeap.LocHeapNode.Remove | gps/utils/LocHeap.cpp:172-195 | the in-place removal does what the removal of the theorems does |
| LocHeap.LocHeapNode.CheckNodes | gps/utils/LocHeap.cpp:199-222 | the self-check succeeds if and only if no child outranks its parent and every cached size is exact |
| LocHeap.LocHeap.Push | gps/utils/LocHeap.cpp:230-237 | the wrapper performs a push of the runs above |
| LocHeap.LocHeap.Peek | gps/utils/LocHeap.cpp:239-245 | answers the top and changes nothing |
| LocHeap.LocHeap.Pop | gps/utils/LocHeap.cpp:247-256 | performs a pop of the runs above and answers as they do |
| LocHeap.LocHeap.Remove | gps/utils/LocHeap.cpp:258-272 | performs a removal of the runs above and answers as they do |
| LocIpc.RoundTrip | gps/utils/LocIpc.cpp:79-127 | for every list of sendable messages and every cutting of the long ones, the receiver delivers exactly that list in order |
| LocIpc.ReceivesFrame | gps/utils/LocIpc.cpp:97-127 | one receive consumes exactly one frame and delivers its message |
| LocIpc.CollectsPieces | gps/utils/LocIpc.cpp:114-118 | pieces are joined in order even where they look like headers or the abort marker |
| LocIpc.ScanReadsDecimal | gps/utils/LocIpc.cpp:85-112 | the length that is scanned is the length that was printed |
| LocIpc.AllArriveIffSendable | gps/utils/LocIpc.cpp:79-127 | any list of non-empty messages, however cut, arrives as it was sent if and only if each is short and does not start like a header or the abort marker, or long with a header that fits one datagram |
| LocIpc.ReceiveAllSpends | gps/utils/LocIpc.cpp:97-127 | whatever is in the channel, what is delivered from it is paid for in characters: a message that does not come as a short plain one costs its header too |
| LocIpc.ArrivesIffSendable | gps/utils/LocIpc.cpp:79-127 | the same for a message sent alone |
| LocIpc.CutHeaderMisleads | gps/utils/LocIpc.cpp:99-113 | a header that does not fit delivers less than the message, or nothing |
| LocIpc.ShortArrivesIffPlain | gps/utils/LocIpc.cpp:102-108 | the exact condition for short messages |
| LocIpc.Sock.SendTo | gps/utils/LocIpc.cpp:79-96 | a positive result means the channel got exactly one frame of the message, a refused piece that it got the header and the pieces before it and no more |
| LocIpc.CutShortIsLost | gps/utils/LocIpc.cpp:112-123 | nothing of a message cut short is delivered by itself |
| LocIpc.AbortsIff | gps/utils/LocIpc.cpp:101-104 | the receiver aborts exactly at the marker, with its terminating zero or without, or what begins with both, and in a buffer without room for the zero at what begins with the marker |
| LocIpc.MarkerEndsReceiver | gps/utils/LocIpc.cpp:97-130 | the marker ends the receiver: all that was sent before it is delivered, and neither the marker nor anything after it |
| LocIpc.Sock.RecvFrom | gps/utils/LocIpc.cpp:97-127 | consumes and delivers what the receiver of the round trip does |
| ElapsedRealtime.EstimatorRefinesReference | gps/core/LocApiBase.cpp:942-1002 | over every sequence of calls and resets the estimator answers like one that ties the fix clock to the boot clock once and never looks at the wall clock |
| ElapsedRealtime.WallClockDoesNotMatter | gps/core/LocApiBase.cpp:958-975 | two call sequences that differ only in the wall clock get the same estimates |
| ElapsedRealtime.Telescopes | gps/core/LocApiBase.cpp:976-990 | after calibration and until a jump or reset, every trusted call returns the boot time of the calibration less the initial travel plus the fix time since, untrusted calls between them or not |
| ElapsedRealtime.CalibratesAfterCountdown | gps/core/LocApiBase.cpp:942-992 | in any sequence of calls, calibration happens at the sixth trusted fix after a reset or jump if the five before it, the first one free, do not jump |
| ElapsedRealtime.CalibratesNoSooner | gps/core/LocApiBase.cpp:942-992 | and not before six trusted fixes |
| ElapsedRealtime.JumpRecalibrates | gps/core/LocApiBase.cpp:966-968 | a trusted fix that does not come exactly its known interval after the one before begins the calibration anew and is answered by the initial travel time |
| ElapsedRealtime.ElapsedRealtimeEstimator.GetElapsedRealtimeEstimateNanos | gps/core/LocApiBase.cpp:942-992 | the call updates the four fields and returns as the refined estimator does |
| ElapsedRealtime.ElapsedRealtimeEstimator.Reset | gps/core/LocApiBase.cpp:994-1002 | a reset leaves nothing of the earlier calibration |
| AdapterTable.AddKeeps | gps/core/LocApiBase.cpp:236-245 | adding keeps adapters distinct, and the adapter is in afterwards unless the table was full |
| AdapterTable.RemoveKeeps | gps/core/LocApiBase.cpp:247-281 | removing takes out exactly the named adapter and keeps the rest distinct |
| AdapterTable.RemovalAsks | gps/core/LocApiBase.cpp:247-281 | removing asks for nothing if the adapter is not there, for the modem to be closed if it was the only one, and for it to be opened anew for those that stay |
| AdapterTable.LocApi.AddAdapter | gps/core/LocApiBase.cpp:236-245 | the array stays a prefix of adapters followed by nulls, and an open message goes out exactly when it grew |
| AdapterTable.LocApi.RemoveAdapter | gps/core/LocApiBase.cpp:247-281 | the hole is filled with the last adapter, the loop ends, and the close message goes out if and only if the table became empty |
| ItemReport.ReportIsLatestHistory | gps/core/SystemStatus.cpp:1539-1566 | over every run of updates and default pushes the report is the newest five entries of the unbounded history |
| ItemReport.LatestAgreesWithHistory | gps/core/SystemStatus.cpp:1568-1576 | the latest-only answer agrees with the unbounded history |
| ItemReport.UpdatesNeverRepeat | gps/core/SystemStatus.cpp:1545-1549 | with updates only, no two neighbouring entries compare equal |
| ItemReport.DroppedUpdatesAreNotMissed | gps/core/SystemStatus.cpp:1545-1549 | not recording unchanged items loses nothing: the latest entry says what collating every item would say |
| ItemReport.RepeatIsDropped | gps/core/SystemStatus.cpp:1545-1549 | where collating is idempotent, an item that comes twice is recorded at most once |
| ItemReport.ItemStore.SetItemInReport | gps/core/SystemStatus.cpp:1539-1557 | records, restamps or ignores as the runs above do, and returns false exactly for an ignored or unchanged item |
| ItemReport.ItemStore.SetDefaultItemInReport | gps/core/SystemStatus.cpp:1559-1566 | a default push of the runs above |
| ItemReport.ItemStore.GetItemInReport | gps/core/SystemStatus.cpp:1568-1576 | the last entry alone, or nothing |
| NetworkInfo.CollateRefinesMap | gps/core/SystemStatus.h:533-606 | collating one event does to the table what it does to a bounded map from handle to type, with no holes and no duplicate handles |
| NetworkInfo.ConnectStep | gps/core/SystemStatus.h:547-563 | a connect inserts a new handle while there is room, and otherwise changes nothing |
| NetworkInfo.DisconnectStep | gps/core/SystemStatus.h:564-596 | a disconnect removes its handle exactly when that is connected under the same type |
| NetworkInfo.SwapWithLast | gps/core/SystemStatus.h:588-596 | deleting by swapping with the last used slot leaves no hole and no duplicate |
| NetworkInfo.ReportRefinesMap | gps/core/SystemStatus.h:533-606 | over every run of network events the latest report holds the table of that map, unrecorded events included |
| NetworkInfo.ReportedName | gps/core/SystemStatus.h:543-546 | over every run the reported access point name is the first non-empty one since the last mobile event, or since the beginning |
| NetworkInfo.SoundnessStep | gps/core/SystemStatus.h:547-602 | an event keeps every type in the mask live, except exactly a connect whose handle cannot enter the table under its type |
| NetworkInfo.ReportedTypesAreLive | gps/core/SystemStatus.h:547-602 | over every run without such connects each type in the reported mask has a live handle |
| NetworkInfo.CompletenessStep | gps/core/SystemStatus.h:598-604 | an event keeps every live type in the mask, except exactly a disconnect of an unknown type, or of one still live, while another type is live |
| NetworkInfo.LiveTypesAreReported | gps/core/SystemStatus.h:598-604 | over every run without such disconnects each known type with a live handle is in the reported mask |
| NetworkInfo.KnowledgeStep | gps/core/SystemStatus.h:547-604 | a mask that says rightly of one type whether it is live goes on doing so if and only if the event is neither a connect of that type that cannot be shown, nor a disconnect of another one that leaves it live and is of an unknown type or one still live |
| NetworkInfo.ReportedIffLive | gps/core/SystemStatus.h:547-604 | over every run without such events the reported mask has the type exactly while it has a live handle |
| NetworkInfo.RightRunsMisjudgeNone | gps/core/SystemStatus.h:547-604 | runs whose connects can be shown and whose disconnects forget nothing have no such events for any type |
| NetworkInfo.LiveTypeForgotten | gps/core/SystemStatus.h:598-602 | four events after which a live type is missing from the mask |
| NetworkInfo.CollateTwice | gps/core/SystemStatus.h:522-606 | collating the same event again compares equal |
| NetworkInfo.NetworkRepeatIsDropped | gps/core/SystemStatus.cpp:1545-1549 | so a network event that comes twice is recorded at most once |
| NetworkInfo.SystemStatusNetworkInfo.Collate | gps/core/SystemStatus.h:533-606 | the in-place rewriting of array, mask and name gives the collated value of the runs above |
| NetworkInfo.SystemStatusNetworkInfo.Survey | gps/core/SystemStatus.h:565-583 | one walk finds the slot to delete, the number of used slots and the number of other handles of the type |
| NetworkInfo.SystemStatusNetworkInfo.Equals | gps/core/SystemStatus.h:522-532 | true exactly when mask, connectivity, all ten slots and name agree |
| OsObserver.StepTransposed | gps/core/SystemStatusOsObserver.cpp:100-275 | every request keeps the two maps transposes of each other if and only if it is not an update by a client that already has items |
| OsObserver.UpdateLeaves | gps/core/SystemStatusOsObserver.cpp:142-163 | after an update the client is listed under exactly the items on which its old and new sets differ |
| OsObserver.StepTight | gps/utils/LocUnorderedSetMap.h:88-96 | no request leaves an entry with an empty set behind |
| OsObserver.StepWatchesIff | gps/core/SystemStatusOsObserver.cpp:59-118 | once there is a subscription object, every request keeps what the framework is subscribed to equal to the items with a client, if and only if it is not a request for data that opens an item, nor a new object subscribed to others |
| OsObserver.AskedItemStaysUnwatched | gps/core/SystemStatusOsObserver.cpp:100-118 | after one client asks for data of a new item and a second one subscribes to it, both are listed and the framework is not subscribed |
| OsObserver.StepAnnounces | gps/core/SystemStatusOsObserver.cpp:59-84 | what the framework heard of, in a subscription or a request for data, stays equal to the items with a client, if and only if a newly set object was told of no others |
| OsObserver.ItemsFollowRequests | gps/core/SystemStatusOsObserver.cpp:100-275 | over every run each client is on record with exactly the items its own requests ask for |
| OsObserver.ClientsFollowRequests | gps/core/SystemStatusOsObserver.cpp:100-275 | over every run an item lists a client exactly where that client's own requests leave it |
| OsObserver.WatchedIsListed | gps/core/SystemStatusOsObserver.cpp:59-275 | over every run the framework is subscribed to an item if and only if some client is listed under it and no request for data opened it, or the object was subscribed to it before |
| OsObserver.AllWatchedIff | gps/core/SystemStatusOsObserver.cpp:59-275 | over every run it is subscribed to all items with a client if and only if those opened by a request for data were subscribed before |
| OsObserver.AnnouncedIsListed | gps/core/SystemStatusOsObserver.cpp:59-275 | over every run the framework has heard of an item if and only if some client is listed under it, or it is left of what the subscription object was told before |
| OsObserver.ListedIsWanted | gps/core/SystemStatusOsObserver.cpp:142-163 | a client that never replaces items it has is listed exactly under what it wants, whatever others do |
| OsObserver.RunIsRight | gps/core/SystemStatusOsObserver.cpp:59-275 | over every run in which no client does, the maps are transposes, and the framework has heard of exactly the items with a client and is subscribed to those that no request for data opened |
| OsObserver.AnnouncedIsWanted | gps/core/SystemStatusOsObserver.cpp:59-275 | over such runs the framework has heard of an item if and only if some client asks for it, and is subscribed to it if, besides, no request for data opened it |
| OsObserver.NotifyReaches | gps/core/SystemStatusOsObserver.cpp:292-325 | over every run a notification reaches exactly the clients that want one of the new items and are listed under one of them, with exactly the newest values of all those they want |
| OsObserver.AlwaysReachedIff | gps/core/SystemStatusOsObserver.cpp:302-325 | notifications never miss a client if and only if it is listed under all it wants |
| OsObserver.NotifyReachesSubscribers | gps/core/SystemStatusOsObserver.cpp:292-325 | a client that never replaces items it has is told whenever one it wants is new |
| OsObserver.CacheHoldsNewest | gps/core/SystemStatusOsObserver.cpp:525-553 | after any report the cache has the value of the item recorded last under each id |
| OsObserver.CacheKeepsOthers | gps/core/SystemStatusOsObserver.cpp:533-547 | items that the report does not record anew keep their value, or their absence |
| OsObserver.NotifyNeverOvertells | gps/core/SystemStatusOsObserver.cpp:311-324 | over every run no client hears of an item it did not ask for |
| OsObserver.FirstResponse | gps/core/SystemStatusOsObserver.cpp:105-166 | over every run the first response to a subscription or an update carries, to its client alone, exactly the newest values of the items it is new for that were ever recorded |
| OsObserver.CacheFollowsReports | gps/core/SystemStatusOsObserver.cpp:523-537 | over every run the cache is made by the reports alone |
| OsObserver.DroppedItemsStayWatched | gps/core/SystemStatusOsObserver.cpp:142-275 | an item dropped by an update keeps the client, and the framework its subscription, even after the client unsubscribes from everything |
| SetMap.LocUnorderedSetMap.TrimOrRemove | gps/utils/LocUnorderedSetMap.h:137-150 | each named key loses the values and goes with its last one; the gone keys and lost values are reported exactly |
| SetMap.LocUnorderedSetMap.AddAll | gps/utils/LocUnorderedSetMap.h:168-183 | each named key gains the values; exactly the new keys are reported |
| SetMap.LocUnorderedSetMap.Update | gps/utils/LocUnorderedSetMap.h:185-198 | the entry is replaced; what is returned are the values that stay |
| SetMap.RemoveAndReturnIntersect | gps/utils/LocUnorderedSetMap.h:62-79 | splits two sets into what they share and what each has alone |
| SetMap.TrimSet | gps/utils/LocUnorderedSetMap.h:50-60 | splits a set into what stays and what goes |
| OsObserver.SystemStatusOsObserver.Subscribe | gps/core/SystemStatusOsObserver.cpp:89-132 | one request of the runs above on both maps, the cache and the subscription object, subscribing or only asking for data as the flag says, and what the client is told |
| OsObserver.SystemStatusOsObserver.UpdateSubscription | gps/core/SystemStatusOsObserver.cpp:134-198 | likewise |
| OsObserver.SystemStatusOsObserver.Unsubscribe | gps/core/SystemStatusOsObserver.cpp:200-236 | likewise |
| OsObserver.SystemStatusOsObserver.UnsubscribeAll | gps/core/SystemStatusOsObserver.cpp:238-275 | likewise |
| OsObserver.SystemStatusOsObserver.SetSubscriptionObj | gps/core/SystemStatusOsObserver.cpp:59-84 | likewise; nothing happens for a null object |
| OsObserver.SystemStatusOsObserver.Notify | gps/core/SystemStatusOsObserver.cpp:280-354 | likewise, with every delivery |
| OsObserver.SystemStatusOsObserver.SendCachedDataItems | gps/core/SystemStatusOsObserver.cpp:495-523 | the client gets the cached ones among the items, and no call at all if there are none |
| ActionRequests.ActiveRequests.TurnOn | gps/core/SystemStatusOsObserver.cpp:359-396 | over all calls the framework has an item on exactly while requests outnumber releases, and is told only at the changes |
| ActionRequests.ActiveRequests.TurnOff | gps/core/SystemStatusOsObserver.cpp:398-430 | likewise; a release nobody asked for changes nothing |
| BiDictionary.PutKeepsInverse | gps/location/LocationAPIClientBase.h:321-327 | setting a pair keeps the two maps inverse if and only if neither half belongs to another pair |
| BiDictionary.RemovedIdKeepsInverse | gps/location/LocationAPIClientBase.h:335-341 | removing by id keeps them inverse if and only if the id is known or no session is 0 |
| BiDictionary.RemovedSessionKeepsInverse | gps/location/LocationAPIClientBase.h:342-348 | the same for removing by session |
| BiDictionary.BiDict.GetExtById | gps/location/LocationAPIClientBase.h:369-382 | finds what is kept for an id; asking for an unknown id leaves it behind, tied to session 0 |
| BiDictionary.BiDict.GetId | gps/location/LocationAPIClientBase.h:349-358 | the id of a session, or 0, changing nothing |
| BiDictionary.BiDict.GetSession | gps/location/LocationAPIClientBase.h:359-368 | the session of an id, or 0, changing nothing |
| BiDictionary.BiDict.Set | gps/location/LocationAPIClientBase.h:321-327 | the three maps change as the inverse laws above assume |
| BiDictionary.BiDict.RmById | gps/location/LocationAPIClientBase.h:335-341 | likewise |
| BiDictionary.BiDict.RmBySession | gps/location/LocationAPIClientBase.h:342-348 | likewise |
| LocationApiClient.StepKeepsSound | gps/location/LocationAPIClientBase.cpp:420-608 | whatever is called or answered, in any order, ids and live sessions stay inverse, with one entity for each live session that names it under its mode and no other |
| LocationApiClient.RunKeepsSound | gps/location/LocationAPIClientBase.cpp:420-969 | so over every run with fresh non-zero session numbers |
| LocationApiClient.UpdateKeepsSound | gps/location/LocationAPIClientBase.cpp:516-608 | an update moves its id to the new session exactly when it goes between fixes and batches, and no other id |
| LocationApiClient.TripsReportTheirClients | gps/location/LocationAPIClientBase.cpp:883-904 | of the completed sessions exactly the live trips are removed, and exactly their clients' ids are reported |
| LocationApiClient.StartAsksAndRecords | gps/location/LocationAPIClientBase.cpp:420-482 | a start of a new id asks for one session of the kind and batching mode that its mode wants, waits for its answer and records id, session and mode; a second start does nothing |
| LocationApiClient.StopAsks | gps/location/LocationAPIClientBase.cpp:484-514 | a stop asks for the end of the session under which its id is on record, and keeps the record until the answer |
| LocationApiClient.UpdateCalls | gps/location/LocationAPIClientBase.cpp:516-587 | which calls an update makes within one kind and between the kinds, with their batching mode, and the one answer it waits for |
| LocationApiClient.UpdateRecords | gps/location/LocationAPIClientBase.cpp:589-598 | an update records the new mode, moves its id alone and keeps every other record |
| LocationApiClient.GetBatchedAsks | gps/location/LocationAPIClientBase.cpp:610-637 | a fetch asks for the locations of a batch, and is refused for a session of single fixes |
| LocationApiClient.AnswerForgets | gps/location/LocationAPIClientBase.h:413-466 | while in step, exactly the refusal of a start and the success of a stop take a session off the record |
| LocationApiClient.RunRecordsMode | gps/location/LocationAPIClientBase.cpp:471-476 | over every run the mode on record for a live id is the one that its last accepted start or update asked for |
| LocationApiClient.OwnQueueFirst | gps/location/LocationAPIClientBase.cpp:948-969 | an answer takes the first request of a queue that has its session for its own, tracking before network-initiated, and leaves the other queues |
| LocationApiClient.AnswerTakesSessionRequest | gps/location/LocationAPIClientBase.cpp:948-969 | an answer takes a session request if and only if its session is live and no queue with that session has one |
| LocationApiClient.LateAnswerIsHarmless | gps/location/LocationAPIClientBase.cpp:906-946 | a late answer for a replaced session removes no session and takes no session request |
| LocationApiClient.AnswerMeetsItsRequest | gps/location/LocationAPIClientBase.cpp:948-969 | while calls and answers are in step, the next answer takes the very request it is for, or none if its session was replaced |
| LocationApiClient.DeliverMatchesIff | gps/location/LocationAPIClientBase.cpp:906-918 | an answer keeps them in step if and only if it does not end a session for which another is to come |
| LocationApiClient.UpdateMatchesIff | gps/location/LocationAPIClientBase.cpp:516-608 | an update does if and only if it does not replace such a session |
| LocationApiClient.CompletedMatchesIff | gps/location/LocationAPIClientBase.cpp:883-904 | completed trips do if and only if none of them is such a session |
| LocationApiClient.ProceedMatchesIff | gps/location/LocationAPIClientBase.cpp:420-635 | of all calls and answers exactly these three kinds put calls and answers out of step |
| LocationApiClient.AnswersMeetRequests | gps/location/LocationAPIClientBase.cpp:420-969 | over every run without such a move each answer meets the request it is for |
| LocationApiClient.AllMeetIff | gps/location/LocationAPIClientBase.cpp:420-969 | over a run at whose end no answer is outstanding, each met its request if and only if there was no such move |
| LocationApiClient.PatientAnswersMeet | gps/location/LocationAPIClientBase.cpp:420-969 | in particular for a client that awaits each answer before it calls for the same id again |
| LocationApiClient.SecondStopEndsNextSession | gps/location/LocationAPIClientBase.cpp:484-514 | such a run: a leftover stop request makes the answer to a successful start end the session |
| LocationApiClient.LocationAPIClientBase.LocAPIStartSession | gps/location/LocationAPIClientBase.cpp:420-482 | the step of the runs above, with the calls made and the status returned |
| LocationApiClient.LocationAPIClientBase.LocAPIStopSession | gps/location/LocationAPIClientBase.cpp:484-514 | likewise |
| LocationApiClient.LocationAPIClientBase.LocAPIUpdateSessionOptions | gps/location/LocationAPIClientBase.cpp:516-608 | likewise |
| LocationApiClient.LocationAPIClientBase.LocAPIGetBatchedLocations | gps/location/LocationAPIClientBase.cpp:610-635 | likewise |
| LocationApiClient.LocationAPIClientBase.GetRequestBySession | gps/location/LocationAPIClientBase.cpp:948-969 | the lookup the answer theorems are about, on the three queues |
| LocationApiClient.LocationAPIClientBase.OnResponseCb | gps/location/LocationAPIClientBase.cpp:906-918 | the answer step of the runs above |
| LocationApiClient.LocationAPIClientBase.BeforeBatchingStatusCb | gps/location/LocationAPIClientBase.cpp:883-904 | the completion step of the runs above |
| Geofence.SaveKeepsIndexed | gps/geofence/GeofenceAdapter.cpp:686-704 | saving keeps every key leading to a fence that carries it if and only if no other key leads to that number |
| Geofence.StepSoundIff | gps/geofence/GeofenceAdapter.cpp:182-768 | every step, engine restarts included, keeps the keys leading to exactly the fences no client has left, if and only if it is not a late answer, of which a number may have several, that hits a number the engine has given out again |
| Geofence.StruckKeyLeadsNowhere | gps/geofence/GeofenceAdapter.cpp:98-110 | after such an answer the key of a live fence leads nowhere |
| Geofence.RemovalTakesOut | gps/geofence/GeofenceAdapter.cpp:706-729 | a removal takes out the fence and its key and nothing else; a number that is not stored, or left behind, changes nothing |
| Geofence.ChangesTouchOneFence | gps/geofence/GeofenceAdapter.cpp:731-768 | a pause, a resume and a change of options touch the one field of the one fence |
| Geofence.StopLeaves | gps/geofence/GeofenceAdapter.cpp:86-117 | when a client stops its keys are gone at once, and exactly its fences are left behind and asked to be removed |
| Geofence.AnswerErases | gps/geofence/GeofenceAdapter.cpp:98-110 | the success of such a removal erases that fence and nothing else |
| Geofence.RunKeepsFences | gps/geofence/GeofenceAdapter.cpp:686-768 | over every run without strikes, restarts included, each key leads to the fence as its client last saved, changed, paused or resumed it |
| Geofence.RunKeepsSound | gps/geofence/GeofenceAdapter.cpp:86-116 | over every run without an answer that strikes a live fence, restarts and removals pending or refused included |
| Geofence.RestartBringsBack | gps/geofence/GeofenceAdapter.cpp:182-218 | after an engine restart exactly the fences the engine took back are there, with key, options, position and radius, each found by its key |
| Geofence.RestartPreserves | gps/geofence/GeofenceAdapter.cpp:182-218 | when all adds succeed every key leads to the same fence as before, only recorded as not paused, with removals still pending |
| Geofence.RestartKeysAreOld | gps/geofence/GeofenceAdapter.cpp:86-116 | the keys after it are the old ones if and only if no departed client's fence was left |
| Geofence.RestartPausesAgain | gps/geofence/GeofenceAdapter.cpp:207-216 | the engine is asked to pause exactly the returned fences that were recorded as paused |
| Geofence.RestartPausesAsWanted | gps/geofence/GeofenceAdapter.cpp:207-216 | a restart at the end of such a run asks to pause the fence of a key exactly if the last word on it was a pause |
| Geofence.SecondRestartForgetsPauses | gps/geofence/GeofenceAdapter.cpp:182-218 | a second restart asks to pause none of them |
| Geofence.BreachedInOrder | gps/geofence/GeofenceAdapter.cpp:840-849 | each reported number of a client's own appears in its list, after those reported before it |
| Geofence.BreachedIff | gps/geofence/GeofenceAdapter.cpp:840-849 | an id is in a client's list if and only if a reported number is that of its fence with that id |
| Geofence.BreachesArePartitioned | gps/geofence/GeofenceAdapter.cpp:830-862 | the lengths of all registered clients' lists sum to the reported numbers whose owner is registered |
| Geofence.NotifiedIff | gps/geofence/GeofenceAdapter.cpp:850-858 | a notification goes out if and only if its client is registered with a callback and its ids are the client's list, which is not empty |
| Geofence.NotifiedOnce | gps/geofence/GeofenceAdapter.cpp:835-858 | no client is notified twice of one breach |
| Geofence.GeofenceAdapter.StopClientSessions | gps/geofence/GeofenceAdapter.cpp:86-116 | every key of the client goes at once and no other, and the engine is asked to remove exactly their fences |
| Geofence.GeofenceAdapter.SaveGeofenceItem | gps/geofence/GeofenceAdapter.cpp:686-704 | the save step of the runs above |
| Geofence.GeofenceAdapter.RemoveGeofenceItem | gps/geofence/GeofenceAdapter.cpp:706-729 | the removal step of the runs above; a fence whose key is gone stays |
| Geofence.GeofenceAdapter.PauseGeofenceItem | gps/geofence/GeofenceAdapter.cpp:731-741 | records the pause of a stored fence, and nothing for any other number |
| Geofence.GeofenceAdapter.ResumeGeofenceItem | gps/geofence/GeofenceAdapter.cpp:743-753 | records the end of the pause likewise |
| Geofence.GeofenceAdapter.ModifyGeofenceItem | gps/geofence/GeofenceAdapter.cpp:755-768 | replaces the four options of a stored fence and keeps its key, place and pause |
| Geofence.GeofenceAdapter.OnRemovedForDeparted | gps/geofence/GeofenceAdapter.cpp:98-110 | the answer step of the runs above: a departed client's fence goes only when the engine has removed it |
| Geofence.GeofenceAdapter.RestartGeofences | gps/geofence/GeofenceAdapter.cpp:182-218 | the restart of the theorems above, with every add and pause request |
| Geofence.GeofenceAdapter.GetHwIdFromClient | gps/geofence/GeofenceAdapter.cpp:134-144 | the number stored for exactly the client's keys, which in a sound table leads to the fence that carries the key |
| Geofence.GeofenceAdapter.GetGeofenceKeyFromHwId | gps/geofence/GeofenceAdapter.cpp:146-155 | the key of a stored fence, and failure for any other number |
| Geofence.GeofenceAdapter.ClientIds | gps/geofence/GeofenceAdapter.cpp:840-849 | collects the list that the breach theorems are about |
| Geofence.GeofenceAdapter.GeofenceBreach | gps/geofence/GeofenceAdapter.cpp:830-862 | sends the notifications that these are about, client by client |

## Left out

- Sockets, threads, locks, dlopen, memory release, logging, and everything the callbacks do on the client's side.
- Other directories of the tree (`power_stats/`, `udfps/`, `libinit/`, shims, scripts) and the forwarding files under `gps/location/`: device input and output, property setting and calls passed on, without state that spans operations.
- TripBatching.RunAccounts: modem calls are atomic and succeed; a failed query or restart, a join between a restart request and its response, and engine restart (which resets offsets on a copy) are not modelled, nor is an odometer that passes 32 bits.
- TripBatching.BatchingAdapter.StopTripBatchingMultiplexCommon: the batch or trip that the source starts with new options right after the stop is not modelled, because it issues that start before the restart of the stop has been answered; nor are the stop that does not erase its trip, event masks, the batching session table and responses to clients.
- AgpsObjects.AgpsStateMachine.ProcessAgpsEventGranted: access point name, bearer, APN mask and subscription id that travel with the callbacks are not modelled.
- AgpsClosedLoop.LoopIsRight: the network is there whenever the machine asks for the connection; without it only ActAlignedIff and RunAligned hold. GnssAdapter's commands append to one queue (its body is not part of this model), and all requests are of the internet type.
- LocHeap.RunRefinesQueue: ranks are integers, a total preorder; an element stands for its address.
- LocIpc.RoundTrip: the channel is lossless and in order; a header or short message is sent whole or not at all. In the scan, leading blanks or a sign, which the printer never writes, and the overflow of a length beyond the machine word are not modelled.
- ElapsedRealtime.Telescopes: clock readings are unbounded integers; the other estimators of the file are left out.
- AdapterTable.LocApi.RemoveAdapter: event masks that the open and close messages recompute are not modelled.
- ItemReport.ReportIsLatestHistory: each item kind's fields other than NetworkInfo's are left out; a kind is what its collate, equals, ignore and time stamp do.
- NativeAgpsHandler.KnowsOfMobile: only the connectivity that the handler learns; its access point name is that of the item it hears, to which the report does not copy the reported one back (`gps/core/SystemStatus.cpp:1735-1740`).
- NetworkInfo.ReportRefinesMap: events are those built from a type, a connection flag, a handle and a name; data items that arrive with a mask or table of their own are not modelled. The mask is a set of type numbers; available, roaming and type names, which neither collate nor equals looks at, are left out.
- OsObserver.SystemStatusOsObserver.Notify: whether SystemStatus records an item is part of the input; a failed allocation of a cache entry and the order in which clients are called are not modelled.
- OsObserver.RunIsRight: for runs in which no client replaces items it has and each new subscription object starts from nothing; ClientsFollowRequests, AnnouncedIsListed and WatchedIsListed say what holds over every run. What the framework does with a request for data, beyond hearing of the items, is not modelled.
- ActionRequests.ActiveRequests.TurnOn: a framework object is set, and counts do not overflow; backhaul requests are left out.
- LocationApiClient.StepKeepsSound: a location interface is always there and never gives out session 0 or a live session; the geofence queue and its collective answers are left out.
- LocationApiClient.AnswersMeetRequests: the interface answers every call once and in order, and the client uses neither the single tracking session nor network-initiated responses at the same time.
- Geofence.RestartBringsBack: the adds of one restart are answered together, before anything else happens; the collective error arrays of the commands and stopClientSessions without erasing are left out.
- Geofence.GeofenceAdapter.RestartGeofences: the ascending order of the old numbers is given as a list of them in any order.
