# TRPGNarrator virtual host core, in Dafny

TRPGNarrator runs a tabletop role-playing session. Its simulation side is the virtual host. This project models the virtual host's coordination core and the client classes that consume its output.

**Virtual host**
- **Broker.** A synchronous message broker with named channels of receivers. Messages fan out to every receiver of a channel. A request collects one answer per receiver. The broker's tests also expect a set of clock receivers that get the time steps. The class as written has no such set (see "## Left out").
- **Board.** A board of 110 hex fields, each linked to its neighbours. The board controller answers the board data, field locations and pathfinder requests.
- **Pathfinder.** An A* search from the goal field back to the start field.
- **CEManagement, the manager of concurrent events.** It turns a "find path" message into a pathfinding job. It keeps at most one pending job per figurine and cancels the job it replaces. On every clock tick it collects the finished jobs and announces each found path.
- **Figurine controller.** It places the figurines. It turns a found path into a walk of one shift per pair of waypoints, and turns a path request into a "find path" message.
- **Host connector.** It validates the board data it hands to the client, helped by the extractor of the first answer.
- **Shared pieces.** The error codes and coded error messages, and the value classes that travel through the broker (fetch commands, pathfinding configurations, transfer objects) with their `equals` and `hashCode`.

**Client**
- The action tweens: a sequence of tweens, and tweens run in parallel.
- The mouse-wheel camera zoom, in its two copies.
- The client's board, built from the transfer object.
- The local client connector.

**How the Java code is modelled**
- Objects whose fields the Java code updates are Dafny classes. Values are datatypes.
- Java `null` is `None` or `Value.Null`.
- A thrown exception is an `Err`/`Fail` value carrying its class and message. A receiver's exception during a broker request is not modelled (see "## Left out").
- Java `int` and `byte` arithmetic is written out where it wraps.
- A receiver is known by an identity number. A receiver's answers to a request are a function parameter.
- Sending returns the list of deliveries, in order.
- The executor's jobs are handles. Their state (running, finished with a result, failed) is a function parameter.

## Model

| member | source | states |
|---|---|---|
| `Broker.AddOnceIsIdempotent` | virtualhost/src/main/java/dev/dragonstb/trpgnarrator/virtualhost/broker/BrokerChannel.java:50-54 | adding a receiver twice equals adding it once; the list then holds it exactly once and has no duplicates |
| `Broker.RemoveFirstOfUnique` | virtualhost/src/main/java/dev/dragonstb/trpgnarrator/virtualhost/broker/BrokerChannel.java:62-64 | removing a receiver from a duplicate-free list takes out exactly that receiver, keeps the order of the rest, and leaves the list unchanged when it is absent |
| `Broker.CollectedKeepsEveryAnswer` | virtualhost/src/main/java/dev/dragonstb/trpgnarrator/virtualhost/broker/BrokerChannel.java:83-92 | without `skipEmpties`, a request yields every receiver's answer, one per receiver, in receiver order |
| `Broker.CollectedSkipsOnlyEmpties` | virtualhost/src/main/java/dev/dragonstb/trpgnarrator/virtualhost/broker/BrokerChannel.java:83-92 | with `skipEmpties`, a request yields only present answers, in receiver order, and drops exactly the empty ones |
| `Broker.BrokerChannel.constructor` | virtualhost/src/main/java/dev/dragonstb/trpgnarrator/virtualhost/broker/BrokerChannel.java:40-42 | a new channel has its name and no receivers |
| `Broker.BrokerChannel.AddReceiver` | virtualhost/src/main/java/dev/dragonstb/trpgnarrator/virtualhost/broker/BrokerChannel.java:50-54 | the receiver is appended unless already present; the list stays free of duplicates |
| `Broker.BrokerChannel.RemoveReceiver` | virtualhost/src/main/java/dev/dragonstb/trpgnarrator/virtualhost/broker/BrokerChannel.java:62-64 | the receiver is gone afterwards and every other receiver stays |
| `Broker.BrokerChannel.Send` | virtualhost/src/main/java/dev/dragonstb/trpgnarrator/virtualhost/broker/BrokerChannel.java:72-74 | every receiver gets the message exactly once, in list order |
| `Broker.BrokerChannel.Request` | virtualhost/src/main/java/dev/dragonstb/trpgnarrator/virtualhost/broker/BrokerChannel.java:83-92 | the answers of all receivers in list order, empty ones left out when `skipEmpties` is set |
| `Broker.BrokerChannel.IsEmpty` | virtualhost/src/main/java/dev/dragonstb/trpgnarrator/virtualhost/broker/BrokerChannel.java:100-102 | true exactly when no receiver is registered |
| `Broker.TimingChannel.constructor` | virtualhost/src/main/java/dev/dragonstb/trpgnarrator/virtualhost/broker/TimingChannel.java:35 | a new timing channel has no clock receivers |
| `Broker.TimingChannel.AddReceiver` | virtualhost/src/main/java/dev/dragonstb/trpgnarrator/virtualhost/broker/TimingChannel.java:37-41 | the set of clock receivers gains the receiver; adding again changes nothing |
| `Broker.TimingChannel.RemoveReceiver` | virtualhost/src/main/java/dev/dragonstb/trpgnarrator/virtualhost/broker/TimingChannel.java:43-45 | the receiver leaves the set; an absent one is a no-op |
| `Broker.TimingChannel.Update` | virtualhost/src/main/java/dev/dragonstb/trpgnarrator/virtualhost/broker/TimingChannel.java:47-49 | every registered clock receiver gets the time step exactly once, and nobody else does |
| `Broker.CheckTimeStep` | virtualhost/src/test/java/dev/dragonstb/trpgnarrator/virtualhost/broker/SyncBrokerImpAndBrokerChannelIT.java:176-208 | a time step passes exactly when it is finite and not negative; otherwise an IllegalArgumentException carrying V50700 |
| `Broker.UpdateAsWritten` | virtualhost/src/main/java/dev/dragonstb/trpgnarrator/virtualhost/broker/SyncBrokerImp.java:87-89 | as written, `update` accepts every time step and forwards nothing |
| `Broker.AsWrittenUpdateAcceptsNaN` | virtualhost/src/main/java/dev/dragonstb/trpgnarrator/virtualhost/broker/SyncBrokerImp.java:87-89 | as written, NaN is accepted where the check rejects it, and a valid step reaches no clock receiver |
| `Broker.SyncBroker.constructor` | virtualhost/src/main/java/dev/dragonstb/trpgnarrator/virtualhost/broker/SyncBrokerImp.java:44-46 | a new broker has no channels and no clock receivers |
| `Broker.SyncBroker.RegisterToChannel` | virtualhost/src/main/java/dev/dragonstb/trpgnarrator/virtualhost/broker/SyncBrokerImp.java:49-58 | the receiver joins the channel, which is created when new; registering again changes nothing; other channels and the clock receivers are unchanged |
| `Broker.SyncBroker.JoinChannel` | virtualhost/src/main/java/dev/dragonstb/trpgnarrator/virtualhost/broker/SyncBrokerImp.java:50-52 | an existing channel gains the receiver once |
| `Broker.SyncBroker.OpenChannel` | virtualhost/src/main/java/dev/dragonstb/trpgnarrator/virtualhost/broker/SyncBrokerImp.java:53-57 | a new channel is created holding just the receiver |
| `Broker.SyncBroker.DeregisterFromChannel` | virtualhost/src/main/java/dev/dragonstb/trpgnarrator/virtualhost/broker/SyncBrokerImp.java:61-71 | an unknown channel is a no-op; otherwise the receiver leaves it, and a channel left empty is dropped |
| `Broker.SyncBroker.Send` | virtualhost/src/main/java/dev/dragonstb/trpgnarrator/virtualhost/broker/SyncBrokerImp.java:74-79 | every receiver of the channel gets the message once, in order; an unknown channel delivers nothing |
| `Broker.SyncBroker.Request` | virtualhost/src/main/java/dev/dragonstb/trpgnarrator/virtualhost/broker/SyncBrokerImp.java:82-85 | the channel's collected answers; an unknown channel answers an empty list |
| `Broker.SyncBroker.RegisterToTiming` | virtualhost/src/test/java/dev/dragonstb/trpgnarrator/virtualhost/broker/SyncBrokerImpAndBrokerChannelIT.java:159-165 | the clock receiver joins the timing set |
| `Broker.SyncBroker.DeregisterFromTiming` | virtualhost/src/test/java/dev/dragonstb/trpgnarrator/virtualhost/broker/SyncBrokerImpAndBrokerChannelIT.java:167-174 | the clock receiver leaves the timing set and gets no further steps |
| `Broker.SyncBroker.Update` | virtualhost/src/main/java/dev/dragonstb/trpgnarrator/virtualhost/broker/SyncBrokerImp.java:87-89 | corrected `update`: a malformed step fails with V50700 and reaches nobody; a valid one reaches every clock receiver exactly once |
| `Broker.RegisteringTwiceDeliversOnce` | virtualhost/src/main/java/dev/dragonstb/trpgnarrator/virtualhost/broker/SyncBrokerImp.java:49-58 | after two registrations of one receiver it occurs once in the channel, so a send reaches it once |
| `ConcurrentEvents.PathfinderFetch` | virtualhost/src/main/java/dev/dragonstb/trpgnarrator/virtualhost/concurrentevents/CEManagement.java:146-147 | the request asks for BOARD_PATHFINDER with a configuration of the two fields |
| `ConcurrentEvents.ExtractPathfinder` | virtualhost/src/main/java/dev/dragonstb/trpgnarrator/virtualhost/concurrentevents/CEManagement.java:149-151 | succeeds exactly when the first answer is present and a pathfinder, and yields it; otherwise fails with V97498 |
| `ConcurrentEvents.ContentFailureCarriesCode` | virtualhost/src/main/java/dev/dragonstb/trpgnarrator/virtualhost/concurrentevents/CEManagement.java:129-137 | wrong message content gives a ClassCastException naming the class it got and carrying V42664 |
| `ConcurrentEvents.PathfinderComesFromTheBoard` | virtualhost/src/main/java/dev/dragonstb/trpgnarrator/virtualhost/concurrentevents/CEManagement.java:146-151 | with the board as the only receiver on its channel: an empty answer makes the extraction fail with V97498, and an answered pathfinder is the one extracted |
| `ConcurrentEvents.FoundPathsOwners` | virtualhost/src/main/java/dev/dragonstb/trpgnarrator/virtualhost/concurrentevents/CEManagement.java:199-208 | every announced path belongs to a figurine with a pending job and carries its waypoints |
| `ConcurrentEvents.CheckOutcomeAsWritten` | virtualhost/src/main/java/dev/dragonstb/trpgnarrator/virtualhost/concurrentevents/CEManagement.java:196-215 | as written, the traversal throws ConcurrentModificationException exactly when some job is done |
| `ConcurrentEvents.FoundPathIsLostAsWritten` | virtualhost/src/main/java/dev/dragonstb/trpgnarrator/virtualhost/concurrentevents/CEManagement.java:196-222 | one finished job with a path: as written, the job leaves the table, nothing is sent and the call throws; the corrected check announces the path |
| `ConcurrentEvents.SubmitKeepsJobsConsistent` | virtualhost/src/main/java/dev/dragonstb/trpgnarrator/virtualhost/concurrentevents/CEManagement.java:152-161 | a new job for a figurine, cancelling its previous one, keeps every pending job submitted, uncancelled and owned by one figurine |
| `ConcurrentEvents.CEManagement.constructor` | virtualhost/src/main/java/dev/dragonstb/trpgnarrator/virtualhost/concurrentevents/CEManagement.java:79-87 | the manager registers on its channel and starts without jobs |
| `ConcurrentEvents.CEManagement.Request` | virtualhost/src/main/java/dev/dragonstb/trpgnarrator/virtualhost/concurrentevents/CEManagement.java:104-111 | the request map is empty, so every request is answered empty |
| `ConcurrentEvents.CEManagement.Receive` | virtualhost/src/main/java/dev/dragonstb/trpgnarrator/virtualhost/concurrentevents/CEManagement.java:93-101 | a "find path" message is handled as `findPath`; every other headline changes nothing |
| `ConcurrentEvents.CEManagement.FindPath` | virtualhost/src/main/java/dev/dragonstb/trpgnarrator/virtualhost/concurrentevents/CEManagement.java:125-162 | null content throws NullPointerException; wrong content throws ClassCastException with V42664; a failed extraction throws with V97498 and changes nothing; otherwise the pathfinder is submitted, the figurine's previous job is cancelled and replaced |
| `ConcurrentEvents.CEManagement.Submit` | virtualhost/src/main/java/dev/dragonstb/trpgnarrator/virtualhost/concurrentevents/CEManagement.java:152-161 | the pathfinder is submitted as a new job that replaces the figurine's entry; the old job, if any, is cancelled |
| `ConcurrentEvents.CEManagement.CollectDone` | virtualhost/src/main/java/dev/dragonstb/trpgnarrator/virtualhost/concurrentevents/CEManagement.java:197-215 | the done jobs leave the table, and the collected paths are exactly those of the done jobs that found one, without repeats |
| `ConcurrentEvents.CEManagement.CheckAndClean` | virtualhost/src/main/java/dev/dragonstb/trpgnarrator/virtualhost/concurrentevents/CEManagement.java:196-222 | corrected: the done jobs leave the table, and exactly one FOUND_PATH message per found path goes to the figurine channel |
| `ConcurrentEvents.CEManagement.CheckAndCleanAsWritten` | virtualhost/src/main/java/dev/dragonstb/trpgnarrator/virtualhost/concurrentevents/CEManagement.java:196-222 | as written: the same removals, but the call throws when a job is done, and nothing is sent |
| `ConcurrentEvents.CEManagement.Update` | virtualhost/src/main/java/dev/dragonstb/trpgnarrator/virtualhost/concurrentevents/CEManagement.java:174-186 | corrected: found paths are announced and finished jobs removed, then the broker's time step reaches every clock receiver unless it is malformed |
| `ConcurrentEvents.CEManagement.UpdateAsWritten` | virtualhost/src/main/java/dev/dragonstb/trpgnarrator/virtualhost/concurrentevents/CEManagement.java:174-186 | as written, on the broker as written: when a job is done the check throws before the broker's step; otherwise the broker's empty `update` runs; no clock receiver gets the step either way |
| `Pathfinding.Fresh` | virtualhost/src/main/java/dev/dragonstb/trpgnarrator/virtualhost/board/Pathfinder.java:197-215 | a new wrapper is not investigated, has infinite lengths and no successor, and carries its field's heuristic |
| `Pathfinding.FirstMinimum` | virtualhost/src/main/java/dev/dragonstb/trpgnarrator/virtualhost/board/Pathfinder.java:121-132 | the scan finds nothing exactly when every total is infinite; otherwise the first position of the smallest total |
| `Pathfinding.ExhaustedSearchFindsNothing` | virtualhost/src/main/java/dev/dragonstb/trpgnarrator/virtualhost/board/Pathfinder.java:77-104 | when the pool runs empty before the start field is popped, the start field cannot be reached from the goal |
| `Pathfinding.Relaxed` | virtualhost/src/main/java/dev/dragonstb/trpgnarrator/virtualhost/board/Pathfinder.java:159-168 | a neighbour changes only on a strict improvement (a length of one more than the investigated field's beats its known length); then the investigated field becomes its successor, that length its length and the length plus its heuristic its total; its length ends as the smaller of the two |
| `Pathfinding.AddFreshKeeps` | virtualhost/src/main/java/dev/dragonstb/trpgnarrator/virtualhost/board/Pathfinder.java:143-147 | creating a wrapper for a field not seen before keeps the search invariants |
| `Pathfinding.ImproveSound` | virtualhost/src/main/java/dev/dragonstb/trpgnarrator/virtualhost/board/Pathfinder.java:159-168 | lowering a neighbour's length to one more than the investigated field's keeps every successor one link closer to the goal |
| `Pathfinding.ImprovePool` | virtualhost/src/main/java/dev/dragonstb/trpgnarrator/virtualhost/board/Pathfinder.java:159-175 | the same step inserts the neighbour into the pool when its total was infinite, and the pool stays exact |
| `Pathfinding.PopSound` | virtualhost/src/main/java/dev/dragonstb/trpgnarrator/virtualhost/board/Pathfinder.java:89 | marking the popped field investigated keeps every wrapper sound |
| `Pathfinding.PopPool` | virtualhost/src/main/java/dev/dragonstb/trpgnarrator/virtualhost/board/Pathfinder.java:134 | removing the popped field keeps the pool exactly the non-investigated fields with finite total |
| `Pathfinding.SuccessorsLeadToGoal` | virtualhost/src/main/java/dev/dragonstb/trpgnarrator/virtualhost/board/Pathfinder.java:93-99 | a field with a known length either is the goal or has a successor one link closer to the goal |
| `Pathfinding.Pathfinder.constructor` | virtualhost/src/main/java/dev/dragonstb/trpgnarrator/virtualhost/board/Pathfinder.java:55-60 | the pathfinder holds the two field ids and the board, with no wrappers and an empty pool |
| `Pathfinding.Pathfinder.Call` | virtualhost/src/main/java/dev/dragonstb/trpgnarrator/virtualhost/board/Pathfinder.java:63-105 | a path is returned exactly when the start field can reach the goal; it is the locations of a route of linked fields from start to goal; start equal to goal gives the one-field path |
| `Pathfinding.Pathfinder.Round` | virtualhost/src/main/java/dev/dragonstb/trpgnarrator/virtualhost/board/Pathfinder.java:78-91 | an empty pool stops the search without success and changes nothing; otherwise the popped field is the first minimum of the pool, success holds exactly when it is the start field, and any other popped field ends investigated; the search stops exactly on success or on an empty pool; the invariants hold and the measure shrinks while it goes on |
| `Pathfinding.Pathfinder.Investigate` | virtualhost/src/main/java/dev/dragonstb/trpgnarrator/virtualhost/board/Pathfinder.java:89-90 | the popped field ends investigated with its other fields unchanged; the wrappers are the old ones plus the fields linked to it; each linked field not investigated is relaxed through it, every other wrapper is unchanged; the invariants hold and the measure strictly shrinks |
| `Pathfinding.Pathfinder.Insert` | virtualhost/src/main/java/dev/dragonstb/trpgnarrator/virtualhost/board/Pathfinder.java:107-109 | the field is appended to the pool |
| `Pathfinding.Pathfinder.RemoveMin` | virtualhost/src/main/java/dev/dragonstb/trpgnarrator/virtualhost/board/Pathfinder.java:115-136 | an empty pool gives nothing; otherwise the first field with the smallest total is taken out and the rest stays in order |
| `Pathfinding.Pathfinder.Relax` | virtualhost/src/main/java/dev/dragonstb/trpgnarrator/virtualhost/board/Pathfinder.java:138-179 | the wrappers are the old ones plus one for every linked field not seen before; each linked field not investigated ends as its old (or fresh) wrapper relaxed through the investigated field; every other wrapper is unchanged; the pool only grows at its end; invariants kept |
| `Pathfinding.Pathfinder.CollectLinked` | virtualhost/src/main/java/dev/dragonstb/trpgnarrator/virtualhost/board/Pathfinder.java:140-154 | the wrappers are the old ones plus a fresh one for each linked field not seen before; the list holds exactly the linked fields not investigated; existing wrappers and the pool unchanged |
| `Pathfinding.Pathfinder.ImproveLinked` | virtualhost/src/main/java/dev/dragonstb/trpgnarrator/virtualhost/board/Pathfinder.java:156-177 | each listed neighbour ends relaxed through the investigated field, every other wrapper unchanged; the pool only grows at its end; invariants kept |
| `Pathfinding.Pathfinder.ImproveOne` | virtualhost/src/main/java/dev/dragonstb/trpgnarrator/virtualhost/board/Pathfinder.java:159-176 | only the neighbour changes, and it becomes its wrapper relaxed through the investigated field (length of that field plus one); it is appended to the pool exactly when that strictly improved it and its total was infinite, and the pool is otherwise unchanged |
| `Pathfinding.Pathfinder.WalkBack` | virtualhost/src/main/java/dev/dragonstb/trpgnarrator/virtualhost/board/Pathfinder.java:93-101 | following the successors from the start field yields the locations of a route to the goal |
| `Figurines.FollowedWaypointsComeBack` | virtualhost/src/main/java/dev/dragonstb/trpgnarrator/virtualhost/figurine/Figurine.java:118-127 | the shifts built from consecutive waypoints pass exactly those waypoints |
| `Figurines.UniformShiftsLength` | virtualhost/src/main/java/dev/dragonstb/trpgnarrator/virtualhost/figurine/Figurine.java:116-127 | a walk of n shifts of 0.33 s each lasts n times 0.33 s |
| `Figurines.ShiftPos` | virtualhost/src/main/java/dev/dragonstb/trpgnarrator/virtualhost/tweens/ShiftTween.java:53-64 | a done shift stands at its goal; one with no counted time stands at its start |
| `Figurines.ObjectStepAsWritten` | virtualhost/src/main/java/dev/dragonstb/trpgnarrator/virtualhost/tweens/ShiftObjectTween.java:64-69 | as written: the inner shift comes back unchanged and the object is put where it stands |
| `Figurines.ObjectStep` | virtualhost/src/main/java/dev/dragonstb/trpgnarrator/virtualhost/tweens/ShiftObjectTween.java:64-69 | corrected: the inner shift progresses by the step and the object is put where it then stands |
| `Figurines.AsWrittenShiftStaysAtStart` | virtualhost/src/main/java/dev/dragonstb/trpgnarrator/virtualhost/tweens/ShiftObjectTween.java:64-69 | as written, a new shift driven by any steps counts no time, so the object stays at the start |
| `Figurines.RunCountsTime` | virtualhost/src/main/java/dev/dragonstb/trpgnarrator/virtualhost/tweens/ShiftTween.java:45-64 | corrected, the inner shift counts exactly the steps given and is done exactly when their sum reaches its length |
| `Figurines.CorrectedShiftReachesGoal` | virtualhost/src/main/java/dev/dragonstb/trpgnarrator/virtualhost/tweens/ShiftObjectTween.java:64-69 | corrected, steps adding up to the shift's length bring the object to the goal |
| `Figurines.CorrectedShiftInterpolates` | virtualhost/src/main/java/dev/dragonstb/trpgnarrator/virtualhost/tweens/ShiftTween.java:53-64 | corrected, one step shorter than the shift puts the object that fraction of the way from start to goal |
| `Figurines.Figurine.constructor` | virtualhost/src/main/java/dev/dragonstb/trpgnarrator/virtualhost/figurine/Figurine.java:54-76 | a new figurine stands at the origin on field 0, idle, with telemetry to report |
| `Figurines.Figurine.Update` | virtualhost/src/main/java/dev/dragonstb/trpgnarrator/virtualhost/figurine/Figurine.java:93-103 | an idle figurine is unchanged; a walking one advances its walk, moves, marks its telemetry changed, and goes idle once the walk is done |
| `Figurines.Figurine.SetPath` | virtualhost/src/main/java/dev/dragonstb/trpgnarrator/virtualhost/figurine/Figurine.java:110-132 | a null path or one of fewer than two waypoints is ignored; otherwise a new walk starts that passes exactly the waypoints |
| `Figurines.Figurine.GetFindPathToFieldMessage` | virtualhost/src/main/java/dev/dragonstb/trpgnarrator/virtualhost/figurine/Figurine.java:141-150 | the figurine goes idle, and the message asks for a path from its current field to the goal field |
| `Figurines.Figurine.GetTelemetry` | virtualhost/src/main/java/dev/dragonstb/trpgnarrator/virtualhost/figurine/Figurine.java:158-160 | the telemetry carries the figurine's id, location and field, the same as its transfer object |
| `Figurines.Figurine.AsDTO` | virtualhost/src/main/java/dev/dragonstb/trpgnarrator/virtualhost/figurine/Figurine.java:162-165 | the transfer object carries the figurine's id, location and field |
| `Figurines.Figurine.GetTelemetryAsWritten` | virtualhost/src/main/java/dev/dragonstb/trpgnarrator/virtualhost/figurine/Figurine.java:152-160 | as written: the telemetry snapshot, with `telemetryChanged` left as it was |
| `Figurines.Figurine.TakeTelemetry` | virtualhost/src/main/java/dev/dragonstb/trpgnarrator/virtualhost/figurine/Figurine.java:152-160 | as documented: the telemetry snapshot, and `telemetryChanged` is cleared; nothing else changes |
| `Figurines.FirstFieldFetch` | virtualhost/src/main/java/dev/dragonstb/trpgnarrator/virtualhost/figurine/FigurineController.java:74-75 | the request asks for the location of field 15 |
| `Figurines.LocationReply` | virtualhost/src/main/java/dev/dragonstb/trpgnarrator/virtualhost/figurine/FigurineController.java:80-98 | the first answer's location when present and a location; otherwise the empty-list or empty-answer NullPointerException, or a ClassCastException, each with V62000 |
| `Figurines.FirstFigurineStandsOnTheBoard` | virtualhost/src/main/java/dev/dragonstb/trpgnarrator/virtualhost/figurine/FigurineController.java:74-100 | when the board is the only receiver on its channel, the location reply is the board's location of field 15 |
| `Figurines.ContentRefusalsCarryCodes` | virtualhost/src/main/java/dev/dragonstb/trpgnarrator/virtualhost/figurine/FigurineController.java:121-166 | both content refusals name the class they got, one with V94039 and one with V98915 |
| `Figurines.FigurineController.constructor` | virtualhost/src/main/java/dev/dragonstb/trpgnarrator/virtualhost/figurine/FigurineController.java:58-62 | a new controller has the broker and no figurines |
| `Figurines.FigurineController.Init` | virtualhost/src/main/java/dev/dragonstb/trpgnarrator/virtualhost/figurine/FigurineController.java:66-101 | the controller registers on the figurine channel and files figurine "0"; it is placed as the location reply says, or the reply's failure is returned |
| `Figurines.FigurineController.FileFirst` | virtualhost/src/main/java/dev/dragonstb/trpgnarrator/virtualhost/figurine/FigurineController.java:70-100 | figurine "0" is filed and placed from the reply to the location request |
| `Figurines.FigurineController.Place` | virtualhost/src/main/java/dev/dragonstb/trpgnarrator/virtualhost/figurine/FigurineController.java:86-100 | a valid reply puts the figurine at that location on field 15; a refused one leaves it where it stands |
| `Figurines.FigurineController.Receive` | virtualhost/src/main/java/dev/dragonstb/trpgnarrator/virtualhost/figurine/FigurineController.java:104-112 | FOUND_PATH goes to `setPathOfFigurine`, PLEASE_FIND_PATH to `requestPathForFigurine`; any other headline changes nothing |
| `Figurines.FigurineController.SetPathOfFigurine` | virtualhost/src/main/java/dev/dragonstb/trpgnarrator/virtualhost/figurine/FigurineController.java:155-175 | null content throws NullPointerException; wrong content throws ClassCastException with V94039; a known figurine starts the walk; an unknown id changes nothing |
| `Figurines.FigurineController.RequestPathForFigurine` | virtualhost/src/main/java/dev/dragonstb/trpgnarrator/virtualhost/figurine/FigurineController.java:121-148 | wrong content throws with V98915; an unknown figurine sends nothing; a known one goes idle and its path request goes to the manager's channel |
| `Figurines.FigurineController.Request` | virtualhost/src/main/java/dev/dragonstb/trpgnarrator/virtualhost/figurine/FigurineController.java:178-190 | the full list answers one transfer object per figurine; every other command is answered empty |
| `Board.AdjacentIsSymmetric` | virtualhost/src/main/java/dev/dragonstb/trpgnarrator/virtualhost/board/BoardData.java:82-83 | the neighbour relation is symmetric |
| `Board.LinkHeldByBothEnds` | virtualhost/src/main/java/dev/dragonstb/trpgnarrator/virtualhost/board/BoardData.java:79-89 | a link in a field's list joins that field to a neighbour, from the higher id to the lower, and both ends hold it |
| `Board.NeighboursAreLinked` | virtualhost/src/main/java/dev/dragonstb/trpgnarrator/virtualhost/board/BoardData.java:79-89 | every pair of neighbours is linked, and both of them hold the link |
| `Board.GridIsWellFormed` | virtualhost/src/main/java/dev/dragonstb/trpgnarrator/virtualhost/board/BoardData.java:79-89 | every link of every field joins it to a field of the board |
| `Board.GridLinkDTOs` | virtualhost/src/main/java/dev/dragonstb/trpgnarrator/virtualhost/board/BoardData.java:101-105 | the board's link DTOs are exactly the pairs of neighbours, the higher id first |
| `Board.IdOfTile` | virtualhost/src/main/java/dev/dragonstb/trpgnarrator/virtualhost/board/BoardData.java:64-75 | the ids come out of the row and column loops row by row, and the id gives back its row and column |
| `Board.BoardData.constructor` | virtualhost/src/main/java/dev/dragonstb/trpgnarrator/virtualhost/board/BoardData.java:46-91 | the board holds fields 0..109 at their grid locations, linked exactly to their neighbours |
| `Board.BoardData.LinkAll` | virtualhost/src/main/java/dev/dragonstb/trpgnarrator/virtualhost/board/BoardData.java:79-89 | from the laid-out fields, linking every field with its lower neighbours gives the finished grid |
| `Board.BoardData.LinkToLower` | virtualhost/src/main/java/dev/dragonstb/trpgnarrator/virtualhost/board/BoardData.java:80-88 | field j gets a link with each lower neighbour, appended to both ends |
| `Board.BoardData.AsDTO` | virtualhost/src/main/java/dev/dragonstb/trpgnarrator/virtualhost/board/BoardData.java:99-109 | one field entry per field, in id order, and exactly the links of all fields, each once |
| `Board.BoardData.GetLocationOfField` | virtualhost/src/main/java/dev/dragonstb/trpgnarrator/virtualhost/board/BoardData.java:118-121 | the location of a known field, null for an unknown id |
| `Board.GridLocationLookup` | virtualhost/src/main/java/dev/dragonstb/trpgnarrator/virtualhost/board/BoardData.java:118-121 | on the built board, a lookup succeeds exactly for ids 0..109 and gives the grid location |
| `BoardControl.FieldLocation` | virtualhost/src/main/java/dev/dragonstb/trpgnarrator/virtualhost/board/BoardController.java:101-116 | an integer parameter answers the field's location, or empty for an unknown id; anything else throws ClassCastException |
| `BoardControl.FieldLocationRefusal` | virtualhost/src/main/java/dev/dragonstb/trpgnarrator/virtualhost/board/BoardController.java:106-111 | the refusal names the class it got and carries V78642 |
| `BoardControl.FieldLocationOnTheGrid` | virtualhost/src/main/java/dev/dragonstb/trpgnarrator/virtualhost/board/BoardController.java:114-115 | on the built board, the answer is present exactly for ids 0..109 and is the grid location |
| `BoardControl.FindPath` | virtualhost/src/main/java/dev/dragonstb/trpgnarrator/virtualhost/board/BoardController.java:125-157 | a pathfinder exactly when the parameter is a configuration whose two fields exist; otherwise NullPointerException, ClassCastException, or BoardFieldNotFoundException |
| `BoardControl.FindPathRefusals` | virtualhost/src/main/java/dev/dragonstb/trpgnarrator/virtualhost/board/BoardController.java:125-152 | every refusal other than the null pointer carries its code: V78642 for the class, V11349 for a missing start or goal field |
| `BoardControl.Route` | virtualhost/src/main/java/dev/dragonstb/trpgnarrator/virtualhost/board/BoardController.java:70-77 | a command is handled only when its code is in the request map, each code by its own handler |
| `BoardControl.PathRequestIsUnanswered` | virtualhost/src/main/java/dev/dragonstb/trpgnarrator/virtualhost/board/BoardController.java:58-62 | as written, the pathfinder code has no entry in the request map; the corrected map routes it to `findPath`, which answers a pathfinder |
| `BoardControl.BoardController.constructor` | virtualhost/src/main/java/dev/dragonstb/trpgnarrator/virtualhost/board/BoardController.java:55-62 | the controller registers on the board-data channel |
| `BoardControl.BoardController.Request` | virtualhost/src/main/java/dev/dragonstb/trpgnarrator/virtualhost/board/BoardController.java:70-77 | as written: the board data, a field location, and an empty answer for everything else, the pathfinder code included |
| `BoardControl.BoardController.RequestCorrected` | virtualhost/src/main/java/dev/dragonstb/trpgnarrator/virtualhost/board/BoardController.java:55-77 | with `findPath` registered, a pathfinder request answers the checked pathfinder |
| `BoardControl.BoardController.Answer` | virtualhost/src/main/java/dev/dragonstb/trpgnarrator/virtualhost/board/BoardController.java:70-77 | the handler the request map routes to is applied; an unknown code answers empty |
| `HostConnector.CheckBoardReply` | virtualhost/src/main/java/dev/dragonstb/trpgnarrator/virtualhost/hostconnector/LocalHostConnector.java:43-66 | the reply passes exactly when its first answer is present and a board; otherwise a RuntimeException |
| `HostConnector.BoardReplyRefusals` | virtualhost/src/main/java/dev/dragonstb/trpgnarrator/virtualhost/hostconnector/LocalHostConnector.java:44-64 | each refusal names its reason (no elements, missing data, wrong class) and carries V16231 |
| `HostConnector.StringAnswerIsNamed` | virtualhost/src/main/java/dev/dragonstb/trpgnarrator/virtualhost/hostconnector/LocalHostConnector.java:57-64 | a string answer is refused with a message naming the class `String` |
| `HostConnector.BoardReplyAgreesWithExtractor` | virtualhost/src/main/java/dev/dragonstb/trpgnarrator/virtualhost/hostconnector/AbstractHostConnector.java:100-128 | the connector accepts exactly the replies an extractor with V16231 accepts for BoardDataDTO, and yields the same board |
| `HostConnector.LocalHostConnector.constructor` | virtualhost/src/main/java/dev/dragonstb/trpgnarrator/virtualhost/hostconnector/AbstractHostConnector.java:43 | a new connector has no broker |
| `HostConnector.LocalHostConnector.LinkBroker` | virtualhost/src/main/java/dev/dragonstb/trpgnarrator/virtualhost/hostconnector/AbstractHostConnector.java:46-50 | only the first broker linked is kept |
| `HostConnector.LocalHostConnector.GetBoardData` | virtualhost/src/main/java/dev/dragonstb/trpgnarrator/virtualhost/hostconnector/LocalHostConnector.java:39-67 | without a broker a NullPointerException; otherwise the checked board reply of the board channel |
| `HostConnector.LocalHostConnector.DealRequest` | virtualhost/src/main/java/dev/dragonstb/trpgnarrator/virtualhost/hostconnector/AbstractHostConnector.java:67-74 | fetching the board answers the board data |
| `Extractor.FormatFillsPlaceholder` | virtualhost/src/main/java/dev/dragonstb/trpgnarrator/virtualhost/hostconnector/ExtractorOfFirst.java:74 | the formatter puts the argument in place of its placeholder |
| `Extractor.NewExtractor` | virtualhost/src/main/java/dev/dragonstb/trpgnarrator/virtualhost/hostconnector/ExtractorOfFirst.java:45-54 | a new extractor has the given code and the three default messages |
| `Extractor.ExtractFirst` | virtualhost/src/main/java/dev/dragonstb/trpgnarrator/virtualhost/hostconnector/ExtractorOfFirst.java:56-80 | succeeds exactly when the first answer is present and of the asked class, and yields it; otherwise a ClassCastException for a present value of the wrong class, a NoSuchElementException for the rest |
| `Extractor.ExtractFirstOutcomes` | virtualhost/src/main/java/dev/dragonstb/trpgnarrator/virtualhost/hostconnector/ExtractorOfFirst.java:56-80 | the first value when present and of the asked class; an empty list or empty answer gives NoSuchElementException, a wrong class gives ClassCastException, each carrying the code, where a null code reads "undefined" |
| `Extractor.ExtractFirstIgnoresTheRest` | virtualhost/src/main/java/dev/dragonstb/trpgnarrator/virtualhost/hostconnector/ExtractorOfFirst.java:66-79 | only the first answer decides the outcome |
| `Extractor.DefaultWrongTypeMessage` | virtualhost/src/main/java/dev/dragonstb/trpgnarrator/virtualhost/hostconnector/ExtractorOfFirst.java:50-77 | with the default messages, a wrong class reads "Wrong type, got" followed by the class found |
| `VHostErrorCodes.AssembledMessageCarriesMsgAndCode` | virtualhost/src/main/java/dev/dragonstb/trpgnarrator/virtualhost/error/VHostErrorCodes.java:66-71 | the coded message starts with the message and contains the code |
| `VHostErrorCodes.NullDefaults` | virtualhost/src/main/java/dev/dragonstb/trpgnarrator/virtualhost/error/VHostErrorCodes.java:68-69 | a null message or code is replaced by its default; a present one is kept |
| `VHostErrorCodes.AssemblyKeepsCodesApart` | virtualhost/src/main/java/dev/dragonstb/trpgnarrator/virtualhost/error/VHostErrorCodes.java:66-71 | for one message, different codes give different coded messages |
| `ClientErrorCodes.AssembledMessageCarriesMsgAndCode` | client/src/main/java/dev/dragonstb/trpgnarrator/client/error/ClientErrorCodes.java:49-53 | the coded client message starts with the message and contains the code |
| `Values.FetchWithoutParms` | virtualhost/src/main/java/dev/dragonstb/trpgnarrator/virtualhost/generic/FetchCommand.java:47-49 | a command without parameters has null parameters and equals the two-argument form |
| `Values.JavaEqualsIsValueEquality` | virtualhost/src/main/java/dev/dragonstb/trpgnarrator/virtualhost/generic/FetchCommand.java:51-64 | for a non-null receiver, `equals` on the modelled classes is value equality |
| `Values.LinkEqualityIsOrdered` | virtualhost/src/main/java/dev/dragonstb/trpgnarrator/virtualhost/outwardapi/dtos/FieldLinkDTO.java:42-56 | two link DTOs are equal exactly when both ids match in order, so a reversed link differs; none equals null |
| `Values.EqualLinksHashEqually` | virtualhost/src/main/java/dev/dragonstb/trpgnarrator/virtualhost/outwardapi/dtos/FieldLinkDTO.java:59-64 | equal link DTOs have equal hashes |
| `Values.ConfigEquality` | virtualhost/src/main/java/dev/dragonstb/trpgnarrator/virtualhost/generic/fetchparms/PathfindingConfig.java:41-56 | two configurations are equal exactly when start and goal match; equal ones hash equally |
| `Values.FetchCommandEquality` | virtualhost/src/main/java/dev/dragonstb/trpgnarrator/virtualhost/generic/FetchCommand.java:52-72 | two fetch commands are equal exactly when the commands match and both parameters are null or equal; equal ones hash equally |
| `Values.BoardDataEquality` | virtualhost/src/main/java/dev/dragonstb/trpgnarrator/virtualhost/outwardapi/dtos/BoardDataDTO.java:47-58 | board DTOs are equal exactly when both lists are equal in order |
| `Tweens.NewTween` | client/src/main/java/dev/dragonstb/trpgnarrator/client/tweens/ActionTween.java:42-45 | a new tween has its length, no time elapsed and is not done |
| `Tweens.ProgressKeepsTime` | client/src/main/java/dev/dragonstb/trpgnarrator/client/tweens/ActionTween.java:52-57 | `progress` adds the step to the time, and afterwards the tween is done exactly when the time has reached its length |
| `Tweens.MaxLengthIsMaximum` | client/src/main/java/dev/dragonstb/trpgnarrator/client/tweens/ParallelTween.java:51-58 | the folded maximum is at least 0 and every length, and is 0 or one of the lengths |
| `Tweens.SequenceTween.GetIndex` | client/src/main/java/dev/dragonstb/trpgnarrator/client/tweens/SequenceTween.java:69-71 | the current index, or the last child once all are done |
| `Tweens.SequenceTween.GetTotalLength` | client/src/main/java/dev/dragonstb/trpgnarrator/client/tweens/SequenceTween.java:77-83 | the sum of the children's lengths |
| `Tweens.SequenceTween.constructor` | client/src/main/java/dev/dragonstb/trpgnarrator/client/tweens/SequenceTween.java:41-46 | the sequence holds the children, its length is their sum, and it starts at the first child |
| `Tweens.SequenceTween.CreateAsWritten` | client/src/main/java/dev/dragonstb/trpgnarrator/client/tweens/SequenceTween.java:41-46 | as written: an empty list throws IndexOutOfBounds when the first child is looked up; otherwise the sequence of the children, with their summed length |
| `Tweens.SequenceTween.Create` | client/src/main/java/dev/dragonstb/trpgnarrator/client/tweens/SequenceTween.java:37-46 | as the test expects: an empty list is refused with IllegalArgumentException; otherwise the sequence of the children, starting at the first |
| `Tweens.SequenceTween.Progress` | client/src/main/java/dev/dragonstb/trpgnarrator/client/tweens/ActionTween.java:52-57 | the time grows by the step, done exactly when the length is reached; the children before the new index are done and the later ones untouched |
| `Tweens.SequenceTween.InternalAction` | client/src/main/java/dev/dragonstb/trpgnarrator/client/tweens/SequenceTween.java:49-67 | the time the children used up grows by exactly the step, spilling over from each finished child into the next; the index only grows |
| `Tweens.SequenceTween.Advance` | client/src/main/java/dev/dragonstb/trpgnarrator/client/tweens/SequenceTween.java:53-64 | the current child progresses; when it is done the index moves on and the overshoot is the next step |
| `Tweens.SequenceTween.AllDoneOnceLengthReached` | client/src/main/java/dev/dragonstb/trpgnarrator/client/tweens/SequenceTween.java:41-67 | once the sequence's time reaches its length, every child is done |
| `Tweens.ParallelTween.GetMaximumLength` | client/src/main/java/dev/dragonstb/trpgnarrator/client/tweens/ParallelTween.java:51-58 | the longest child's length, and 0 for none |
| `Tweens.ParallelTween.constructor` | client/src/main/java/dev/dragonstb/trpgnarrator/client/tweens/ParallelTween.java:37-40 | as written: any list is taken, and an empty one makes a tween of length 0 |
| `Tweens.ParallelTween.Create` | client/src/main/java/dev/dragonstb/trpgnarrator/client/tweens/ParallelTween.java:25-40 | as documented: an empty list is refused with IllegalArgumentException; otherwise the length is the longest child's |
| `Tweens.ParallelTween.Progress` | client/src/main/java/dev/dragonstb/trpgnarrator/client/tweens/ActionTween.java:52-57 | the time grows by the step, done exactly when the length is reached; every child not done before progresses |
| `Tweens.ParallelTween.InternalAction` | client/src/main/java/dev/dragonstb/trpgnarrator/client/tweens/ParallelTween.java:43-49 | every child that is not done progresses by the step; done children are left alone |
| `Tweens.ParallelTween.AllDoneWhenDone` | client/src/main/java/dev/dragonstb/trpgnarrator/client/tweens/ParallelTween.java:37-49 | once the tween is done, so is every child |
| `CameraZooms.ConstructionFailure` | client/src/main/java/dev/dragonstb/trpgnarrator/client/camera/CameraZoom.java:54-65 | construction fails exactly for fewer than two distances or a closest distance below .001, with IllegalArgumentException and C04278 and the matching message |
| `CameraZooms.NextIndexAsWritten` | client/src/main/java/dev/dragonstb/trpgnarrator/client/camera/CameraZoom.java:90-100 | as written, with byte wrap-around: the result is within the table |
| `CameraZooms.NextIndex` | client/src/main/java/dev/dragonstb/trpgnarrator/client/camera/CameraZoom.java:90-100 | corrected: the result is within the table |
| `CameraZooms.NextIndexMovesByNotches` | client/src/main/java/dev/dragonstb/trpgnarrator/client/camera/CameraZoom.java:90-100 | the corrected index moves by exactly the whole notches, clamped to the table |
| `CameraZooms.FarTurnsReachTheEnds` | client/src/main/java/dev/dragonstb/trpgnarrator/client/camera/CameraZoom.java:90-100 | turning far enough reaches the closest or the farthest distance |
| `CameraZooms.AsWrittenAgreesWithoutWrapping` | client/src/main/java/dev/dragonstb/trpgnarrator/client/camera/CameraZoom.java:92 | while neither byte cast wraps, the code as written gives the corrected index |
| `CameraZooms.TwoHundredNotchesGoTheWrongWay` | client/src/main/java/dev/dragonstb/trpgnarrator/client/camera/CameraZoom.java:92 | 200 notches towards the closest distance leave a two-distance zoom at the far end as written; the corrected index reaches the closest |
| `CameraZooms.PartialNotchChangesNothing` | client/src/main/java/dev/dragonstb/trpgnarrator/client/camera/CameraZoom.java:90-100 | a turn of less than one notch asks for no change |
| `CameraZooms.CameraZoom.constructor` | client/src/main/java/dev/dragonstb/trpgnarrator/client/camera/CameraZoom.java:67-73 | the table has one distance per entry, `minDist * base^i`, and both indices start in the middle |
| `CameraZooms.CameraZoom.Create` | client/src/main/java/dev/dragonstb/trpgnarrator/client/camera/CameraZoom.java:54-74 | the constructor's checks fail exactly as `ConstructionFailure` says; otherwise the table of distances |
| `CameraZooms.CameraZoom.GetCurrentDist` | client/src/main/java/dev/dragonstb/trpgnarrator/client/camera/CameraZoom.java:81-83 | the distance at the index in use |
| `CameraZooms.CameraZoom.ChangeNextZoomDistanceBy` | client/src/main/java/dev/dragonstb/trpgnarrator/client/camera/CameraZoom.java:90-100 | corrected: the requested index moves by the whole notches, clamped; the index in use is unchanged |
| `CameraZooms.CameraZoom.ChangeNextZoomDistanceByAsWritten` | client/src/main/java/dev/dragonstb/trpgnarrator/client/input/CameraZoom.java:84-93 | as written in both copies: the requested index after the byte arithmetic and the clamp |
| `CameraZooms.CameraZoom.UpdateDist` | client/src/main/java/dev/dragonstb/trpgnarrator/client/camera/CameraZoom.java:116-119 | the requested index comes into use, its distance is returned, and no change is pending |
| `CameraZooms.CameraZoom.HasChanges` | client/src/main/java/dev/dragonstb/trpgnarrator/client/camera/CameraZoom.java:107-109 | an update is due exactly when the requested index differs from the one in use |
| `CameraZooms.TurnMakesUpdateDue` | client/src/main/java/dev/dragonstb/trpgnarrator/client/camera/CameraZoom.java:90-109 | on a zoom with no update due, a turn makes one due exactly when it has a whole notch and the index is not already at the end it turns towards |
| `ClientBoard.ForeignLinkFailure` | client/src/main/java/dev/dragonstb/trpgnarrator/client/ingame/board/FieldData.java:59-64 | the refusal is an IllegalArgumentException with its message and C17679 |
| `ClientBoard.FieldData.constructor` | client/src/main/java/dev/dragonstb/trpgnarrator/client/ingame/board/FieldData.java:46-49 | a new field has its id and location and no links |
| `ClientBoard.FieldData.AddLink` | client/src/main/java/dev/dragonstb/trpgnarrator/client/ingame/board/FieldData.java:58-67 | a link with the field at one end is appended; any other is refused and nothing changes |
| `ClientBoard.UniqueIdsKeepTheirLocation` | client/src/main/java/dev/dragonstb/trpgnarrator/client/ingame/board/BoardData.java:50-53 | with distinct ids, each field lies where its own DTO says |
| `ClientBoard.LinkReachesBothEnds` | client/src/main/java/dev/dragonstb/trpgnarrator/client/ingame/board/BoardData.java:54-60 | every link between two different fields is held by both |
| `ClientBoard.BoardData.Create` | client/src/main/java/dev/dragonstb/trpgnarrator/client/ingame/board/BoardData.java:49-61 | a link naming an unknown field gives a NullPointerException; otherwise one field per DTO id, at the DTO's location, each holding its links in DTO order |
| `ClientBoard.BoardData.GetLocationOfField` | client/src/main/java/dev/dragonstb/trpgnarrator/client/ingame/board/BoardData.java:113-121 | the location of a known field, empty for an unknown id |
| `ClientBoard.PutFields` | client/src/main/java/dev/dragonstb/trpgnarrator/client/ingame/board/BoardData.java:50-53 | one fresh field per DTO id, located by the last DTO of that id |
| `ClientBoard.LinkAll` | client/src/main/java/dev/dragonstb/trpgnarrator/client/ingame/board/BoardData.java:54-60 | each field ends with the links that touch it, in DTO order |
| `ClientBoard.AddToEnds` | client/src/main/java/dev/dragonstb/trpgnarrator/client/ingame/board/BoardData.java:55-59 | the link is added to its A end and its B end |
| `ClientConnector.NotConnectedFailure` | client/src/main/java/dev/dragonstb/trpgnarrator/client/clientconnector/LocalClientConnector.java:42-45 | the refusal is a HostConnectionNotReadyException with its message and C30737 |
| `ClientConnector.LocalClientConnector.constructor` | client/src/main/java/dev/dragonstb/trpgnarrator/client/clientconnector/LocalClientConnector.java:37 | a new connector has no host |
| `ClientConnector.LocalClientConnector.ConnectToVirtualHost` | client/src/main/java/dev/dragonstb/trpgnarrator/client/clientconnector/LocalClientConnector.java:52-57 | only the first host given is kept |
| `ClientConnector.LocalClientConnector.GetBoardData` | client/src/main/java/dev/dragonstb/trpgnarrator/client/clientconnector/LocalClientConnector.java:40-49 | refused with C30737 while no host is connected; otherwise the host's answer |

## Left out

- `Broker.SyncBroker.RegisterToTiming`, `Broker.SyncBroker.DeregisterFromTiming`, `Broker.SyncBroker.Update` and the broker's `timing` field model the broker its integration tests call (SyncBrokerImpAndBrokerChannelIT.java:159-208). `SyncBrokerImp` has only its channels, and neither it nor `SynchronousBroker` declares `registerToTiming` or `deregisterFromTiming`. These members describe the intended broker, not the class as written.
- `Extractor.Format` covers only patterns whose braces are the placeholders `{0}` and `{1}` and that hold no apostrophe. `MessageFormat`'s quoting with `'`, its other format elements and its exception on an unbalanced brace are not modelled. A settable `wrongTypeMsg` outside that shape formats differently in Java.
- The messages of the refusals added by `Tweens.SequenceTween.Create` and `Tweens.ParallelTween.Create` are not given by the source. The model uses its own wording.
- `Broker.BrokerChannel.Request` and `Broker.SyncBroker.Request`: a receiver's answer is always a value. In Java a receiver that throws (BoardController's `fieldLocation` with V78642, `findPath` with V11349) makes `request` throw that exception and drop the answers collected so far. That path is not modelled. The refusals themselves are modelled in `BoardControl.FieldLocation` and `BoardControl.FindPath`.
- Threads, the executor and `synchronized`. The jobs of CEManagement are handles. What a job's future reports is a function parameter. Cancelling a job is recorded in a set of cancelled jobs.
- `streamDataToClients` (CEManagement.java:229-250) is not modelled. It sends telemetry out of the virtual host through `sendOutbound`, which is not part of this model.
- Floating point. Lengths, times and locations are exact reals. A `float` that the code checks for NaN or infinity is the `Float` datatype.
- The camera zoom's error messages render the offending number. The model checks the message prefix and the code, not that number.
- `CameraZooms.CameraZoom.constructor`: `Math.pow(maxDist/minDist, 1/(n-1))` becomes the parameter `base`. Each distance is `minDist * base^i`, exactly.
- The camera zoom's two copies differ only in the method name `changeNextZoomDistanceBy` versus `changeZoomDistanceBy`. Both copies are one class here.
- `Pathfinding.Pathfinder.Call`: the heuristic (a horizontal distance over `FIELD_DIAMETER`) is a function parameter. The model proves that the result is found exactly for reachable start fields, and that it is a route of linked fields. Shortest length (A* optimality) is not proved.
- `decreaseKey` (Pathfinder.java:185-187) has an empty body. The model has no counterpart for it.
- `Board.BoardData.constructor`: the floating-point distance test `|dist - dx| < .01` becomes the exact hex-neighbour relation on row and column. The total of 289 distinct links is not proved.
- `Board.BoardData.AsDTO` lists fields in id order where Java lists them in HashMap order. The link set is a sequence without repeats.
- The virtual host's `FieldData`, `FieldLink` and their `asDTO` are not part of this model. A field is its id, location and links. A link is a pair of ids, and its DTO keeps that pair.
- `BoardControl.FindPath`: `PathfindingConfig` declares no `getExecutor`, although `findPath` (BoardController.java:141) asks it for one. The model answers the checked pathfinder task instead of a submitted future.
- Error code V50700 is used by the broker's tests, and C30737 by `LocalClientConnector`. `VHostErrorCodes` declares no V50700 and `ClientErrorCodes` no C30737, so each takes its own name as its value.
- The values of the channel-name, fetch-code and headline constants are not modelled. The model uses distinct placeholder strings.
- `Figurines.Figurine.Update`: the virtual host's `ActionTween` and `SequenceTween` are not part of this model. The position after the step becomes a parameter. `Figurines.ObjectStep` and `Figurines.ObjectStepAsWritten` give what one shift computes for it. A walk counts as done once its time reaches the sum of its shift lengths, as the client's `ActionTween.progress` decides. The client's `SequenceTween.internalAction` never sets the sequence's own done flag. If the virtual host's copy does the same, a walk driven only by `internalAction` is never cleared.
- `Figurines.FigurineController.constructor`: the Java constructor calls `init`. Here the constructor and `Init` are two steps, and `Init` requires the new controller.
- Figurine colours and the colours of `asDTO` are not modelled.
- `Figurines.ShiftPos` and the members built on it require a positive shift length. A zero length divides by zero in Java floats. Every walk uses `TimePerHex`.
- Tween children are values: a length, the elapsed time and a done flag. What a client child moves and nested composite tweens are not modelled.
- `ClientBoard.BoardData.Create`: a link naming an unknown field makes Java throw midway, after earlier links are already added. The model refuses such a DTO up front and returns no board. The half-linked board is never handed out in Java either.
- The client's FieldData.java declares only `FieldData(int, Vector3f)`. The `FieldData(FieldDataDTO)` that BoardData.java:51 calls is modelled as taking the DTO's id and location.
- The client `BoardData.init` (BoardData.java:66-104) is private and never called. It is not modelled.
- `LocalVirtualHost` is an opaque handle. Its answer to `getBoardData` is a function parameter.
- `AbstractHostConnector.request` passes a plain string as the fetch command. The model sends the BOARD_DATA fetch command without parameters.
- Several loops (`relax`'s first loop, the traversal in `checkAndCleanPathfinders`, the linking loop of the board) work on a local copy of the collection and assign the field once after the loop. The result is the same, because nothing else reads the field during the loop.

## Findings

| source | as written | input that shows it | evidently intended | confidence | as-written member | corrected member |
|---|---|---|---|---|---|---|
| virtualhost/src/main/java/dev/dragonstb/trpgnarrator/virtualhost/broker/SyncBrokerImp.java:87-89 | `update` has an empty body | `update(NaN)` returns normally, and a registered clock receiver never gets `update(4.2)` | reject a non-finite or negative step with V50700, and forward a valid one to every clock receiver, as the broker's tests expect | not executed | `Broker.AsWrittenUpdateAcceptsNaN` | `Broker.SyncBroker.Update` |
| virtualhost/src/main/java/dev/dragonstb/trpgnarrator/virtualhost/board/BoardController.java:58-62 | the request map gets BOARD_DATA and BOARD_FIELD_LOCATION, but `findPath` is never put under BOARD_PATHFINDER | a BOARD_PATHFINDER request for two existing fields is answered empty, so `CEManagement.findPath` fails extraction with V97498 | register a handler under BOARD_PATHFINDER that answers the pathfinder task itself. `findPath` returns a submitted `Future` (BoardController.java:154-156), but CEManagement.java:150 extracts a `Callable`, so registering `findPath` as it stands would still fail with V97498 | not executed | `BoardControl.PathRequestIsUnanswered` | `BoardControl.BoardController.RequestCorrected` |
| client/src/main/java/dev/dragonstb/trpgnarrator/client/camera/CameraZoom.java:92 | `nextIdx -= (byte)(steps/STEPSIZE)` narrows the notch count, and then the difference, to a byte (the same in input/CameraZoom.java:85) | on a two-distance zoom at index 1, `steps = 24000` (200 notches towards the closest) wraps to -56, leaving the index at 1 | move by the whole notches and clamp, so a far turn reaches the end | not executed | `CameraZooms.TwoHundredNotchesGoTheWrongWay` | `CameraZooms.FarTurnsReachTheEnds` |
| client/src/main/java/dev/dragonstb/trpgnarrator/client/tweens/ParallelTween.java:37-40 | the constructor accepts an empty array, although the class documentation rules it out | `new ParallelTween()` builds a tween of length 0, where the client's test expects `IllegalArgumentException` | refuse an empty list | not executed | `Tweens.ParallelTween.constructor` | `Tweens.ParallelTween.Create` |
| virtualhost/src/main/java/dev/dragonstb/trpgnarrator/virtualhost/concurrentevents/CEManagement.java:199-213 | `pathfinders.remove(key)` runs inside the `forEach` over a stream of `pathfinders.keySet()` | one figurine whose job has finished with a path: the traversal throws `ConcurrentModificationException`, so no FOUND_PATH is sent and `update` ends before the broker's time step | remove the done entries after the traversal and announce every found path | not executed | `ConcurrentEvents.FoundPathIsLostAsWritten` | `ConcurrentEvents.CEManagement.CheckAndClean` |
| client/src/main/java/dev/dragonstb/trpgnarrator/client/tweens/SequenceTween.java:41-46 | the constructor reads `tweens[0]` without checking the length | `new SequenceTween(new ActionTween[]{})` throws `ArrayIndexOutOfBoundsException`, where SequenceTweenTest.java:129-132 expects `IllegalArgumentException` | refuse an empty list with `IllegalArgumentException` | not executed | `Tweens.SequenceTween.CreateAsWritten` | `Tweens.SequenceTween.Create` |
| virtualhost/src/main/java/dev/dragonstb/trpgnarrator/virtualhost/figurine/Figurine.java:152-160 | `getTelemetry` only builds the snapshot, although its documentation says it clears `telemetryChanged` | a figurine that moved (`telemetryChanged` true): after `getTelemetry()` the flag is still true, so the same state counts as changed again | return the snapshot and clear the flag | not executed | `Figurines.Figurine.GetTelemetryAsWritten` | `Figurines.Figurine.TakeTelemetry` |
| virtualhost/src/main/java/dev/dragonstb/trpgnarrator/virtualhost/tweens/ShiftObjectTween.java:64-69 | `internalAction` calls the inner `ShiftTween`'s `internalAction`, never its `progress`, so the inner tween's time stays 0. This rests on the virtual host's `ActionTween.progress` counting time as the client's does; that class is not part of this model | a figurine walking one shift of 0.33 s given a step of 0.33 s: `ShiftTween.internalAction` computes `start + diff * 0 / length`, so the figurine stays at the start | drive the inner tween by `progress(dt)`, so the figurine moves along the shift and reaches its goal | not executed | `Figurines.AsWrittenShiftStaysAtStart` | `Figurines.CorrectedShiftReachesGoal` |
