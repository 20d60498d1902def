# metasched in Dafny

A model of the core of metasched, a scheduler for a laboratory robot cell, with proofs about it. It covers four parts of the program.

- **The queue of timed tasks and its two consumers.**
  - `AwaitList` keeps tasks sorted by execution time and hands out the head once it is due.
  - The delay-driven `Scheduler` queues the children of a protocol after it runs, a Delay child at the recorded start or finish plus duration and offset.
  - The optimiser-driven `Executor` re-plans all registered protocol trees. It then cancels the queued tasks with a loop that, as written, skips every other one, and queues the earliest protocol that has not started. It stamps a protocol's start before the robot runs it and its finish after.
- **The protocol trees and their timing constraints.**
  - Start/Protocol/Delay plan trees and their schedule counterparts: preorder flattening, the dict form, the typed parsers, and plan-to-schedule conversion.
  - The integer-second constraint model the optimiser hands to its solver, stated as a predicate on a candidate answer.
- **The robot-cell contract.**
  - The `BioPortalStatus` state machine (idle → requested → running → idle) and the connection cookies.
  - The simulator's admission gate and the statuses it emits.
  - The driver's bounded reply scanning and its error-code mapping.
  - The move-protocol names and their XML fragments.
- **The experiment bookkeeping.**
  - Registries that refuse duplicates, and alias-aware label registries.
  - Protocol calls that pass labware from node to node.
  - Reagent grouping and the packing of volumes into containers.
  - The labware containment tree with its capacity check.
  - Liquid splitting and the discard-or-store rule.
  - The labware contracts of scenario nodes.

The model has one module per source file. `Common` holds the shared `Option`/`Result` types. Exceptions are a datatype naming the Python exception raised. Times are whole seconds and UUIDs their text form. Volumes are reals in millilitres, converted with exact factors (1 l = 1000 ml, 1 ml = 1000 µl).

Code that changes state in place is modelled as classes over sequences and maps, with `modifies` clauses: the await list, the scheduler, the executor, the status record, the connection table, the registries, the lab tree, the parent links of plan nodes and the driver's websocket. Each such method's `ensures` ties its new state to a specification function, and the properties are proved about those functions. Loops in the source are loops in the model, with invariants: the executor's cancel loop, the scheduler's `new_schedules`, cancelling a task by id, container packing, grouping, volume summing, argument checking and reply scanning. Queue insertion, an append followed by a stable sort in the source, is a function on sequences.

The parts outside the program are parameters: the clock (`now`), generated UUIDs, the controller's replies, the solver's answer and the driver's outcome. `drivers/maholo/maholo_api/schemas.py` and `maholocon/maholo_api/schemas.py` are identical; the table cites the driver copy.

## Model

| member | source | states |
|---|---|---|
| AwaitList.CountNotLater | src/awaitlist.py:52-53 | the number of leading tasks due no later than a time never exceeds the queue's length |
| AwaitList.Insert | src/awaitlist.py:52-53 | appending a task and re-sorting gives a queue one task longer |
| AwaitList.InsertIsStable | src/awaitlist.py:52-53 | on a sorted queue the new task lands after every task due no later than it and before every later one, and the old tasks keep their order (the sort is stable) |
| AwaitList.InsertIsStableSort | src/awaitlist.py:52-53 | the queue after an insertion is sorted by execution time and holds exactly the old tasks plus the new one |
| AwaitList.InsertKeepsDistinct | src/awaitlist.py:52-53 | inserting a task whose id is not queued keeps the ids distinct |
| AwaitList.FirstIndex | src/awaitlist.py:68-69 | the index found holds the id and no earlier task does |
| AwaitList.RemoveFirstAt | src/awaitlist.py:68-72 | cancelling cuts out exactly the first task with the id |
| AwaitList.RemoveFirstAbsent | src/awaitlist.py:73 | cancelling an id no task has leaves the queue as it was |
| AwaitList.RemoveFirstSpec | src/awaitlist.py:67-73 | cancelling keeps the queue sorted, removes exactly one task when one has the id, and keeps every other task in order |
| AwaitList.AwaitList.constructor | src/awaitlist.py:21-23 | a new queue is empty |
| AwaitList.AwaitList.GetTasks | src/awaitlist.py:27-31 | the tasks are handed out as they are held, always in time order |
| AwaitList.AwaitList.AddTask | src/awaitlist.py:33-55 | an explicit id already queued raises ValueError and leaves the queue alone; otherwise a new task, with the given or a generated id, is returned and stably inserted |
| AwaitList.AwaitList.CancelTask | src/awaitlist.py:57-73 | reports whether some task had the id and removes the first such task only |
| AwaitList.AwaitList.PopDue | src/awaitlist.py:87-96 | the head is removed and handed out exactly when it is due, and it is due no later than any task left; otherwise nothing changes |
| AwaitList.DueTasks | src/awaitlist.py:82-96 | the tasks handed out one turn after another form a prefix of the queue, all due, stopping at the first task in the future |
| AwaitList.DueTasksAreAllDue | src/awaitlist.py:82-96 | on a sorted queue the tasks handed out are exactly those whose time has come, in time order |
| BioPortal.PhasesExclusive | drivers/maholo/maholo_api/schemas.py:56-77 | no status is at once idle and requested, idle and running, or requested and running |
| BioPortal.IsIdle | drivers/maholo/maholo_api/schemas.py:56-62 | idle: remote mode, idle cell, robot at its origin, no experiment status (used by RequestSpec and Cycle) |
| BioPortal.IsRequested | drivers/maholo/maholo_api/schemas.py:64-70 | requested: remote mode, cell in experiment, robot at its origin, status requested (used by RunSpec) |
| BioPortal.IsRunning | drivers/maholo/maholo_api/schemas.py:72-77 | running: remote mode, cell in experiment, status running, whatever the robot position (used by CompleteSpec) |
| BioPortal.AfterRequest | drivers/maholo/maholo_api/schemas.py:79-85 | a request succeeds exactly from idle and leaves the status requested; RequestSpec adds what is kept |
| BioPortal.AfterRun | drivers/maholo/maholo_api/schemas.py:87-92 | running succeeds exactly once requested and leaves the status running with the protocol kept; RunSpec adds the robot leaving its origin |
| BioPortal.AfterComplete | drivers/maholo/maholo_api/schemas.py:94-104 | completing succeeds exactly while running, leaving the record idle and the copy handed back completed; CompleteSpec adds what is cleared |
| BioPortal.RequestSpec | drivers/maholo/maholo_api/schemas.py:79-85 | a request succeeds exactly from idle, raising ValueError otherwise; it leaves the status requested with the new protocol, mode, alarms and robot position unchanged |
| BioPortal.RunSpec | drivers/maholo/maholo_api/schemas.py:87-92 | running succeeds exactly once requested, raising ValueError otherwise; the robot leaves its origin and the status is running, the protocol kept |
| BioPortal.CompleteSpec | drivers/maholo/maholo_api/schemas.py:94-104 | completing succeeds exactly while running, raising ValueError otherwise; the record is idle again with no protocol, and the copy handed back differs only in being completed |
| BioPortal.Cycle | drivers/maholo/maholo_api/schemas.py:79-104 | from idle, request, run and complete all succeed and bring back the starting record with the protocol cleared, reporting it completed |
| BioPortal.BioPortalStatus.Snapshot | drivers/maholo/maholo_api/schemas.py:48-54 | the record's value is its six fields |
| BioPortal.BioPortalStatus.constructor | drivers/maholo/maholo_api/schemas.py:48-54 | a new record holds the given status |
| BioPortal.BioPortalStatus.Request | drivers/maholo/maholo_api/schemas.py:79-85 | updates the record in place as the request transition says, or raises and leaves it unchanged |
| BioPortal.BioPortalStatus.Run | drivers/maholo/maholo_api/schemas.py:87-92 | updates the record in place as the run transition says, or raises and leaves it unchanged |
| BioPortal.BioPortalStatus.Complete | drivers/maholo/maholo_api/schemas.py:94-104 | resets the record in place and returns the deep copy marked completed, or raises and leaves it unchanged |
| BioPortal.BaseCookieFields | drivers/maholo/maholo_api/schemas.py:16-18 | the cookie is the three fields joined by `; ` and splits back into them when no value holds a `;` |
| BioPortal.ServiceCookieFields | drivers/maholo/maholo_api/schemas.py:28-37 | the service cookie's third field runs `To=` and `From=<name>@<group>` together, and the cookie splits back into its three fields |
| Common.Split | drivers/maholo/maholo_api/protocol_generator.py:71 | splitting on one character gives at least one field, none holding the separator, and joining the fields gives back the text |
| Common.SplitJoin | drivers/maholo/maholo_api/protocol_generator.py:71 | splitting undoes joining when no field holds the separator |
| Executor.NextProtocol | src/executor.py:57-61 | picks an unstarted protocol node whose scheduled time no other candidate beats (unscheduled counting as latest), the first such in flatten order; ValueError exactly when there is no candidate |
| Executor.StartedNeverChosen | src/executor.py:60 | a protocol whose start is recorded is never chosen again, even when its finish is missing |
| Executor.ApplyBelow | src/executor.py:47-49 | writing the plan back keeps every registered plan and its root id |
| Executor.MergedSharesNodes | src/executor.py:46-49 | planning the merged tree is the same as planning below each registered root, because the merged Start shares its children with the registered plans |
| Executor.StampNode | src/executor.py:92-94 | recording a time on a node keeps its id |
| Executor.StampAll | src/executor.py:81-94 | recording a time on every plan keeps their number |
| Executor.StampedStartEverywhere | src/executor.py:81-92 | after a start is recorded in one tree, every protocol node with that id carries it |
| Executor.StampedStartEverywhereAll | src/executor.py:81-92 | after a start is recorded, every protocol node with that id carries it |
| Executor.FinishKeepsStart | src/executor.py:94 | recording a finish keeps the recorded start and sets the finish on the nodes with that id |
| Executor.StampedInOrderAll | src/executor.py:92-94 | after start then finish, every protocol node with the id carries both times, so a clock that does not run backwards gives started ≤ finished |
| Executor.StampedInOrder | src/executor.py:92-94 | in one tree, after start then finish, every protocol node with the id carries both times |
| Executor.FirstWithId | src/executor.py:81-88 | the first protocol node carrying the processed task's id, or none when no node has it |
| Executor.OddIndexed | src/executor.py:52-54 | the queue the cancel loop as written leaves holds half the tasks, rounded down |
| Executor.AsWrittenStep | src/executor.py:53-54 | one pass of the cancel loop as written visits the entry at twice its index and removes it |
| Executor.AsWrittenDone | src/executor.py:53-54 | when the cancel loop as written stops, the tasks at odd positions remain |
| Executor.CancelAsWrittenLeavesTasks | src/executor.py:51-54 | with two or more queued tasks, the cancel loop as written leaves the second one queued |
| Executor.OddIndexedIds | src/executor.py:52-54 | what the cancel loop leaves keeps distinct ids and holds no id the queue did not |
| Executor.Optimized | src/executor.py:36-68 | re-planning keeps every plan's root id; on success the queue holds half the old tasks, rounded down, plus one; a failure leaves the queue as it was or as the cancel loop left it |
| Executor.OptimizedQueueValid | src/executor.py:51-68 | with a fresh id, the queue optimize leaves is in time order with distinct ids |
| Executor.OptimizeQueuesEarliest | src/executor.py:45-68 | after a successful re-plan the answer is written below every plan; a later failure leaves what the cancel loop left; success adds exactly one task, for a protocol not yet started that no other beats, at its re-planned time |
| Executor.OptimizeOnShortQueue | src/executor.py:51-68 | with at most one task queued, success leaves only the new task and a failure after re-planning leaves nothing |
| Executor.OptimizeKeepsSkippedTask | src/executor.py:51-54 | with two or more tasks queued and a successful re-plan, the second old task is still queued afterwards |
| Executor.Executor.constructor | src/executor.py:22-25 | a new executor has no plans and an empty queue |
| Executor.Executor.CancelAllAsWritten | src/executor.py:51-54 | the cancel loop as written leaves exactly the tasks at odd positions |
| Executor.Executor.CancelAll | src/executor.py:51-54 | cancelling each task of a snapshot empties the queue |
| Executor.Executor.Optimize | src/executor.py:36-68 | the outcome, the plans and the queue afterwards are exactly those of Optimized on the old plans and queue, the cancel loop run as written |
| Executor.Executor.AddProtocol | src/executor.py:27-34 | a root id already registered raises ValueError and changes nothing; otherwise the plan is appended and the plans and queue become those of Optimized on the extended plans, its outcome passed on |
| Executor.Executor.ProcessTask | src/executor.py:70-109 | no node with the processed task's id raises ValueError and changes nothing; otherwise the start is stamped, a failing driver stops there with the queue unchanged, and a succeeding one stamps the finish and leaves what Optimized gives on the stamped plans |
| Experiment.Outputs | src/experiment.py:333-338 | there is at most one container per run |
| Experiment.RunsOf | src/experiment.py:327-335 | the runs the loop cuts its input into; RunsCoverInput and RunsFit state what they are |
| Experiment.Compress | src/experiment.py:322-339 | what `compress_list` returns; CompressBounds and CompressConservesVolume state its bounds and total |
| Experiment.CompressList | src/experiment.py:322-339 | the loop returns exactly the containers of the runs its input is cut into |
| Experiment.RunsCoverInput | src/experiment.py:327-335 | the runs cut the input into contiguous pieces, in input order, losing nothing |
| Experiment.RunsFit | src/experiment.py:329-335 | a run of two or more volumes fits one container together with the dead volume; only a single volume can overflow |
| Experiment.OutputsFromRuns | src/experiment.py:333-338 | every container holds the total of one run with a positive total, plus the dead volume |
| Experiment.CompressBounds | src/experiment.py:322-339 | every container holds more than the dead volume, and at most the maximum unless it holds one input that alone overflows |
| Experiment.CompressConservesVolume | src/experiment.py:322-339 | for non-negative inputs the containers hold the inputs' total plus one dead volume each |
| Experiment.NewParent | src/experiment.py:110-113 | a parent labware is built exactly when its label has 1 to 100 characters |
| Experiment.CallGet | src/experiment.py:128-141 | hands on the named labware from the call's id, existing labware before new labware, with the type declared by the protocol; ValueError otherwise |
| Experiment.StoreGet | src/experiment.py:148-153 | hands on the stored labware's label and type from the store's id |
| Experiment.MoveInGet | src/experiment.py:159-164 | hands on a labware labelled `move_in_<type>` of that type from the move's id, which fails when the label exceeds 100 characters |
| Experiment.FindNode | src/experiment.py:207-210 | the node a labware points to is the last scenario node with that id, and there is none exactly when no node has it |
| Experiment.CheckParentLabware | src/experiment.py:206-232 | raises ValueError for an unknown node, for a protocol call that does not hand on that name with that type, and for a store or move-out holding another label or type; accepts anything from a move-in |
| Experiment.SameLabware | src/experiment.py:222-232 | a store or move-out accepts exactly the labware it holds, label and type |
| Experiment.FindDistinct | src/experiment.py:207 | with distinct ids a node is found by its own id |
| Experiment.StoreGetAccepted | src/experiment.py:234-238 | what a store hands on passes the check against the scenario that holds that store |
| Experiment.CallGetAccepted | src/experiment.py:211-221 | what a protocol call hands on passes the check against the scenario that holds that call |
| Experiment.MoveInUnchecked | src/experiment.py:211-232 | any labware pointing at a move-in passes the check, whatever its label or type |
| Experiment.FirstRefused | src/experiment.py:92-100 | the first keyword argument that is not existing labware of the declared type, and none exactly when all fit |
| Experiment.Args | src/experiment.py:104 | the `args` dictionary holds exactly the keyword names, each with a value it was given |
| Experiment.RefusedAt | src/experiment.py:92-100 | the loop's first refusal is the first argument that does not fit |
| Experiment.Protocol.constructor | src/experiment.py:32-38 | a new protocol belongs to its experiment and declares nothing |
| Experiment.Protocol.AddReagent | src/experiment.py:54-69 | a reagent name the experiment has not declared raises ValueError; otherwise the entry is set, replacing any earlier one, and the other maps are unchanged |
| Experiment.Protocol.AddNewLabware | src/experiment.py:71-76 | a name already declared raises ValueError naming the type; otherwise the entry is added |
| Experiment.Protocol.AddExistingLabware | src/experiment.py:78-89 | a name already declared raises ValueError; otherwise the entry is added |
| Experiment.Protocol.Call | src/experiment.py:91-107 | a keyword that is not existing labware of the declared type raises at the first such; otherwise one call referring to the protocol, with the arguments, is appended to the experiment's calls and nothing else changes |
| Experiment.CallNodes | src/experiment.py:203-204 | the calls as scenario nodes, one for one |
| Experiment.Experiment.constructor | src/experiment.py:174-181 | a new experiment has empty registries |
| Experiment.Experiment.New | src/experiment.py:175 | an experiment is created exactly when its name has 1 to 100 characters, and starts valid |
| Experiment.Experiment.NewReagentName | src/experiment.py:187-190 | a declared name raises ValueError; otherwise it is appended, and names stay distinct |
| Experiment.Experiment.NewProtocol | src/experiment.py:192-201 | a used protocol name raises ValueError, an invalid one fails validation; otherwise a new empty protocol of this experiment is appended, and names stay distinct |
| Experiment.Experiment.StoreLabware | src/experiment.py:234-238 | a labware that fails the check raises and adds nothing; otherwise the store is appended and its labware handed on |
| Experiment.Experiment.MoveInLabware | src/experiment.py:240-243 | the move-in is appended first, then its labware is handed on, so an over-long label fails after the move is recorded |
| Experiment.Experiment.MoveOutLabware | src/experiment.py:245-253 | a labware that fails the check raises and adds nothing; otherwise the move-out is appended |
| Experiment.GroupReagents | src/experiment.py:274-287 | the groups are keyed by container type and reagent name, in first-appearance order, each holding the reagents of its key in input order |
| Experiment.GroupsOfReagents | src/experiment.py:274-287 | every group is non-empty and holds every reagent of its key, and together the groups hold every reagent once |
| Experiment.VolumesMl | src/experiment.py:305 | one amount per reagent, its volume in millilitres |
| Experiment.AsReagents | src/experiment.py:311-319 | one reagent per container, of that type and name, in millilitres, with no place to prepare it |
| Experiment.SumGroup | src/experiment.py:295-319 | a group succeeds exactly when it is non-empty, its type is known and has a single well; otherwise IndexError, ValueError or NotImplementedError |
| Experiment.SumGroupEntries | src/experiment.py:305-319 | a group that succeeds yields, under the type's name and the reagent name, one reagent per container of its packing |
| Experiment.SumReagentVolumes | src/experiment.py:289-320 | the loop returns what the groups give in order, failing at the first group that fails |
| Experiment.Summed | src/experiment.py:289-320 | the groups summed in order; SummedOk, SummedKeepsError and SummedEntries state its outcome |
| Experiment.SummedKeepsError | src/experiment.py:295-304 | once a group fails, the whole fails with that error |
| Experiment.SummedOk | src/experiment.py:289-320 | summing succeeds exactly when every group does |
| Experiment.SummedEntries | src/experiment.py:289-320 | on success each entry is what some group produced under its key, and every group has an entry under its key |
| Experiment.GroupedNeverEmpty | src/experiment.py:274-296 | grouped reagents are never empty and their first reagent has the key's type, so only the type lookup and the single-well rule can fail |
| Grouping.Keys | src/experiment.py:279-286 | the dictionary's keys in first-appearance order: exactly the keys of the inputs, without repeats |
| Grouping.Group | src/experiment.py:279-286 | a group is no longer than the input and holds only items with its key |
| Grouping.GroupHasAll | src/experiment.py:279-286 | every input is in the group of its own key |
| Grouping.GroupOfAbsentKey | src/experiment.py:279-286 | a key that no input has gets an empty group |
| Grouping.GroupMembers | src/experiment.py:279-286 | every member of a group is an input |
| Grouping.GroupBy | src/experiment.py:274-287 | the loop's dictionary holds a group for exactly the keys seen, each equal to the inputs of that key in order |
| Grouping.GroupsPartition | src/experiment.py:274-287 | the groups' sizes add up to the number of inputs |
| LabModel.AddCheck | src/labmodel.py:23-96 | a liquid refuses every child; a well takes only a liquid that keeps its contents within capacity; a jig only an object of the accepted shape (or any when it accepts `any`); an object only a jig or a well; the root only an object; every refusal is a ValueError |
| LabModel.LabNode.constructor | src/labmodel.py:19-33 | a new node has its name and class and no children |
| LabModel.LabNode.Add | src/labmodel.py:35-41 | on success exactly one child is appended at the end and the node itself returned; on refusal nothing changes; a well never goes over its capacity |
| LabModel.SumVolumesAppend | src/labmodel.py:38 | the contents of a well grow by exactly the added liquid's volume |
| LabModel.RenderChildrenAppend | src/labmodel.py:45-46 | one more child prints as one more line block after the others |
| LabModel.RenderAfterAdd | src/labmodel.py:43-102 | after an add, a node's text is its old text followed by the new child's text, indented two further |
| LabModel.Render | src/labmodel.py:43-102 | a node's text begins with its own line at its indent (each child follows two further in, a liquid printing no children); RenderChildrenAppend and RenderAfterAdd state how adding changes it |
| Labware.TotalConcat | src/protocol/experiment.py:288 | summing two lists one after the other adds their sums |
| Labware.TotalNonNegative | src/protocol/experiment.py:288 | a sum of non-negative volumes is non-negative |
| Labware.Catalogue | src/protocol/experiment.py:46-63 | each tube has a single well whose dead volume is below its capacity; the plates have six and ninety-six wells |
| Labware.TimesIsProduct | src/protocol/experiment.py:309-315 | adding the dead volume once per container is multiplying it by the number of containers |
| MaholoDriver.ScanFor | drivers/maholo/driver.py:122-146 | a bounded wait consumes no more than its budget; success returns the message just read; failure is either a closed socket before the budget or "Failed to get response" after exactly the budget |
| MaholoDriver.ScanFindsFirstMatch | drivers/maholo/driver.py:139-146 | the reply returned is the first matching one: every message read before it (all of them, on failure) does not match |
| MaholoDriver.ScanStep | drivers/maholo/driver.py:142-145 | a read that does not match costs exactly one message of the budget and the scan goes on with the rest |
| MaholoDriver.PathsScan | drivers/maholo/driver.py:114-120 | the paths wait returns the last message read; a non-paths reply comes back only after the whole budget was read |
| MaholoDriver.WaitIdle | drivers/maholo/driver.py:130-137 | the idle wait returns only a status reply that shows an idle cell, and polls at least once |
| MaholoDriver.WaitIdleStep | drivers/maholo/driver.py:133-137 | a poll that sees a busy cell leaves the rest of the wait to the remaining messages, one poll later |
| MaholoDriver.Polls | drivers/maholo/driver.py:132 | n polls send n status requests |
| MaholoDriver.CheckErrorCode | drivers/maholo/driver.py:100-110 | the run proceeds iff the code is none of 403, 404, 409, 503; the first three raise DriverError, 503 raises FatalDriverError |
| MaholoDriver.ErrorCodesAreDriverErrors | drivers/maholo/driver.py:18-21 | of the codes the controller reports only the empty one proceeds, and every other raises something a DriverError handler catches |
| MaholoDriver.RunOutcome | drivers/maholo/driver.py:91-112 | a run never reads more messages than the controller sent |
| MaholoDriver.Execution | drivers/maholo/driver.py:99-111 | the execute part of a run never reads more messages than the controller sent |
| MaholoDriver.RunStartsOnlyListedProtocols | drivers/maholo/driver.py:94-112 | the execute request is sent only for a protocol the controller listed, after it reported an idle cell; a successful run ends on a completed status |
| MaholoDriver.SimulatorRunCompletes | drivers/maholo/driver.py:122-128 | against the simulator's replies to an accepted run, the completion wait returns the simulator's completed status after three reads |
| MaholoDriver.PathReplace | drivers/maholo/driver.py:55-56 | the result is as long as the path and equals it with every '/' turned into '#' |
| MaholoDriver.PathReplaceSpec | drivers/maholo/driver.py:55-56 | the result holds no '/', other characters are kept, and replacing again changes nothing |
| MaholoDriver.Link.constructor | drivers/maholo/maholo_api/client.py:17-20 | a fresh link holds the controller's replies and has sent nothing |
| MaholoDriver.Link.Recv | drivers/maholo/maholo_api/client.py:39-42 | a read takes the first reply off the inbox, and raises on a closed (empty) socket |
| MaholoDriver.Link.Send | drivers/maholo/maholo_api/client.py:44-59 | a request is appended to what was sent, and nothing is read |
| MaholoDriver.Link.WaitFor | drivers/maholo/driver.py:139-146 | the wait's result and the messages it consumes are those of ScanFor |
| MaholoDriver.Link.GetProtocolPaths | drivers/maholo/driver.py:114-120 | asks for the paths once and then behaves as PathsScan |
| MaholoDriver.Link.PollStatus | drivers/maholo/driver.py:132-133 | one status poll sends one request and returns only a status reply |
| MaholoDriver.Link.WaitUntilIdle | drivers/maholo/driver.py:130-137 | sends one status request per poll and ends as WaitIdle says |
| MaholoDriver.MaholoDriver.constructor | drivers/maholo/driver.py:42-53 | the driver keeps its base path and link, with ten retries |
| MaholoDriver.MaholoDriver.RunOnLink | drivers/maholo/driver.py:91-112 | the run's result, the messages it reads and the requests it sends are those of RunOutcome |
| MaholoDriver.MaholoDriver.Execute | drivers/maholo/driver.py:98-111 | the execute part behaves as Execution |
| MaholoDriver.MaholoDriver.Open | drivers/maholo/maholo_api/client.py:22-34 | a failed connection raises FatalDriverError; no message raises ConnectionClosed; the session opens iff the first message is NotifyUsers, and a plain "Connection failed" is raised otherwise |
| MaholoDriver.MaholoDriver.Run | drivers/maholo/driver.py:67-72 | a failed connection raises FatalDriverError; no first message raises ConnectionClosed; a first message other than NotifyUsers raises the plain "Connection failed", which is not converted; after NotifyUsers the result, the error, the replies left and the requests sent are RunOutcome's on the rest |
| MaholoDriver.MaholoDriver.Move | drivers/maholo/driver.py:58-65 | runs the protocol named `move_<what>_<from>_<to>` over the '/'-free places, with the same four cases as Run: FatalDriverError, ConnectionClosed, the plain "Connection failed", or RunOutcome's result, error, replies left and requests sent |
| MoveProtocols.DeviceOf | drivers/maholo/maholo_api/protocol_generator.py:21-27 | a name is a device iff it is one of the five keys of the device table, and then names exactly that device |
| MoveProtocols.ParseDevice | drivers/maholo/maholo_api/protocol_generator.py:67-80 | an unknown device raises ValueError; a parse succeeds only for a known device and keeps it; a Lifter position parses to nothing |
| MoveProtocols.ParseCo2IB | drivers/maholo/maholo_api/protocol_generator.py:75-76 | an incubator position reads back the section and jig it was written with |
| MoveProtocols.ParseBath | drivers/maholo/maholo_api/protocol_generator.py:77-78 | a bath or cool incubator position is in section "1" and reads back its jig |
| MoveProtocols.ParseStocker | drivers/maholo/maholo_api/protocol_generator.py:79-80 | a stocker position reads back its section and jig and skips the third field |
| MoveProtocols.ParseLifter | drivers/maholo/maholo_api/protocol_generator.py:61-62 | a Lifter position parses to nothing, so building a position from it raises TypeError |
| MoveProtocols.NewPosition | drivers/maholo/maholo_api/protocol_generator.py:61-65 | a position is built iff its text parses to one, and it is that one |
| MoveProtocols.SplitFields | drivers/maholo/maholo_api/protocol_generator.py:71 | splitting fields joined by a separator none of them holds gives the fields back |
| MoveProtocols.ParseMoveProtocol | drivers/maholo/maholo_api/protocol_generator.py:88-97 | a name that does not split into four '_' fields raises ValueError; otherwise the labware is the second field and both ends are the positions of the third and fourth |
| MoveProtocols.MoveNameFields | drivers/maholo/driver.py:58-63 | the driver's move name splits into "move", the labware and the two '/'-free places |
| MoveProtocols.DriverMoveNameParses | drivers/maholo/maholo_api/protocol_generator.py:88-97 | a move named by the driver parses iff both its places do, and reads back that labware and those positions |
| MoveProtocols.MatchIsSameKey | drivers/maholo/maholo_api/protocol_generator.py:99-119 | two moves match iff they agree on labware, device kinds and, between stockers, on staying in one section; so matching is reflexive and symmetric |
| MoveProtocols.Match | drivers/maholo/maholo_api/protocol_generator.py:99-119 | matching moves agree on labware and on both ends' device kinds |
| MoveProtocols.ChoiceTemplate | drivers/maholo/maholo_api/protocol_generator.py:186-190 | the first template in list order that matches is chosen; ValueError iff none matches (its message text is listed under Left out) |
| MoveProtocols.PositionXml | drivers/maholo/maholo_api/protocol_generator.py:132-152 | a labware outside the display table raises KeyError; otherwise the device text with that display name, between '>' and '<' |
| MoveProtocols.LifterXml | drivers/maholo/maholo_api/protocol_generator.py:124-130 | the Lifter text at the destination's section |
| MoveProtocols.FromXml | drivers/maholo/maholo_api/protocol_generator.py:133-143 | a labware outside the display table raises KeyError; otherwise the origin's device text between '>' and '<' |
| MoveProtocols.ToXml | drivers/maholo/maholo_api/protocol_generator.py:145-153 | a labware outside the display table raises KeyError; otherwise the destination's device text between '>' and '<' |
| MoveProtocols.ReplaceStep | drivers/maholo/maholo_api/protocol_generator.py:164 | where no occurrence starts, replacing copies the first character |
| MoveProtocols.ReplaceSkips | drivers/maholo/maholo_api/protocol_generator.py:164 | text in which no occurrence starts is copied unchanged |
| MoveProtocols.ReplaceAtHead | drivers/maholo/maholo_api/protocol_generator.py:164 | an occurrence at the head is replaced |
| MoveProtocols.Swap | drivers/maholo/maholo_api/protocol_generator.py:162-174 | swapping keeps the length and changes exactly the settings equal to the one swapped |
| MoveProtocols.SettingXmlInjective | drivers/maholo/maholo_api/protocol_generator.py:47-53 | a lifter setting element determines its section and its item |
| MoveProtocols.SettingPrefix | drivers/maholo/maholo_api/protocol_generator.py:47-53 | a setting element starts only with itself |
| MoveProtocols.ReplaceSetting | drivers/maholo/maholo_api/protocol_generator.py:162-174 | replacing one setting element by another in a rendered file is swapping that setting, and the result is still a well-formed file |
| MoveProtocols.SwapBack | drivers/maholo/maholo_api/protocol_generator.py:162-174 | emptying both ends and filling them again gives back every piece when no end held an empty setting |
| MoveProtocols.LifterRoundTrip | drivers/maholo/maholo_api/protocol_generator.py:162-174 | `remove_lifters` empties both ends' settings, and `add_lifters` afterwards restores the file when neither end was empty before |
| NameRegistry.IsKnown | src/requirement/label.py:23-27 | a name is known iff some entry has it as its name or among its aliases |
| NameRegistry.Without | src/requirement/label.py:38-43 | removal keeps exactly the entries whose primary name differs, and adds none |
| NameRegistry.WithoutConcat | src/protocol/label.py:28-29 | removal keeps order: it distributes over concatenation and keeps a single entry iff its name differs |
| NameRegistry.RemovalIgnoresAliases | src/requirement/label.py:38-43 | after removal the name is still known iff a remaining entry has it as an alias |
| NameRegistry.AppendKnown | src/requirement/label.py:29-36 | after an add, the known names are the old ones plus the new entry's name and aliases |
| NameRegistry.AppendKeepsDistinct | src/requirement/label.py:34-36 | adding only under an unknown name keeps primary names distinct |
| NameRegistry.WithoutKeepsDistinct | src/requirement/label.py:38-43 | removal keeps primary names distinct |
| NameRegistry.IsKnownAsWritten | src/requirement/label.py:21-27 | with the storage left as a class-level `field(...)` object, the lookup raises TypeError; on a real list it is IsKnown |
| NameRegistry.AddAsWritten | src/requirement/label.py:29-36 | with the storage left as a class-level `field(...)` object, adding raises TypeError |
| NameRegistry.RemoveAsWritten | src/requirement/label.py:38-43 | with the storage left as a class-level `field(...)` object, removal raises TypeError; on a real list it is Without |
| Optimizer.OFlattenShape | src/optimizer.py:26-30 | a node's flattening holds every child's flattening, and nothing but the node and what lies in some child's flattening |
| Optimizer.OFlattenAllShape | src/optimizer.py:27-30 | the children's flattenings together are exactly the union of each child's |
| Optimizer.OFlattenTransitive | src/optimizer.py:26-30 | the subtree of any node in a flattening lies inside that flattening |
| Optimizer.OFlatten | src/optimizer.py:26-30 | the flattening starts with the node itself |
| Optimizer.PFlatten | src/protocol.py:58-62 | the flattening of a protocol tree starts with the node itself |
| Optimizer.ConverterRoundTrip | src/optimizer.py:168-176 | seconds and times convert back and forth without loss, and the origin is second zero |
| Optimizer.TimeToSeconds | src/optimizer.py:168-172 | seconds convert back to the time, and zero is exactly the origin |
| Optimizer.MinStarted | src/optimizer.py:142-149 | the earliest recorded start among the protocols: absent iff none started, otherwise one of them and no later than any |
| Optimizer.OldestTime | src/optimizer.py:139-152 | the earliest recorded start, or now when none started or that earliest start is the epoch |
| Optimizer.SumDurations | src/optimizer.py:155-165 | non-negative durations give a non-negative horizon |
| Optimizer.SumDurationsAppend | src/optimizer.py:155-165 | the horizon of two node lists is the sum of their horizons |
| Optimizer.HorizonCoversEachDuration | src/optimizer.py:155-165 | with non-negative durations the horizon is non-negative and no single duration exceeds it |
| Optimizer.ToOpt | src/optimizer.py:88-136 | the conversion succeeds iff no Start lies below the root and only protocols lie below a delay; the result mirrors the tree with times shifted to the origin; refusals are ValueError |
| Optimizer.ToOptAll | src/optimizer.py:92-99 | the children convert iff none is a Start and each converts, one result per child in order |
| Optimizer.Feasible | src/optimizer.py:179-213 | the constraints posted: variable domains, recorded starts and finishes, intervals, no overlap, protocol order and the delay windows (its meaning is stated by DelayWindow, LocalOrderFromFeasible and Precedence) |
| Optimizer.DelayWindow | src/optimizer.py:45-62 | in a feasible answer, a protocol after a delay starts between duration+offset and 3·duration+offset after its parent finishes |
| Optimizer.LocalOrderFromFeasible | src/optimizer.py:193-208 | a feasible answer puts each protocol's start before its finish and that finish before every child's start, through a delay too |
| Optimizer.SubtreeStartsAfter | src/optimizer.py:204-208 | everything below a protocol starts no earlier than any bound that protocol starts after |
| Optimizer.Precedence | src/optimizer.py:179-213 | in a feasible answer every protocol below a protocol, directly or through delays, starts no earlier than that protocol finishes |
| Optimizer.OptimizeSchedule | src/optimizer.py:179-226 | a plan comes back exactly for a convertible tree and an optimal answer that meets every posted constraint over the horizon and the oldest-time origin, and it is then that origin and that answer; otherwise ValueError |
| Optimizer.ApplyPlan | src/optimizer.py:217-224 | writing back keeps every node's id and number of children |
| Optimizer.ApplyPlanKeeps | src/optimizer.py:217-224 | writing back changes only scheduled times, and a covered protocol is scheduled at origin plus its start |
| PlanTree.ParseNodeType | src/protocol.py:11-16 | a parsed node type has exactly the given value; a value no member has raises ValueError |
| PlanTree.ParseNodeTypeRoundTrip | src/protocol.py:11-16 | every member's value parses back to that member |
| PlanTree.ParseFromType | src/protocol.py:110-112 | a from_type name is accepted iff it is START or FINISH, and names that member |
| PlanTree.Flatten | src/protocol.py:58-62 | the flattening starts with the node itself |
| PlanTree.FlattenLength | src/protocol.py:58-62 | the flattening starts with the node and lists as many nodes as the subtree has |
| PlanTree.FlattenAllLength | src/protocol.py:60-61 | the children's flattenings together are as long as their subtrees' sizes added up |
| PlanTree.FlattenContainsChildren | src/protocol.py:58-62 | every node of a child's subtree appears in the parent's flattening |
| PlanTree.FlattenAllContains | src/protocol.py:60-61 | every node of one child's subtree appears in the children's flattening |
| PlanTree.ToDictAsWritten | src/protocol.py:48-52 | as written, the dict carries the node type and one dict per child, and a recorded time goes in as a `datetime` object, so a time is unreadable exactly when the node records one |
| PlanTree.ToDict | src/protocol.py:48-52 | the dict carries the node type and one dict per child, its times are POSIX timestamps, and each reads back as the node's time |
| PlanTree.FromTimestamp | src/protocol.py:104-106 | `fromtimestamp` reads an absent time as absent and a timestamp as its instant, and raises TypeError on a `datetime` object |
| PlanTree.TimestampRoundTrip | src/protocol.py:104-106 | a time written as a timestamp reads back unchanged |
| PlanTree.ToDictAll | src/protocol.py:51 | one dict per child, in order |
| PlanTree.CheckNodeType | src/protocol.py:138-140 | the node_type check passes iff the dict's node_type is present and is the expected one |
| PlanTree.ScheduleStartFromDict | src/protocol.py:97-107 | accepted iff the node_type is schedule_start and the start time is absent or a timestamp, which it reads back; a `datetime` object raises TypeError |
| PlanTree.DelayFromDict | src/protocol.py:136-154 | accepted only with node_type delay and a duration and an offset present, keeping the duration |
| PlanTree.ProtocolFromDict | src/protocol.py:176-190 | accepted iff the node_type is protocol and name and duration are present, keeping both |
| PlanTree.StartedProtocolFromDict | src/protocol.py:218-244 | accepted iff the node_type is started_protocol, name and duration are present and each of the three times is absent or a timestamp; keeps name and duration and reads the times back |
| PlanTree.PlanFromDictAll | src/protocol.py:291 | the children parse to one node each, in order |
| PlanTree.PlanFromDict | src/protocol.py:280-315 | a missing node_type raises ValueError; a parsed node has a post_node list, one child per dict, and every child allowed under it |
| PlanTree.PlanFromDictWellTyped | src/protocol.py:280-315 | every tree plan_from_dict returns obeys the child-type rules (Start and Protocol take Protocol or Delay, Delay only Protocol) |
| PlanTree.PlanFromDictAllWellTyped | src/protocol.py:291-312 | every child plan_from_dict returns obeys the child-type rules |
| PlanTree.PlanRoundTrip | src/protocol.py:48-52 | a plan obeying the child-type rules comes back from its dict unchanged |
| PlanTree.PlanRoundTripAll | src/protocol.py:51 | a list of such plans comes back from its dicts unchanged |
| PlanTree.ScheduleFromDictAllBy | src/protocol.py:331 | the children parse to one node each, in order |
| PlanTree.ScheduleFromDictKinds | src/protocol.py:318-355 | the schedule parser yields only ScheduleStart, Delay and StartedProtocol nodes |
| PlanTree.ScheduleFromDictAsWritten | src/protocol.py:318-355 | as written, a parsed node has one child per dict and a parsed Delay has no children at all |
| PlanTree.ScheduleFromDict | src/protocol.py:318-355 | with the corrected Delay rule, a parsed node is a ScheduleStart, Delay or StartedProtocol with one child per dict, and a Delay's children are started protocols |
| PlanTree.AsWrittenRejectsDelayChildren | src/protocol.py:341-346 | as written, every Delay dict with a child is rejected, since no parsed child is exactly a Protocol |
| PlanTree.ScheduleRoundTrip | src/protocol.py:318-355 | with the Delay rule admitting started protocols and times written as POSIX timestamps, every well-typed schedule, recorded times included, comes back from its dict unchanged |
| PlanTree.ScheduleRoundTripAll | src/protocol.py:331 | a list of well-typed schedules, written with timestamps, comes back from its dicts unchanged |
| PlanTree.DelayWithChildCounterexample | src/protocol.py:341-346 | a delay holding one started protocol: rejected as written, read back by the corrected parser |
| PlanTree.AsWrittenRejectsRecordedTimes | src/protocol.py:94-106 | as written, a node with a recorded time cannot be read back from its own dict |
| PlanTree.AsWrittenAgreesWithoutTimes | src/protocol.py:48-52 | without recorded times the written dict is the corrected one |
| PlanTree.AsWrittenAgreesWithoutTimesAll | src/protocol.py:51 | the same for a list of children |
| PlanTree.RecordedStartCounterexample | src/protocol.py:94-106 | a schedule start with a recorded time: as written its dict raises TypeError when read back; written with a timestamp it reads back unchanged |
| PlanTree.PlanToScheduleAllBy | src/protocol.py:257 | the children convert to one node each, in order |
| PlanTree.PlanToScheduleSound | src/protocol.py:254-277 | with a fresh Delay, every well-typed plan becomes a well-typed schedule of the same shape keeping names, durations and delays |
| PlanTree.PlanToScheduleAllSound | src/protocol.py:257 | the children of a well-typed plan convert to well-typed schedule children node for node |
| PlanTree.PlanToSchedule | src/protocol.py:254-277 | with a fresh Delay, a converted node is a schedule kind with one child per plan child, each a started protocol or a delay |
| PlanTree.PlanToScheduleAsWritten | src/protocol.py:254-277 | as written, a converted Delay keeps its own children first and has twice as many; other nodes keep their number of children |
| PlanTree.ConvertedHasNoTimes | src/protocol.py:254-277 | a converted plan records no time anywhere |
| PlanTree.PlanScheduleDictRoundTrip | src/protocol.py:254-355 | a converted schedule comes back from its dict unchanged, and both encodings write the same dict for it |
| PlanTree.AsWrittenDelayDoubles | src/protocol.py:271-276 | as written, a converted Delay keeps its plan children and gains the converted ones: k children become 2k |
| PlanTree.DelayReuseCounterexample | src/protocol.py:271-276 | a delay with one protocol child gets two children as written, one of them still a plan Protocol; the corrected conversion gives one |
| PlanTree.GraphNode.constructor | src/protocol.py:25-27 | a new node points every given child's parent at itself and changes nothing else |
| PlanTree.GraphNode.Add | src/protocol.py:43-45 | the child is appended and points back here; a previous parent still lists it |
| PlanTree.GraphNode.Top | src/protocol.py:37-41 | returns a node without a parent reached by following parents, or RecursionError when the chain is longer than the recursion limit |
| PlanTree.GraphNode.UpStep | src/protocol.py:39-40 | one more step up from a node with a parent reaches that parent |
| PlanTree.GraphNode.Gt | src/protocol.py:29-35 | every given node is appended in order and points back here; this node keeps its own predecessor unless it is among them, and every other given node keeps its children; the result is the top of the tree |
| ProtocolLabels.LabelStorage.constructor | src/protocol/label.py:13-14 | a storage starts with no labels |
| ProtocolLabels.LabelStorage.AddLabel | src/protocol/label.py:21-26 | a known name is refused with ValueError and nothing changes; otherwise exactly one label with the given (or no) aliases is appended; primary names stay distinct |
| ProtocolLabels.LabelStorage.RemoveLabelName | src/protocol/label.py:28-29 | the labels become those whose primary name differs, in order; primary names stay distinct |
| ProtocolLabels.AddThenRemove | src/protocol/label.py:16-29 | a label added under a new name makes exactly its name and aliases known besides the old ones, and removing it gives back what removal gave before |
| ProtocolLabels.FreshStorageRaises | src/protocol/label.py:14 | as written a fresh storage has no list of its own, so lookup, add and remove all raise TypeError |
| RequirementLabels.LiquidNameStorage.constructor | src/requirement/label.py:20-21 | a storage starts with no liquid names |
| RequirementLabels.LiquidNameStorage.AddLiquidName | src/requirement/label.py:29-36 | a known name is refused with ValueError and nothing changes; otherwise exactly one entry with that store and the given (or no) aliases is appended; primary names stay distinct |
| RequirementLabels.LiquidNameStorage.RemoveLiquidName | src/requirement/label.py:38-43 | the entries become those whose primary name differs, in order; primary names stay distinct |
| RequirementLabels.LabwareTypeStorage.constructor | src/requirement/label.py:46-47 | a storage starts with no labware types |
| RequirementLabels.LabwareTypeStorage.AddLabwareType | src/requirement/label.py:55-60 | a known name is refused with ValueError and nothing changes; otherwise exactly one type with the given (or no) aliases is appended; primary names stay distinct |
| RequirementLabels.LabwareTypeStorage.RemoveLabwareType | src/requirement/label.py:62-67 | the types become those whose primary name differs, in order; primary names stay distinct |
| RequirementLabels.FreshStoragesRaise | src/requirement/label.py:21 | as written a fresh storage of either kind has no list of its own, so lookup, add and remove all raise TypeError |
| ProtocolNodes.ExistingReturns | src/protocol/protocol.py:63-67 | a node hands on exactly its existing-labware slots, each with its requirement |
| ProtocolNodes.LabwareNeeds | src/protocol/protocol.py:87-91 | exactly the requirements that are labware, each kept |
| ProtocolNodes.ProtocolReturns | src/protocol/protocol.py:85-93 | a protocol hands on a name iff it is an existing slot or a labware requirement, the requirement winning on a shared name; reagents never |
| ProtocolNodes.Validate | src/protocol/protocol.py:41-43 | the construction checks pass iff a protocol's slot and requirement names are disjoint, a loading node has no slot and an unloading node exactly one; refusals are ValueError |
| ProtocolNodes.BuildAsWritten | src/protocol/protocol.py:34-123 | as written every combination is built, since pydantic models never call `__post_init__` |
| ProtocolNodes.Build | src/protocol/protocol.py:76-83 | with the checks run a node is built iff it is valid, unchanged |
| ProtocolNodes.PostInitNeverRuns | src/protocol/protocol.py:107-120 | an unloading node without labware and a loading node with one are built as written though the checks refuse them |
| ProtocolNodes.ValidProtocolHandsOnAll | src/protocol/protocol.py:76-93 | a valid protocol hands on as many labware as it has slots and labware requirements together |
| ProtocolNodes.DisjointUnionSize | src/protocol/protocol.py:77-80 | disjoint name sets add their sizes |
| ProtocolNodes.LoadingAndUnloadingReturns | src/protocol/protocol.py:111-123 | a loading node hands on exactly its new labware, an unloading node nothing |
| ProtocolNodes.FirstRefused | src/protocol/protocol.py:46-59 | no argument is refused iff every one names a slot of the same labware type; otherwise the first that does not |
| ProtocolNodes.FirstRefusedAt | src/protocol/protocol.py:46-59 | an argument refused after only accepted ones is the first refused |
| ProtocolNodes.LoadingRefusesArguments | src/protocol/protocol.py:45-50 | a valid loading node has no slot, so its first argument is refused |
| ProtocolNodes.Node.constructor | src/protocol/protocol.py:34-39 | a node keeps its variant and slots, with no parents recorded and nothing checked |
| ProtocolNodes.Node.Call | src/protocol/protocol.py:45-61 | arguments are checked in order and recorded as their slot's parent; the first refusal raises with the missing-name or type-mismatch message, keeping earlier records; otherwise the result is the node's returns |
| Requirement.MlPer | src/requirement/requirement.py:39-40 | every unit converts to a positive number of millilitres |
| Requirement.NewVolume | src/requirement/requirement.py:29-31 | a volume is built iff it is positive, keeping value and unit; otherwise ValueError |
| Requirement.FromPrimitive | src/requirement/requirement.py:50-52 | a liquid is built iff the volume is positive and the name has 1..100 characters, keeping both; otherwise ValueError |
| Requirement.TakeVolume | src/requirement/requirement.py:57-91 | refusals are ValueError; on success both parts keep the name, the remainder keeps the liquid's unit and the part taken is the requested volume |
| Requirement.TakeVolumeSpec | src/requirement/requirement.py:57-91 | taking succeeds iff the amount lies strictly between nothing and everything; then remainder and part taken add up to the original, both keep the name, the remainder keeps the original unit and the part the requested one |
| Requirement.TakeAllFails | src/requirement/requirement.py:70-91 | taking all of a liquid fails (its empty remainder is refused), and so does taking nothing |
| Requirement.ValidateStore | src/requirement/requirement.py:133-137 | a list of store types becomes the set of its elements; a set or no store is kept |
| Requirement.NewBaseLabware | src/requirement/requirement.py:113-125 | labware is built iff its type has 1..100 characters and exactly one of discard and store is given; otherwise ValueError |
| Requirement.DiscardXorStore | src/requirement/requirement.py:119-125 | built labware is discarded or stored, never both nor neither |
| Requirement.Members | src/requirement/requirement.py:128-131 | the listed elements are exactly those of the set, each once |
| Requirement.StoreRoundTrip | src/requirement/requirement.py:127-137 | the written list holds each stored type once and reads back to the same set |
| Requirement.SerializeStore | src/requirement/requirement.py:127-131 | no store writes nothing; a set is written as a list without repeats holding only its elements |
| Scheduler.MemoryScheduleSaver.constructor | src/scheduler.py:30-31 | a fresh saver holds nothing |
| Scheduler.MemoryScheduleSaver.Save | src/scheduler.py:33-34 | the saver holds the saved value |
| Scheduler.MemoryScheduleSaver.Load | src/scheduler.py:36-39 | returns the last saved value, or ValueError when nothing was saved |
| Scheduler.AddTime | src/scheduler.py:194-202 | the result lies exactly the duration after the start |
| Scheduler.SchedulesSpec | src/scheduler.py:80-98 | up to the first child that cannot be scheduled, whose exception is raised, exactly one task per enqueuing child, in child order, with that child's id: a delay's for its first successor due duration+offset after the start or the finish, a protocol's for itself due now |
| Scheduler.SchedulesError | src/scheduler.py:81-97 | the exception raised is the one of the first child that cannot be scheduled, and none when every child can |
| Scheduler.SchedulesTasks | src/scheduler.py:81-98 | the tasks queued before the first failing child match the enqueuing children one for one |
| Scheduler.SchedulesStep | src/scheduler.py:81-98 | one more child in front adds its task in front when it enqueues and nothing otherwise |
| Scheduler.ChildSchedule | src/scheduler.py:82-98 | a child fails exactly when it is a Delay without a protocol first successor; a delay's entry is due duration+offset after the start or finish, a protocol's now, other children add nothing |
| Scheduler.ChildScheduleEnqueues | src/scheduler.py:81-98 | a child that schedules adds a task exactly when it enqueues, and that task is the one it should add |
| Scheduler.Schedules | src/scheduler.py:81-98 | at most one task per child, and no exception only when every child schedules |
| Scheduler.Enqueuing | src/scheduler.py:81-98 | the enqueuing children's indices, increasing, and all of them |
| Scheduler.InsertAllSpec | src/awaitlist.py:33-55 | adding tasks one by one keeps the queue sorted and holds exactly the old tasks plus the new ones |
| Scheduler.FirstNamed | src/scheduler.py:111-118 | the first protocol in the list with the given name, or none iff no protocol has it |
| Scheduler.Processed | src/scheduler.py:103-131 | a missing protocol raises ValueError and a failing executor its error, both adding nothing and not saving; success saves; nothing added leaves the queue |
| Scheduler.ProcessedQueue | src/scheduler.py:103-131 | processing a task keeps the queue in time order and adds exactly the tasks it reports |
| Scheduler.Scheduler.constructor | src/scheduler.py:64-72 | a missing await list or saver is replaced by a fresh empty one; given ones are kept |
| Scheduler.Scheduler.AddTask | src/scheduler.py:139-151 | a duplicate id is refused and nothing changes; otherwise a new task is queued in time order and the scheduler saved |
| Scheduler.Scheduler.NewSchedules | src/scheduler.py:74-101 | the queue gains exactly the tasks Schedules gives, in time order, and the first failure is raised |
| Scheduler.Scheduler.ProcessTask | src/scheduler.py:103-131 | the result, the queue and the saver afterwards are those of Processed on the old queue |
| Scheduler.Scheduler.Seed | src/scheduler.py:133-135 | a nonempty queue is left as it is; an empty one is filled from the root's children, with the first failing child's error raised and a save whenever new_schedules saves |
| Scheduler.Scheduler.Step | src/scheduler.py:133-137 | a head that is not due changes nothing; a due head is taken off and processed, the queue and saver ending as Processed gives on the rest, and the head returned on success |
| Scheduler.NewSchedulesQueue | src/scheduler.py:74-99 | after new_schedules the queue holds the old tasks plus exactly the scheduled ones, still in time order |
| Simulator.AdmissionCode | maholocon/maholo_api/server.py:73-98 | 403 iff not in remote mode, then 404 iff the protocol is unknown, then 409 iff the cell is not idle, then 503 iff alarms are active; empty iff all pass |
| Simulator.Execute | maholocon/maholo_api/server.py:72-113 | the first thing yielded is the gate's verdict; an escaping exception is `request`'s ValueError with the record unchanged; a lone yield leaves the record unchanged |
| Simulator.RejectionLeavesStatus | maholocon/maholo_api/server.py:73-98 | a rejected request yields one status with the gate's code, raises nothing and leaves the record alone |
| Simulator.AcceptedRun | maholocon/maholo_api/server.py:99-113 | an accepted run with a succeeding hook yields the acceptance, the requested and running records and the completed copy, and ends idle |
| Simulator.HookFailureBlocksCell | maholocon/maholo_api/server.py:105-111 | a failing hook yields 503 and leaves the record running, so later known protocols are refused with 409 |
| Simulator.GateAdmitsNonIdle | maholocon/maholo_api/server.py:87-103 | any record the gate admits that is not fully idle is accepted, then `request` raises ValueError, the record unchanged |
| Simulator.NonIdleAdmitted | maholocon/maholo_api/server.py:87-103 | such records exist: an idle cell whose robot is away from its origin |
| Simulator.Server.constructor | maholocon/maholo_api/server.py:23-40 | the server starts from the initial status record with the given protocols |
| Simulator.Server.ExecuteProtocol | maholocon/maholo_api/server.py:72-113 | what is yielded, what is raised and the final record are those of Execute |
| Simulator.Recipient | maholocon/maholo_api/server.py:59-62 | a send reaches the socket connected under the name; a name not connected is refused with HTTP 400 |
| Simulator.ConnectionTable | maholocon/maholo_api/server.py:47-62 | a connection replaces an earlier one under the same name and is what a send reaches; other names are untouched; after a disconnect the name is refused; disconnecting an absent name changes nothing |
| Simulator.ConnectionManager.constructor | maholocon/maholo_api/server.py:48-49 | no connections and nothing sent |
| Simulator.ConnectionManager.Connect | maholocon/maholo_api/server.py:51-53 | the name is connected to the socket |
| Simulator.ConnectionManager.Disconnect | maholocon/maholo_api/server.py:55-57 | the name is disconnected |
| Simulator.ConnectionManager.SendText | maholocon/maholo_api/server.py:59-62 | a name not connected is refused with 400 and nothing sent; otherwise exactly one message goes to its socket |
| ScenarioExperiment.NewParent | src/protocol/experiment.py:173-176 | a parent labware is built iff its label has 1..100 characters, keeping protocol id, label and type; otherwise ValueError |
| ScenarioExperiment.CallGet | src/protocol/experiment.py:190-203 | a name of the call's existing labware (first) or new labware yields a parent with the call's id, that label and the declared type; an undeclared name raises "not found in protocol" |
| ScenarioExperiment.StoreGet | src/protocol/experiment.py:212-219 | a name among the store's arguments yields that argument re-labelled with the store's id and the name; any other raises "not found in store" |
| ScenarioExperiment.FirstRefused | src/protocol/experiment.py:151-159 | no argument is refused iff each names existing labware of the same type; otherwise the first that does not |
| ScenarioExperiment.Args | src/protocol/experiment.py:167 | the args dictionary has exactly the keyword names, each mapped to one of its keyword values |
| ScenarioExperiment.RefusedAt | src/protocol/experiment.py:151-159 | an argument refused after only accepted ones is the first refused |
| ScenarioExperiment.AcceptedArgsFit | src/protocol/experiment.py:151-168 | when the call accepts, every recorded argument names existing labware of its type |
| ScenarioExperiment.HandedOnAccepted | src/protocol/experiment.py:190-203 | labware got from an earlier call is accepted by a slot iff the slot's type is the type that call declared |
| ScenarioExperiment.GetThenCall | src/protocol/experiment.py:150-203 | handing a call's own existing labware back under the same names is never refused |
| ScenarioExperiment.Protocol.constructor | src/protocol/experiment.py:89-95 | a protocol starts with its experiment, name and duration and no reagents or labware |
| ScenarioExperiment.Protocol.AddReagent | src/protocol/experiment.py:111-126 | a name the experiment does not declare is refused with ValueError and nothing changes; otherwise exactly that reagent slot is set; the labware maps are untouched |
| ScenarioExperiment.Protocol.AddNewLabware | src/protocol/experiment.py:128-135 | a name already present is refused with the source's "Labware type ... already exists" message; otherwise exactly that slot is set |
| ScenarioExperiment.Protocol.AddExistingLabware | src/protocol/experiment.py:137-148 | a name already present is refused with "Sample name ... already exists"; otherwise exactly that slot is set |
| ScenarioExperiment.Protocol.Call | src/protocol/experiment.py:150-170 | the first refused argument raises its missing-name or type-mismatch message and nothing is appended; otherwise a call snapshot with these arguments is returned and appended to the scenario |
| ScenarioExperiment.Experiment.constructor | src/protocol/experiment.py:222-226 | an experiment starts with its name and empty reagent names, protocols and scenario |
| ScenarioExperiment.Experiment.New | src/protocol/experiment.py:223 | an experiment is built iff its name has 1..100 characters; otherwise ValueError |
| ScenarioExperiment.Experiment.NewReagentName | src/protocol/experiment.py:232-235 | a known name is refused with ValueError and nothing changes; otherwise it is appended; names stay distinct |
| ScenarioExperiment.Experiment.NewProtocol | src/protocol/experiment.py:237-246 | a taken protocol name is refused first, then a name outside 1..100 characters; otherwise one fresh protocol is appended and returned |
| ScenarioExperiment.Quotient | src/protocol/experiment.py:309-312 | dividing a positive amount by a positive one is positive, at most one when it is no larger, and taking one divisor away lowers the quotient by one |
| ScenarioExperiment.RoundsDecrease | src/protocol/experiment.py:310-312 | each full container lowers the bound on the remaining rounds |
| ScenarioExperiment.VolumeList | src/protocol/experiment.py:305-316 | the loop's result is Volumes of its inputs |
| ScenarioExperiment.Volumes | src/protocol/experiment.py:305-316 | the containers `volume_list` fills; VolumesShape, VolumesTotal and VolumesCount state what they are |
| ScenarioExperiment.VolumesShape | src/protocol/experiment.py:305-316 | no container iff the total is not positive; every container but the last is full; each holds more than the dead volume and at most the maximum |
| ScenarioExperiment.VolumesTotal | src/protocol/experiment.py:305-316 | the containers hold the total plus one dead volume each |
| ScenarioExperiment.VolumesCount | src/protocol/experiment.py:305-316 | when a container takes more than its dead volume, there are ceil(total / (max - dead)) of them |
| ScenarioExperiment.NeverEnds | src/protocol/experiment.py:309-312 | when the dead volume is at least the maximum and the total does not fit, the remainder never drops, so the loop never ends |
| ScenarioExperiment.GroupReagents | src/protocol/experiment.py:263-276 | one group per distinct (type name, reagent name) key in first-seen order, each holding that key's reagents in order |
| ScenarioExperiment.GroupsOfReagents | src/protocol/experiment.py:263-276 | every group is nonempty and its first reagent's type has the key's name; every reagent is in its key's group, and the groups together hold all reagents |
| ScenarioExperiment.VolumesMl | src/protocol/experiment.py:288 | one millilitre amount per reagent, in order |
| ScenarioExperiment.AsReagents | src/protocol/experiment.py:294-302 | one reagent of the given type and name per volume, in millilitres, with no destination |
| ScenarioExperiment.MlOfReagents | src/protocol/experiment.py:294-302 | the reagents built from volumes measure those volumes back |
| ScenarioExperiment.SumGroup | src/protocol/experiment.py:282-302 | an empty group raises IndexError, a multi-well type NotImplementedError; a single-well group succeeds |
| ScenarioExperiment.SumGroupEntries | src/protocol/experiment.py:282-302 | a successful group's entry is keyed by its type name and reagent name and lists containers of that type for that reagent, all but the last full, each above the dead volume |
| ScenarioExperiment.SumGroupConserves | src/protocol/experiment.py:288-302 | the containers of a group hold the group's total plus one dead volume each; a group of no volume gets none |
| ScenarioExperiment.SumReagentVolumes | src/protocol/experiment.py:278-303 | the loop's result is Summed of the groups |
| ScenarioExperiment.Summed | src/protocol/experiment.py:278-303 | the groups summed in order; SummedOk, SummedKeepsError and SummedHasLastEntry state its outcome |
| ScenarioExperiment.SummedKeepsError | src/protocol/experiment.py:282-287 | once a group fails, the whole sum fails with that error |
| ScenarioExperiment.SummedOk | src/protocol/experiment.py:278-303 | the sum succeeds iff every group is nonempty with a single-well type |
| ScenarioExperiment.SummedHasLastEntry | src/protocol/experiment.py:294-302 | when all groups succeed, each key holds the entry of the last group that produced it |

## Left out

- Concurrency: the asyncio condition variable, timeouts and notifications of `src/awaitlist.py` are out. The waiter is one synchronous turn with `now` as input.
- The CP-SAT search of `src/optimizer.py` is out. Its answer is a parameter, checked against every posted constraint; optimality (the minimised makespan plus losses) is not modelled.
- Optimizer.OptimizeSchedule: models the signature in `src/optimizer.py`. The executor also passes `buffer_seconds` and imports `format_schedule`, which that file lacks, so the buffer has no effect in the model.
- The protocol-node fields that `src/executor.py` and `src/optimizer.py` use but `src/protocol.py` lacks (`id`, `started_time`, `scheduled_time`, `get_node`) are an abstract node record.
- File persistence (`FileScheduleSaver`), the getimage directory listing in `run`, and the move-protocol file copying of `MoveProtocolGenerator` are file I/O and are out.
- The websocket client, the server's websocket endpoint and the JSON parsing of replies are out. The driver sees the controller as a list of replies already parsed.
- MaholoDriver.WaitIdle: the one-second sleep between status polls is dropped, and polling ends when the replies run out instead of waiting forever.
- MoveProtocols.ChoiceTemplate: `MoveProtocol` is a plain class without `__str__`, so the source's message ends in Python's default object text, which holds a memory address; the model writes the protocol name there instead.
- Simulator.Execute: the simulator's protocol hook (`maholocon/maholo_api/model.py`) is not part of this model. It is reduced to whether it raises, and with what message.
- `Scheduler.update_task`, `get_tasks` and `get_time` are out. They forward to the await list, call a method the await list does not define, or read the clock.
- The `__str__` of the plan nodes, `str(duration)` and the float text of volumes are out. LabModel.Render takes the text of a volume as a parameter.
- LabModel.Render: renders a value snapshot of the tree, so a node graph that reaches itself, which the source would recurse on forever, is not rendered.
- `calc_resources` in both experiment files and `Protocol.serialize_model` are out. They only concatenate the grouped reagents and the labware maps in dictionary order.
- ScenarioExperiment.VolumeList: requires that the loop ends, that is dead volume below the maximum or a total that fits in one container. Otherwise the source loops forever; NeverEnds proves this.
- ScenarioExperiment.SumGroup: requires the same termination condition, as do ScenarioExperiment.Summed and ScenarioExperiment.SumReagentVolumes.
- ScenarioExperiment.Protocol.AddNewLabware: the refusal message renders the labware type by its name only, not the full pydantic representation.
- ScenarioExperiment.Protocol.Call: the type-mismatch message likewise renders both labware types by their names only.
- Executor.StampAll: records the time on every protocol node carrying the processed task's id, so nodes with equal ids are treated as one node. The source stamps only the first such node in flatten order. With the distinct ids `uuid4` hands out the two agree.
- Executor.Executor.Optimize: requires the generated task id to be new to the queue, as a fresh `uuid4` is.
- Executor.Executor.AddProtocol: requires the same of its generated task id.
- Executor.Executor.ProcessTask: requires the same of its generated task id.
- Executor.Executor.CancelAll: the corrected cancel loop is proved on its own. Optimize runs the loop as written, and OptimizeOnShortQueue shows the two agree when at most one task is queued, as sequential use leaves it.
- ScenarioExperiment.Experiment.Valid: `__post__init__` in `src/protocol/experiment.py` is misspelt and never runs. The model keeps the duplicate-free invariant that `new_reagent_name` maintains instead.
- ScenarioExperiment.CallGet: the `__post_init__` of `ProtocolCall` (args must name exactly the existing labware) never runs, so it is not checked. The `add_*` and `__call__` methods a call inherits from `Protocol` are not modelled on calls.
- Volumes in `src/protocol/experiment.py` allow zero (`ge=0`). The model reuses the volume type of `src/requirement/requirement.py`, and the packing functions work on plain reals, so zero volumes are still covered there.
- Requirement.SerializeStore: writes the set in the enum's order. Python's set order is not modelled.
- The pint unit registry is replaced by exact factors. Floating-point rounding of volumes and of `total_seconds` is not modelled.
- ProtocolNodes.Node.Call: the parent recorded for each slot is kept in a map beside the node instead of inside the shared requirement object, so aliasing between nodes is not modelled. `protocol.requirement` is not part of this model.
- Keyword arguments are a sequence of name/value pairs in call order. A repeated name, which Python rejects at the call, is allowed.

## Findings

| source | as written | input that shows it | evidently intended | confidence | as-written member | corrected member |
|---|---|---|---|---|---|---|
| src/executor.py:51-54 | the loop cancels tasks from the list it iterates over, which is the queue's own list | a queue of two tasks: the first is cancelled, the iteration skips the second, which stays queued | every old task is cancelled before the next one is queued | not executed | Executor.Executor.CancelAllAsWritten | Executor.Executor.CancelAll |
| src/protocol.py:271-276 | the Delay branch of `plan2schedule` reuses the input node and appends the converted children to its existing children | a Delay with one Protocol child comes out with two children, the plan Protocol and its StartedProtocol | a fresh Delay holding only the converted children, as the other branches build | not executed | PlanTree.DelayReuseCounterexample | PlanTree.PlanToScheduleSound |
| src/protocol.py:341-346 | `schedule_from_dict` demands Delay children of type exactly Protocol, a type this parser never produces | the dict of a Delay holding one StartedProtocol is rejected | Delay children of a schedule are StartedProtocol, so every schedule reads back from its dict | not executed | PlanTree.DelayWithChildCounterexample | PlanTree.ScheduleRoundTrip |
| src/requirement/label.py:21 | the list is a class-level `dataclasses.field(...)` in a class that is not a dataclass, so it stays a `Field` object | `LiquidNameStorage().is_liquid_name("x")` raises TypeError, since a `Field` is not iterable | each storage starts with an empty list of its own | not executed | RequirementLabels.FreshStoragesRaise | RequirementLabels.LiquidNameStorage.AddLiquidName |
| src/protocol/label.py:14 | the same class-level `dataclasses.field(...)` | `LabelStorage().add_label("x")` raises TypeError | the storage starts with an empty list of its own | not executed | ProtocolLabels.FreshStorageRaises | ProtocolLabels.LabelStorage.AddLabel |
| src/protocol.py:94-106 | `to_dict` puts recorded times into the dict as `datetime` objects, and `from_dict` hands them to `datetime.fromtimestamp`, which takes only numbers | the dict of a ScheduleStart with a recorded start time raises TypeError when read back | times are written as POSIX timestamps, so a schedule with recorded times reads back from its dict | not executed | PlanTree.RecordedStartCounterexample | PlanTree.ScheduleRoundTrip |
| src/protocol/protocol.py:41-120 | the node checks live in `__post_init__`, which pydantic models never call | `Unloading()` with no existing labware is built | building a node runs the checks and refuses invalid nodes | not executed | ProtocolNodes.PostInitNeverRuns | ProtocolNodes.Build |
