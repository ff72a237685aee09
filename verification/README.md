# Staff simulator: a verified model

The staff simulator reacts to cleaning requests and to hour and day events. A manager hands cleaning
requests to housekeepers and restock orders to stockers; housekeepers consume stock, set the status of
cottages and send laundry to launderers; launderers consume soap and then wait for hour events; a
time-event notifier publishes the events. All of them share one stock document.

This project models that as one step system, `System.Next`, over a state that holds the shelf, the
cottages, the three bounded queues (32, 32 and 16), every worker's place in its code, the manager, the
notifier and the hour-change registry. An action names the process that moves, and what the clock, the
database and the random source answer. A run is any sequence of actions the system can take from
`System.Initial`: every interleaving, every failure, and cancellation at any moment. The main theorems are
in `Guarantees`, `Cleanings`, `Passes`, `Days`, `Timing`, `Wakeup`, `Schedules` and `Retries`; they hold for
every reachable state or for every run.

Beside it stand models of the sequential code: the stock repository, a housekeeper's, a launderer's and a
stocker's work, the employee table, the subscriber sets and the notification service, the random
selection, and the line-prefixing writer. They are classes and methods that update their state in place,
each proved against a specification. Housekeepers, launderers and stockers are also tied back to the step
system: one that moves alone has there the effects of the sequential code.

How the files fit together:

- `Collections`, `Stock`, `Domain`, `Employees`: values, recipes, name tables, and the worker pool that is
  proved once for all three services.
- `System`: the steps.
- `Accounting`, `Recipes`, `Restocking`, `Intake`, `Washing`, `Termination`, `Progress`: one invariant or
  measure each, kept by every step. `Runs` joins them into the invariant of all runs.
- `Guarantees`, `Cleanings`, `Passes`, `Days`, `Timing`, `Wakeup`, `Retries`, `Schedules`, `Gates`, `Standstill`:
  the results about whole runs.
- `StockRepo`, `EmployeeService`, `Stocker`, `Housekeeper`, `Launderer`, `Selection`, `Notification`,
  `Writer`: the sequential code.

Assumptions. There is one stock document, its opening quantities are not negative, and a failing database
call changes nothing. Quantities and counters are unbounded integers. Times are whole nanoseconds, and "at
least one or two hours later" is the integer comparison. The number of workers of a service is the size of
its employee table, so a repeated name does not make a second worker. A request type with an unknown number
is accepted and does nothing, as in the code.

One expected property does not hold in the form one would first write it: at a standstill before
cancellation with a wash under way, not every launderer need be inside its washing cycle, because some may
be idle. `Standstill.OneWaitsOneIdles` gives such a run, `Guarantees.AllWaitWhen` says exactly when all of
them are, and `Guarantees.StandstillIsWaiting` says what does hold: while any request is still queued or
blocked, all of them are.

## Model

| member | source | states |
|---|---|---|
| Guarantees.RunsAreFinite | internal/app/employee_service.go:38-67 | every run, under any interleaving and any failures, has at most a number of steps computed from the messages and the staff: nothing loops or retries for ever |
| Termination.MeasureStep | internal/app/launderer_service.go:110-139 | every step of every process, retries and event deliveries included, lowers one numeric measure |
| Guarantees.Ledger | internal/infra/mdb/stock_repo.go:51-144 | in every reachable state each quantity is the opening one plus 50 per successful restock minus what was taken, and is never negative |
| Accounting.LedgerStep | internal/infra/mdb/stock_repo.go:51-95 | each step of any process keeps that ledger and non-negativity |
| Guarantees.NeverOvershoots | internal/app/stocker_service.go:69-111 | in every reachable state, quantity plus 50 for each worker already decided on a restock is at most the opening quantity or 9 (19 for soap) plus 50 for each worker that could restock the item |
| Restocking.ContainedStep | internal/app/housekeeper_service.go:162-188 | each step keeps that ceiling, stale snapshots and check-then-restock included |
| Guarantees.CleaningConservation | internal/app/manager_service.go:62-84 | deliveries are settled once each and in order, acknowledged exactly if acceptable; dispatched are exactly the acceptable ones, in order; they are received in that order; each received one is finished or in one worker's hands |
| Domain.AcceptedAre | internal/app/utils.go:30-54 | the accepted requests are, in order and with no others, those of exactly the deliveries that decode, name a room by more than white space and have a non-zero type; each keeps its room, and 1 to 4 become the four listed types and any other number itself |
| Domain.AsciiRooms | internal/app/utils.go:37-41 | a room with any visible ASCII character is accepted, one of ASCII white space only is not, nor a malformed body or type 0 |
| Intake.DeskStep | internal/app/manager_service.go:62-84 | each step keeps settlements in order and the dispatched requests equal to the accepted deliveries |
| Guarantees.TaskConservation | internal/app/housekeeper_service.go:66-134 | each recipe task of the dispatched requests is done, given up, in hand, queued, or part of a request skipped for a failing clock, counted exactly |
| Cleanings.RecipeInOrder | internal/app/housekeeper_service.go:89-117 | over any run in which a housekeeper works on a request, the tasks it has settled, in the order it settled them, followed by those left, are the recipe |
| Cleanings.StatusComesLast | internal/app/housekeeper_service.go:89-114 | a cottage changes only when a housekeeper settles the status task of its recipe, and then all earlier tasks are settled |
| Cleanings.LaundryByRecipe | internal/app/housekeeper_service.go:96-109 | washes sent of a room and item are exactly: one for each request gone through whose recipe has it (towels for DAILY and FULL, linens for FULL), and one for each request in hand whose recipe position is past it; no laundry task is ever given up |
| Cleanings.LaundryOfFinished | internal/app/housekeeper_service.go:96-109 | with no request in hand, one towels for each finished DAILY or FULL that was not skipped, one linens for each such FULL |
| Cleanings.EndedRequests | internal/app/housekeeper_service.go:74-79 | every request that ended, counted once, was gone through to the end of its recipe or skipped as a whole for a failing clock |
| Recipes.CourseStep | internal/app/housekeeper_service.go:89-117 | each step of any process keeps every housekeeper's remaining tasks an end of its request's recipe, and laundry out of the tasks given up |
| Recipes.SettledStep | internal/app/housekeeper_service.go:89-117 | each step keeps, for any weighing, the settled tasks equal to those of the requests gone through plus those behind the housekeepers at work |
| Accounting.TasksStep | internal/app/housekeeper_service.go:151-192 | each step keeps that count for any weighing of tasks |
| Guarantees.LaundryConservation | internal/app/housekeeper_service.go:236-258 | each wash request sent is one laundry task carried out; requests are received in order, finished once or in one launderer's hands; no unsupported item ever occurs |
| Accounting.WashesStep | internal/app/launderer_service.go:87-140 | each step keeps soap settled once, or still due, for every wash request sent |
| Restocking.TidyStep | internal/app/launderer_service.go:150-155 | each step keeps laundry items supported and restock lists duplicate-free, so the unsupported-item branch is never reached |
| Guarantees.CottageStatuses | internal/app/housekeeper_service.go:216-234 | a cottage shows the status of the last update carried out for it; no cottage appears or vanishes |
| Guarantees.EmployeeBooks | internal/app/employee_service.go:75-103 | in all three services handled counts = finished requests + busy employees; received minus handled is the number of workers between receive and mark; an idle employee shows the zero request |
| Accounting.PoolsStep | internal/app/employee_service.go:38-67 | each step keeps the queues in order and within capacity, the employee records true to the workers, and every received request in exactly one place |
| Employees.Bookkeeping | internal/app/employee_metrics_service.go:11-23 | for any sound pool, the sum of handled counts and the idle count agree with the finished requests |
| Guarantees.DayEvents | internal/app/manager_service.go:86-97 | valid day events are exactly those missed before registration, skipped, buffered, in flight or turned into one restock request; each request is a non-empty duplicate-free selection |
| Days.DayLosses | internal/app/time_event_notification_service.go:169-176 | in any reachable state a step loses a day event only by finding the manager's buffer full, or by publishing while the manager is not registered; a buffered event stays as it is until the manager receives it |
| Days.DayArrives | internal/app/time_event_notification_service.go:154-177 | an event published while the manager is registered is on its way to it, and sent while its buffer is empty it is in that buffer |
| Days.DayServed | internal/app/manager_service.go:86-97 | from a standstill with the manager ready, the next day event makes exactly one more restock request on every schedule, finished by the next standstill |
| Days.OrdersArePicks | internal/app/manager_service.go:92-96 | the restock requests are, in order, exactly for the items drawn when each day event was received |
| Intake.DaysStep | internal/app/time_event_notification_service.go:154-177 | each step keeps that account of the day events |
| Guarantees.SubscriptionHygiene | internal/app/launderer_service.go:189-191 | the hour registry is exactly the set of channels of launderers inside the cycle, one channel each, at most as many as launderers; a retired channel is never used again |
| Guarantees.CycleEndsWithFirst | internal/app/launderer_service.go:193-202 | only towels and linens are washed; a cycle that ended returned the first event its channel accepted 3,600,000,000,000 ns or more after its start for towels, 7,200,000,000,000 ns for linens, unless cancelled; at most one event arrived after it |
| Timing.StartsAreReadings | internal/app/launderer_service.go:95-110 | in every reachable state, each start time, of a wash in progress or ended, is what the clock showed at the first step of that launderer's work |
| Guarantees.LossIsHarmless | internal/app/time_event_notification_service.go:169-176 | if event times never go back, then after a lost late-enough event a launderer still waiting has accepted at most one more, unread, which ends its cycle |
| Washing.HubStep | internal/app/time_event_notification_service.go:112-152 | each step keeps registry, buffers, event logs and waiting launderers consistent |
| Washing.LateStep | internal/app/time_event_notification_service.go:162-177 | with event times that never go back, every event accepted after a given one is at least as late |
| Guarantees.StandstillIsWaiting | internal/app/housekeeper_service.go:250 | before cancellation a reachable state with no internal step has a free notifier, idle stockers, and launderers idle or waiting for an hour; if any request is still queued or held by a housekeeper or the manager, all launderers wait |
| Guarantees.AllWaitWhen | internal/app/init.go:12-20 | at such a standstill all launderers are inside their cycles if and only if the unfinished wash requests are at least as many as the launderers |
| Gates.SendsBlockWhenFull | internal/app/init.go:12-20 | in every reachable state a cleaning request, a restock request or laundry waits to be sent exactly while its queue holds 32, 16 or 32 |
| Gates.MessagesAreTaken | internal/app/manager_service.go:62-76 | a free manager takes the next delivery and a free notifier the next hour or day message, valid or not |
| Gates.WorkBegins | internal/app/employee_service.go:43-57 | an idle worker of each kind receives the oldest request, and then begins its work on it at the start |
| Gates.LeavingNeedsCancel | internal/app/launderer_service.go:193-197 | cancellation can come at any time; only after it may idle workers, a free manager, a free notifier and waiting launderers leave, the last without a finish time |
| Standstill.OneWaitsOneIdles | internal/app/launderer_service.go:193-202 | a concrete run to a standstill in which one launderer waits and another is idle |
| Guarantees.CanSettle | internal/app/init.go:77-83 | from every reachable state some run of internal steps leads to a standstill |
| Wakeup.EveryScheduleFrees | internal/app/time_event_notification_service.go:146-177 | from a standstill, after one late enough hour event and whatever other steps short of cancellation, by the next standstill every launderer that waited has ended that cycle with exactly this event, and nobody waits on its channel |
| Wakeup.OneEventFreesAll | internal/app/launderer_service.go:193-202 | such a schedule exists, of internal steps alone |
| Wakeup.OnTheWayStep | internal/app/time_event_notification_service.go:162-177 | each step keeps a published event either accepted by the channel right after what it had accepted before, or on its way to that channel's empty buffer |
| Runs.InvStep | internal/app/init.go:77-83 | every step of every process keeps the invariant of the whole system |
| Runs.ReachedInv | internal/app/init.go:77-83 | the invariant holds in every state that any run reaches |
| Retries.HkRetryBound | internal/app/housekeeper_service.go:162-191 | after its restock a housekeeper's retry finds too little only if others took more than 50 - q of the item meanwhile: at least 5 bathroom cleanings or 50 single uses |
| Retries.LaRetryBound | internal/app/launderer_service.go:110-139 | a launderer's retry finds too little soap only if at least 2 other washes took some meanwhile; with one launderer it never does |
| Retries.LeftAfterRestock | internal/app/stocker_service.go:129-141 | after a restock, over any further steps, what is missing from the 50 was taken by others, in takes of bounded size |
| Schedules.SchedulesAgree | internal/app/housekeeper_service.go:89-117 | two runs for the same acceptable requests, in any order and interleaving, that serve all and forgo nothing leave quantities equal modulo 50, namely opening minus demand |
| Schedules.SmoothForgoesNothing | internal/app/housekeeper_service.go:151-192 | a run in which no clock or database call of a housekeeper or launderer fails and every retry finds enough forgoes nothing of any item |
| Schedules.SmoothSchedulesAgree | internal/app/launderer_service.go:87-140 | two such runs that serve all, for the same acceptable requests in any order and interleaving, leave quantities equal modulo 50 |
| Schedules.QuantityLeft | internal/app/stocker_service.go:14-15 | when all is served, the exact quantity in terms of deliveries, restocks and what was forgone |
| Schedules.UsedIsDemanded | internal/app/launderer_service.go:24-33 | when all is served, what was taken of an item is what recipes and wash table ask for, less what was forgone |
| Schedules.DemandIs | internal/app/launderer_service.go:24-33 | in numbers, what one request of each kind asks of each item, soap for its laundry included: 10 for towels, 20 for linens |
| StockRepo.Repo.GetStock | internal/infra/mdb/stock_repo.go:27-49 | returns the view of the stored document by item names, or which error it met |
| StockRepo.Repo.ConsumeItem | internal/infra/mdb/stock_repo.go:51-107 | on the view by item names: takes exactly the quantity from exactly that key if it is covered; otherwise nothing changes and the error is the one due, for any name and quantity |
| StockRepo.Repo.RestockItem | internal/infra/mdb/stock_repo.go:109-144 | on the view by item names: adds exactly the quantity to exactly that key, or changes nothing and reports the error due |
| StockRepo.ConsumeLaw | internal/infra/mdb/stock_repo.go:51-95 | when a consumption succeeds, that it then changes one quantity by exactly the amount, and which error it gives otherwise, with the nine names spelled out |
| StockRepo.RestockLaw | internal/infra/mdb/stock_repo.go:109-144 | the same of a restock |
| Stock.IncrementThroughView | internal/domain/documents/stock.go:29-59 | an update of one stored field, seen through the decoded view, changes one key only: field table, stored names and view agree |
| Stock.IncrementAt | internal/infra/mdb/stock_repo.go:146-169 | the same, key by key |
| Stock.KnownNames | internal/domain/documents/stock.go:5-27 | the names with a stored field are exactly the names of the nine managed items |
| Stock.NamesAre | internal/domain/documents/stock.go:17-27 | the names of the managed items in order are the nine strings |
| Stock.FieldsAre | internal/domain/documents/stock.go:29-59 | which stored field is behind which key of the view, for all nine |
| Stock.FieldsCoverView | internal/infra/mdb/stock_repo.go:146-169 | a name has a stored field if and only if it is a key of the view |
| Stock.ShelfFollows | internal/domain/documents/stock.go:47-59 | changing one key of the view changes that item on the shelf and no other |
| EmployeeService.Service.constructor | internal/app/housekeeper_service.go:44-47 | one idle employee for each different name, however often it is listed |
| EmployeeService.Service.SetWorking | internal/app/employee_service.go:75-89 | a known employee becomes busy with that request and one more handled; an unknown one changes nothing |
| EmployeeService.Service.SetIdle | internal/app/employee_service.go:91-103 | a known employee leaves the set of busy ones with its count kept |
| EmployeeService.Service.IdleCount | internal/app/employee_metrics_service.go:11-23 | the counting loop returns the table size minus the number of busy employees |
| EmployeeService.Service.AllMetrics | internal/app/employee_metrics_service.go:25-39 | the metrics have every employee, and show each as the table has it |
| Stocker.Stocker.Work | internal/app/stocker_service.go:51-127 | the document after the pass is that of the specified pass against the snapshot taken first, for any list and any failing calls; nothing happens without items or snapshot |
| Stocker.PassCounts | internal/app/stocker_service.go:76-111 | an item below 10 in the snapshot gets 50 for each listing whose restock call does not fail; no other item changes |
| Stocker.PassMeetsMinimum | internal/app/stocker_service.go:91-101 | on a duplicate-free list every requested item ends with at least 10, by at most one restock |
| Stocker.PassAnyOrder | internal/app/stocker_service.go:76-120 | lists with the same items in any order give the same result |
| Stocker.PassAgainIsIdle | internal/app/stocker_service.go:76-120 | a second pass over the same list changes nothing |
| Stocker.WorkAgrees | internal/app/stocker_service.go:51-127 | a stocker of the step system that moves alone from the start ends its request with what the sequential pass leaves of every item, whichever calls fail; with no item or no snapshot nothing changes |
| Stocker.AloneAgrees | internal/app/stocker_service.go:76-120 | the same from the snapshot on |
| Passes.FinishedPass | internal/app/stocker_service.go:64-120 | in any run, a restock request that was finished had each listed item visited in order and restocked by 50 exactly if its snapshot showed less than 10 of it and that call did not fail; without a snapshot the list was empty or the snapshot call failed |
| Passes.PassSoFar | internal/app/stocker_service.go:69-111 | at any moment of such a run: the snapshot is the shelf as it was then, and the visits made and the items left are the list |
| Housekeeper.Worker.ConsumeRetry | internal/app/housekeeper_service.go:151-192 | one consumption with at most one restock and one retry, for any failing calls and with or without a stock document, changes exactly what its specification says |
| Housekeeper.Worker.Work | internal/app/housekeeper_service.go:66-134 | for every request type the database and the laundry sent afterwards are those of its recipe's tasks performed in order; nothing if the clock fails |
| Housekeeper.RetriedSucceeds | internal/app/housekeeper_service.go:182-191 | without failures and interference a request of 1 to 50 succeeds with at most one restock |
| Housekeeper.RepoRetry | internal/app/housekeeper_service.go:162-191 | the repository's consume, restock and consume again amount to the specified retry |
| Housekeeper.RetrySteps | internal/infra/mdb/stock_repo.go:51-144 | the same with or without a stock document: without one the first call is refused and there is no restock |
| Housekeeper.WorkAgrees | internal/app/housekeeper_service.go:66-134 | a housekeeper of the step system that moves alone from the start ends its request with what the sequential work leaves: nothing changed if the clock fails, otherwise the recipe performed |
| Housekeeper.AloneAgrees | internal/app/housekeeper_service.go:89-117 | a housekeeper of the step system that moves alone has the effects of its task list performed in order, for any failing calls |
| Housekeeper.RecipeSends | internal/app/housekeeper_service.go:89-114 | for each kind, the laundry sent, in order, and the status that the room then shows, if it is a known cottage and the update does not fail |
| Housekeeper.RecipeTakes | internal/app/housekeeper_service.go:89-114 | by the keys of the stock: a request changes wineBottle and aromaCandle by 1, cleaningItem by 5, cleaningItem by 10, or teaBags and aromaCandle by 1, and no other quantity whatever fails; if nothing fails, exactly by that, with one restock if short |
| Launderer.Worker.Await | internal/app/launderer_service.go:193-202 | on a registered channel: of the events that arrive, the first that is late enough is returned, or none |
| Launderer.Worker.Cycle | internal/app/launderer_service.go:180-203 | returns the first event one hour or more after the start for towels, two for linens, or none; both registries are afterwards as before |
| Launderer.Worker.Work | internal/app/launderer_service.go:87-178 | 10 soap for towels or 20 for linens are taken with one restock and one retry, and the cycle runs exactly if they were obtained; nothing for an unsupported item, a failing clock or a missing document |
| Launderer.WorkAgrees | internal/app/launderer_service.go:95-140 | a launderer of the step system that moves alone from the start, with the clock's answer as its start time, reaches its cycle exactly if the sequential code obtains the soap; with a failing clock nothing is taken |
| Launderer.AloneAgrees | internal/app/launderer_service.go:110-178 | a launderer of the step system that moves alone reaches its cycle exactly if the sequential code obtains the soap, leaves the same stock, and settles the request once |
| Washing.FirstMeans | internal/app/launderer_service.go:197-200 | the first late enough event is late enough and none before it is |
| Selection.Shuffle | internal/app/manager_service.go:103-107 | the in-place exchanges compute the specified permutation of the array |
| Selection.Pick | internal/app/manager_service.go:103-111 | for every outcome of the draws, the result is a duplicate-free part of the list of the drawn length |
| Selection.SelectItemsToRestock | internal/app/manager_service.go:103-111 | the result is always a selection that the step system allows: non-empty, duplicate-free, managed items |
| Selection.ShuffledPermutes | internal/app/manager_service.go:105-107 | for every outcome of the draws the shuffle is a permutation |
| Selection.ShuffleReaches | internal/app/manager_service.go:105-107 | every order of the list is the outcome of some draws |
| Selection.DrawsTold | internal/app/manager_service.go:105-107 | different draws give different orders of a duplicate-free list |
| Selection.EverySelectionPossible | internal/app/manager_service.go:103-111 | every non-empty duplicate-free list of items is the outcome of some draws and some count |
| Notification.Set.Values | internal/domain/set_datatype.go:21-28 | lists every member exactly once and nothing else |
| Notification.Service.Register | internal/app/time_event_notification_service.go:112-127 | adds the channel to the registry named and leaves the other alone; a missing channel is ignored |
| Notification.Service.Unregister | internal/app/time_event_notification_service.go:129-144 | removes the channel from the registry named and leaves the other alone |
| Notification.Service.Notify | internal/app/time_event_notification_service.go:162-177 | each channel is offered the event without waiting: an empty buffer takes it, a full one keeps its own |
| Notification.Service.NotifyHourChange | internal/app/time_event_notification_service.go:146-152 | exactly the channels of the hour registry are offered the event; the registries stay |
| Notification.Service.NotifyDayChange | internal/app/time_event_notification_service.go:154-160 | exactly the channels of the day registry are offered the event; the registries stay |
| Writer.PrefixedWriter.Write | integration_test/helpers/application_starter.go:180-210 | the sink gets the prefix before each line start; also when the sink fails, the result is exactly the number of input bytes that reached it, after which at most a broken prefix of a line that starts there follows; and the next write starts with the prefix exactly if it was still owed |
| Writer.PiecesDoNotMatter | integration_test/helpers/application_starter.go:180-210 | any split of a stream into writes gives the output of one write |
| Writer.RenderByLines | integration_test/helpers/application_starter.go:183-207 | each line with its newline comes out after the prefix, or as it is if it was begun before, and a last line without a newline likewise |
| Writer.RenderAppend | integration_test/helpers/application_starter.go:183-207 | the output for two pieces is that of the first and that of the second from where the first left off |
| Writer.StripRender | integration_test/helpers/application_starter.go:183-207 | taking the prefixes away gives the input back, whatever the prefix |

## Left out

- RabbitMQ, MongoDB and gRPC connections, protobuf decoding, telemetry, logging, configuration, probes: deliveries are a sequence of decoded values or "malformed", the document is a record.
- Failing subscriptions at start, closed delivery channels, and errors of the acknowledgement calls themselves.
- Acknowledgement of hour and day deliveries: only what they publish is modelled.
- A stock document that cannot be decoded, several stock documents, and updates applied although an error is reported.
- Lists of actions that only write a log line, and the clock read at the end of a cleaning: they have no effect on the state.
- The branch for a manager without a stocker channel, and missing services: the wired system always has them.
- The decision to receive a message and the snapshot of the subscribers are one step each; the order of a snapshot is any order.
- A status update that changes nothing is only logged by the service, so it counts as carried out.
- A blank cottage name in a status update: cleaning requests with a blank room are rejected on arrival.
- Progress after cancellation: sends then do not watch the context, so only safety is stated.
- Fairness: the system can always settle, and every run is finite, but no scheduler is modelled.
- Launderer.Worker.Cycle: the events come as a list given in advance; how they reach the channel, and what is lost, is in the step system.
- Stock.KnownNames: the stored name inside each item's sub-document is carried along but nothing is said about it.
- A failing look for the stock document after an update that matched nothing: to housekeepers and launderers it is one more failing first call.
- Validators, constructors with only checks, and cottage fields other than the cleaning status.
