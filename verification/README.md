# Verified model of go-fiber-starter

This project models the stateful and the arithmetic parts of the task service and proves what
they guarantee, for all inputs and for every interleaving of concurrent requests:

- **The task store** (`Store`, `Serializability`, `History`, `Progress`, `Unlocked`, `FileLock`).
  Clients issue create, update, delete and get requests; an update is cut into its database steps
  (locked read, patch closure, whole-row save, commit or rollback), and a schedule is any sequence of
  steps of any clients. A step that cannot be taken yet leaves the state alone: the client is waiting.
  With row locks every run is strictly serializable, loses no field, brings no deleted row back,
  never deadlocks and always ends with all locks free. In the variant without row locks, in which a
  read protects nothing until the commit, two concrete runs break this, and each guarantee has its
  exact condition: a run loses no field if and only if each commit finds the fields it does not mean
  to write unchanged, it revives no task if and only if each commit finds its row live, and it is
  serial in commit order if and only if both. The row lock makes every commit so; so does a lock on
  the whole database file like the one sqlite has.
- **Offset pagination over that store** (`Listing`, `Drift`, `PageWindows`, `PageWalk`,
  `Pagination`). The listing and its pages in 64-bit arithmetic, how far it moves while others
  write, the gap between the count and the find, and a reader walking the pages.
- **The error pipeline** (`Errors`, `ErrorPipeline`, `ErrorObjects`, `Metrics`). Error chains as
  trees, the two statements of the status rule, masking; the same over shared mutable AppError
  objects, refining the trees; and the request counter under interleaved requests.
- **The layers around them** (`Repository`, `Service`, `Handler`, `Patch`, `Strconv`, `Decimal`) in
  the form the program has: a mutable database object, a repository whose methods are sequences of
  statements with other clients' statements in between, a service, handlers, the in-place patch
  closure, the JSON callback, the digit loops. Every state of the database object is a state of the
  machine in `Store`, so the theorems about runs apply to it. With the sqlite driver it takes no
  locks at all, which allows all runs that sqlite does and more.

## Library facts assumed

- First, Count, Find and Delete see only rows that are not soft-deleted, and only committed data.
- `FOR UPDATE` and Delete wait while another transaction holds the row, then act on the latest
  committed row; a read that matches no row locks nothing; a wait may also end in a driver error.
- Without `FOR UPDATE` a read protects nothing until the commit (`Unlocked`). sqlite has one lock on
  the database file instead (`FileLock`): a transaction that has read may write only if nothing has
  been committed since and nobody else is writing, and until it ends nobody else writes.
- Save stores every column of the local row under its id, whatever is there by then; nothing of a
  transaction is visible before its commit. A transaction commits on a nil return and otherwise
  rolls back.
- Create is one step and gives an id above all earlier ids, possibly skipping some. The clock
  values it and the other statements use are parameters.
- An OFFSET that is not positive is omitted from the query.
- Driver errors contain no AppError and no fiber error, and say "record not found" only for that.
- The JSON decoder calls `UnmarshalJSON` once per occurrence of a key and stops at an error.
- For a body whose content type it has no binder for, the framework's Bind returns its own error
  422 "Unprocessable Entity"; a network error while a request is read reaches the error handler as
  the framework's error 502 "Bad Gateway".
- A panic passes through the collector without running the code after its `Next`.

## Where the code and its own documentation disagree

The model follows the code. Each disagreement has a concrete input and an exact condition.

- `internal/validator/bind.go:11-12` promises 400 for a body that does not parse. The framework's
  error is kept as the cause, and the error handler looks for a fiber error inside causes first, so
  a fiber error there decides the answer (`BindAnswerExactly`, `FiberCauseWins`). The same holds
  for the rule "AppError gives its Status" in `docs/architecture.md:42-44`.
- `internal/router/router.go:130` says a 500 exposes no internal detail. A fiber error with a code
  of 500 or above is answered with its own message (`MaskedExactly`, `FiberErrorIsNotMasked`).
- `internal/modules/task/dto.go:14-16` describes three states of `due_date`. A body in which the
  key occurs as null and later as a time ends up in the null state
  (`DueDateMeansLastOccurrence`, `NullThenTimeClears`).
- `internal/pagination/pagination.go:16` wraps for page numbers the handler accepts
  (`OffsetExact`), and then serves a wrong page unless the wrapped offset too lies past the last row
  (`PageServedExactly`, `HugePageServesFirstPage`).

## Model

| member | source | states |
|---|---|---|
| Serializability.StepRefines | internal/modules/task/repository.go:67-99 | any step of any client under the row lock either changes nothing committed or is exactly one whole operation with its answer; its commit point is that step |
| Serializability.RunsAreSerial | internal/modules/task/repository.go:56-99 | from any invariant state, every schedule of any number of clients keeps the invariant, and table and answers are those of the logged operations run one at a time |
| Serializability.Serializable | internal/modules/task/repository.go:65-88 | from any table, every schedule: the table is the serial replay, each answered client is in the log exactly once with its own request and answer, no failed client is in it |
| Serializability.SerialOrderIsRealTime | internal/modules/task/repository.go:65-88 | an operation answered before another was issued precedes it in the serial order |
| History.NoLostField | internal/modules/task/repository.go:65-66 | in every reachable state each column of each row has the value of the last committed operation that mentioned it, and a task is live exactly when created and not deleted |
| History.LiveExactly | internal/modules/task/repository.go:90-99 | the live tasks of a serial history are those present or created, minus those whose delete was answered with success |
| History.NoResurrection | internal/modules/task/repository.go:67-99 | between any two moments of a run no row disappears, a deleted row stays as it was deleted, a passed-over id stays unused, creation times never change |
| History.IdsIncrease | internal/modules/task/repository.go:25-27 | ids are handed out in strictly increasing order and never one already used up |
| Progress.NoDeadlock | internal/modules/task/repository.go:67-88 | while an operation is unfinished, it or the transaction it waits for can take its next step, and that transaction is not itself waiting |
| Progress.WaitersHoldNothing | internal/modules/task/repository.go:69-76 | an operation that waits for a row holds no lock |
| Progress.LocksFreeAtTheEnd | internal/modules/task/repository.go:67-88 | when all operations have finished, by commit, rollback or failure, no row is locked |
| Progress.CanDrain | internal/modules/task/repository.go:67-99 | from every invariant state all issued operations can finish without failing, within the work left, ending with no locks |
| Progress.EveryScheduleEnds | internal/modules/task/repository.go:67-99 | with no new requests, the steps any schedule takes plus the work left after it never exceed the work there was |
| Unlocked.CommitSerialExactly | internal/modules/task/repository.go:56-83 | with or without locks, a commit equals the whole update at its commit point, in table and answer, if and only if the row is still live and the fields the patch leaves alone are as they were read |
| Unlocked.HoldsExactly | internal/modules/task/repository.go:56-88 | with or without locks, for each of three guarantees: a run is serial in commit order at every moment, in table and answers, if and only if every commit is such a commit; it loses no field if and only if each commit finds the fields its patch leaves alone as read; it revives no task if and only if each commit finds its row live |
| Unlocked.SerialMeansNothingLost | internal/modules/task/repository.go:56-88 | so a run is serial in commit order if and only if it loses no field and revives no task |
| Unlocked.LockMakesClean | internal/modules/task/repository.go:65-66 | with the lock every commit of every run is such a commit |
| Unlocked.CleanRunIsSafe | internal/modules/task/repository.go:56-88 | a run of either variant whose commits are all such commits looks serial to every client, loses no field and revives no deleted task |
| Unlocked.UpdateIsLost | internal/modules/task/repository.go:56-66 | in the variant without row locks, if a read protects nothing until the commit, two patches of disjoint fields both succeed and the first is lost |
| Unlocked.DeletedRowReturns | internal/modules/task/repository.go:56-66 | in the same variant a delete answered with success is undone by an update that read the row before |
| FileLock.FileLockIsSafe | internal/modules/task/repository.go:56-63 | without row locks but with a lock on the whole database file like sqlite's, every run looks serial to every client, loses no field and revives no task |
| FileLock.LoneUpdateSucceeds | internal/modules/task/repository.go:67-88 | and an update that nobody disturbs runs to its commit there |
| Listing.ListingIsLiveRows | internal/modules/task/repository.go:48-53 | the listing is the live rows, each once, newest first, as many as Count says, each at its rank |
| Listing.FindByRank | internal/modules/task/repository.go:48-53 | for every offset and limit a live row is found exactly when its rank lies in that window |
| Listing.PageIsWindow | internal/pagination/pagination.go:16 | while the offset fits in 63 bits, page n is the window of the listing after n-1 full pages |
| Listing.PagesPartition | internal/modules/task/repository.go:40-54 | for a table that stays put, pages 1 to total_pages concatenated are the whole listing |
| Listing.PageSizes | internal/pagination/pagination.go:31-42 | every page before the last is full, the last is not empty, later pages are empty, in 64-bit arithmetic |
| Listing.PageServedExactly | internal/pagination/pagination.go:16 | for every valid page query the page served is the one asked for if and only if the offset fits in 63 bits or the wrapped offset lies past the last row |
| Listing.HugePageServesFirstPage | internal/pagination/pagination.go:16 | a page number the handler accepts whose offset wraps serves the first page |
| PageWalk.WalkUnderCreates | internal/modules/task/repository.go:48-53 | with no deletes between reads, for any valid limit and number n of pages served, each task live at the start has been shown or has rank at least n*limit |
| PageWalk.ShortPageMeansComplete | internal/modules/task/repository.go:48-53 | then a served page with fewer than limit rows means that no task live at the start was missed |
| PageWalk.WalkUnderDeletes | internal/modules/task/repository.go:48-53 | with no creates between reads, all pages served concatenate to a strictly descending sequence, and everything shown is newer than everything ahead |
| PageWalk.MissedAtMostDeleted | internal/modules/task/repository.go:48-53 | such a walk, ended at a short page, has missed at most as many live tasks as there are tasks it showed that were deleted meanwhile |
| PageWalk.WalkUnderAnything | internal/modules/task/repository.go:48-53 | with any events between reads, a walk ended at a short page has missed at most as many of the tasks live throughout as were deleted, and repeats at most as many rows as were created |
| PageWalk.StopAtLastPage | internal/modules/task/service.go:46-53 | a walk that stops because total_pages of its last response announces no further page misses at most as many of the tasks live throughout as were deleted, plus as many as were created between the count and the find of that response |
| Drift.RankDrift | internal/modules/task/repository.go:40-54 | across any run a task moves down by at most the creates and up by at most the deletes, and the count changes by creates minus deletes |
| Drift.TornList | internal/modules/task/repository.go:45-53 | with any run between Count and Find the page size differs from the one the count predicts by at most the creates above and the deletes below, for every offset and limit, and every item is live at the Find |
| Pagination.NewPageQuery | internal/pagination/pagination.go:18-29 | page is at least 1 and limit in 1..100 for all integers, with 20 for a limit below 1 and 100 for one above 100 |
| Pagination.NewPageMeta | internal/pagination/pagination.go:31-42 | page and limit are those of the query, total_count is the count |
| Pagination.OffsetExact | internal/pagination/pagination.go:16 | the 64-bit offset is (page-1)*limit if and only if that product is below 2^63 |
| Pagination.OffsetWrapsToFirstPage | internal/pagination/pagination.go:16 | page 2^62+1 with limit 4 has offset 0 |
| Pagination.TotalPagesIsCeiling | internal/pagination/pagination.go:39-42 | total_pages is the ceiling of total over limit if and only if total+limit-1 is below 2^63, and otherwise negative |
| Patch.TaskRecord.Mutate | internal/modules/task/service.go:57-72 | each column gets the value the request mentions for it and otherwise stays, the due date by its three states; as the patch applied to the record before |
| Patch.MergeIsSequencing | internal/modules/task/service.go:57-72 | patches compose: one merged patch in which later mentions win, associative, with an identity, idempotent |
| Patch.CommuteExactly | internal/modules/task/service.go:57-72 | two patches commute on all rows if and only if they agree on every field both mention |
| Patch.PatchDeterminedOutside | internal/modules/task/service.go:57-72 | a patch gives equal rows from two versions of a row exactly when they agree on the fields it leaves alone |
| Patch.NullableTimeField.UnmarshalJSON | internal/modules/task/dto.go:23-30 | the receiver after one call, in which the null flag is set but never reset |
| Patch.DecodeDueDate | internal/modules/task/dto.go:32-38 | decoding any sequence of occurrences gives the fold of UnmarshalJSON from zero, or an error exactly when one is malformed |
| Patch.DueDateMeansLastOccurrence | internal/modules/task/dto.go:14-30 | the last occurrence decides the meaning if and only if it is not a time after an earlier null; absent, null and time stay distinct |
| Patch.OneOccurrence | internal/modules/task/dto.go:14-38 | an absent key keeps the due date, a null clears it, a time sets it |
| Patch.NullThenTimeClears | internal/modules/task/dto.go:23-30 | null followed by a time means clear |
| Strconv.ParseUint | internal/modules/task/handler.go:89-93 | the digit loop with its wrap-around checks accepts exactly the non-empty digit strings below 2^64 and returns their value |
| Strconv.Atoi | internal/modules/task/handler.go:97-99 | accepts exactly the optionally signed digit strings in the int64 range and returns their value; the decimal form of any such number, with or without a plus, gives it back |
| Strconv.SignedNumeral | internal/modules/task/handler.go:97-99 | digits alone, after a plus or after a minus denote what they say exactly when it fits in 64 bits |
| Decimal.ItoaDenotes | internal/middleware/prometheus.go:52 | a status label denotes the status |
| Decimal.ItoaInjective | internal/middleware/prometheus.go:52 | different statuses have different labels |
| Handler.ParseId | internal/modules/task/handler.go:89-95 | succeeds exactly on digit strings with a value in 1..2^64-1, inverts the decimal form of every such id, and otherwise yields the 400 answer |
| Handler.AtoiDefault | internal/modules/task/handler.go:97-103 | the denoted number if it is at least 1, else the default; the decimal form of any number from 1 to 2^63-1 gives it back |
| Handler.RequestedPage | internal/modules/task/handler.go:36-40 | any two raw query strings give a valid page query, with defaults 1 and 20 and cap 100 |
| Handler.AskedPage | internal/modules/task/handler.go:36-40 | a plain page number asks for that page, a plain limit up to 100 for that limit, an absent one for the default |
| Handler.TaskHandler.Get | internal/modules/task/handler.go:48-58 | a bad id is a 400 that leaves the store alone; otherwise the answer is that of the finished operation |
| Handler.TaskHandler.Update | internal/modules/task/handler.go:61-75 | id check, then body check, then the operation; refusals leave the store alone |
| Handler.TaskHandler.Delete | internal/modules/task/handler.go:78-87 | as for Get, succeeding exactly when the operation deleted the row |
| Handler.TaskHandler.List | internal/modules/task/handler.go:36-45 | items of the page read after the other clients' events; metadata field by field: the page and limit asked for, the count before the events, and the number of pages that holds it |
| Repository.Database.Load | internal/modules/task/repository.go:58-76 | the locked read is the Load step of the machine, and is refused exactly while another transaction holds the row |
| Repository.LockingDriverIsSafe | internal/modules/task/repository.go:58-63 | with every driver but sqlite each state of the database looks serial to all clients, with no field lost and no task revived |
| Repository.SqliteTakesNoLock | internal/modules/task/repository.go:59-61 | with sqlite no row is ever locked |
| Repository.Database.Mutate | internal/modules/task/repository.go:77 | running the closure in place is the Mutate step of the machine |
| Repository.Database.Save | internal/modules/task/repository.go:78-80 | saving buffers the whole local row with its modification time |
| Repository.Database.Commit | internal/modules/task/repository.go:81-83 | committing publishes the whole row, answers and releases the lock |
| Repository.Database.Exec | internal/modules/task/repository.go:25-31 | a single statement is the Exec step of the machine |
| Repository.Database.Others | internal/modules/task/repository.go:65-66 | other clients' events never touch this client's transaction |
| Repository.GormRepository.Create | internal/modules/task/repository.go:25-27 | the new row has the next id, the given title and due date, is not done, and is stored so, by one statement, unless the driver fails |
| Repository.GormRepository.FindByID | internal/modules/task/repository.go:29-38 | finds the row, as it is, exactly when it is live in the state it reads and the driver does not fail; otherwise task-not-found or the driver error |
| Repository.GormRepository.FirstForUpdate | internal/modules/task/repository.go:70-76 | the three ends of the locked read and the error each gives |
| Repository.GormRepository.Update | internal/modules/task/repository.go:67-88 | with any events of others in between, it runs one operation of the machine to its end and reports that end, which depends only on faults, the lock and the row at the read; on success exactly locked read, closure, save and commit were run in this order, and the row read with the patch applied is stored and returned |
| Repository.GormRepository.Delete | internal/modules/task/repository.go:90-99 | succeeds exactly when the row was live and not held, and then has marked that row and nothing else; reports a missing row as task-not-found |
| Repository.GormRepository.List | internal/modules/task/repository.go:40-54 | the count is of the state before the other clients' events, the page of the state after |
| Service.ToResponses | internal/modules/task/dto.go:50-67 | one DTO per row, in order, showing every column but the deletion mark |
| Service.MissingIsNotFound | internal/modules/task/service.go:38-91 | a missing task ends as the same 404 TASK_NOT_FOUND through all three wrapping routes |
| Service.DriverErrorIsMasked | internal/modules/task/service.go:38-91 | every driver error ends as the masked 500 through all three routes |
| Service.TaskService.Get | internal/modules/task/service.go:38-44 | the answer matches how the operation ended |
| Service.TaskService.Update | internal/modules/task/service.go:56-81 | the answer matches how the operation ended, the generic not-found replaced by the domain one |
| Service.TaskService.Delete | internal/modules/task/service.go:83-92 | succeeds exactly when the operation deleted the row, and otherwise the error matches how it ended |
| Service.TaskService.List | internal/modules/task/service.go:46-53 | DTOs of the page in order; metadata field by field: the page and limit of the query, the earlier count, and the number of pages that holds it |
| Service.MissingTaskContract | internal/modules/task/service.go:38-92 | in every run an answered get, update or delete said NotFound if and only if the task was absent or deleted at its place in the serial order, and otherwise showed the row as it stood right after |
| Service.AnswerIsTrue | internal/modules/task/service.go:38-81 | with every driver but sqlite a success means the task was live and shows the row as the operation left it, and a 404 TASK_NOT_FOUND means it was not live |
| Service.DeleteAnswerIsTrue | internal/modules/task/service.go:83-92 | the same for a delete, after which the task is not live |
| Errors.SearchFindsFirst | internal/apperror/errors.go:42-52 | the recursive searches for a fiber error, an AppError and validation errors find the first match in unwrapping order, through wraps, joins and causes |
| Errors.IsPlainFindsIt | internal/modules/task/repository.go:31-33 | errors.Is against a plain sentinel holds if and only if it is in the chain |
| Errors.IsComparesCodes | internal/apperror/errors.go:44-59 | errors.Is against an AppError holds if and only if some AppError in the chain has its code |
| ErrorObjects.BindErrorToAppError | internal/validator/bind.go:14-24 | over the heap: violations become a new 422 with one detail per violated field in order, holding field and actual tag, anything else a new 400, with the error as cause |
| ErrorObjects.AppErrorObject.WithCause | internal/apperror/errors.go:54-59 | a new object with the fields of the receiver and the given cause; nothing existing is written |
| ErrorObjects.AsAppError | internal/apperror/errors.go:79-86 | the very object in the chain, or a new INTERNAL_ERROR around it |
| ErrorObjects.MapFiberError | internal/router/router.go:157-168 | a new object that denotes the mapped error, never a shared one |
| ErrorObjects.ErrorHandler | internal/router/router.go:131-155 | for every chain of shared or own objects the status, body and log level are those of the chain as a value, and only the response is written |
| ErrorObjects.EffectiveStatus | internal/middleware/effective_status.go:14-28 | over the heap, the recorded status is that of the chain as a value |
| ErrorObjects.Build | internal/modules/task/service.go:73-91 | however the layers raise an error from shared and own objects, the heap denotes the chain it would be if nothing were shared |
| ErrorObjects.EveryChainIsRaised | internal/apperror/errors.go:54-86 | every error chain can be raised, so runs of raised errors are runs of any chains |
| ErrorObjects.SentinelAnswers | internal/apperror/errors.go:61-69 | status, code and message a client gets for each shared error |
| ErrorObjects.NormalisedAnswers | internal/modules/task/service.go:73-79 | the generic not-found of the repository ends as 404 TASK_NOT_FOUND, a driver error as the masked 500 |
| ErrorObjects.BindingAnswers | internal/validator/bind.go:14-24 | a violated field ends as 422 with field and tag, anything else as 400 |
| ErrorObjects.Serve | internal/router/router.go:139-153 | under any interleaving of any failing requests no sentinel changes, each response is that of the error as a value whatever else is going on, and the recorded status is the one sent |
| ErrorPipeline.StatusAgreement | internal/middleware/effective_status.go:11-28 | recorded status, status sent and a rule on the unwrapped list agree for every chain of any depth |
| ErrorPipeline.RefusalExactly | internal/router/router.go:157-168 | which chains are answered RATE_LIMITED, NOT_FOUND and TASK_NOT_FOUND, both ways: a 429 looks the same from framework and application, a missing task never looks like an unknown route; an oversized body has its own answer, other framework errors keep code and message |
| ErrorPipeline.MaskedExactly | internal/router/router.go:130-155 | a response of 500 or above is the fixed one if and only if no fiber error occurs in the chain |
| ErrorPipeline.FiberErrorIsNotMasked | internal/router/router.go:134-137 | the framework's 502 is answered with its own code and message |
| ErrorPipeline.MaskingHidesEverything | internal/router/router.go:146-151 | two chains without fiber errors whose first AppError is 500 or above, or missing, get the same response |
| ErrorPipeline.BusinessErrorIsShown | internal/httpx/response.go:39-49 | below 500 the response carries exactly the first AppError |
| ErrorPipeline.ContextLeavesNoTrace | internal/apperror/errors.go:54-59 | wrapping never changes the response, and a cause without a fiber error does not either |
| ErrorPipeline.BindAnswerExactly | internal/validator/bind.go:11-24 | a binding failure is answered as documented, 422 for the first validation errors in unwrapping order and 400 without any, if and only if its error holds no fiber error |
| ErrorPipeline.FiberCauseWins | internal/validator/bind.go:23 | a body with an unhandled content type is answered 422 HTTP_422, not 400 INVALID_REQUEST |
| Metrics.Prometheus.Count | internal/middleware/prometheus.go:52-53 | one counter, the one of this method, route and status, goes up by one |
| Metrics.Prometheus.Observe | internal/middleware/prometheus.go:54 | one histogram, the one of this method and route, gets one observation more |
| Metrics.Serve | internal/middleware/prometheus.go:43-57 | the collector under any schedule of concurrent requests does what the step system does |
| Metrics.PassesExactly | internal/router/router.go:33-84 | in terms of the request alone: who is rejected by the limiter, what status each request is sent, and who is observed |
| Metrics.UnobservedLeavesNoTrace | internal/router/router.go:69-85 | taking the steps of a rejected, preflight or panicking request out of any schedule changes no metric and no other request |
| Metrics.RejectedLeavesNoTrace | docs/architecture.md:48-54 | a request the global limiter rejects is answered 429 and leaves no such trace |
| Metrics.CounterTracksHistogram | internal/middleware/prometheus.go:53-54 | at every moment the counter summed over statuses equals the observations plus the requests between the two statements |
| Metrics.CountersMatchResponses | internal/router/router.go:69-85 | when all requests are answered, each counter is the number of responses with that status among requests that reached the collector and did not panic, and the sum is the number of observations |

## Left out

- PageWalk.WalkUnderCreates: like the other walk results, for walks whose last offset fits in 63 bits; what is served past that is `PageServedExactly`.
- The SQL, the drivers, the connection pool and the migrations: only the row, lock and transaction facts above are used.
- Two creates that commit in the opposite order of their ids, and a commit whose acknowledgement is lost: a create and a commit are one step each.
- Fairness: an operation that waits may be overtaken any number of times while others keep arriving.
- The range of ids and of the live row count: both are unbounded naturals, and the 64-bit results say up to which count they hold.
- The backing array of an AppError's details, which a copy shares with the original: details are a value, replaced as a whole.
- The zero or out-of-range statuses an AppError or fiber error could carry: the model compares the numbers handed to the framework, not what the HTTP library writes for them.
- The rate limiter's window, the login limiter's budget and CORS matching: their verdicts are inputs of a request.
- The HTTP create handler and service create: a binding check and a wrap around the repository's Create, which is modelled.
- Validation of struct tags, JSON syntax, routing and path decoding: the model starts from decoded bodies and raw parameter strings.
- Histogram buckets and latencies: an observation is counted, its value is not.
- Authentication, configuration, health probes, request logging, OpenAPI serving, start-up and shutdown.
