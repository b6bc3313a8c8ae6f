# Document-creation service: admission gate and request mapping

This project models the core of `DocumentService.createDocument`. That method accepts a
document-creation request and does three things:

1. It admits the request through a fixed-window rate limit.
2. It maps the request DTOs to the `Document`, `Product` and `Description` entities.
3. It hands the document to the repository.

The model has four modules:

- `Nullable` (`nullable.dfy`): `Option` for Java references that may be null, and `Result` for
  operations that may throw.
- `Admission` (`admission.dfy`): the admission rule, written on values.
  - `GateState` holds the two fields `lastRequestTime` and `requestCounter`.
  - `Enter` is one call's entry into the admission block.
  - `Recheck` is one more turn of the `while (requestCounter >= requestLimit)` loop after a wake-up.
  - `Run` is a sequential history of entries and wake-ups.
  - The lemmas state what holds over such histories.
  - `IntervalMillis` is `TimeUnit.toMillis(1)`.
- `Mapping` (`mapping.dfy`): the DTOs, the entities and the field copies between them. A null
  description, a null products list or a null product element throws a NullPointerException in
  the code. The model returns an error in those cases.
- `Service` (`service.dfy`): the class `DocumentService`.
  - Its fields are `lastRequestTime`, `requestCounter` and `saved`. `saved` lists the documents
    handed to `save`.
  - Its methods update the fields in place and are proved against `Admission.Enter`,
    `Admission.Recheck` and `Mapping.BuildDocument`.
  - A call that would park in `lock.wait()` returns `Waiting`. Its wake-up is a separate
    `ResumeCreateDocument` call.

These behaviours of the code are kept as written:

- The window reset is applied on entry, before the limit test. It happens even when the call
  then blocks. With `requestLimit <= 0` a blocked entry can therefore zero the counter. With a
  positive limit a blocked entry changes nothing.
- Every admission overwrites `lastRequestTime`. The window is measured from the most recent
  admission, not from the last reset.
- The clock is read once, on entry. A caller that is admitted after waiting stores that stale
  time, so `lastRequestTime` can move backwards (`StaleAdmissionMovesWindowBack`).
- A woken caller re-tests only the counter. It never re-reads the clock and never re-applies the
  reset (`WakesTestOnlyTheCounter`).
- `requestLimit` is not validated. With `requestLimit <= 0` nothing is ever admitted.
  `NANOSECONDS` and `MICROSECONDS` give a 0 ms window.

A textbook fixed-window limiter differs from this code in four ways. The model follows the code:

- In a textbook limiter the window start moves only forward, and only on a reset.
- A woken caller repeats the reset check.
- A non-positive limit is refused at construction.
- A cancelled waiter gets a distinct outcome. The code catches the `InterruptedException`, logs
  it and sets the interrupt flag again. The next `lock.wait()` then throws at once, before it
  releases the monitor. The interrupted thread spins in the wait loop while holding the lock and
  logs on every turn. Every other caller stays stuck at the `synchronized` entry, and so does the
  `notify` after a save.

## Model

| member | source | states |
|---|---|---|
| `Admission.IntervalMillis` | src/main/java/com/web/testselsup/CrptApi.java:184 | the window is never negative; it is 0 exactly for the sub-millisecond units, 1 for MILLISECONDS and 1000 for SECONDS |
| `Admission.Recheck` | src/main/java/com/web/testselsup/CrptApi.java:189-200 | a caller passes exactly when `requestCounter < requestLimit`; a blocked test changes nothing; an admission adds exactly one and stores the caller's sampled time |
| `Admission.Enter` | src/main/java/com/web/testselsup/CrptApi.java:181-200 | the counter is zeroed exactly when `currentTime - lastRequestTime >= interval`, before the limit test; admission iff the (reset) counter is below the limit; an admission sets `lastRequestTime` to the sampled time and the counter to 1 after a reset or one more otherwise; a blocked entry keeps `lastRequestTime`; with a positive limit it changes nothing; with a limit `<= 0` and a non-negative counter it always blocks |
| `Admission.RunKeepsCounterInBounds` | src/main/java/com/web/testselsup/CrptApi.java:179-200 | with a positive limit, any history of entries and wake-ups keeps `0 <= requestCounter <= requestLimit` |
| `Admission.NonPositiveLimitNeverAdmits` | src/main/java/com/web/testselsup/CrptApi.java:189 | with `requestLimit <= 0`, every step of every history blocks and `lastRequestTime` never moves |
| `Admission.BurstWithinWindow` | src/main/java/com/web/testselsup/CrptApi.java:185-200 | for entries that all fall in one interval together with the window start, exactly the first `requestLimit - requestCounter` are admitted and all later ones block; the final counter is the old one plus the admissions, capped at the limit |
| `Admission.WakesTestOnlyTheCounter` | src/main/java/com/web/testselsup/CrptApi.java:189-197 | woken callers are admitted exactly while the counter is below the limit, whatever the times, and the counter never goes down because no reset is applied |
| `Admission.LimitOneStarvesWaiters` | src/main/java/com/web/testselsup/CrptApi.java:185-200 | with `requestLimit = 1` and a counter already at 1, no woken caller is ever admitted in any history as written |
| `Admission.WaiterStarvesInScenario` | src/main/java/com/web/testselsup/CrptApi.java:183-200 | limit 1, one-second window, calls at 0, 500 and 1500 ms: as written, the caller parked at 500 ms is still blocked when woken at 1500 ms |
| `Admission.ResamplingAloneStillBlocksInScenario` | src/main/java/com/web/testselsup/CrptApi.java:183-200 | in that same scenario, a waiter that re-reads the clock but is woken only right after the 1500 ms admission is blocked too: re-reading the clock alone does not rescue it |
| `Admission.WaiterAdmittedInScenarioWhenResampling` | src/main/java/com/web/testselsup/CrptApi.java:183-200 | with only the calls at 0 and 500 ms, a waiter that re-reads the clock and is woken at 1000 ms, once the window is over and before any later call, is admitted |
| `Admission.ResamplingWindowStartIsAnEventTime` | src/main/java/com/web/testselsup/CrptApi.java:199 | when wake-ups re-read the clock, `lastRequestTime` is always the initial value or the time of some event of the history |
| `Admission.ResamplingWaiterAdmittedAfterWindow` | src/main/java/com/web/testselsup/CrptApi.java:185-197 | when wake-ups re-read the clock and the limit is positive, a caller woken one full interval after the window start and after every earlier event is admitted, whatever the history |
| `Admission.StaleAdmissionMovesWindowBack` | src/main/java/com/web/testselsup/CrptApi.java:183-199 | limit 2, 100 ms window: after calls at 0, 10, 50 and 150 ms, the caller parked at 50 ms is admitted on wake-up and moves `lastRequestTime` back from 150 to 50 |
| `Mapping.MapProduct` | src/main/java/com/web/testselsup/CrptApi.java:238-251 | the nine descriptive fields are copied and `productId` is left null |
| `Mapping.MapProductForgetsOnlyTheId` | src/main/java/com/web/testselsup/CrptApi.java:238-251 | two DTOs map to the same product exactly when they differ at most in `productId` |
| `Mapping.ToDescription` | src/main/java/com/web/testselsup/CrptApi.java:253-258 | `participantInn` is copied and `descriptionId` is left null |
| `Mapping.MapProducts` | src/main/java/com/web/testselsup/CrptApi.java:217-220 | success exactly when no element is null; the result then has the same length and order, element by element `MapProduct`; otherwise the error names the first null element |
| `Mapping.BuildDocument` | src/main/java/com/web/testselsup/CrptApi.java:203-225 | success exactly when the products list, all its elements and the description are non-null; the eleven header fields (including `docId`) are copied; the products are mapped in order with the same length; the description is mapped; a null list fails first, then the first null element (as `MapProducts` reports it), then a null description |
| `Mapping.BuildDocumentIgnoresDtoIds` | src/main/java/com/web/testselsup/CrptApi.java:203-258 | requests that differ only in product and description ids give the same document or the same error |
| `Service.DocumentService.constructor` | src/main/java/com/web/testselsup/CrptApi.java:176-179 | `lastRequestTime` starts at the clock reading given, the counter at 0, nothing saved; the invariant `0 <= requestCounter` holds, and every admission method keeps it |
| `Service.DocumentService.Enter` | src/main/java/com/web/testselsup/CrptApi.java:182-200 | the in-place update of the two fields is exactly `Admission.Enter` of the old fields |
| `Service.DocumentService.Recheck` | src/main/java/com/web/testselsup/CrptApi.java:189-200 | the in-place update is exactly `Admission.Recheck`; a blocked re-test leaves both fields unchanged |
| `Service.DocumentService.Retry` | src/main/java/com/web/testselsup/CrptApi.java:185-197 | the corrected wake-up: it re-reads the clock and redoes the entry, so with a positive limit a caller woken after a full interval is admitted |
| `Service.DocumentService.Persist` | src/main/java/com/web/testselsup/CrptApi.java:203-228 | a mapping failure or a failed save leaves `saved` unchanged; a successful save appends exactly the built document; the admission fields are not touched |
| `Service.DocumentService.CreateDocument` | src/main/java/com/web/testselsup/CrptApi.java:181-228 | the fields end as `Admission.Enter` leaves them, whatever happens later (a failed mapping or save gives no slot back); the call waits exactly when the entry blocks; once admitted, the result is the mapping's null error if the request does not build, otherwise the created document if the save succeeds (and it is appended to `saved`), otherwise a storage failure; the counter stays non-negative |
| `Service.DocumentService.ResumeCreateDocument` | src/main/java/com/web/testselsup/CrptApi.java:189-228 | after a wake-up the fields end as `Admission.Recheck` leaves them; the caller keeps waiting exactly when the counter is still at or above the limit; once admitted, the result is the mapping's error, the created and saved document, or a storage failure, as for `CreateDocument` |

## Left out

- Thread semantics are not modelled. That covers `synchronized`, `lock.wait()`, `lock.notify()` and
  the swallowed `InterruptedException` (CrptApi.java:182, 192-196, 230-232). The model therefore
  does not show an interrupted waiter spinning in the wait loop while holding the lock. Each method
  is one sequential step taken under the lock. Which parked caller a `notify` wakes, and when, is left to
  the history given to `Run`.
- `notify` is called only after a successful save. When the mapping or the save throws, no waiter
  is woken. The model has no notion of waking, so it does not capture this.
- The clock (`System.currentTimeMillis()`) is a parameter: `startTime` for the constructor,
  `currentTime` for an entry, `wokenAt` for a wake-up.
- `Admission.Enter`: the Java `long` subtraction `currentTime - lastRequestTime` is unbounded
  here. It could overflow only for clock readings about 292 million years apart.
- The Java `int` counter never wraps. It only grows while it is below `requestLimit`, and
  `requestLimit` is itself an `int`. So the model uses unbounded integers.
- `DocumentRepository.save` is persistence I/O. Its outcome is the parameter `saveSucceeds`.
  `saved` records the documents handed to it. JPA's merge of an existing `docId`, generated ids
  and `@Transactional` rollback are not modelled.
- Spring Boot bootstrap, the controller's routing and response string, and loading `request.limit`
  and `time.unit` from properties are framework wiring. The unit and limit are parameters of
  `CreateDocument`.
- Logging is left out (CrptApi.java:194, 228).
- Java `String` values are modelled as `Option<string>`, with `None` standing for null. They are
  only copied, never inspected.

## Findings

| source | as written | input that shows it | evidently intended | confidence | as-written member | corrected member |
|---|---|---|---|---|---|---|
| src/main/java/com/web/testselsup/CrptApi.java:189-197 | a woken caller re-tests only `requestCounter`; it never re-reads the clock or re-applies the window reset | `requestLimit = 1`, unit SECONDS, calls at 0, 500 and 1500 ms: the call at 500 ms parks; the entry at 1500 ms resets the counter and takes the slot itself; the caller parked at 500 ms is blocked on every later wake-up | a woken caller re-reads the clock and redoes the reset check, and is woken once a full window has passed since the last admission (a timed wait or a wake-up when the window ends, which the code also lacks: its only wake-up is the `notify` right after an admission's save); it is then admitted | medium, not executed | `Admission.LimitOneStarvesWaiters` | `Admission.ResamplingWaiterAdmittedAfterWindow` |
