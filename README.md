# The libuv Windows event loop, modelled in Dafny

This project models the event-loop engine of the Windows back end of libuv,
`deps/uv/src/win/core.c`. The loop record `uv_loop_t` holds:

- a keep-alive counter `refs`;
- a pending-request queue;
- a list of handles waiting for their endgame;
- the idle, prepare and check handle lists with their iteration cursors;
- the last error;
- an I/O completion port.

`uv_run` repeats one fixed iteration while `refs > 0`. Each iteration runs these steps in order:

1. update the cached time.
2. run the due timers.
3. run the idle handles, but only when no request is pending and no endgame is queued.
4. dispatch the pending requests.
5. run the endgames.
6. leave the iteration if `refs <= 0`.
7. run the prepare handles.
8. wait on the completion port, blocking only when there is no idle handle, nothing pending, no endgame queued, and `refs > 0`.
9. run the check handles.

The wait takes one of two forms:

- `uv_poll` dequeues one packet.
- `uv_poll_ex` dequeues up to 128 packets with `GetQueuedCompletionStatusEx`.

The requests behind the packets are appended to the pending queue. They are dispatched in step 4 of the next iteration. A timed-out wait is benign. Any other failure of the wait is fatal.

The project has four modules:

- `UvTypes` (`types.dfy`) holds the values. These are:
  - the callback-visible loop fields `Fields`;
  - requests, handles and completion packets;
  - the trace `Event`s;
  - the collaborators the loop calls into: `Hooks` for the phase helpers defined in other files, and `Os` for the completion-port waits.
- `UvSpec` (`spec.dfy`) states the behaviour as functions of a `State`. A `State` is the fields, the fatal error if one was raised, and the trace. `Head` and `Tail` are the two halves of `UV_LOOP_ONCE`. `Once` is one iteration, `Run` is `UV_LOOP`, and `UvRun` and `UvRunOnce` are the drivers. The predicates `IterationHead`, `IterationTail` and `IsIteration` say declaratively which event sequences an iteration may produce, each phase starting from the fields the previous one left. `IsRun` splits the events of a whole run into such iterations. The lemmas prove that the functions produce exactly such sequences.
- `UvWinCore` (`core.dfy`) is the engine itself. It is a class `Loop` with the fields of `uv_loop_t`, and its methods update those fields in place. `InvokePhase`, `Poll`, `PollEx`, `LoopOnce`, `RunOnce` and `Run` are proved to end in the state that the matching `UvSpec` function computes from their starting state. `InsertBatch` is proved to end in the fields `UvSpec.InsertEach` computes. `Refcount`, `Ref`, `Unref`, `InsertPendingReq` and `FatalError` state their effect on the fields directly. The class has:
  - `Refcount`, `Ref` and `Unref`;
  - the two polls, where `PollEx` appends the batch through `InsertBatch`, a `for` loop over the entries;
  - the iteration body `LoopOnce`, with its early `return` for the `break`;
  - `RunOnce`;
  - `Run`, the `while (refs > 0)` loop.
- `UvScenarios` (`scenarios.dfy`) builds a freshly initialised loop, drives it with fixed helpers and a scripted completion port, and proves one outcome end to end per scenario.

`uv_update_time` is a function of the loop fields that changes only `now`. `uv_get_poll_timeout` is a function of the loop fields that returns the timeout and changes nothing. The other phase helpers are total functions from loop fields to loop fields. They may therefore change `refs`, the queues and the handle lists arbitrarily, as callbacks may. The ghost trace records every phase with the fields at its start, and records every poll with its block flag and timeout.

Three behaviours of the code are easy to misread:

- **`uv_run_once` with `refs <= 0`.** The `break` at `core.c:234` leaves only the `do { } while (0)` of `UV_LOOP_ONCE`. So `uv_run_once` skips prepare, poll and check whenever `refs <= 0` after the endgames. It runs steps 1-5 whatever `refs` is on entry, while `uv_run` then runs nothing (`core.c:248`, `DriversWithoutRefs`).
- **Negative `refs`.** `uv_unref` decrements without a lower bound (`core.c:149`), so `refs` can become negative. `uv_run` then runs no iteration and its `assert(loop->refs == 0)` at `core.c:270` fails (`UnrefBelowZero`).
- **The block flag.** It depends only on the loop state (`core.c:239-242`), not on which driver called the iteration.

## Model

| member | source | states |
|---|---|---|
| UvTypes.OverlappedToReq | deps/uv/src/win/core.c:174 | recovering the request from a packet is the inverse of embedding it: the packet of the result is the given packet |
| UvSpec.ToReqs | deps/uv/src/win/core.c:208-212 | the requests of a batch are as many as its entries, and the i-th is the request of the i-th entry (array order) |
| UvSpec.InsertEachIsBatch | deps/uv/src/win/core.c:172-176 | inserting the packets' requests one by one with `uv_insert_pending_req` gives the same loop as appending the whole batch to the pending queue |
| UvSpec.PollOutcomes | deps/uv/src/win/core.c:153-217 | both polls record their block flag and a timeout that is 0 when not blocking and `uv_get_poll_timeout` otherwise, and change nothing but the pending queue, appending at most 1 or 128 requests behind the old ones. A dequeued packet appends exactly its request. A successful batch appends its requests in array order. A failed wait leaves the fields unchanged, and the loop is fatal exactly when the error is not `WAIT_TIMEOUT`, with that code and the name of the failing call |
| UvSpec.HeadShape | deps/uv/src/win/core.c:221-231 | steps 1-5 keep the fatal flag and append: update time, then timers (after the clock update), then idle exactly when pending and endgame are both empty after the timers, then requests, then endgames, each phase starting from the fields the previous one left, and the head's final fields are those the endgames leave |
| UvSpec.TailShape | deps/uv/src/win/core.c:237-244 | when `refs > 0`: prepare, then a poll on the fields prepare left, whose block flag is `idle == [] && pending == [] && endgame == [] && refs > 0` and which changes only the pending queue, then check on the fields the poll left, unless the poll was fatal |
| UvSpec.OnceIsIteration | deps/uv/src/win/core.c:219-245 | one iteration leaves a fatal loop unchanged, and otherwise appends exactly the events of `IsIteration`: head, then nothing more when `refs <= 0` after the endgames (the `break`), else prepare, poll and check |
| UvSpec.JoinIteration | deps/uv/src/win/core.c:233-235 | a head followed by nothing (when `refs <= 0`) or by a tail is a whole iteration |
| UvSpec.IterationEvents | deps/uv/src/win/core.c:219-245 | in every iteration, idle runs only on empty queues, prepare only with `refs > 0`, every poll uses the block flag and timeout rule, only the first event updates the time, and an aborted iteration ends with its poll |
| UvSpec.StrategyFor | deps/uv/src/win/core.c:254-258 | the batched poll is chosen exactly when `pGetQueuedCompletionStatusEx` exists, and it then calls that function |
| UvSpec.RunUnfold | deps/uv/src/win/core.c:247-250 | while `refs > 0` on a live loop, a run is one iteration followed by the rest of the run |
| UvSpec.RunShape | deps/uv/src/win/core.c:247-250 | a run only appends to the trace and does nothing when `refs <= 0` on entry. It returns 0 only with `refs == 0`, and its assertion fails only with `refs < 0`. It aborts exactly when the fatal error is reached, with that error, and then its last step was a poll. It stops for lack of fuel only while `refs > 0`. Every iteration started with `refs > 0` and every event obeys its rule |
| UvSpec.RunStep | deps/uv/src/win/core.c:248-249 | one iteration followed by a run satisfies the run's event rules and prefix property |
| UvSpec.RunIsRun | deps/uv/src/win/core.c:247-250 | the events of a run on a live loop split into consecutive whole iterations, each begun with `refs > 0` on the fields the previous one left, the first on the fields at entry and the last ending in the run's final fields; only the last may be aborted, and it is exactly when the run reached the fatal error |
| UvSpec.RunIsRunStep | deps/uv/src/win/core.c:248-249 | one iteration from a loop with `refs > 0`, followed by a run from where it stopped, is a run from the start |
| UvSpec.JoinRun | deps/uv/src/win/core.c:248-249 | an iteration followed by a run from its final state (or by nothing, when the iteration was fatal) is a run |
| UvSpec.RunCons | deps/uv/src/win/core.c:247-250 | the events of an iteration started with `refs > 0`, followed by those of a run from its final fields, are the events of a run from the iteration's start |
| UvSpec.RunStartsWithUpdate | deps/uv/src/win/core.c:221 | a run that does anything begins with the time update on the fields it started from |
| UvSpec.IterationLen | deps/uv/src/win/core.c:219-245 | the length of an iteration is determined by its own events: the head is four or five events by whether idle ran, and the tail none, two (a fatal poll) or three |
| UvSpec.RunOnceIsOneIteration | deps/uv/src/win/core.c:253-260 | `uv_run_once` runs exactly one iteration body, using the strategy `StrategyFor` picks, whatever `refs` is on entry |
| UvSpec.DriversWithoutRefs | deps/uv/src/win/core.c:253-272 | on a live loop with `refs <= 0`, `uv_run` runs nothing and returns 0 or fails its assertion (for `refs < 0`), while `uv_run_once` still starts with the time update and runs at least four phases |
| UvWinCore.Loop.constructor | deps/uv/src/win/core.c:61-96 | `uv_loop_init` leaves `refs == 0`, the time sampled, empty pending and endgame queues, empty idle/prepare/check lists and cursors, `last_err` ok, an empty trace, and the fatal error raised exactly when the completion port could not be created |
| UvWinCore.Loop.Refcount | deps/uv/src/win/core.c:138-140 | returns `refs` |
| UvWinCore.Loop.Ref | deps/uv/src/win/core.c:143-145 | `refs` grows by exactly 1, with no bound, and no other field changes |
| UvWinCore.Loop.Unref | deps/uv/src/win/core.c:148-150 | `refs` shrinks by exactly 1, with no clamping at zero, and no other field changes |
| UvWinCore.Loop.InvokePhase | deps/uv/src/win/core.c:221-231 | a phase helper replaces the loop fields by its effect and appends its phase, with the fields at its start, to the trace |
| UvWinCore.Loop.InsertPendingReq | deps/uv/src/win/core.c:176 | the request is appended at the tail of the pending queue and nothing else changes |
| UvWinCore.Loop.FatalError | deps/uv/src/win/core.c:178-181 | the loop records the error code and the failing call's name as its fatal error |
| UvWinCore.Loop.Poll | deps/uv/src/win/core.c:153-182 | the in-place `uv_poll` ends in the state `UvSpec.Poll` computes with the single strategy (so `PollOutcomes` holds of it) |
| UvWinCore.Loop.InsertBatch | deps/uv/src/win/core.c:207-212 | the loop over the removed entries leaves the loop as inserting their requests one by one with `uv_insert_pending_req` does, changing only the pending queue |
| UvWinCore.Loop.PollEx | deps/uv/src/win/core.c:185-217 | the in-place `uv_poll_ex`, whose loop inserts the batch entry by entry, ends in the state `UvSpec.Poll` computes with the batched strategy: the old queue followed by the batch's requests in array order |
| UvWinCore.Loop.LoopOnce | deps/uv/src/win/core.c:219-245 | the in-place iteration body, with its early exit after the endgames, ends in the state `UvSpec.Once` computes (so `OnceIsIteration` holds of it) |
| UvWinCore.Loop.RunOnce | deps/uv/src/win/core.c:253-260 | `uv_run_once` returns 0 and ends in the state `UvSpec.UvRunOnce` computes |
| UvWinCore.Loop.Run | deps/uv/src/win/core.c:263-272 | the in-place `while (refs > 0)` loop ends in the state and with the outcome `UvSpec.UvRun` computes (so `RunShape` and `RunIsRun` hold of it) |
| UvScenarios.RunWithoutRefs | deps/uv/src/win/core.c:247-250 | a fresh loop with no references makes `uv_run` return 0 without running any phase |
| UvScenarios.UnrefBelowZero | deps/uv/src/win/core.c:148-150 | `uv_unref` on a fresh loop drives `refs` to -1, and `uv_run` then fails `assert(loop->refs == 0)` without running any iteration |
| UvScenarios.RunOnceWithoutRefs | deps/uv/src/win/core.c:253-260 | `uv_run_once` on a fresh loop returns 0 after five phases (idle included) and stops at the `break` without polling |
| UvScenarios.OneIteration | deps/uv/src/win/core.c:233-235 | with one reference released by the endgames, `uv_run` runs a single iteration of five phases and returns 0 |
| UvScenarios.FailingWait | deps/uv/src/win/core.c:178-181 | a single wait failing with an error other than `WAIT_TIMEOUT` aborts `uv_run` with that code and `GetQueuedCompletionStatus` |
| UvScenarios.BatchInOrder | deps/uv/src/win/core.c:207-212 | a batched wait that removes two packets leaves their requests in the pending queue in array order |

## Left out

- `uv_init` is not modelled. It sets up the process-wide OS environment: the error mode, winsock, the winapi function pointers, the file system and the console.
- `uv_once`, the `uv_default_loop_` singleton, `uv_default_loop` and `uv_loop_new` are not modelled. They are one-time initialisation and allocation. The model starts from a freshly initialised `Loop` object.
- `malloc` and `free` in `uv_loop_new` and `uv_loop_delete` are not modelled; they only manage memory. `uv_loop_delete` never frees the default loop.
- The operating-system calls are parameters. `CreateIoCompletionPort` becomes the constructor's `portCreated` and `lastError`. `GetQueuedCompletionStatus`, `GetQueuedCompletionStatusEx` and `GetLastError` become the oracle `Os`. A wait is a fixed function of the loop fields and the timeout. So the port has no state of its own: two waits on equal fields and timeout give the same answer, whereas a real port may deliver a packet after a wait that timed out. The completion-port handle, the byte count and the completion key are not represented.
- The phase helpers defined in other files are total functions in `Hooks`, whose internals are not part of this model. These are `uv_update_time` (the clock), `uv_process_timers` (the timer tree), `uv_idle_invoke`, `uv_process_reqs`, `uv_process_endgames`, `uv_prepare_invoke`, `uv_check_invoke` and `uv_get_poll_timeout`.
- `uv_get_poll_timeout` is modelled as having no effect on the loop. It is given the mutable `loop` (`core.c:161`, `core.c:194`), and the real helper may refresh the cached time. A blocking poll would then change `now` as well, which the "changes nothing but the pending queue" frame of the polls does not allow.
- `uv_insert_pending_req` and `uv_overlapped_to_req` have the behaviour their use here requires. The first appends at the tail of the queue. The second recovers the request owning a packet, whereas the original is a pointer-offset cast.
- The timer tree, the c-ares fields, `active_tcp_streams`, `active_udp_streams` and the `counters` structure are not modelled. `uv_loop_init` only clears them, and nothing in this file reads them.
- `uv_fatal_error` ends the process. The model records the error instead, as a terminal `fatal` value after which no driver runs any phase. `uv_loop_init` reaching it is modelled as a loop that is fatal from the start.
- Loop.Run: `uv_run` can loop forever, since callbacks keep `refs` positive. A `fuel` bound on the number of iterations ends the run with `OutOfFuel`, so the model does not capture non-termination.
- Loop.Run: `assert(loop->refs == 0)` is modelled as the outcome `AssertionFailed(refs)`, as in a debug build. A release build would return 0 instead.
- Loop.Ref: `refs` is an unbounded integer, so the 32-bit overflow of `int` after 2^31 - 1 references is not modelled.
- Loop.Unref: `refs` is an unbounded integer, so the 32-bit wrap of `refs--` below `INT_MIN` (`core.c:149`) is not modelled.
- The `success` result of `GetQueuedCompletionStatus` is not modelled. `uv_poll` looks only at whether a packet was dequeued, whatever the status of its operation, and so does the model.
