# Coalescing of concurrent asyncio calls, modelled in Dafny

`deduplicate_concurrent(func)` and `memoize_concurrent(func)` wrap an async
function so that overlapping calls with equal arguments share one execution.
Each wrapper keeps a dictionary in its closure (`concurrent` or `cache`) that
maps the call key `(args, tuple(kwargs.items()))` to the `asyncio.Future` of
the execution in flight. A call whose key is present awaits that future. A
call whose key is absent becomes the owner:

- it stores a fresh future under the key;
- it awaits `func(*args, **kwargs)`;
- it settles the future with the value (`set_result`) or with any
  `BaseException`, cancellation included (`set_exception`);
- it deletes the key in `finally`;
- it awaits the future itself.

asyncio runs every synchronous stretch between two awaits without
interruption. So the model is a state machine whose atomic steps the
scheduler picks in any order:

- **Call**: a new call runs up to its first await.
- **Complete**: the owner's `func` ends, with a value, an exception or
  cancellation.
- **Wake**: a call suspended on a settled future returns.

Files:

- `coalesce.dfy` (module `Coalesce`): keys, outcomes, events, and the
  registry. The registry holds the key-to-future table, the futures, and
  the log of invocations of `func` (what the tests read from
  `mock.mock_calls`). It defines the two registry updates both wrappers
  perform: `Register` and `Settle`.
- `deduplicate.dfy` (module `AioDeduplicate`): the steps of `deduplicated`
  as functions `Start`, `Finish`, `Resume`, and the schedule interpreter
  `Step`/`Run`. It defines the invariant `Inv` and proves it preserved by
  every step. It proves the single-step properties, and that settled
  futures and returned calls never change along any schedule. The class
  `Deduplicated` holds the closure state as fields; its methods `Call`,
  `Complete` and `Wake` update them in place and are proved equal to the
  step functions.
- `memoize.dfy` (module `AioMemoizeConcurrent`): the same for `memoized`.
  Its one difference is that the owner and the waiters share a single
  `return await future`. Class `Memoized`.
- `equivalence.dfy` (module `Equivalence`): a relabelling of the phases of
  `deduplicated` maps every run onto a run of `memoized`. Under every
  schedule both wrappers accept the same steps, produce the same
  invocation log and registry, and every call returns the same outcome.
- `scenarios.dfy` (module `Scenarios`): the situations of `test.py`, for
  arbitrary argument values. It also proves that any number of overlapping
  identical calls invoke `func` once and all return its outcome.

Keyword order is part of the key. The code builds the key from
`tuple(kwargs.items())` without sorting, so calls that pass the same
keywords in a different order get different keys. The model follows the
code.

## Model

| member | source | states |
|---|---|---|
| `Coalesce.RegisterKeepsInv` | aiodeduplicate.py:15-16 | Storing a fresh pending future under an absent key keeps the registry consistent: every pending future is registered under the key it was created for, and only such futures are registered |
| `Coalesce.SettleKeepsInv` | aiodeduplicate.py:18-25 | Settling the owner's future and deleting its key keeps the registry consistent |
| `AioDeduplicate.InitInv` | aiodeduplicate.py:7 | The empty `concurrent` dictionary satisfies the invariant |
| `AioDeduplicate.StepKeepsInv` | aiodeduplicate.py:9-27 | Every enabled atomic step (call, owner completion, wake) preserves the invariant: each task is bound to a future created for its own key; a key is registered exactly while one owner runs `func`, and to that owner's future; returned calls hold their future's outcome |
| `AioDeduplicate.RunKeepsInv` | aiodeduplicate.py:9-27 | Every schedule the event loop can choose preserves the invariant |
| `AioDeduplicate.JoinLeavesRegistry` | aiodeduplicate.py:12-13 | A call whose identifier is registered does not invoke `func`: registry and log unchanged, and the call waits on the registered, still pending future |
| `AioDeduplicate.OwnRegistersOne` | aiodeduplicate.py:15-19 | A call whose identifier is absent stores exactly one fresh pending future, bound to no other task, and appends exactly its identifier to the log |
| `AioDeduplicate.ShareIffSameKey` | aiodeduplicate.py:10-16 | While an owner runs `func`, a new call shares its future exactly when the identifiers are equal, and then invokes nothing |
| `AioDeduplicate.InFlightIffOwnerRunning` | aiodeduplicate.py:12-25 | An identifier is in `concurrent` exactly when an owner with it is running `func`, and at most one such owner exists |
| `AioDeduplicate.FinishSettlesOnce` | aiodeduplicate.py:18-25 | Owner completion settles its future, which was pending, with the outcome of `func`, and deletes its own identifier and no other entry, in one step; the log is unchanged |
| `AioDeduplicate.ResumeAfterRemoval` | aiodeduplicate.py:21-27 | A call resumes only from a future that no identifier is registered to any more, and returns that future's outcome |
| `AioDeduplicate.SameFutureSameOutcome` | aiodeduplicate.py:13-27 | Calls bound to one future have equal identifiers, and those that returned returned the identical outcome |
| `AioDeduplicate.FinishReleasesWaiters` | aiodeduplicate.py:20-27 | Whatever `func` ends with, cancellation included, every waiter on the owner's future can then resume and returns that outcome |
| `AioDeduplicate.WaiterNotStranded` | aiodeduplicate.py:12-25 | A waiting call's future is settled, or its owner is still running `func` |
| `AioDeduplicate.IdleKeyInvokesAfresh` | aiodeduplicate.py:12-19 | When no execution with an identifier is running, the next call with it invokes `func` again |
| `AioDeduplicate.AllSettledRegistryEmpty` | aiodeduplicate.py:7-25 | With no owner running, `concurrent` is empty |
| `AioDeduplicate.StepMonotone` | aiodeduplicate.py:15-27 | One step only appends to the log, never changes a settled future, and never changes a call that returned |
| `AioDeduplicate.RunMonotone` | aiodeduplicate.py:15-27 | Along any schedule the log only grows, every future is settled at most once and keeps its outcome, and returned calls keep theirs |
| `AioDeduplicate.Deduplicated.constructor` | aiodeduplicate.py:5-7 | Fresh closure state: empty `concurrent`, no futures, no invocations |
| `AioDeduplicate.Deduplicated.Call` | aiodeduplicate.py:9-19 | The in-place updates of a call up to its first await are exactly step `Start`, and keep the invariant |
| `AioDeduplicate.Deduplicated.Complete` | aiodeduplicate.py:18-25 | `set_result`/`set_exception` and `del` in place are exactly step `Finish`, and keep the invariant |
| `AioDeduplicate.Deduplicated.Wake` | aiodeduplicate.py:13-27 | `return await` on a settled future returns that future's outcome; the new state is step `Resume` |
| `AioMemoizeConcurrent.InitInv` | aiomemoizeconcurrent.py:6 | The empty `cache` satisfies the invariant |
| `AioMemoizeConcurrent.StepKeepsInv` | aiomemoizeconcurrent.py:8-26 | Every enabled atomic step preserves the invariant, as for `deduplicated` |
| `AioMemoizeConcurrent.RunKeepsInv` | aiomemoizeconcurrent.py:8-26 | Every schedule preserves the invariant |
| `AioMemoizeConcurrent.JoinLeavesRegistry` | aiomemoizeconcurrent.py:11-12 | With the key present the call reuses the stored, pending future; cache and log unchanged |
| `AioMemoizeConcurrent.OwnRegistersOne` | aiomemoizeconcurrent.py:13-18 | With the key absent, a new pending future is stored under it and `func` is invoked exactly once for it |
| `AioMemoizeConcurrent.ShareIffSameKey` | aiomemoizeconcurrent.py:9-15 | While an owner runs `func`, a new call shares its future exactly when the keys are equal |
| `AioMemoizeConcurrent.InFlightIffOwnerRunning` | aiomemoizeconcurrent.py:11-24 | A key is cached exactly while one owner with it runs `func` |
| `AioMemoizeConcurrent.FinishSettlesOnce` | aiomemoizeconcurrent.py:17-24 | The pending future is settled exactly once, by `set_result` or `set_exception`, and its key is deleted on every completion path; no other entry changes |
| `AioMemoizeConcurrent.ResumeAfterRemoval` | aiomemoizeconcurrent.py:24-26 | Every call returns from a future that is no longer cached, with that future's outcome |
| `AioMemoizeConcurrent.SameFutureSameOutcome` | aiomemoizeconcurrent.py:11-26 | Calls sharing a future have equal keys and return the identical outcome |
| `AioMemoizeConcurrent.FinishReleasesWaiters` | aiomemoizeconcurrent.py:17-26 | After owner completion, cancellation included, every call awaiting its future can resume with that outcome |
| `AioMemoizeConcurrent.WaiterNotStranded` | aiomemoizeconcurrent.py:11-26 | An awaiting call's future is settled, or its owner is still running `func` |
| `AioMemoizeConcurrent.IdleKeyInvokesAfresh` | aiomemoizeconcurrent.py:11-18 | Once every execution with a key has completed, the next call with it starts a fresh execution |
| `AioMemoizeConcurrent.AllSettledRegistryEmpty` | aiomemoizeconcurrent.py:6-24 | After every started execution has completed, the cache is empty |
| `AioMemoizeConcurrent.StepMonotone` | aiomemoizeconcurrent.py:14-26 | One step only appends to the log, never changes a settled future or a returned call |
| `AioMemoizeConcurrent.RunMonotone` | aiomemoizeconcurrent.py:14-26 | Along any schedule each future is settled at most once and keeps its outcome; the log only grows |
| `AioMemoizeConcurrent.Memoized.constructor` | aiomemoizeconcurrent.py:4-6 | Fresh closure state: empty `cache` |
| `AioMemoizeConcurrent.Memoized.Call` | aiomemoizeconcurrent.py:8-18 | The in-place updates of a call up to its first await are exactly step `Start` |
| `AioMemoizeConcurrent.Memoized.Complete` | aiomemoizeconcurrent.py:17-24 | `set_result`/`set_exception` and `del` in place are exactly step `Finish` |
| `AioMemoizeConcurrent.Memoized.Wake` | aiomemoizeconcurrent.py:26 | The shared `return await future` returns the settled future's outcome |
| `Equivalence.InitCorresponds` | aiomemoizeconcurrent.py:6 | The two wrappers start in corresponding states |
| `Equivalence.OutcomesCorrespond` | aiomemoizeconcurrent.py:26 | Corresponding states have returned the same outcomes to the same calls |
| `Equivalence.StepCommutes` | aiomemoizeconcurrent.py:8-26 | Each event is enabled in `deduplicated` exactly when it is in `memoized`, and leads to corresponding states |
| `Equivalence.RunCommutes` | aiomemoizeconcurrent.py:8-26 | The same holds for every schedule from corresponding states |
| `Equivalence.SameBehaviour` | aiomemoizeconcurrent.py:8-26 | Under every schedule, the two wrappers accept the same steps, produce the same invocation log, registry and futures, and return the same outcome to every call (the same holds for aiodeduplicate.py:9-27) |
| `Scenarios.IdenticalConcurrentShareOne` | test.py:40-59 | Two overlapping identical calls: one invocation, both return the value |
| `Scenarios.DifferentConcurrentBothRun` | test.py:86-109 | Two overlapping calls differing in a keyword value, the second finishing first: two invocations in issue order, both return the value |
| `Scenarios.IdenticalSequentialBothRun` | test.py:111-133 | Identical calls that do not overlap: two invocations |
| `Scenarios.IdenticalConcurrentShareException` | test.py:135-157 | The shared execution raises: both calls end with that same exception; one invocation |
| `Scenarios.OwnerCancelledWaiterCancelled` | test.py:160-178 | The owner is cancelled inside `func`: the waiter ends cancelled rather than waiting forever |
| `Scenarios.OverlappingCallsInvokeOnce` | aiodeduplicate.py:12-27 | Any number of identical calls issued while the first runs `func`: one invocation, and every call returns its outcome |

## Left out

- asyncio itself: the event loop, future callbacks and `Task.cancel` are
  not modelled. The scheduler is the freedom to choose the next event.
  Cancellation appears only as an outcome that `func` can end with.
- The owner's final `return await future` is a separate step. asyncio does
  not suspend on a future that is already done. The model therefore allows
  more interleavings than asyncio does, and every property proved holds
  for the actual behaviour too.
- Cancelling a waiter that is not the owner goes through asyncio's handling
  of a shared awaited future. It is not modelled.
- Hashing: the `TypeError` for unhashable arguments raised at the
  membership test is not modelled. Keys are values compared by equality.
  Argument values and exceptions are integers standing for opaque objects.
- Exception chaining and tracebacks: an exception is an opaque value
  passed through unchanged.
- The body of `func`: the environment supplies its outcome in the Complete
  event.
- `InvalidStateError` cannot happen in the model, which leaves out waiter
  cancellation. In the program it happens once a cancelled waiter has
  cancelled the shared future: the owner's later `set_result` or
  `set_exception` then raises. `KeyError` from `del` cannot happen,
  because only the one owner of a key deletes it.
- Packaging (setup.py) and the test harness helpers of test.py are not part
  of this model.
