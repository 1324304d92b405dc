# retry_alloc in Dafny

This is a model of `RetryAlloc`, a memory allocator that wraps another allocator and
retries failed requests. Each `alloc` and `realloc` request is first sent to the
wrapped (inner) allocator once. If the answer is null, a cold slow path starts. The
slow path runs up to `max_retries` times. Each time it sleeps for `time_to_wait`,
adds one to the shared `number_of_retries` counter, and asks the inner allocator
again. The first non-null answer is returned. If every answer is null, the result is
null. `dealloc` and `alloc_zeroed` are forwarded with no retry.

The model has two modules.

- `Allocator` (`allocator.dfy`) covers the allocator interface. A pointer is a
  natural number, and 0 is the null failure marker. A `Layout` is an uninterpreted
  (size, alignment) pair. The inner allocator is `ScriptedAlloc`, an oracle.
  It answers each alloc, alloc-zeroed and realloc request with the next entry of its
  `script`, and it answers null once the script runs out. A ghost `log` records every
  request it receives, together with its arguments.
- `Retry` (`retry.dfy`) covers the decorator itself:
  - the configuration (`RetryConfig`, `NewV1`, `DefaultConfig`);
  - two pure specifications of one request, `Slow` for the retry loop and `Attempt`
    for the fast path followed by the loop;
  - lemmas about those two specifications;
  - the `RetryAlloc` class;
  - four client methods: three replay concrete scenarios, and one shows that every
    realloc call carries the original arguments.

  `RetryAlloc` holds the inner allocator and the config as `const` fields, so they
  cannot change after construction. The counter is the mutable field
  `numberOfRetries`. A ghost `trace` records the decorator's steps in order: each
  sleep (`Slept`), each counter bump (`Bumped`), and each forwarded call
  (`Forwarded`). The slow-path methods are `while` loops, and their invariants tie
  the loop state to `Slow`. The `ensures` clauses of the state-changing methods give
  the whole new state: the result, the counter, what the inner allocator received,
  and the trace.
  - `Alloc` and `Realloc` give it in terms of `Attempt`.
  - `AllocSlow` and `ReallocSlow` give it in terms of `Slow`.
  - `Dealloc` and `AllocZeroed` give it directly.
  - `NumberOfRetries` changes no state and returns the counter.

A request also succeeds when only the last allowed retry (`k = max_retries`) gets a
non-null answer; see `Retry.FirstSuccess`.

## Model

| member | source | states |
|---|---|---|
| `Retry.NewV1` | src/lib.rs:16-21 | The explicit config holds exactly the given wait and retry budget, with no validation. A zero wait or zero retries is accepted. |
| `Retry.RetryAlloc.WithConfig` | src/lib.rs:32-38 | A new decorator wraps the given allocator with the given config. The counter starts at 0 and no step has been taken. |
| `Retry.RetryAlloc.New` | src/lib.rs:40-48 | The default constructor fixes the config to 50 ms between tries and 10 retries. The counter starts at 0. |
| `Retry.RetryAlloc.NumberOfRetries` | src/lib.rs:56-58 | Returns the current value of the retry counter and changes nothing. |
| `Retry.Slow` | src/lib.rs:61-73 | The retry loop never takes more retries than its budget. A null result means it used the whole budget. A non-null result took at least one retry. |
| `Retry.Attempt` | src/lib.rs:93-99 | A request takes at most `max_retries` retries, and a null result means all of them were used. With `max_retries = 0` the result is the first answer, even when it is null, and the counter does not move. |
| `Retry.SlowIsFirstSuccess` | src/lib.rs:62-72 | The loop returns the first non-null answer, after exactly as many retries as it took to reach it. When it returns null, every answer within the budget was null. |
| `Retry.FirstSuccess` | src/lib.rs:62-99 | Suppose the first `k` answers are null, answer `k` is not, and `k <= max_retries`. Then the request returns answer `k` after exactly `k` retries. The case `k = 0` is the fast path, with no retry. |
| `Retry.Exhaustion` | src/lib.rs:61-99 | If all of the first `1 + max_retries` answers are null, the request returns null after exactly `max_retries` retries. |
| `Retry.SucceedsIff` | src/lib.rs:61-99 | A request succeeds if and only if some answer among the first `1 + max_retries` is non-null. |
| `Retry.RetryTraceCounts` | src/lib.rs:62-66 | A request that took `k` retries has exactly `k` sleeps, `k` counter bumps and `k + 1` forwarded calls. Its total sleep is `k` times the configured wait. |
| `Allocator.CopiesOfOne` | src/lib.rs:76-88 | Every entry of a repeated call log is the same call. |
| `Allocator.AppendedCopiesOfOne` | src/lib.rs:76-88 | After a log gains repeated copies of one call, every entry past the old end of the log is that call. |
| `Retry.ReallocKeepsArguments` | src/lib.rs:113-120 | A realloc request gives the inner allocator at least one call. Every call it gives, the first one and each retry, carries the original `ptr`, `layout` and `new_size`. |
| `Retry.RetryAlloc.Sleep` | src/lib.rs:63 | A sleep only records a pause of the configured length in the trace. |
| `Retry.RetryAlloc.AllocSlow` | src/lib.rs:61-73 | Gives the result and retry count of `Slow`. The counter rises by that count. The inner allocator gets that many identical alloc calls. The trace gains that many rounds of sleep, bump, call, in that order. |
| `Retry.RetryAlloc.ReallocSlow` | src/lib.rs:76-88 | The same as `AllocSlow` for realloc. Every retry sends the original `ptr`, `layout` and `new_size`. |
| `Retry.RetryAlloc.Alloc` | src/lib.rs:93-100 | Gives the result and retry count of `Attempt`. The counter rises by exactly that count. The inner allocator gets `1 + retries` identical alloc calls. The trace is one forwarded call followed by `retries` rounds. |
| `Retry.RetryAlloc.Dealloc` | src/lib.rs:103-105 | One inner dealloc with unchanged arguments. The counter and the script are unchanged, and there is no sleep. |
| `Retry.RetryAlloc.AllocZeroed` | src/lib.rs:108-110 | One inner alloc_zeroed call, and its answer is returned as-is, even when null. The counter is unchanged and there is no sleep. |
| `Retry.RetryAlloc.Realloc` | src/lib.rs:113-120 | The same as `Alloc` for realloc. Every call sends the identical `ptr`, `layout` and `new_size`. |
| `Retry.DefaultGivesUp` | src/tests.rs:11-16 | Under the default config, a request that the inner allocator never satisfies returns null. The counter ends at 10, which is greater than 0. |
| `Retry.TwoFailuresThenSuccess` | src/lib.rs:62-69 | With a 10 ms / 3-retry config and inner answers null, null, `q`, the request returns `q`. The counter shows 2 and 20 ms of sleep is recorded. |
| `Retry.NoRetries` | src/lib.rs:62-72 | With `max_retries = 0` and an inner allocator that always fails, the request returns null at once. The counter stays at 0, and the only step is the single forwarded call. |

## Left out

- Real sleeping and `Duration` arithmetic: a sleep is only a `Slept` step in the
  ghost trace. `Duration` is a number of nanoseconds, and wall-clock time cannot be
  verified.
- Atomic `fetch_add` and `load` with relaxed ordering: the counter is a plain field
  under sequential execution. Interleavings between threads are not modelled.
- Retry.RetryAlloc.NumberOfRetries: the counter is unbounded, so the wrap-around of
  the 64-bit atomic at 2^64 is not modelled. That value cannot be reached in practice.
- Raw pointers, `Layout` size and alignment rules, and the safety contract of the
  allocator interface are not modelled. This includes the rule that a failed
  realloc leaves the old block valid.
- The generic inner allocator `T: GlobalAlloc` and the `System` default are replaced
  by one scripted oracle, `ScriptedAlloc`. Hidden state of a real allocator can only
  show up through its script.
- The `inner()` accessor (src/lib.rs:51-53) returns a reference and has no behaviour.
  `const fn`, `#[inline]`, `#[cold]` and `#[non_exhaustive]` affect compilation only.
- The test harness wiring in src/tests.rs:7-9 is not modelled: installing the global
  allocator and the `stats_alloc` instrumentation.
