# BackgroundRunService, modelled in Dafny

`BackgroundRunService` is a deferred-execution queue. Callers hand it jobs
through two `Transfer` overloads: an `Action`, or a `Func<T, Task>` whose `T`
is resolved from a dependency-injection scope when the job runs. An external
scheduler calls `Execute` repeatedly. Each call waits on a semaphore for one
permit, dequeues at most one job, and runs it inside a fresh scope. Every
failure is caught and logged, and the call returns normally.

The model is a sequential state machine over an immutable state
`Service(queue, permits)`:

- `jobs.dfy` (module `Jobs`) holds the job as a tagged variant. `NoArg` and
  `OneArg(param)` carry an `awaitable` flag, which stands for "the return type
  is `Task`". They also carry an abstract `Behaviour`: the body throws, or it
  returns a task that completes or faults. The scope is a partial resolver
  `map<TypeTag, Instance>`. `Dispatch` is the arity × awaitable dispatch.
- `run_service.dfy` (module `RunService`) holds the constructor (`Create`),
  both `Transfer` overloads, and `Execute`. `Execute` returns a `Step`: the
  next state, an `Outcome` (`Cancelled`, `EmptyNoOp` or `Ran`), the log
  entries written, and whether a scope was created.
- `traces.dfy` (module `Traces`) holds whole call sequences, starting from a
  fresh service, and the invariants every such trace keeps.

The semaphore starts with one permit (`new SemaphoreSlim(1)`), so a fresh
service has one permit more than it has jobs. The first `Execute` that finds
the queue empty spends that surplus and does nothing. After that, permits
equal queue length. `TraceInvariant` states this as
`permits == |queue| + 1 - EmptyNoOps` with `EmptyNoOps <= 1`.

Facts about the C# code that the model keeps:

- The gate starts with one permit (`new SemaphoreSlim(1)`, line 20).
- A cancelled wait throws inside the `try` and is logged like any other
  failure (`WaitCancelled`).
- `Execute` returns nothing. The model's `Outcome` only exposes what
  happened, so that it can be stated.

The two wait cases are modelled as follows:

- A token that is already cancelled ends the wait even when a permit is
  free, because `SemaphoreSlim.WaitAsync` checks the token first.
- With no free permit, a sequential trace has nobody to release one. So the
  wait can end only by cancellation, and the model treats it as `Cancelled`.

## Model

| member | source | states |
|---|---|---|
| Jobs.Dispatch | src/WeShare.TransferJob/BackgroundRunService.cs:35-61 | A zero-parameter job is invoked with no argument. A one-parameter job is invoked iff its parameter type resolves, and then with exactly the resolved instance; otherwise the resolution failure is the outcome and the body never runs. The result is awaited iff the job returns a `Task` and the call returned one. The failure is the body's throw, or the awaited task's fault, and nothing else. A fault of a task that is not awaited goes unobserved. |
| Jobs.ActionJobDispatch | src/WeShare.TransferJob/BackgroundRunService.cs:38-47 | A job from `Transfer(Action)` is invoked with no argument and never awaited. It fails iff its body throws. |
| Jobs.FuncJobDispatch | src/WeShare.TransferJob/BackgroundRunService.cs:49-61 | A job from `Transfer<T>(Func<T, Task>)` runs iff `T` resolves. It is awaited iff it ran and returned. It succeeds iff `T` resolved and its task completed. |
| RunService.Create | src/WeShare.TransferJob/BackgroundRunService.cs:18-24 | A fresh service has an empty queue and one permit. |
| RunService.Transfer | src/WeShare.TransferJob/BackgroundRunService.cs:72-82 | Either overload appends the job at the tail and adds exactly one permit. Every job already queued stays where it was. |
| RunService.TransferAction | src/WeShare.TransferJob/BackgroundRunService.cs:78-82 | `Transfer(Action)` enqueues a zero-parameter job that is not awaited, plus one permit. |
| RunService.TransferFunc | src/WeShare.TransferJob/BackgroundRunService.cs:72-76 | `Transfer<T>(Func<T, Task>)` enqueues a one-parameter, awaited job for `T`, plus one permit. |
| RunService.Execute | src/WeShare.TransferJob/BackgroundRunService.cs:26-70 | When no permit can be taken (the token is cancelled, or none is free), state is unchanged, no scope is created, and the cancellation is logged once. Otherwise exactly one permit is consumed and never returned. On an empty queue nothing runs, no scope is created and nothing is logged. Otherwise exactly the head job is removed and dispatched inside a scope. Each failure is logged exactly once, and nothing else is logged. |
| RunService.ExecuteIsolatesFailures | src/WeShare.TransferJob/BackgroundRunService.cs:28-69 | Two queues that differ only in their head job leave the same permits after `Execute`, whatever those head jobs do and whatever the scopes resolve. Once a permit is taken, both leave the same queue: the old tail. A failing job is discarded like a succeeding one and is never put back. |
| RunService.FreshServiceSurplus | src/WeShare.TransferJob/BackgroundRunService.cs:20-31 | A fresh service has an empty queue and one permit more than jobs. An `Execute` on it consumes that permit, does nothing, and leaves an empty queue with no permits. |
| Traces.ApplyKeepsBalance | src/WeShare.TransferJob/BackgroundRunService.cs:30-81 | One call keeps the balance: the job taken from the head plus the jobs left queued equal the old queue plus the job transferred. A permit disappears without a job only when an `Execute` found the queue empty. |
| Traces.TraceInvariant | src/WeShare.TransferJob/BackgroundRunService.cs:20-81 | Over any sequential trace from construction, the jobs dequeued followed by the jobs still queued are exactly the jobs transferred, in order. At most one `Execute` finds the queue empty after taking a permit. Permits equal queue length plus one minus that count. |
| Traces.FifoAtMostOnce | src/WeShare.TransferJob/BackgroundRunService.cs:31-81 | The dequeued jobs are a prefix of the transferred jobs, position by position, so jobs are dequeued (and dispatched) in FIFO order and each at most once. The queue holds the rest. |
| Traces.PermitsCoverQueue | src/WeShare.TransferJob/BackgroundRunService.cs:20-81 | After any trace, every queued job has a permit, and there is at most one surplus permit. |
| Traces.NoSecondEmptyNoOp | src/WeShare.TransferJob/BackgroundRunService.cs:30-31 | Once the surplus permit is spent, no later `Execute` can take a permit and find the queue empty. |
| Traces.DrainPrefix | src/WeShare.TransferJob/BackgroundRunService.cs:30-69 | Start from a state where every queued job has a permit. Then `k` uncancelled executions, with `k` at most the queue length, take exactly the first `k` jobs in order, dispatch each once against the scope, and consume `k` permits, whatever those jobs do. |
| Traces.EveryTransferRunsOnce | src/WeShare.TransferJob/BackgroundRunService.cs:26-82 | After any trace, as many uncancelled executions as there are queued jobs dequeue every transferred job not yet taken. Each is dequeued and dispatched exactly once, in transfer order, and the queue ends empty. The i-th dispatch is that of the i-th job taken, so a one-parameter job's body runs iff its type resolves. |

## Left out

- Blocking and async suspension in `SemaphoreSlim.WaitAsync` and `await`: acquisition is modelled as "a free permit and an uncancelled token, or `Cancelled`". Waiting and timing are not modelled.
- Concurrency: the thread-safety of `ConcurrentQueue`, and interleavings of concurrent `Execute` and `Transfer` calls. Only sequential traces are modelled.
- Reflection: `Expression.Compile`, `DynamicInvoke` and the `Method.ReturnType` test are replaced by the tagged job. Wrapping a thrown exception in `TargetInvocationException` is not modelled; it is caught and logged all the same.
- Internals of the dependency-injection container: the resolver is an opaque partial map. Failures of `GetRequiredService<IServiceScopeFactory>()` and `CreateScope()` are not modelled. Scope disposal is the `scopeCreated` flag (a scope is created and disposed exactly when a job is dequeued).
- The `ILogger` sink: a log entry is the `Failure` kind, not the exception's text.
- The external scheduler that calls `Execute`.
- Jobs.Dispatch: a job's behaviour (throws, or returns a task that completes or faults) is fixed per job. It does not depend on the value of the resolved instance.
- RunService.Transfer: permits are unbounded. The C# semaphore's maximum count is `int.MaxValue`. At that count, `Release` (lines 75 and 81) throws `SemaphoreFullException` to the caller after the job is already enqueued, which leaves that job without a permit. `Traces.PermitsCoverQueue` relies on permits being unbounded.
- RunService.Execute: a failure while disposing the scope at the end of the `using` block (lines 33 and 63) would also be caught and logged, even after a successful job. The model treats disposal as never failing, so it logs only wait and dispatch failures.
