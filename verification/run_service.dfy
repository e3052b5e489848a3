/** The deferred-execution service: a FIFO of jobs and a counting gate.

    The state is the queue of jobs not yet taken, and the number of permits
    the gate holds. Transferring a job appends it and releases one permit;
    executing takes one permit, then takes at most one job off the head of the
    queue and dispatches it inside a fresh dependency scope. Every failure of
    an execution, including a cancelled wait for a permit, is caught and
    logged, and the call returns normally.
 */
module RunService {
  import opened Jobs

  datatype Service = Service(queue: seq<Job>, permits: nat)

  /** What one execution did. `Cancelled`: no permit was taken. `EmptyNoOp`:
      a permit was taken but the queue was empty. `Ran`: `job` was taken off
      the queue and dispatched. */
  datatype Outcome = Cancelled | EmptyNoOp | Ran(job: Job, dispatch: Dispatched)

  /** One execution: the state after it, what it did, what it logged, and
      whether it created (and then released) a dependency scope. */
  datatype Step = Step(next: Service, outcome: Outcome, log: seq<Failure>, scopeCreated: bool)

  /** A freshly constructed service: an empty queue, and a gate created with
      one permit already in it. */
  function Create(): (s: Service)
    ensures s.queue == [] && s.permits == 1
  {
    Service([], 1)
  }

  /** Both transfer overloads: enqueue `job`, then release one permit. */
  function Transfer(s: Service, job: Job): (t: Service)
    ensures |t.queue| == |s.queue| + 1
    ensures t.queue[..|s.queue|] == s.queue
    ensures t.queue[|s.queue|] == job
    ensures t.permits == s.permits + 1
  {
    Service(s.queue + [job], s.permits + 1)
  }

  /** `Transfer(Action)`: enqueues a zero-parameter job whose result is not
      awaited. */
  function TransferAction(s: Service, body: Behaviour): (t: Service)
    ensures t.queue == s.queue + [NoArg(false, body)]
    ensures t.permits == s.permits + 1
  {
    Transfer(s, ActionJob(body))
  }

  /** `Transfer<T>(Func<T, Task>)`: enqueues a job taking one `T`, whose
      returned task is awaited. */
  function TransferFunc(s: Service, param: TypeTag, body: Behaviour): (t: Service)
    ensures t.queue == s.queue + [OneArg(param, true, body)]
    ensures t.permits == s.permits + 1
  {
    Transfer(s, FuncJob(param, body))
  }

  /** The log an execution's dispatch leaves: its failure, if any. */
  function FailureLog(d: Dispatched): (log: seq<Failure>) {
    if d.failure.Some? then [d.failure.value] else []
  }

  /** One call of `Execute`. `cancelled` says whether the token is cancelled
      when the call waits for a permit; `resolver` is what the scope the call
      creates can resolve. The wait is checked against the token first, so a
      cancelled token ends the call even when a permit is free; with no free
      permit and nobody else running, the wait can end only by cancellation.
      The cancellation is thrown inside the call's `try`, so it is logged. */
  function Execute(s: Service, cancelled: bool, resolver: Resolver): (st: Step)
    // no permit can be taken: nothing changes, the cancellation is logged once
    ensures st.outcome.Cancelled? <==> cancelled || s.permits == 0
    ensures st.outcome.Cancelled? ==>
              st.next == s && st.log == [WaitCancelled] && !st.scopeCreated
    // otherwise exactly one permit is consumed, and never given back
    ensures !st.outcome.Cancelled? ==> st.next.permits + 1 == s.permits
    // an empty queue after the permit is taken: nothing runs, no scope, no log
    ensures st.outcome.EmptyNoOp? <==> !st.outcome.Cancelled? && s.queue == []
    ensures st.outcome.EmptyNoOp? ==> st.next.queue == [] && st.log == [] && !st.scopeCreated
    // otherwise the head, and only the head, is taken and dispatched in a scope
    ensures st.outcome.Ran? ==>
              s.queue != [] && st.outcome.job == s.queue[0] && st.next.queue == s.queue[1..]
    ensures st.outcome.Ran? ==>
              st.scopeCreated && st.outcome.dispatch == Dispatch(s.queue[0], resolver)
    // every failure is logged exactly once, and nothing else is logged
    ensures |st.log| <= 1
    ensures st.log != [] <==>
              st.outcome.Cancelled? || (st.outcome.Ran? && st.outcome.dispatch.failure.Some?)
    ensures st.outcome.Ran? && st.log != [] ==> st.log == [st.outcome.dispatch.failure.value]
  {
    if cancelled || s.permits == 0 then
      Step(s, Cancelled, [WaitCancelled], false)
    else if |s.queue| == 0 then
      Step(Service(s.queue, s.permits - 1), EmptyNoOp, [], false)
    else
      var d := Dispatch(s.queue[0], resolver);
      Step(Service(s.queue[1..], s.permits - 1), Ran(s.queue[0], d), FailureLog(d), true)
  }

  /** The state an execution leaves does not depend on the head job: two
      queues that differ only in their head, whatever those jobs do and
      whatever the scopes resolve, leave the same permits, and, once a permit
      is taken, the same queue, which is the old tail. A failing job is
      discarded exactly as a succeeding one is, is never put back, and does
      not hold back the jobs behind it. */
  lemma ExecuteIsolatesFailures(j1: Job, j2: Job, tail: seq<Job>, permits: nat,
                                cancelled: bool, r1: Resolver, r2: Resolver)
    ensures Execute(Service([j1] + tail, permits), cancelled, r1).next.permits
         == Execute(Service([j2] + tail, permits), cancelled, r2).next.permits
    ensures Execute(Service([j1] + tail, permits), cancelled, r1).outcome.Ran?
        <==> Execute(Service([j2] + tail, permits), cancelled, r2).outcome.Ran?
    ensures !cancelled && permits > 0 ==>
              (Execute(Service([j1] + tail, permits), cancelled, r1).next
               == Execute(Service([j2] + tail, permits), cancelled, r2).next)
    ensures !cancelled && permits > 0 ==>
              Execute(Service([j1] + tail, permits), cancelled, r1).next.queue == tail
  {
  }

  /** The fresh service's surplus permit: an execution before any transfer
      consumes it and does nothing, after which permits equal queue length. */
  lemma FreshServiceSurplus(resolver: Resolver)
    ensures Create().queue == [] && Create().permits == |Create().queue| + 1
    ensures Execute(Create(), false, resolver).outcome == EmptyNoOp
    ensures Execute(Create(), false, resolver).next == Service([], 0)
  {
  }
}
