/** Sequential traces of the service, from construction on.

    A trace is the list of calls made to one service in the order they were
    made. The lemmas here are the invariants every trace keeps: the jobs taken
    so far followed by the jobs still queued are exactly the jobs transferred,
    in order (so jobs run first in, first out, each at most once); and the
    permits equal the queue length plus a surplus that starts at one and is
    spent by at most one execution that finds the queue empty.
 */
module Traces {
  import opened Jobs
  import opened RunService

  /** One call made to the service. */
  datatype Op =
    | TransferActionOp(body: Behaviour)
    | TransferFuncOp(param: TypeTag, body: Behaviour)
    | ExecuteOp(cancelled: bool, resolver: Resolver)

  /** The state after `op`. */
  function Apply(s: Service, op: Op): (t: Service) {
    match op
    case TransferActionOp(body) => TransferAction(s, body)
    case TransferFuncOp(param, body) => TransferFunc(s, param, body)
    case ExecuteOp(cancelled, resolver) => Execute(s, cancelled, resolver).next
  }

  /** The job `op` transfers, if it is a transfer. */
  function Pushed(op: Op): (jobs: seq<Job>) {
    match op
    case TransferActionOp(body) => [ActionJob(body)]
    case TransferFuncOp(param, body) => [FuncJob(param, body)]
    case ExecuteOp(_, _) => []
  }

  /** The job `op` takes off the queue of `s`, if any. */
  function Taken(s: Service, op: Op): (jobs: seq<Job>) {
    match op
    case ExecuteOp(cancelled, resolver) =>
      var st := Execute(s, cancelled, resolver);
      if st.outcome.Ran? then [st.outcome.job] else []
    case _ => []
  }

  /** Whether `op`, applied to `s`, took a permit and found the queue empty. */
  predicate FoundEmpty(s: Service, op: Op) {
    op.ExecuteOp? && Execute(s, op.cancelled, op.resolver).outcome.EmptyNoOp?
  }

  /** The state after a whole trace, starting from a fresh service. */
  function Run(ops: seq<Op>): (s: Service)
    decreases |ops|
  {
    if |ops| == 0 then Create() else Apply(Run(ops[..|ops| - 1]), ops[|ops| - 1])
  }

  /** Every job the trace transferred, in transfer order. */
  function Transferred(ops: seq<Op>): (jobs: seq<Job>)
    decreases |ops|
  {
    if |ops| == 0 then [] else Transferred(ops[..|ops| - 1]) + Pushed(ops[|ops| - 1])
  }

  /** Every job the trace's executions took off the queue (and so invoked,
      or tried to), in the order they were taken. */
  function Dequeued(ops: seq<Op>): (jobs: seq<Job>)
    decreases |ops|
  {
    if |ops| == 0 then []
    else Dequeued(ops[..|ops| - 1]) + Taken(Run(ops[..|ops| - 1]), ops[|ops| - 1])
  }

  /** How many of the trace's executions took a permit and found the queue
      empty. */
  function EmptyNoOps(ops: seq<Op>): (n: nat)
    decreases |ops|
  {
    if |ops| == 0 then 0
    else EmptyNoOps(ops[..|ops| - 1]) + (if FoundEmpty(Run(ops[..|ops| - 1]), ops[|ops| - 1]) then 1 else 0)
  }

  /** One call keeps the trace invariants: what it takes off the head plus
      what it leaves queued is the old queue plus what it transfers, and a
      permit goes away without a job only when the queue was empty. */
  lemma ApplyKeepsBalance(s: Service, op: Op)
    ensures Taken(s, op) + Apply(s, op).queue == s.queue + Pushed(op)
    ensures FoundEmpty(s, op) ==> s.queue == [] && Apply(s, op).permits + 1 == s.permits
    ensures !FoundEmpty(s, op) ==>
              Apply(s, op).permits - |Apply(s, op).queue| == s.permits - |s.queue|
  {
  }

  /** Sequence bookkeeping for one step of `TraceInvariant`. */
  lemma Rebalance<T>(done: seq<T>, taken: seq<T>, left: seq<T>, queued: seq<T>, pushed: seq<T>)
    requires taken + left == queued + pushed
    ensures (done + taken) + left == (done + queued) + pushed
  {
    assert (done + taken) + left == done + (taken + left);
    assert (done + queued) + pushed == done + (queued + pushed);
  }

  /** The invariants of every trace. */
  lemma {:induction false} TraceInvariant(ops: seq<Op>)
    ensures Dequeued(ops) + Run(ops).queue == Transferred(ops)
    ensures EmptyNoOps(ops) <= 1
    ensures Run(ops).permits == |Run(ops).queue| + 1 - EmptyNoOps(ops)
    decreases |ops|
  {
    if |ops| > 0 {
      var prefix, op := ops[..|ops| - 1], ops[|ops| - 1];
      TraceInvariant(prefix);
      var s := Run(prefix);
      ApplyKeepsBalance(s, op);
      assert Run(ops) == Apply(s, op);
      assert Dequeued(ops) == Dequeued(prefix) + Taken(s, op);
      assert Transferred(ops) == Transferred(prefix) + Pushed(op);
      assert EmptyNoOps(ops) == EmptyNoOps(prefix) + (if FoundEmpty(s, op) then 1 else 0);
      Rebalance(Dequeued(prefix), Taken(s, op), Apply(s, op).queue, s.queue, Pushed(op));
    }
  }

  /** Jobs are taken first in, first out, and each transferred job is taken
      (and so invoked) at most once: the taken jobs are a prefix of the
      transferred ones, position by position. */
  lemma {:induction false} FifoAtMostOnce(ops: seq<Op>)
    ensures |Dequeued(ops)| <= |Transferred(ops)|
    ensures Dequeued(ops) == Transferred(ops)[..|Dequeued(ops)|]
    ensures Run(ops).queue == Transferred(ops)[|Dequeued(ops)|..]
  {
    TraceInvariant(ops);
  }

  /** No queued job is ever left without a permit, and there is at most one
      permit more than there are queued jobs. */
  lemma {:induction false} PermitsCoverQueue(ops: seq<Op>)
    ensures |Run(ops).queue| <= Run(ops).permits <= |Run(ops).queue| + 1
  {
    TraceInvariant(ops);
  }

  /** Once the surplus permit is spent, no execution ever again finds the
      queue empty after taking a permit: every execution that is not
      cancelled takes a job. */
  lemma {:induction false} NoSecondEmptyNoOp(ops: seq<Op>, cancelled: bool, resolver: Resolver)
    requires EmptyNoOps(ops) == 1
    ensures !Execute(Run(ops), cancelled, resolver).outcome.EmptyNoOp?
  {
    TraceInvariant(ops);
  }

  /** What a run of executions did: the state it leaves, the jobs it took
      off the queue, and how each taken job was dispatched, in order. */
  datatype Drained = Drained(last: Service, taken: seq<Job>, dispatched: seq<Dispatched>)

  /** `k` uncancelled executions in a row from `s`, each creating a scope
      that resolves through `resolver`. */
  function ExecuteRepeatedly(s: Service, k: nat, resolver: Resolver): (r: Drained)
    decreases k
  {
    if k == 0 then Drained(s, [], [])
    else
      var st := Execute(s, false, resolver);
      var rest := ExecuteRepeatedly(st.next, k - 1, resolver);
      if st.outcome.Ran? then
        Drained(rest.last, [st.outcome.job] + rest.taken, [st.outcome.dispatch] + rest.dispatched)
      else rest
  }

  /** From a state where every queued job has a permit, `k` uncancelled
      executions (`k` at most the queue length) take exactly the first `k`
      queued jobs, in order, one permit each, and dispatch each of them once,
      whatever those jobs do. */
  lemma {:induction false} DrainPrefix(s: Service, k: nat, resolver: Resolver)
    requires |s.queue| <= s.permits
    requires k <= |s.queue|
    ensures ExecuteRepeatedly(s, k, resolver).taken == s.queue[..k]
    ensures |ExecuteRepeatedly(s, k, resolver).dispatched| == k
    ensures forall i :: 0 <= i < k ==>
              ExecuteRepeatedly(s, k, resolver).dispatched[i] == Dispatch(s.queue[i], resolver)
    ensures ExecuteRepeatedly(s, k, resolver).last.queue == s.queue[k..]
    ensures ExecuteRepeatedly(s, k, resolver).last.permits == s.permits - k
    decreases k
  {
    if k > 0 {
      var next := Execute(s, false, resolver).next;
      DrainPrefix(next, k - 1, resolver);
      assert next.queue == s.queue[1..];
      assert next.queue[k - 1..] == s.queue[k..];
      assert s.queue[..k] == [s.queue[0]] + next.queue[..k - 1];
      var r := ExecuteRepeatedly(s, k, resolver);
      var rest := ExecuteRepeatedly(next, k - 1, resolver);
      assert r.dispatched == [Dispatch(s.queue[0], resolver)] + rest.dispatched;
      forall i | 0 < i < k
        ensures r.dispatched[i] == Dispatch(s.queue[i], resolver)
      {
        assert r.dispatched[i] == rest.dispatched[i - 1];
        assert next.queue[i - 1] == s.queue[i];
      }
    }
  }

  /** After any trace, as many uncancelled executions as there are queued
      jobs dequeue every job transferred and not yet taken, each exactly once
      and in transfer order, and dispatch each of them once against the scope
      (so a one-parameter job's body runs iff its type resolves); failing
      jobs hold none of them back. */
  lemma {:induction false} EveryTransferRunsOnce(ops: seq<Op>, resolver: Resolver)
    ensures var drained := ExecuteRepeatedly(Run(ops), |Run(ops).queue|, resolver);
            Dequeued(ops) + drained.taken == Transferred(ops) && drained.last.queue == []
    ensures var drained := ExecuteRepeatedly(Run(ops), |Run(ops).queue|, resolver);
            |drained.dispatched| == |drained.taken| &&
            forall i :: 0 <= i < |drained.taken| ==>
              drained.dispatched[i] == Dispatch(drained.taken[i], resolver)
  {
    TraceInvariant(ops);
    var s := Run(ops);
    DrainPrefix(s, |s.queue|, resolver);
    assert s.queue[..|s.queue|] == s.queue;
  }
}
