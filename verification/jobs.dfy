/** Queued jobs and the dispatch protocol that runs one of them.

    A job is the uninvoked callable that a caller hands to the service. The
    C# service keeps it as a `LambdaExpression` and discovers its shape by
    reflection; here the shape is a tag: how many parameters it takes (zero or
    one, with the declared type of the one), and whether its return type is a
    task that must be awaited. What the body does when invoked is abstract: it
    throws, or it returns (and, when it returns a task, that task completes or
    faults).
 */
module Jobs {

  datatype Option<+T> = None | Some(value: T)

  /** The declared type of a one-parameter job's parameter. */
  datatype TypeTag = TypeTag(name: string)

  /** An object handed out by a dependency scope. */
  datatype Instance = Instance(handle: nat)

  /** What a dependency scope can resolve: a type that is not a key is not
      registered, and asking for it is a resolution error. */
  type Resolver = map<TypeTag, Instance>

  /** How the task a job returns ends, once it is awaited. `Faults` covers a
      task that fails or is cancelled, and a null task. */
  datatype Completion = Completes | Faults

  /** What invoking a job's body does. */
  datatype Behaviour = Throws | Returns(completion: Completion)

  datatype Job =
    | NoArg(awaitable: bool, body: Behaviour)
    | OneArg(param: TypeTag, awaitable: bool, body: Behaviour)

  /** The arguments a job was invoked with. */
  datatype Args = NoArgs | OneArgOf(instance: Instance)

  /** Everything the service catches and logs. */
  datatype Failure =
    | WaitCancelled
    | ResolutionFailed(param: TypeTag)
    | JobThrew
    | TaskFaulted

  /** What dispatching one job did: the arguments it was invoked with (None
      when it was never invoked), whether its result was awaited, and the
      failure, if any, that escaped it. */
  datatype Dispatched = Dispatched(invokedWith: Option<Args>, awaited: bool, failure: Option<Failure>)

  /** The shape the service's `Transfer(Action)` overload enqueues. */
  function ActionJob(body: Behaviour): (job: Job) {
    NoArg(false, body)
  }

  /** The shape the service's `Transfer<T>(Func<T, Task>)` overload enqueues. */
  function FuncJob(param: TypeTag, body: Behaviour): (job: Job) {
    OneArg(param, true, body)
  }

  /** The argument list a job is invoked with, resolved from `resolver`; None
      when the job's parameter type cannot be resolved. */
  function ResolveArgs(job: Job, resolver: Resolver): (args: Option<Args>) {
    match job
    case NoArg(_, _) => Some(NoArgs)
    case OneArg(param, _, _) =>
      if param in resolver then Some(OneArgOf(resolver[param])) else None
  }

  /** Runs one dequeued job against a scope's resolver. */
  function Dispatch(job: Job, resolver: Resolver): (d: Dispatched)
    // a zero-parameter job is always invoked, with no argument
    ensures job.NoArg? ==> d.invokedWith == Some(NoArgs)
    // a one-parameter job is invoked iff its parameter type resolves, and then
    // with exactly the resolved instance
    ensures job.OneArg? ==> (d.invokedWith.Some? <==> job.param in resolver)
    ensures job.OneArg? && job.param in resolver ==>
              d.invokedWith == Some(OneArgOf(resolver[job.param]))
    // the result is awaited iff the job returns a task and the call returned one
    ensures d.awaited <==> d.invokedWith.Some? && job.awaitable && job.body.Returns?
    // an unresolvable parameter means the body never runs
    ensures d.invokedWith.None? ==> job.OneArg? && d.failure == Some(ResolutionFailed(job.param))
    // once invoked, the failure is the body's throw, or the awaited task's fault
    ensures d.invokedWith.Some? ==>
              (d.failure == Some(JobThrew) <==> job.body.Throws?)
    ensures d.invokedWith.Some? ==>
              (d.failure == Some(TaskFaulted) <==> d.awaited && job.body.completion == Faults)
    ensures d.invokedWith.Some? ==>
              (d.failure.None? <==> job.body.Returns? && !(d.awaited && job.body.completion == Faults))
    // a fault of a task nobody awaits goes unobserved
    ensures !job.awaitable ==> d.failure != Some(TaskFaulted)
    ensures d.failure != Some(WaitCancelled)
  {
    match ResolveArgs(job, resolver)
    case None => Dispatched(None, false, Some(ResolutionFailed(job.param)))
    case Some(args) => Invoke(job, args)
  }

  /** Invokes a job's body with `args`, awaiting the result iff the job
      returns a task. */
  function Invoke(job: Job, args: Args): (d: Dispatched) {
    match job.body
    case Throws => Dispatched(Some(args), false, Some(JobThrew))
    case Returns(completion) =>
      if !job.awaitable then Dispatched(Some(args), false, None)
      else if completion == Faults then Dispatched(Some(args), true, Some(TaskFaulted))
      else Dispatched(Some(args), true, None)
  }

  /** An `Action` job is invoked with no argument, never awaited, and fails
      only by throwing. */
  lemma ActionJobDispatch(body: Behaviour, resolver: Resolver)
    ensures Dispatch(ActionJob(body), resolver).invokedWith == Some(NoArgs)
    ensures !Dispatch(ActionJob(body), resolver).awaited
    ensures Dispatch(ActionJob(body), resolver).failure.Some? <==> body.Throws?
  {
  }

  /** A `Func<T, Task>` job runs iff `T` resolves, is then awaited unless it
      threw, and succeeds iff it resolved, returned and its task completed. */
  lemma FuncJobDispatch(param: TypeTag, body: Behaviour, resolver: Resolver)
    ensures Dispatch(FuncJob(param, body), resolver).invokedWith.Some? <==> param in resolver
    ensures Dispatch(FuncJob(param, body), resolver).awaited <==> param in resolver && body.Returns?
    ensures Dispatch(FuncJob(param, body), resolver).failure.None? <==>
              param in resolver && body == Returns(Completes)
  {
  }
}
