/** The worker pool of internal/worker/pool.go on top of the engine machine: submitters, a bounded
    task channel, workers running pre-processing, prediction and post-processing, one-place reply
    channels, and Shutdown.  A task's number is also the number of its Predict call. */
module WorkerPool {
  import opened Values
  import opened Inference
  import E = SessionPool

  const CAPACITY := 100

  /** A reply channel with room for one value: everything ever sent, and how much was received. */
  datatype Chan<T> = Chan(sent: seq<T>, taken: nat, closed: bool)

  function NewChan<T>(): Chan<T> {
    Chan([], 0, false)
  }

  datatype Task = Task(id: string, version: string, input: Value, result: Chan<Prediction>, error: Chan<Error>)

  datatype Worker =
    | Idle
    | Exited
    | Pre(task: nat)
    | Ask(task: nat, input: Value)
    | Await(task: nat)
    | Post(task: nat, prediction: Prediction)
    | Reply(task: nat, answer: Result<Prediction>)

  predicate Busy(w: Worker) {
    !w.Idle? && !w.Exited?
  }

  /** pending: submitters at the select of Submit.  ended: how the wait of Shutdown ended, true when it
      saw all workers gone.  fault: a send on, or a second close of, a closed channel. */
  datatype Pool = Pool(tasks: map<nat, Task>, pending: set<nat>, queue: seq<nat>, closed: bool, cancelled: bool,
                       workers: seq<Worker>, ended: Option<bool>, fault: bool)

  datatype System = System(eng: E.State, pool: Pool)

  /** The pipeline is fixed for a run; None is a pool without one. */
  type Pipe = Option<Value -> Result<Value>>

  function RunPipe(pipe: Pipe, v: Value): Result<Value> {
    match pipe
    case None => Ok(v)
    case Some(f) => f(v)
  }

  /** What the post-processing half of the chain makes of the engine's answer. */
  function Finish(pipe: Pipe, answer: Result<Prediction>): Result<Prediction> {
    match answer
    case Err(e) => Err(e)
    case Ok(p) =>
      match RunPipe(pipe, p.output)
      case Err(e) => Err(e)
      case Ok(o) => Ok(p.(output := o))
  }

  datatype Step =
    | Engine(a: E.Step)
    | Submit(t: nat, id: string, version: string, input: Value)
    | Enqueue(t: nat)
    | Refuse(t: nat)
    | Take(w: nat)
    | Exit(w: nat)
    | RunPre(w: nat)
    | AskEngine(w: nat)
    | Collect(w: nat)
    | RunPost(w: nat)
    | Send(w: nat)
    | ReceiveResult(t: nat)
    | ReceiveError(t: nat)
    | Cancel
    | CloseTasks
    | EndShutdown(graceful: bool)

  function SetWorker(s: System, w: nat, x: Worker): System
    requires w < |s.pool.workers|
  {
    s.(pool := s.pool.(workers := s.pool.workers[w := x]))
  }

  function SetTask(s: System, t: nat, task: Task): System {
    s.(pool := s.pool.(tasks := s.pool.tasks[t := task]))
  }

  function Panic(s: System): System {
    s.(pool := s.pool.(fault := true))
  }

  /** A send followed by close; None when the one-place buffer is full. */
  function SendAndClose<T>(ch: Chan<T>, v: T): Option<Chan<T>>
    requires !ch.closed
  {
    if |ch.sent| - ch.taken >= 1 then None else Some(Chan(ch.sent + [v], ch.taken, true))
  }

  function SendReply(s: System, w: nat, t: nat, answer: Result<Prediction>): Option<System>
    requires w < |s.pool.workers| && t in s.pool.tasks
  {
    var task := s.pool.tasks[t];
    match answer
    case Ok(p) =>
      if task.result.closed then Some(Panic(s))
      else (match SendAndClose(task.result, p)
            case None => None
            case Some(ch) => Some(SetWorker(SetTask(s, t, task.(result := ch)), w, Idle)))
    case Err(e) =>
      if task.error.closed then Some(Panic(s))
      else (match SendAndClose(task.error, e)
            case None => None
            case Some(ch) => Some(SetWorker(SetTask(s, t, task.(error := ch)), w, Idle)))
  }

  predicate IsWorkerStep(a: Step) {
    a.Take? || a.Exit? || a.RunPre? || a.AskEngine? || a.Collect? || a.RunPost? || a.Send?
  }

  function TakeNext(s: System, w: nat): Option<System>
    requires w < |s.pool.workers|
  {
    if !s.pool.workers[w].Idle? || s.pool.queue == [] then None
    else Some(SetWorker(s.(pool := s.pool.(queue := s.pool.queue[1..])), w, Pre(s.pool.queue[0])))
  }

  function PreNext(s: System, pipe: Pipe, w: nat): Option<System>
    requires w < |s.pool.workers|
  {
    var x := s.pool.workers[w];
    if !x.Pre? || x.task !in s.pool.tasks then None
    else match RunPipe(pipe, s.pool.tasks[x.task].input)
      case Err(e) => Some(SetWorker(s, w, Reply(x.task, Err(e))))
      case Ok(v) => Some(SetWorker(s, w, Ask(x.task, v)))
  }

  function AskNext(s: System, w: nat): Option<System>
    requires w < |s.pool.workers|
  {
    var x := s.pool.workers[w];
    if !x.Ask? || x.task !in s.pool.tasks then None
    else match E.Next(s.eng, E.Begin(x.task, s.pool.tasks[x.task].id, s.pool.tasks[x.task].version, x.input))
      case None => None
      case Some(eng) => Some(SetWorker(s.(eng := eng), w, Await(x.task)))
  }

  function CollectNext(s: System, w: nat): Option<System>
    requires w < |s.pool.workers|
  {
    var x := s.pool.workers[w];
    if !x.Await? || x.task !in s.eng.calls || !s.eng.calls[x.task].phase.Finished? then None
    else match s.eng.calls[x.task].phase.result
      case Err(e) => Some(SetWorker(s, w, Reply(x.task, Err(e))))
      case Ok(p) => Some(SetWorker(s, w, Post(x.task, p)))
  }

  /** A step of worker w. */
  function WorkerNext(s: System, pipe: Pipe, a: Step, w: nat): Option<System>
    requires w < |s.pool.workers| && IsWorkerStep(a)
  {
    var x := s.pool.workers[w];
    match a
    case Take(_) => TakeNext(s, w)
    case Exit(_) =>
      if x.Idle? && (s.pool.cancelled || (s.pool.closed && s.pool.queue == []))
      then Some(SetWorker(s, w, Exited)) else None
    case RunPre(_) => PreNext(s, pipe, w)
    case AskEngine(_) => AskNext(s, w)
    case Collect(_) => CollectNext(s, w)
    case RunPost(_) =>
      if x.Post? then Some(SetWorker(s, w, Reply(x.task, Finish(pipe, Ok(x.prediction))))) else None
    case Send(_) =>
      if x.Reply? && x.task in s.pool.tasks then SendReply(s, w, x.task, x.answer) else None
  }

  /** Engine steps pass through.  Calls begun directly are other clients'; the context of a task's
      call is done only once the pool is cancelled. */
  predicate Passes(s: System, a: E.Step) {
    match a
    case Begin(c, _, _, _) => c !in s.pool.tasks
    case CancelCtx(c) => c in s.pool.tasks ==> s.pool.cancelled
    case _ => true
  }

  /** Refusing a task after shutdown: one error, then both channels are closed. */
  function RefuseTask(s: System, t: nat): Option<System>
    requires t in s.pool.tasks
  {
    var task := s.pool.tasks[t];
    if task.error.closed then Some(Panic(s))
    else match SendAndClose(task.error, ContextDone)
      case None => None
      case Some(ch) =>
        if task.result.closed then Some(Panic(s))
        else Some(SetTask(s.(pool := s.pool.(pending := s.pool.pending - {t})), t,
                          task.(error := ch, result := task.result.(closed := true))))
  }

  /** The select that Shutdown ends with: all workers have returned, or the context is done, which it
      is since Shutdown cancelled it. */
  predicate MayEnd(p: Pool, graceful: bool) {
    p.closed && p.ended.None?
    && if graceful then forall w :: 0 <= w < |p.workers| ==> p.workers[w].Exited? else p.cancelled
  }

  function Taken<T>(ch: Chan<T>): Chan<T> {
    ch.(taken := ch.taken + 1)
  }

  function SubmitNext(s: System, a: Step): Option<System> {
    match a
    case Submit(t, id, version, input) =>
      if t in s.pool.tasks || t in s.eng.calls then None
      else Some(s.(pool := s.pool.(tasks := s.pool.tasks[t := Task(id, version, input, NewChan(), NewChan())],
                                   pending := s.pool.pending + {t})))
    case Enqueue(t) =>
      if t !in s.pool.pending then None
      else if s.pool.closed then Some(Panic(s))
      else if |s.pool.queue| < CAPACITY
      then Some(s.(pool := s.pool.(pending := s.pool.pending - {t}, queue := s.pool.queue + [t])))
      else None
    case Refuse(t) =>
      if t in s.pool.pending && s.pool.cancelled && t in s.pool.tasks then RefuseTask(s, t) else None
    case ReceiveResult(t) =>
      if t in s.pool.tasks && s.pool.tasks[t].result.taken < |s.pool.tasks[t].result.sent|
      then Some(SetTask(s, t, s.pool.tasks[t].(result := Taken(s.pool.tasks[t].result))))
      else None
    case ReceiveError(t) =>
      if t in s.pool.tasks && s.pool.tasks[t].error.taken < |s.pool.tasks[t].error.sent|
      then Some(SetTask(s, t, s.pool.tasks[t].(error := Taken(s.pool.tasks[t].error))))
      else None
    case Cancel => Some(s.(pool := s.pool.(cancelled := true)))
    case CloseTasks =>
      if !s.pool.cancelled then None
      else if s.pool.closed then Some(Panic(s)) else Some(s.(pool := s.pool.(closed := true)))
    case EndShutdown(graceful) =>
      if MayEnd(s.pool, graceful) then Some(s.(pool := s.pool.(ended := Some(graceful)))) else None
    case _ => None
  }

  /** One step of the whole service; None when it is not enabled. */
  function Next(s: System, pipe: Pipe, a: Step): Option<System> {
    if s.pool.fault || s.eng.fault then None
    else if a.Engine? then
      if Passes(s, a.a) && E.Next(s.eng, a.a).Some? then Some(s.(eng := E.Next(s.eng, a.a).value)) else None
    else if IsWorkerStep(a) then
      if a.w < |s.pool.workers| then WorkerNext(s, pipe, a, a.w) else None
    else SubmitNext(s, a)
  }

  function Run(s: System, pipe: Pipe, steps: seq<Step>): Option<System>
    decreases |steps|
  {
    if steps == [] then Some(s)
    else match Next(s, pipe, steps[0])
      case None => None
      case Some(s1) => Run(s1, pipe, steps[1..])
  }

  /** A pool as NewWorkerPool leaves it, on any engine. */
  ghost predicate Fresh(s: System) {
    s.pool.tasks == map[] && s.pool.pending == {} && s.pool.queue == [] && !s.pool.closed && !s.pool.cancelled
    && s.pool.ended.None? && !s.pool.fault && forall w :: 0 <= w < |s.pool.workers| ==> s.pool.workers[w].Idle?
  }
}
