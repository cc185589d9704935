/** The claims made for the service: each reply is its own task's, one reply at most, nothing lost,
    and where a panic can come from. */
module WorkerPoolTheorems {
  import opened Values
  import opened Inference
  import opened ModelKeys
  import opened Counting
  import E = SessionPool
  import EI = SessionPoolInvariant
  import EL = SessionPoolLinearization
  import P = Pipeline
  import PL = PipelineLaws
  import opened WorkerPool
  import opened WorkerPoolInvariant

  lemma FreshHolds(s: System, pipe: Pipe)
    requires Fresh(s) && EI.Inv(s.eng)
    ensures Inv(s, pipe)
  {
  }

  // ---- Replies ----

  /** In every run a task gets at most one value over both its channels, and it is what the chain
      makes of the task's own engine call, or the refusal after a shutdown. */
  lemma RepliesComeFromOwnCalls(s: System, pipe: Pipe, steps: seq<Step>, t: nat)
    requires Fresh(s) && EI.Inv(s.eng) && Run(s, pipe, steps).Some? && t in Run(s, pipe, steps).value.pool.tasks
    ensures var s' := Run(s, pipe, steps).value;
            var task := s'.pool.tasks[t];
            && Inv(s', pipe) && |task.result.sent| + |task.error.sent| <= 1
            && (task.result.sent != [] ==> ChainGives(s', pipe, t, Ok(task.result.sent[0])))
            && (task.error.sent != [] ==> ChainGives(s', pipe, t, Err(task.error.sent[0]))
                                          || (s'.pool.cancelled && task.error.sent[0] == ContextDone))
  {
    FreshHolds(s, pipe);
    RunKeepsInv(s, pipe, steps);
    var s' := Run(s, pipe, steps).value;
    var task := s'.pool.tasks[t];
    if t in s'.pool.pending || t in s'.pool.queue || InHands(s', t) {
      assert Untouched(task);
    } else {
      assert ReplyOk(s', pipe, t);
    }
  }

  /** The engine step that a step of the service makes, if any. */
  function EngineOf(s: System, a: Step): Option<E.Step> {
    if a.Engine? then Some(a.a)
    else if a.AskEngine? && a.w < |s.pool.workers| && s.pool.workers[a.w].Ask?
            && s.pool.workers[a.w].task in s.pool.tasks then
      var x := s.pool.workers[a.w];
      Some(E.Begin(x.task, s.pool.tasks[x.task].id, s.pool.tasks[x.task].version, x.input))
    else None
  }

  /** No other step touches the engine. */
  lemma StepOnEngine(s: System, pipe: Pipe, a: Step)
    requires Next(s, pipe, a).Some?
    ensures match EngineOf(s, a)
            case None => Next(s, pipe, a).value.eng == s.eng
            case Some(x) => E.Next(s.eng, x) == Some(Next(s, pipe, a).value.eng)
  {
    if a.AskEngine? {
      assert AskNext(s, a.w).Some?;
    }
  }

  /** The run of the engine inside a run of the service. */
  function EngineSteps(s: System, pipe: Pipe, steps: seq<Step>): seq<E.Step>
    decreases |steps|
  {
    if steps == [] || Next(s, pipe, steps[0]).None? then []
    else
      var rest := EngineSteps(Next(s, pipe, steps[0]).value, pipe, steps[1..]);
      match EngineOf(s, steps[0])
      case None => rest
      case Some(x) => [x] + rest
  }

  lemma {:induction false} EngineRuns(s: System, pipe: Pipe, steps: seq<Step>)
    requires Run(s, pipe, steps).Some?
    ensures E.Run(s.eng, EngineSteps(s, pipe, steps)) == Some(Run(s, pipe, steps).value.eng)
    decreases |steps|
  {
    if steps != [] {
      var s1 := Next(s, pipe, steps[0]).value;
      StepOnEngine(s, pipe, steps[0]);
      EngineRuns(s1, pipe, steps[1..]);
      var x := EngineOf(s, steps[0]);
      if x.Some? {
        assert ([x.value] + EngineSteps(s1, pipe, steps[1..]))[1..] == EngineSteps(s1, pipe, steps[1..]);
      }
    }
  }

  /** Step k of the service makes step i of the engine. */
  ghost predicate Makes(s: System, pipe: Pipe, steps: seq<Step>, k: nat, i: nat) {
    && k < |steps| && i < |EngineSteps(s, pipe, steps)| && Run(s, pipe, steps[..k]).Some?
    && var mid := Run(s, pipe, steps[..k]).value;
       EngineOf(mid, steps[k]) == Some(EngineSteps(s, pipe, steps)[i])
       && E.Run(s.eng, EngineSteps(s, pipe, steps)[..i]) == Some(mid.eng)
  }

  lemma FirstEngineStep(s: System, pipe: Pipe, steps: seq<Step>)
    requires steps != [] && Next(s, pipe, steps[0]).Some?
    ensures var rest := EngineSteps(Next(s, pipe, steps[0]).value, pipe, steps[1..]);
            EngineSteps(s, pipe, steps)
            == match EngineOf(s, steps[0]) case None => rest case Some(x) => [x] + rest
  {
  }

  lemma {:induction false} PrefixRun(s: System, pipe: Pipe, steps: seq<Step>, k: nat)
    requires k + 1 < |steps| && Next(s, pipe, steps[0]).Some?
    ensures Run(s, pipe, steps[..k + 1]) == Run(Next(s, pipe, steps[0]).value, pipe, steps[1..][..k])
  {
    assert steps[..k + 1][1..] == steps[1..][..k] && steps[..k + 1][0] == steps[0];
  }

  lemma {:induction false} EnginePrefixRun(e: E.State, x: E.Step, rest: seq<E.Step>, i: nat)
    requires i <= |rest| && E.Next(e, x).Some?
    ensures E.Run(e, ([x] + rest)[..i + 1]) == E.Run(E.Next(e, x).value, rest[..i])
  {
    var all := [x] + rest;
    assert all[..i + 1][1..] == rest[..i] && all[..i + 1][0] == x;
  }

  lemma {:induction false} MadeLater(s: System, pipe: Pipe, steps: seq<Step>, k: nat, i: nat)
    requires steps != [] && Next(s, pipe, steps[0]).Some?
    requires Makes(Next(s, pipe, steps[0]).value, pipe, steps[1..], k, i)
    ensures Makes(s, pipe, steps, k + 1, if EngineOf(s, steps[0]).Some? then i + 1 else i)
  {
    var s1, x := Next(s, pipe, steps[0]).value, EngineOf(s, steps[0]);
    StepOnEngine(s, pipe, steps[0]);
    FirstEngineStep(s, pipe, steps);
    PrefixRun(s, pipe, steps, k);
    if x.Some? {
      EnginePrefixRun(s.eng, x.value, EngineSteps(s1, pipe, steps[1..]), i);
    }
  }

  lemma {:induction false} EveryEngineStepIsMade(s: System, pipe: Pipe, steps: seq<Step>, i: nat) returns (k: nat)
    requires Run(s, pipe, steps).Some? && i < |EngineSteps(s, pipe, steps)|
    ensures Makes(s, pipe, steps, k, i)
    decreases |steps|
  {
    var x := EngineOf(s, steps[0]);
    if x.Some? && i == 0 {
      k := 0;
      assert steps[..0] == [] && EngineSteps(s, pipe, steps)[..0] == [];
    } else {
      var m := EveryEngineStepIsMade(Next(s, pipe, steps[0]).value, pipe, steps[1..], if x.Some? then i - 1 else i);
      MadeLater(s, pipe, steps, m, if x.Some? then i - 1 else i);
      k := m + 1;
    }
  }

  lemma OnlySendsTouchTasks(s: System, pipe: Pipe, a: Step)
    requires IsWorkerStep(a) && !a.Send? && a.w < |s.pool.workers| && WorkerNext(s, pipe, a, a.w).Some?
    ensures WorkerNext(s, pipe, a, a.w).value.pool.tasks == s.pool.tasks
  {
  }

  lemma SendsKeepRequests(s: System, w: nat, u: nat, answer: Result<Prediction>)
    requires w < |s.pool.workers| && u in s.pool.tasks && SendReply(s, w, u, answer).Some?
    ensures var s' := SendReply(s, w, u, answer).value;
            s'.pool.tasks.Keys == s.pool.tasks.Keys
            && forall t :: t in s.pool.tasks ==> SameRequest(s.pool.tasks[t], s'.pool.tasks[t])
  {
  }

  lemma WorkersKeepRequests(s: System, pipe: Pipe, a: Step)
    requires IsWorkerStep(a) && a.w < |s.pool.workers| && WorkerNext(s, pipe, a, a.w).Some?
    ensures var s' := WorkerNext(s, pipe, a, a.w).value;
            s'.pool.tasks.Keys == s.pool.tasks.Keys
            && forall t :: t in s.pool.tasks ==> SameRequest(s.pool.tasks[t], s'.pool.tasks[t])
  {
    if a.Send? {
      SendsKeepRequests(s, a.w, s.pool.workers[a.w].task, s.pool.workers[a.w].answer);
    } else {
      OnlySendsTouchTasks(s, pipe, a);
    }
  }

  lemma OthersAddNoTask(s: System, a: Step)
    requires !a.Submit? && SubmitNext(s, a).Some?
    ensures SubmitNext(s, a).value.pool.tasks.Keys == s.pool.tasks.Keys
  {
  }

  lemma OnlySubmitAdds(s: System, pipe: Pipe, a: Step)
    requires Next(s, pipe, a).Some? && !a.Submit?
    ensures Next(s, pipe, a).value.pool.tasks.Keys == s.pool.tasks.Keys
  {
    if IsWorkerStep(a) {
      WorkersKeepRequests(s, pipe, a);
    } else if !a.Engine? {
      OthersAddNoTask(s, a);
    }
  }

  lemma StepLeavesOldCalls(s: System, pipe: Pipe, a: Step, c: nat)
    requires Next(s, pipe, a).Some? && c in s.eng.calls && c !in s.pool.tasks
    ensures c in Next(s, pipe, a).value.eng.calls && c !in Next(s, pipe, a).value.pool.tasks
  {
    StepOnEngine(s, pipe, a);
    if EngineOf(s, a).Some? {
      EngineContinues(s.eng, EngineOf(s, a).value);
    }
    if !a.Submit? {
      OnlySubmitAdds(s, pipe, a);
    }
  }

  /** A call that other clients have begun never becomes a task's. */
  lemma {:induction false} OldCallsAreNoTasks(s: System, pipe: Pipe, steps: seq<Step>, c: nat)
    requires Run(s, pipe, steps).Some? && c in s.eng.calls && c !in s.pool.tasks
    ensures c !in Run(s, pipe, steps).value.pool.tasks
    decreases |steps|
  {
    if steps != [] {
      StepLeavesOldCalls(s, pipe, steps[0], c);
      OldCallsAreNoTasks(Next(s, pipe, steps[0]).value, pipe, steps[1..], c);
    }
  }

  /** What the pool sends for a prediction: its first error, or the model's id with the post-processed output. */
  ghost predicate PostProcessed(pipe: Pipe, predicted: Result<Prediction>, answer: Result<Prediction>) {
    match predicted
    case Err(e) => answer == Err(e)
    case Ok(p) =>
      match pipe
      case None => answer == Ok(p)
      case Some(f) =>
        match f(p.output)
        case Err(e) => answer == Err(e)
        case Ok(o) => answer == Ok(Prediction(p.modelId, o))
  }

  /** Step k of the run is the lookup of task t's call, with input v, and answer is what the chain makes of
      the registry's answer at that moment, or of the ended context. */
  ghost predicate RepliedFrom(s: System, pipe: Pipe, steps: seq<Step>, t: nat, v: Value,
                              answer: Result<Prediction>, k: nat)
    requires Run(s, pipe, steps).Some? && t in Run(s, pipe, steps).value.pool.tasks
  {
    var end := Run(s, pipe, steps).value;
    var task := end.pool.tasks[t];
    && k < |steps| && steps[k] == Engine(E.Lookup(t)) && Run(s, pipe, steps[..k]).Some?
    && (PostProcessed(pipe, EL.Answer(Run(s, pipe, steps[..k]).value.eng, task.id, task.version, v), answer)
        || (end.pool.cancelled && answer == Err(ContextDone)))
  }

  /** The engine was asked for the task's own model with input v, and answer comes from that call. */
  ghost predicate AskedWith(s: System, pipe: Pipe, steps: seq<Step>, t: nat, v: Value, answer: Result<Prediction>)
    requires Run(s, pipe, steps).Some? && t in Run(s, pipe, steps).value.pool.tasks
  {
    var end := Run(s, pipe, steps).value;
    var task := end.pool.tasks[t];
    && IsCallFor(end, t, v)
    && match ModelKey(task.id, task.version)
       case Err(e) => answer == Err(e)
       case Ok(_) => exists k: nat :: RepliedFrom(s, pipe, steps, t, v, answer, k)
  }

  /** Task t's engine call is for the task's own model and carries input v. */
  predicate IsCallFor(s: System, t: nat, v: Value)
    requires t in s.pool.tasks
  {
    && t in s.eng.calls && s.eng.calls[t].input == v
    && s.eng.calls[t].id == s.pool.tasks[t].id && s.eng.calls[t].version == s.pool.tasks[t].version
  }

  /** The first error of the chain on the task's own input, or its post-processed prediction. */
  ghost predicate OwnReply(s: System, pipe: Pipe, steps: seq<Step>, t: nat, answer: Result<Prediction>)
    requires Run(s, pipe, steps).Some? && t in Run(s, pipe, steps).value.pool.tasks
  {
    var input := Run(s, pipe, steps).value.pool.tasks[t].input;
    match pipe
    case None => AskedWith(s, pipe, steps, t, input, answer)
    case Some(f) =>
      match f(input)
      case Err(e) => answer == Err(e)
      case Ok(v) => AskedWith(s, pipe, steps, t, v, answer)
  }

  lemma FinishSays(pipe: Pipe, predicted: Result<Prediction>)
    ensures PostProcessed(pipe, predicted, Finish(pipe, predicted))
  {
  }

  lemma CallIsOwn(s: System, pipe: Pipe, steps: seq<Step>, t: nat, v: Value, answer: Result<Prediction>)
    requires Fresh(s) && EI.Inv(s.eng) && Run(s, pipe, steps).Some? && t in Run(s, pipe, steps).value.pool.tasks
    requires IsCallFor(Run(s, pipe, steps).value, t, v)
    requires var phase := Run(s, pipe, steps).value.eng.calls[t].phase;
             phase.Finished? && PostProcessed(pipe, phase.result, answer)
    requires EngineOk(Run(s, pipe, steps).value)
    ensures AskedWith(s, pipe, steps, t, v, answer)
  {
    var end, es := Run(s, pipe, steps).value, EngineSteps(s, pipe, steps);
    var task := end.pool.tasks[t];
    if t in s.eng.calls { OldCallsAreNoTasks(s, pipe, steps, t); }
    EngineRuns(s, pipe, steps);
    EL.ConcurrentCallsAreSequential(s.eng, es, t);
    if ModelKey(task.id, task.version).Ok? {
      var i: nat :| EL.TakesEffectAt(s.eng, es, t, i);
      var k := EveryEngineStepIsMade(s, pipe, steps, i);
      assert RepliedFrom(s, pipe, steps, t, v, answer, k);
    }
  }

  lemma ChainIsOwn(s: System, pipe: Pipe, steps: seq<Step>, t: nat, answer: Result<Prediction>)
    requires Fresh(s) && EI.Inv(s.eng) && Run(s, pipe, steps).Some? && Inv(Run(s, pipe, steps).value, pipe)
    requires t in Run(s, pipe, steps).value.pool.tasks && ChainGives(Run(s, pipe, steps).value, pipe, t, answer)
    ensures OwnReply(s, pipe, steps, t, answer)
  {
    var end := Run(s, pipe, steps).value;
    var piped := RunPipe(pipe, end.pool.tasks[t].input);
    if piped.Ok? {
      FinishSays(pipe, end.eng.calls[t].phase.result);
      CallIsOwn(s, pipe, steps, t, piped.value, answer);
    }
  }

  /** In every run, with loads, unloads and a shutdown at any moment, a task gets at most one value over
      both its channels.  It is the first error of the chain on the task's own input, or the post-processed
      answer that the registry had for the pre-processed input at one moment of the run, or the error of the
      ended context; the only other value is the refusal after a shutdown. */
  lemma RepliesAreOwn(s: System, pipe: Pipe, steps: seq<Step>, t: nat)
    requires Fresh(s) && EI.Inv(s.eng) && Run(s, pipe, steps).Some? && t in Run(s, pipe, steps).value.pool.tasks
    ensures var end := Run(s, pipe, steps).value;
            var task := end.pool.tasks[t];
            && |task.result.sent| + |task.error.sent| <= 1
            && (task.result.sent != [] ==> OwnReply(s, pipe, steps, t, Ok(task.result.sent[0])))
            && (task.error.sent != [] ==> OwnReply(s, pipe, steps, t, Err(task.error.sent[0]))
                                          || (end.pool.cancelled && task.error.sent[0] == ContextDone))
  {
    RepliesComeFromOwnCalls(s, pipe, steps, t);
    var end := Run(s, pipe, steps).value;
    var task := end.pool.tasks[t];
    if task.result.sent != [] {
      ChainIsOwn(s, pipe, steps, t, Ok(task.result.sent[0]));
    } else if task.error.sent != [] && ChainGives(end, pipe, t, Err(task.error.sent[0])) {
      ChainIsOwn(s, pipe, steps, t, Err(task.error.sent[0]));
    }
  }

  // ---- Where tasks come from ----

  /** Step i of the run submitted this task with this request. */
  predicate SubmittedAt(steps: seq<Step>, t: nat, task: Task, i: nat) {
    i < |steps| && steps[i] == Submit(t, task.id, task.version, task.input)
  }

  lemma StepKeepsRequests(s: System, pipe: Pipe, a: Step, t: nat)
    requires Next(s, pipe, a).Some? && t in s.pool.tasks
    ensures t in Next(s, pipe, a).value.pool.tasks
            && SameRequest(s.pool.tasks[t], Next(s, pipe, a).value.pool.tasks[t])
  {
    if IsWorkerStep(a) {
      WorkersKeepRequests(s, pipe, a);
    }
  }

  lemma {:induction false} RunKeepsRequests(s: System, pipe: Pipe, steps: seq<Step>, t: nat)
    requires Run(s, pipe, steps).Some? && t in s.pool.tasks
    ensures t in Run(s, pipe, steps).value.pool.tasks
            && SameRequest(s.pool.tasks[t], Run(s, pipe, steps).value.pool.tasks[t])
    decreases |steps|
  {
    if steps != [] {
      StepKeepsRequests(s, pipe, steps[0], t);
      RunKeepsRequests(Next(s, pipe, steps[0]).value, pipe, steps[1..], t);
    }
  }

  /** Every task of a run carries the request that one step of the run submitted for it. */
  lemma {:induction false} TasksAreSubmitted(s: System, pipe: Pipe, steps: seq<Step>, t: nat)
    requires Run(s, pipe, steps).Some? && t in Run(s, pipe, steps).value.pool.tasks && t !in s.pool.tasks
    ensures exists i: nat :: SubmittedAt(steps, t, Run(s, pipe, steps).value.pool.tasks[t], i)
    decreases |steps|
  {
    var a := steps[0];
    var s1, task := Next(s, pipe, a).value, Run(s, pipe, steps).value.pool.tasks[t];
    if t in s1.pool.tasks {
      if !a.Submit? { OnlySubmitAdds(s, pipe, a); }
      RunKeepsRequests(s1, pipe, steps[1..], t);
      assert SubmittedAt(steps, t, task, 0);
    } else {
      TasksAreSubmitted(s1, pipe, steps[1..], t);
      var i: nat :| SubmittedAt(steps[1..], t, task, i);
      assert SubmittedAt(steps, t, task, i + 1);
    }
  }

  // ---- The task channel ----

  /** The task that this step puts into the channel. */
  function Entering(s: System, a: Step): seq<nat> {
    if a.Enqueue? && !s.pool.closed then [a.t] else []
  }

  /** The task that worker w has in hand just after its receive. */
  function Leaving(s': System, a: Step): seq<nat> {
    if a.Take? && a.w < |s'.pool.workers| && s'.pool.workers[a.w].Pre? then [s'.pool.workers[a.w].task] else []
  }

  /** The tasks that entered the channel in this run, in order. */
  function AllEntered(s: System, pipe: Pipe, steps: seq<Step>): seq<nat>
    decreases |steps|
  {
    if steps == [] || Next(s, pipe, steps[0]).None? then []
    else Entering(s, steps[0]) + AllEntered(Next(s, pipe, steps[0]).value, pipe, steps[1..])
  }

  /** The tasks that workers received in this run, in order. */
  function AllLeft(s: System, pipe: Pipe, steps: seq<Step>): seq<nat>
    decreases |steps|
  {
    if steps == [] || Next(s, pipe, steps[0]).None? then []
    else
      var s1 := Next(s, pipe, steps[0]).value;
      Leaving(s1, steps[0]) + AllLeft(s1, pipe, steps[1..])
  }

  lemma TakeMovesQueue(s: System, w: nat)
    requires w < |s.pool.workers| && TakeNext(s, w).Some?
    ensures var s' := TakeNext(s, w).value;
            s.pool.queue == [s.pool.queue[0]] + s'.pool.queue && s'.pool.workers[w] == Pre(s.pool.queue[0])
  {
  }

  lemma OnlyTakesMoveQueue(s: System, pipe: Pipe, a: Step)
    requires IsWorkerStep(a) && !a.Take? && a.w < |s.pool.workers| && WorkerNext(s, pipe, a, a.w).Some?
    ensures WorkerNext(s, pipe, a, a.w).value.pool.queue == s.pool.queue
  {
  }

  lemma WorkerMovesQueue(s: System, pipe: Pipe, a: Step)
    requires IsWorkerStep(a) && a.w < |s.pool.workers| && WorkerNext(s, pipe, a, a.w).Some?
    ensures var s' := WorkerNext(s, pipe, a, a.w).value; s.pool.queue == Leaving(s', a) + s'.pool.queue
  {
    if a.Take? {
      TakeMovesQueue(s, a.w);
    } else {
      OnlyTakesMoveQueue(s, pipe, a);
      assert [] + s.pool.queue == s.pool.queue;
    }
  }

  lemma StepMovesQueue(s: System, pipe: Pipe, a: Step)
    requires Next(s, pipe, a).Some?
    ensures s.pool.queue + Entering(s, a) == Leaving(Next(s, pipe, a).value, a) + Next(s, pipe, a).value.pool.queue
  {
    var s' := Next(s, pipe, a).value;
    if IsWorkerStep(a) {
      WorkerMovesQueue(s, pipe, a);
    }
    assert s.pool.queue + [] == s.pool.queue && [] + s'.pool.queue == s'.pool.queue;
  }

  lemma Rebracket(q: seq<nat>, e: seq<nat>, l: seq<nat>, q1: seq<nat>, es: seq<nat>, ls: seq<nat>, end: seq<nat>)
    requires q + e == l + q1 && q1 + es == ls + end
    ensures q + (e + es) == l + ls + end
  {
    assert q + (e + es) == q + e + es == l + q1 + es == l + (q1 + es) == l + (ls + end);
  }

  /** The task channel is first-in-first-out for any number of workers: in every run, what was queued and what
      entered, in order, is what workers received, in order, and what is still queued. */
  lemma {:induction false} QueueIsFifo(s: System, pipe: Pipe, steps: seq<Step>)
    requires Run(s, pipe, steps).Some?
    ensures s.pool.queue + AllEntered(s, pipe, steps)
         == AllLeft(s, pipe, steps) + Run(s, pipe, steps).value.pool.queue
    decreases |steps|
  {
    if steps == [] {
      assert s.pool.queue + [] == [] + s.pool.queue;
    } else {
      var s1 := Next(s, pipe, steps[0]).value;
      StepMovesQueue(s, pipe, steps[0]);
      QueueIsFifo(s1, pipe, steps[1..]);
      Rebracket(s.pool.queue, Entering(s, steps[0]), Leaving(s1, steps[0]), s1.pool.queue,
                AllEntered(s1, pipe, steps[1..]), AllLeft(s1, pipe, steps[1..]),
                Run(s1, pipe, steps[1..]).value.pool.queue);
    }
  }

  /** The one value sent for the task. */
  predicate Gets(task: Task, answer: Result<Prediction>) {
    match answer
    case Ok(p) => task.result.sent == [p] && task.error.sent == []
    case Err(e) => task.error.sent == [e] && task.result.sent == []
  }

  /** The select of an idle worker: it can receive exactly when a task is queued, the oldest one, and it can
      leave exactly when the pool is cancelled, however many tasks are queued. */
  lemma IdleWorkerMay(s: System, pipe: Pipe, w: nat)
    requires Inv(s, pipe) && !s.pool.fault && !s.eng.fault && w < |s.pool.workers| && s.pool.workers[w].Idle?
    ensures Next(s, pipe, Take(w)).Some? <==> |s.pool.queue| > 0
    ensures |s.pool.queue| > 0 ==>
              && Next(s, pipe, Take(w)).value.pool.workers[w] == Pre(s.pool.queue[0])
              && Next(s, pipe, Take(w)).value.pool.queue == s.pool.queue[1..]
    ensures Next(s, pipe, Exit(w)).Some? <==> s.pool.cancelled
    ensures s.pool.cancelled ==> Next(s, pipe, Exit(w)).value.pool.workers[w] == Exited
  {
  }

  /** The select of Submit: with the channel open, the task enters behind all others exactly when fewer than 100
      wait; it is turned away with the error of the ended context exactly when the pool is cancelled. */
  lemma SubmitterMay(s: System, pipe: Pipe, t: nat)
    requires Inv(s, pipe) && !s.pool.fault && !s.eng.fault && t in s.pool.pending && !s.pool.closed
    ensures Next(s, pipe, Enqueue(t)).Some? <==> |s.pool.queue| < 100
    ensures |s.pool.queue| < 100 ==>
              Next(s, pipe, Enqueue(t)).value
              == s.(pool := s.pool.(pending := s.pool.pending - {t}, queue := s.pool.queue + [t]))
    ensures Next(s, pipe, Refuse(t)).Some? <==> s.pool.cancelled
    ensures s.pool.cancelled ==> t in s.pool.tasks && t in Next(s, pipe, Refuse(t)).value.pool.tasks
                                 && Gets(Next(s, pipe, Refuse(t)).value.pool.tasks[t], Err(ContextDone))
  {
    if s.pool.cancelled {
      RefuseNeverBlocks(s, pipe, t);
      assert Untouched(s.pool.tasks[t]);
    }
  }

  // ---- Receiving ----

  /** How many values the submitter of task t has received. */
  function Got(s: System, t: nat): nat {
    if t in s.pool.tasks then s.pool.tasks[t].result.taken + s.pool.tasks[t].error.taken else 0
  }

  predicate Receives(a: Step, t: nat) {
    a == ReceiveResult(t) || a == ReceiveError(t)
  }

  /** The receives of task t's submitter in a run. */
  function Receipts(steps: seq<Step>, t: nat): nat {
    if steps == [] then 0 else (if Receives(steps[0], t) then 1 else 0) + Receipts(steps[1..], t)
  }

  lemma RepliesReceiveNothing(s: System, w: nat, u: nat, answer: Result<Prediction>, t: nat)
    requires w < |s.pool.workers| && u in s.pool.tasks && SendReply(s, w, u, answer).Some?
    ensures Got(SendReply(s, w, u, answer).value, t) == Got(s, t)
  {
  }

  lemma WorkersReceiveNothing(s: System, pipe: Pipe, a: Step, t: nat)
    requires IsWorkerStep(a) && a.w < |s.pool.workers| && WorkerNext(s, pipe, a, a.w).Some?
    ensures Got(WorkerNext(s, pipe, a, a.w).value, t) == Got(s, t)
  {
    if a.Send? {
      RepliesReceiveNothing(s, a.w, s.pool.workers[a.w].task, s.pool.workers[a.w].answer, t);
    } else {
      OnlySendsTouchTasks(s, pipe, a);
    }
  }

  lemma StepReceipts(s: System, pipe: Pipe, a: Step, t: nat)
    requires Next(s, pipe, a).Some?
    ensures Got(Next(s, pipe, a).value, t) == Got(s, t) + if Receives(a, t) then 1 else 0
  {
    if IsWorkerStep(a) {
      WorkersReceiveNothing(s, pipe, a, t);
    }
  }

  lemma {:induction false} RunReceipts(s: System, pipe: Pipe, steps: seq<Step>, t: nat)
    requires Run(s, pipe, steps).Some?
    ensures Got(Run(s, pipe, steps).value, t) == Got(s, t) + Receipts(steps, t)
    decreases |steps|
  {
    if steps != [] {
      StepReceipts(s, pipe, steps[0], t);
      RunReceipts(Next(s, pipe, steps[0]).value, pipe, steps[1..], t);
    }
  }

  /** A submitter can receive its answer, from the channel it was sent on, exactly when there is one and it has
      not received it. */
  lemma ReceiverMay(s: System, pipe: Pipe, t: nat)
    requires Inv(s, pipe) && !s.pool.fault && !s.eng.fault && t in s.pool.tasks
    ensures Next(s, pipe, ReceiveResult(t)).Some? <==> s.pool.tasks[t].result.sent != [] && Got(s, t) == 0
    ensures Next(s, pipe, ReceiveError(t)).Some? <==> s.pool.tasks[t].error.sent != [] && Got(s, t) == 0
  {
    if !Untouched(s.pool.tasks[t]) {
      SentMeansReplied(s, pipe, t);
    }
  }

  /** In every run the submitter of a task receives at most one value. */
  lemma ReceivedAtMostOnce(s: System, pipe: Pipe, steps: seq<Step>, t: nat)
    requires Fresh(s) && EI.Inv(s.eng) && Run(s, pipe, steps).Some?
    ensures Receipts(steps, t) <= 1
  {
    FreshHolds(s, pipe);
    RunKeepsInv(s, pipe, steps);
    RunReceipts(s, pipe, steps, t);
    var end := Run(s, pipe, steps).value;
    if t in end.pool.tasks && !Untouched(end.pool.tasks[t]) {
      SentMeansReplied(end, pipe, t);
    }
  }

  // ---- End to end ----

  /** Loads, unloads and Close. */
  predicate ChangesRegistry(a: E.Step) {
    !E.IsMove(a) && !a.Begin? && !a.Lookup? && !a.CancelCtx?
  }

  predicate Undisturbed(a: Step) {
    !a.Cancel? && (a.Engine? ==> !ChangesRegistry(a.a))
  }

  ghost predicate SameRegistry(e: E.State, e': E.State) {
    e'.models == e.models && |e'.insts| == |e.insts|
    && forall j :: 0 <= j < |e.insts| ==> e'.insts[j].net == e.insts[j].net
  }

  lemma EngineKeepsRegistry(e: E.State, a: E.Step)
    requires E.Next(e, a).Some? && !ChangesRegistry(a)
    ensures SameRegistry(e, E.Next(e, a).value)
  {
    if E.IsMove(a) {
      var j := e.calls[a.c].at.value;
      EI.MoveShape(e, a, j);
      EI.MoveKeepsNet(e.calls[a.c], e.insts[j], a);
    }
  }

  lemma StepKeepsCancelled(s: System, pipe: Pipe, a: Step)
    requires Next(s, pipe, a).Some? && !a.Cancel?
    ensures Next(s, pipe, a).value.pool.cancelled == s.pool.cancelled
  {
  }

  lemma {:induction false} RunKeepsRegistry(s: System, pipe: Pipe, steps: seq<Step>)
    requires Run(s, pipe, steps).Some? && forall i :: 0 <= i < |steps| ==> Undisturbed(steps[i])
    ensures SameRegistry(s.eng, Run(s, pipe, steps).value.eng)
    ensures Run(s, pipe, steps).value.pool.cancelled == s.pool.cancelled
    decreases |steps|
  {
    if steps != [] {
      StepOnEngine(s, pipe, steps[0]);
      StepKeepsCancelled(s, pipe, steps[0]);
      if EngineOf(s, steps[0]).Some? {
        EngineKeepsRegistry(s.eng, EngineOf(s, steps[0]).value);
      }
      RunKeepsRegistry(Next(s, pipe, steps[0]).value, pipe, steps[1..]);
    }
  }

  lemma SameAnswers(e: E.State, e': E.State, id: string, version: string, input: Value)
    requires SameRegistry(e, e')
    ensures EL.Answer(e', id, version, input) == EL.Answer(e, id, version, input)
  {
  }

  lemma AskedIsAnswered(s: System, pipe: Pipe, steps: seq<Step>, t: nat, v: Value, answer: Result<Prediction>)
    requires Fresh(s) && Run(s, pipe, steps).Some? && t in Run(s, pipe, steps).value.pool.tasks
    requires forall i :: 0 <= i < |steps| ==> Undisturbed(steps[i])
    requires AskedWith(s, pipe, steps, t, v, answer)
    ensures var task := Run(s, pipe, steps).value.pool.tasks[t];
            PostProcessed(pipe, EL.Answer(s.eng, task.id, task.version, v), answer)
  {
    var task := Run(s, pipe, steps).value.pool.tasks[t];
    RunKeepsRegistry(s, pipe, steps);
    if ModelKey(task.id, task.version).Ok? {
      var k: nat :| RepliedFrom(s, pipe, steps, t, v, answer, k);
      RunKeepsRegistry(s, pipe, steps[..k]);
      SameAnswers(s.eng, Run(s, pipe, steps[..k]).value.eng, task.id, task.version, v);
    }
  }

  lemma AnsweredWithOwn(s: System, pipe: Pipe, steps: seq<Step>, t: nat) returns (answer: Result<Prediction>)
    requires Fresh(s) && EI.Inv(s.eng) && Run(s, pipe, steps).Some? && t in Run(s, pipe, steps).value.pool.tasks
    requires forall i :: 0 <= i < |steps| ==> Undisturbed(steps[i])
    requires Answered(Run(s, pipe, steps).value.pool.tasks[t])
    ensures Gets(Run(s, pipe, steps).value.pool.tasks[t], answer) && OwnReply(s, pipe, steps, t, answer)
  {
    RepliesAreOwn(s, pipe, steps, t);
    RunKeepsRegistry(s, pipe, steps);
    var task := Run(s, pipe, steps).value.pool.tasks[t];
    answer := if task.result.sent != [] then Ok(task.result.sent[0]) else Err(task.error.sent[0]);
  }

  /** End to end: with the registry and the pipeline fixed and no shutdown, for any number of workers
      and slots and any schedule, with other clients on the engine.  With a pipeline f, a task whose input f
      refuses is answered with that error.  Otherwise the engine is asked for the task's model with what f
      made of the input; its error is the answer, or what f makes of its output, under the model's id. */
  lemma EndToEnd(s: System, pipe: Pipe, steps: seq<Step>, t: nat)
    requires Fresh(s) && EI.Inv(s.eng) && Run(s, pipe, steps).Some? && t in Run(s, pipe, steps).value.pool.tasks
    requires forall i :: 0 <= i < |steps| ==> Undisturbed(steps[i])
    requires Answered(Run(s, pipe, steps).value.pool.tasks[t]) && pipe.Some?
    ensures var end, f := Run(s, pipe, steps).value, pipe.value;
            var task := end.pool.tasks[t];
            match f(task.input)
            case Err(e) => Gets(task, Err(e))
            case Ok(v) =>
              IsCallFor(end, t, v) &&
              match EL.Answer(s.eng, task.id, task.version, v)
              case Err(e) => Gets(task, Err(e))
              case Ok(p) =>
                match f(p.output)
                case Err(e) => Gets(task, Err(e))
                case Ok(o) => Gets(task, Ok(Prediction(p.modelId, o)))
  {
    var answer := AnsweredWithOwn(s, pipe, steps, t);
    var input := Run(s, pipe, steps).value.pool.tasks[t].input;
    if pipe.value(input).Ok? {
      AskedIsAnswered(s, pipe, steps, t, pipe.value(input).value, answer);
    }
  }

  /** Without a pipeline the engine is asked with the task's own input and its answer is passed on as it is. */
  lemma EndToEndPlain(s: System, pipe: Pipe, steps: seq<Step>, t: nat)
    requires Fresh(s) && EI.Inv(s.eng) && Run(s, pipe, steps).Some? && t in Run(s, pipe, steps).value.pool.tasks
    requires forall i :: 0 <= i < |steps| ==> Undisturbed(steps[i])
    requires Answered(Run(s, pipe, steps).value.pool.tasks[t]) && pipe.None?
    ensures var end := Run(s, pipe, steps).value;
            var task := end.pool.tasks[t];
            && IsCallFor(end, t, task.input)
            && Gets(task, EL.Answer(s.eng, task.id, task.version, task.input))
  {
    var answer := AnsweredWithOwn(s, pipe, steps, t);
    AskedIsAnswered(s, pipe, steps, t, Run(s, pipe, steps).value.pool.tasks[t].input, answer);
  }

  // ---- Conservation ----

  ghost function InHandsSet(s: System): set<nat> {
    set t | t in s.pool.tasks && InHands(s, t)
  }

  ghost function AnsweredSet(s: System): set<nat> {
    set t | t in s.pool.tasks && Answered(s.pool.tasks[t])
  }

  function BusyCount(ws: seq<Worker>): nat {
    if ws == [] then 0 else BusyCount(ws[..|ws| - 1]) + if Busy(ws[|ws| - 1]) then 1 else 0
  }

  ghost function TasksOf(ws: seq<Worker>): set<nat> {
    set w | w in ws && Busy(w) :: w.task
  }

  lemma {:induction false} TasksOfCount(ws: seq<Worker>)
    requires forall w, x :: 0 <= w < x < |ws| ==> Apart(ws[w], ws[x])
    ensures |TasksOf(ws)| == BusyCount(ws)
  {
    if ws != [] {
      var init, last := ws[..|ws| - 1], ws[|ws| - 1];
      TasksOfCount(init);
      assert forall w :: w in ws <==> w in init || w == last;
      if Busy(last) {
        assert TasksOf(ws) == TasksOf(init) + {last.task};
        assert last.task !in TasksOf(init);
      } else {
        assert TasksOf(ws) == TasksOf(init);
      }
    }
  }

  /** The four places are disjoint and cover all tasks. */
  lemma PlacesPartition(s: System, pipe: Pipe)
    requires Inv(s, pipe)
    ensures s.pool.tasks.Keys == s.pool.pending + Members(s.pool.queue) + InHandsSet(s) + AnsweredSet(s)
    ensures s.pool.pending !! Members(s.pool.queue) !! InHandsSet(s) !! AnsweredSet(s)
  {
    forall t | t in s.pool.tasks && Answered(s.pool.tasks[t])
      ensures t !in s.pool.pending && t !in s.pool.queue && !InHands(s, t)
    {
      assert !Untouched(s.pool.tasks[t]);
    }
    forall t | t in s.pool.tasks && t !in s.pool.pending && t !in s.pool.queue && !InHands(s, t)
      ensures Answered(s.pool.tasks[t])
    {
      assert ReplyOk(s, pipe, t);
    }
  }

  lemma HandsAreBusy(s: System, pipe: Pipe)
    requires Inv(s, pipe)
    ensures InHandsSet(s) == TasksOf(s.pool.workers)
  {
    forall t | t in TasksOf(s.pool.workers)
      ensures t in InHandsSet(s)
    {
      var w :| 0 <= w < |s.pool.workers| && Busy(s.pool.workers[w]) && s.pool.workers[w].task == t;
      assert Holds(s.pool.workers[w], t) && WorkerOk(s, pipe, s.pool.workers[w]);
    }
    forall t | t in InHandsSet(s)
      ensures t in TasksOf(s.pool.workers)
    {
      var w :| 0 <= w < |s.pool.workers| && Holds(s.pool.workers[w], t);
      assert s.pool.workers[w] in s.pool.workers;
    }
  }

  /** Nothing is lost and nothing is counted twice: in every reachable state the tasks are those
      still at the channel, those queued, those in workers' hands and those answered. */
  lemma Conservation(s: System, pipe: Pipe)
    requires Inv(s, pipe)
    ensures |s.pool.queue| <= CAPACITY
    ensures |s.pool.tasks.Keys|
         == |s.pool.pending| + |s.pool.queue| + BusyCount(s.pool.workers) + |AnsweredSet(s)|
  {
    PlacesPartition(s, pipe);
    HandsAreBusy(s, pipe);
    TasksOfCount(s.pool.workers);
    DistinctCount(s.pool.queue);
    var p, q, h, a := s.pool.pending, Members(s.pool.queue), InHandsSet(s), AnsweredSet(s);
    assert |p + q| == |p| + |q|;
    assert |p + q + h| == |p + q| + |h|;
    assert |p + q + h + a| == |p + q + h| + |a|;
  }

  // ---- A configured pipeline over ONNX predictions ----

  /** pipe is the pipeline the steps configure. */
  ghost predicate Configured(pipe: Pipe, exp: real -> real, steps: seq<P.Step>) {
    P.Positive(exp) && pipe.Some? && forall v :: pipe.value(v) == P.Returned(P.RunAll(exp, steps, v))
  }

  lemma PredictionsAreNamed(net: Net, id: string, input: Value)
    requires net.Valid() && Predict(net, id, input).Ok?
    ensures Predict(net, id, input).value.output.Named?
  {
  }

  /** The worker runs the one pipeline on inputs and outputs alike, and outputs are maps: with any
      step configured, whatever the schedule, no task is ever answered with a prediction. */
  lemma ConfiguredPoolNeverPredicts(s: System, pipe: Pipe, steps: seq<Step>, t: nat,
                                    exp: real -> real, config: seq<P.Step>)
    requires Configured(pipe, exp, config) && config != []
    requires Fresh(s) && EI.Inv(s.eng) && Run(s, pipe, steps).Some? && t in Run(s, pipe, steps).value.pool.tasks
    ensures Run(s, pipe, steps).value.pool.tasks[t].result.sent == []
  {
    RepliesComeFromOwnCalls(s, pipe, steps, t);
    var s' := Run(s, pipe, steps).value;
    var sent := s'.pool.tasks[t].result.sent;
    if sent != [] {
      assert EI.CallOk(s'.eng, t);
      var call := s'.eng.calls[t];
      var prediction := call.phase.result.value;
      PredictionsAreNamed(s'.eng.insts[call.at.value].net, call.id, call.input);
      PL.MapsPassOnlyTheEmptyPipeline(exp, config, prediction.output.fields);
      assert false;
    }
  }

  // ---- Panics ----

  /** The pool itself panics in exactly two ways: a submission, or a second Shutdown, that meets a
      closed task channel.  No reply, of a worker or to a submitter turned away, ever does. */
  lemma PoolPanicsIff(s: System, pipe: Pipe, a: Step)
    requires Inv(s, pipe) && Next(s, pipe, a).Some?
    ensures Next(s, pipe, a).value.pool.fault <==> s.pool.closed && (a.Enqueue? || a.CloseTasks?)
  {
    if a.Send? {
      SendNeverBlocks(s, pipe, a.w);
    } else if a.Refuse? {
      RefuseNeverBlocks(s, pipe, a.t);
    }
  }

  /** Shutdown waits for nobody: once it has closed the task channel its select can end by the context
      it has itself cancelled, whatever the workers hold, and it can report a graceful end exactly
      when all workers are gone. */
  lemma ShutdownNeedNotWait(s: System, pipe: Pipe)
    requires Inv(s, pipe) && !s.pool.fault && !s.eng.fault && s.pool.closed && s.pool.ended.None?
    ensures Next(s, pipe, EndShutdown(false)) == Some(s.(pool := s.pool.(ended := Some(false))))
    ensures Next(s, pipe, EndShutdown(true)).Some?
       <==> forall w :: 0 <= w < |s.pool.workers| ==> s.pool.workers[w].Exited?
  {
  }
}
