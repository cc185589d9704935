/** What every step of the service keeps, shutdown included: each task is in one place, is answered
    at most once, and with the value of its own chain. */
module WorkerPoolInvariant {
  import opened Values
  import opened Inference
  import opened Counting
  import E = SessionPool
  import EI = SessionPoolInvariant
  import opened WorkerPool

  predicate Holds(w: Worker, t: nat) {
    Busy(w) && w.task == t
  }

  ghost predicate InHands(s: System, t: nat) {
    exists w :: 0 <= w < |s.pool.workers| && Holds(s.pool.workers[w], t)
  }

  predicate Untouched(task: Task) {
    task.result == NewChan() && task.error == NewChan()
  }

  predicate Answered(task: Task) {
    |task.result.sent| + |task.error.sent| == 1
  }

  /** The engine call of task t is the one its worker made: same model, pre-processed input. */
  ghost predicate Asked(s: System, pipe: Pipe, t: nat)
    requires t in s.pool.tasks
  {
    && t in s.eng.calls
    && s.eng.calls[t].id == s.pool.tasks[t].id && s.eng.calls[t].version == s.pool.tasks[t].version
    && RunPipe(pipe, s.pool.tasks[t].input) == Ok(s.eng.calls[t].input)
  }

  /** answer is what the chain gives for task t: the first error, or the post-processed prediction
      of its own engine call. */
  ghost predicate ChainGives(s: System, pipe: Pipe, t: nat, answer: Result<Prediction>)
    requires t in s.pool.tasks
  {
    match RunPipe(pipe, s.pool.tasks[t].input)
    case Err(e) => answer == Err(e)
    case Ok(v) =>
      Asked(s, pipe, t) && s.eng.calls[t].phase.Finished? && answer == Finish(pipe, s.eng.calls[t].phase.result)
  }

  ghost predicate WorkerOk(s: System, pipe: Pipe, w: Worker) {
    match w
    case Idle => true
    case Exited => s.pool.cancelled || s.pool.closed
    case Pre(t) => t in s.pool.tasks && t !in s.eng.calls
    case Ask(t, v) => t in s.pool.tasks && t !in s.eng.calls && RunPipe(pipe, s.pool.tasks[t].input) == Ok(v)
    case Await(t) => t in s.pool.tasks && Asked(s, pipe, t)
    case Post(t, p) => t in s.pool.tasks && Asked(s, pipe, t) && s.eng.calls[t].phase == E.Finished(Ok(p))
    case Reply(t, answer) => t in s.pool.tasks && ChainGives(s, pipe, t, answer)
  }

  /** The one value sent for task t. */
  ghost predicate ReplyOk(s: System, pipe: Pipe, t: nat)
    requires t in s.pool.tasks
  {
    var task := s.pool.tasks[t];
    && task.result.taken <= |task.result.sent| && task.error.taken <= |task.error.sent|
    && Answered(task)
    && if |task.result.sent| == 1 then ChainGives(s, pipe, t, Ok(task.result.sent[0]))
       else ChainGives(s, pipe, t, Err(task.error.sent[0])) || (s.pool.cancelled && task.error.sent[0] == ContextDone)
  }

  ghost predicate WorkersOk(s: System, pipe: Pipe) {
    && (forall w :: 0 <= w < |s.pool.workers| ==> WorkerOk(s, pipe, s.pool.workers[w]))
    && (forall w, x :: 0 <= w < x < |s.pool.workers| ==> Apart(s.pool.workers[w], s.pool.workers[x]))
  }

  predicate Apart(w: Worker, x: Worker) {
    Busy(w) && Busy(x) ==> w.task != x.task
  }

  /** Every task is waiting to enter, queued, in a worker's hands or answered, and only one of these. */
  ghost predicate PlacesOk(s: System, pipe: Pipe) {
    && s.pool.pending <= s.pool.tasks.Keys
    && NoDup(s.pool.queue) && |s.pool.queue| <= CAPACITY
    && (forall t :: t in s.pool.queue ==> t in s.pool.tasks && t !in s.pool.pending)
    && (forall t :: t in s.pool.tasks && (t in s.pool.pending || t in s.pool.queue) ==>
          t !in s.eng.calls && !InHands(s, t))
    && (forall t :: t in s.pool.tasks && (t in s.pool.pending || t in s.pool.queue || InHands(s, t)) ==>
          Untouched(s.pool.tasks[t]))
    && (forall t :: t in s.pool.tasks && t !in s.pool.pending && t !in s.pool.queue && !InHands(s, t) ==>
          ReplyOk(s, pipe, t))
  }

  ghost predicate EngineOk(s: System) {
    && EI.Inv(s.eng)
    && (forall t :: t in s.pool.tasks && t in s.eng.calls && s.eng.calls[t].ctxDone ==> s.pool.cancelled)
    && (s.pool.closed ==> s.pool.cancelled)
  }

  ghost predicate Inv(s: System, pipe: Pipe) {
    WorkersOk(s, pipe) && PlacesOk(s, pipe) && EngineOk(s)
  }

  // ---- Engine steps ----

  /** The calls of e live on in e' with their requests, and finished ones with their results. */
  ghost predicate Continues(e: E.State, e': E.State) {
    forall c :: c in e.calls ==>
      && c in e'.calls && e'.calls[c].id == e.calls[c].id && e'.calls[c].version == e.calls[c].version
      && e'.calls[c].input == e.calls[c].input
      && (e.calls[c].phase.Finished? ==> e'.calls[c].phase == e.calls[c].phase && e'.calls[c].at == e.calls[c].at)
  }

  lemma MovedContinues(e: E.State, c: nat, j: nat, p: E.Phase, inst: E.Instance)
    requires c in e.calls && !e.calls[c].phase.Finished? && j < |e.insts|
    ensures var e' := E.SetInst(E.SetPhase(e, c, p), j, inst);
            Continues(e, e') && e'.calls.Keys == e.calls.Keys
            && forall d :: d in e.calls ==> e'.calls[d].ctxDone == e.calls[d].ctxDone
  {
  }

  lemma MoveContinues(e: E.State, a: E.Step)
    requires E.IsMove(a) && E.Next(e, a).Some?
    ensures Continues(e, E.Next(e, a).value)
    ensures E.Next(e, a).value.calls.Keys == e.calls.Keys
    ensures forall c :: c in e.calls ==> E.Next(e, a).value.calls[c].ctxDone == e.calls[c].ctxDone
  {
    var j := e.calls[a.c].at.value;
    EI.MoveShape(e, a, j);
    EI.MoveKeepsNet(e.calls[a.c], e.insts[j], a);
    var m := E.MoveOf(e.calls[a.c], e.insts[j], a);
    if m.Moves? {
      MovedContinues(e, a.c, j, m.phase, m.inst);
    }
  }

  lemma RegistryContinues(e: E.State, a: E.Step)
    requires E.RegistryNext(e, a).Some?
    ensures E.RegistryNext(e, a).value.calls == e.calls
  {
  }

  lemma OneContinues(e: E.State, c: nat, call: E.Call)
    requires c in e.calls && !e.calls[c].phase.Finished? && call == e.calls[c].(at := call.at, phase := call.phase)
    ensures var e' := e.(calls := e.calls[c := call]);
            Continues(e, e') && forall d :: d in e.calls ==> e'.calls[d].ctxDone == e.calls[d].ctxDone
  {
  }

  lemma LookupContinues(e: E.State, c: nat)
    requires c in e.calls && e.calls[c].phase.Called?
    ensures var e' := E.LookupNext(e, c);
            Continues(e, e') && e'.calls.Keys == e.calls.Keys
            && forall d :: d in e.calls ==> e'.calls[d].ctxDone == e.calls[d].ctxDone
  {
    var call := E.LookupNext(e, c).calls[c];
    assert call == e.calls[c].(at := call.at, phase := call.phase);
    assert E.LookupNext(e, c).calls == e.calls[c := call];
    OneContinues(e, c, call);
  }

  lemma ClientContinues(e: E.State, a: E.Step)
    requires (a.Begin? || a.Lookup? || a.CancelCtx?) && E.Next(e, a).Some?
    ensures Continues(e, E.Next(e, a).value)
    ensures forall c :: c in E.Next(e, a).value.calls && c !in e.calls ==> a.Begin? && a.c == c
    ensures forall c :: c in e.calls && E.Next(e, a).value.calls[c].ctxDone && !e.calls[c].ctxDone ==>
            a.CancelCtx? && a.c == c
  {
    if a.Lookup? {
      LookupContinues(e, a.c);
    }
  }

  /** A step adds a call only by Begin and ends a context only by CancelCtx. */
  lemma EngineContinues(e: E.State, a: E.Step)
    requires E.Next(e, a).Some?
    ensures Continues(e, E.Next(e, a).value)
    ensures forall c :: c in E.Next(e, a).value.calls && c !in e.calls ==> a.Begin? && a.c == c
    ensures forall c :: c in e.calls && E.Next(e, a).value.calls[c].ctxDone && !e.calls[c].ctxDone ==>
            a.CancelCtx? && a.c == c
  {
    if E.IsMove(a) {
      MoveContinues(e, a);
    } else if a.Begin? || a.Lookup? || a.CancelCtx? {
      ClientContinues(e, a);
    } else {
      RegistryContinues(e, a);
    }
  }

  /** The pool's facts survive whatever the engine does next. */
  lemma EngineMoves(s: System, pipe: Pipe, eng: E.State)
    requires WorkersOk(s, pipe) && PlacesOk(s, pipe) && Continues(s.eng, eng)
    requires forall t :: t in s.pool.tasks && t in eng.calls ==> t in s.eng.calls
    ensures WorkersOk(s.(eng := eng), pipe) && PlacesOk(s.(eng := eng), pipe)
  {
    var s' := s.(eng := eng);
    forall t, answer | t in s.pool.tasks && ChainGives(s, pipe, t, answer)
      ensures ChainGives(s', pipe, t, answer)
    {
    }
    forall w | 0 <= w < |s'.pool.workers|
      ensures WorkerOk(s', pipe, s'.pool.workers[w])
    {
      assert WorkerOk(s, pipe, s.pool.workers[w]);
    }
    forall t | t in s'.pool.tasks
      ensures InHands(s', t) <==> InHands(s, t)
    {
      if InHands(s, t) {
        var w :| 0 <= w < |s.pool.workers| && Holds(s.pool.workers[w], t);
        assert Holds(s'.pool.workers[w], t);
      }
    }
    forall t | t in s'.pool.tasks && t !in s'.pool.pending && t !in s'.pool.queue && !InHands(s', t)
      ensures ReplyOk(s', pipe, t)
    {
      assert ReplyOk(s, pipe, t);
    }
  }

  lemma EngineStepKeepsInv(s: System, pipe: Pipe, a: E.Step)
    requires Inv(s, pipe) && Passes(s, a) && E.Next(s.eng, a).Some?
    ensures Inv(s.(eng := E.Next(s.eng, a).value), pipe)
  {
    EngineContinues(s.eng, a);
    EngineMoves(s, pipe, E.Next(s.eng, a).value);
    EI.StepKeepsInv(s.eng, a);
  }

  // ---- Worker steps ----

  lemma HandsOf(s: System, pipe: Pipe, w: nat, t: nat)
    requires WorkersOk(s, pipe) && w < |s.pool.workers| && Holds(s.pool.workers[w], t)
    ensures InHands(s, t)
    ensures forall x :: 0 <= x < |s.pool.workers| && x != w ==> !Holds(s.pool.workers[x], t)
  {
    forall x | 0 <= x < |s.pool.workers| && x != w
      ensures !Holds(s.pool.workers[x], t)
    {
      assert if x < w then Apart(s.pool.workers[x], s.pool.workers[w]) else Apart(s.pool.workers[w], s.pool.workers[x]);
    }
  }

  /** Replacing worker w by one that holds the same task, or nothing in both cases, moves no task. */
  lemma SameHands(s: System, pipe: Pipe, w: nat, x: Worker)
    requires Inv(s, pipe) && w < |s.pool.workers| && WorkerOk(s, pipe, x)
    requires Busy(x) == Busy(s.pool.workers[w]) && (Busy(x) ==> x.task == s.pool.workers[w].task)
    ensures Inv(SetWorker(s, w, x), pipe)
  {
    var s' := SetWorker(s, w, x);
    forall v, y | 0 <= v < y < |s'.pool.workers|
      ensures Apart(s'.pool.workers[v], s'.pool.workers[y])
    {
      assert Apart(s.pool.workers[v], s.pool.workers[y]);
    }
    forall v | 0 <= v < |s'.pool.workers|
      ensures WorkerOk(s', pipe, s'.pool.workers[v])
    {
      assert WorkerOk(s, pipe, s.pool.workers[v]);
    }
    HandsAgree(s, s');
    SamePlaces(s, s', pipe);
  }

  /** Two systems whose workers hold the same tasks place by place. */
  lemma HandsAgree(s: System, s': System)
    requires |s'.pool.workers| == |s.pool.workers|
    requires forall w, t :: 0 <= w < |s.pool.workers| ==>
               (Holds(s'.pool.workers[w], t) <==> Holds(s.pool.workers[w], t))
    ensures forall t :: InHands(s', t) <==> InHands(s, t)
  {
    forall t
      ensures InHands(s', t) <==> InHands(s, t)
    {
      if InHands(s, t) {
        var w :| 0 <= w < |s.pool.workers| && Holds(s.pool.workers[w], t);
        assert Holds(s'.pool.workers[w], t);
      }
      if InHands(s', t) {
        var w :| 0 <= w < |s'.pool.workers| && Holds(s'.pool.workers[w], t);
        assert Holds(s.pool.workers[w], t);
      }
    }
  }

  lemma SamePlaces(s: System, s': System, pipe: Pipe)
    requires PlacesOk(s, pipe) && s'.eng == s.eng && s'.pool.tasks == s.pool.tasks
    requires s'.pool.pending == s.pool.pending && s'.pool.queue == s.pool.queue
    requires s.pool.cancelled ==> s'.pool.cancelled
    requires forall t :: InHands(s', t) <==> InHands(s, t)
    ensures PlacesOk(s', pipe)
  {
    forall t | t in s'.pool.tasks && t !in s'.pool.pending && t !in s'.pool.queue && !InHands(s', t)
      ensures ReplyOk(s', pipe, t)
    {
      assert ReplyOk(s, pipe, t);
    }
  }

  /** Asking the engine concerns task t alone: nobody else had its call, or gets one. */
  lemma AskKeepsWorkers(s: System, pipe: Pipe, w: nat, t: nat, eng: E.State)
    requires WorkersOk(s, pipe) && w < |s.pool.workers| && Holds(s.pool.workers[w], t) && Continues(s.eng, eng)
    requires forall c :: c in eng.calls && c !in s.eng.calls ==> c == t
    requires t in s.pool.tasks && Asked(s.(eng := eng), pipe, t)
    ensures WorkersOk(SetWorker(s.(eng := eng), w, Await(t)), pipe)
  {
    var s' := SetWorker(s.(eng := eng), w, Await(t));
    HandsOf(s, pipe, w, t);
    forall x | 0 <= x < |s'.pool.workers|
      ensures WorkerOk(s', pipe, s'.pool.workers[x])
    {
      assert WorkerOk(s, pipe, s.pool.workers[x]);
      assert x != w ==> !Holds(s.pool.workers[x], t);
    }
    forall x, y | 0 <= x < y < |s'.pool.workers|
      ensures Apart(s'.pool.workers[x], s'.pool.workers[y])
    {
      assert Apart(s.pool.workers[x], s.pool.workers[y]);
    }
  }

  lemma AskKeepsPlaces(s: System, pipe: Pipe, w: nat, t: nat, eng: E.State)
    requires WorkersOk(s, pipe) && PlacesOk(s, pipe) && w < |s.pool.workers| && Holds(s.pool.workers[w], t)
    requires Continues(s.eng, eng) && forall c :: c in eng.calls && c !in s.eng.calls ==> c == t
    ensures PlacesOk(SetWorker(s.(eng := eng), w, Await(t)), pipe)
  {
    var s' := SetWorker(s.(eng := eng), w, Await(t));
    HandsOf(s, pipe, w, t);
    HandsAgree(s, s');
    forall u | u in s'.pool.tasks && u !in s'.pool.pending && u !in s'.pool.queue && !InHands(s', u)
      ensures ReplyOk(s', pipe, u)
    {
      assert ReplyOk(s, pipe, u);
    }
  }

  lemma AskKeepsInv(s: System, pipe: Pipe, w: nat)
    requires Inv(s, pipe) && Next(s, pipe, AskEngine(w)).Some?
    ensures Inv(Next(s, pipe, AskEngine(w)).value, pipe)
  {
    var t, v := s.pool.workers[w].task, s.pool.workers[w].input;
    var a := E.Begin(t, s.pool.tasks[t].id, s.pool.tasks[t].version, v);
    assert WorkerOk(s, pipe, s.pool.workers[w]);
    EngineContinues(s.eng, a);
    EI.StepKeepsInv(s.eng, a);
    AskKeepsWorkers(s, pipe, w, t, E.Next(s.eng, a).value);
    AskKeepsPlaces(s, pipe, w, t, E.Next(s.eng, a).value);
  }

  lemma TakeKeepsWorkers(s: System, s': System, pipe: Pipe, w: nat, t: nat)
    requires Inv(s, pipe) && w < |s.pool.workers| && t in s.pool.queue
    requires s'.eng == s.eng && s'.pool == s.pool.(queue := s'.pool.queue, workers := s.pool.workers[w := Pre(t)])
    ensures WorkersOk(s', pipe)
  {
    forall x | 0 <= x < |s'.pool.workers|
      ensures WorkerOk(s', pipe, s'.pool.workers[x])
    {
      assert WorkerOk(s, pipe, s.pool.workers[x]);
    }
    forall x, y | 0 <= x < y < |s'.pool.workers|
      ensures Apart(s'.pool.workers[x], s'.pool.workers[y])
    {
      assert Apart(s.pool.workers[x], s.pool.workers[y]);
      assert forall z :: 0 <= z < |s.pool.workers| ==> !Holds(s.pool.workers[z], t);
    }
  }

  lemma OneTaken(s: System, s': System, w: nat, t: nat)
    requires w < |s.pool.workers| && s.pool.workers[w].Idle? && s'.pool.workers == s.pool.workers[w := Pre(t)]
    ensures forall u :: InHands(s', u) <==> InHands(s, u) || u == t
  {
    assert Holds(s'.pool.workers[w], t);
    forall u
      ensures InHands(s', u) <==> InHands(s, u) || u == t
    {
      if InHands(s, u) {
        var x :| 0 <= x < |s.pool.workers| && Holds(s.pool.workers[x], u);
        assert Holds(s'.pool.workers[x], u);
      }
      if InHands(s', u) {
        var x :| 0 <= x < |s'.pool.workers| && Holds(s'.pool.workers[x], u);
        assert x != w ==> Holds(s.pool.workers[x], u);
      }
    }
  }

  lemma TakeKeepsInv(s: System, pipe: Pipe, w: nat)
    requires Inv(s, pipe) && w < |s.pool.workers| && TakeNext(s, w).Some?
    ensures Inv(TakeNext(s, w).value, pipe)
  {
    var s', t := TakeNext(s, w).value, s.pool.queue[0];
    assert s.pool.queue == [t] + s.pool.queue[1..];
    assert t in s.pool.queue;
    TakeKeepsWorkers(s, s', pipe, w, t);
    OneTaken(s, s', w, t);
    forall u | u in s'.pool.tasks && u !in s'.pool.pending && u !in s'.pool.queue && !InHands(s', u)
      ensures ReplyOk(s', pipe, u)
    {
      assert ReplyOk(s, pipe, u);
    }
  }

  predicate SameRequest(task: Task, task': Task) {
    task'.id == task.id && task'.version == task.version && task'.input == task.input
  }

  /** Changing one task's channels, and perhaps which worker holds it, leaves the others in place. */
  lemma OtherReplies(s: System, s': System, pipe: Pipe, t: nat)
    requires PlacesOk(s, pipe) && s'.eng == s.eng && s'.pool.tasks.Keys == s.pool.tasks.Keys && t in s.pool.tasks
    requires forall u :: u in s.pool.tasks && u != t ==> s'.pool.tasks[u] == s.pool.tasks[u]
    requires SameRequest(s.pool.tasks[t], s'.pool.tasks[t])
    requires s.pool.cancelled ==> s'.pool.cancelled
    ensures forall u :: u in s.pool.tasks && u != t && u !in s.pool.pending && u !in s.pool.queue && !InHands(s, u) ==>
              ReplyOk(s', pipe, u)
    ensures forall u, answer :: u in s.pool.tasks && ChainGives(s, pipe, u, answer) ==> ChainGives(s', pipe, u, answer)
  {
    forall u | u in s.pool.tasks && u != t && u !in s.pool.pending && u !in s.pool.queue && !InHands(s, u)
      ensures ReplyOk(s', pipe, u)
    {
      assert ReplyOk(s, pipe, u);
    }
  }

  lemma TasksKeepWorkers(s: System, s': System, pipe: Pipe)
    requires WorkersOk(s, pipe) && s'.eng == s.eng && s.pool.tasks.Keys <= s'.pool.tasks.Keys
    requires forall u :: u in s.pool.tasks ==> SameRequest(s.pool.tasks[u], s'.pool.tasks[u])
    requires (s.pool.cancelled ==> s'.pool.cancelled) && (s.pool.closed ==> s'.pool.closed)
    requires |s'.pool.workers| == |s.pool.workers|
    requires forall w :: 0 <= w < |s.pool.workers| ==>
               s'.pool.workers[w] == s.pool.workers[w] || s'.pool.workers[w].Idle?
    ensures WorkersOk(s', pipe)
  {
    forall w | 0 <= w < |s'.pool.workers|
      ensures WorkerOk(s', pipe, s'.pool.workers[w])
    {
      assert WorkerOk(s, pipe, s.pool.workers[w]);
    }
    forall w, x | 0 <= w < x < |s'.pool.workers|
      ensures Apart(s'.pool.workers[w], s'.pool.workers[x])
    {
      assert Apart(s.pool.workers[w], s.pool.workers[x]);
    }
  }

  /** A task with its answer sent on the channel for it, which is then closed. */
  function Replied(task: Task, answer: Result<Prediction>): Task {
    match answer
    case Ok(p) => task.(result := Chan([p], 0, true))
    case Err(e) => task.(error := Chan([e], 0, true))
  }

  lemma FirstSend<T>(ch: Chan<T>, v: T)
    requires ch == NewChan()
    ensures SendAndClose(ch, v) == Some(Chan([v], 0, true))
  {
    assert ch.sent + [v] == [v];
  }

  lemma ReplyOnUntouched(s: System, w: nat, t: nat, answer: Result<Prediction>)
    requires w < |s.pool.workers| && t in s.pool.tasks && Untouched(s.pool.tasks[t])
    ensures SendReply(s, w, t, answer) == Some(SetWorker(SetTask(s, t, Replied(s.pool.tasks[t], answer)), w, Idle))
  {
    match answer
    case Ok(p) => FirstSend(s.pool.tasks[t].result, p);
    case Err(e) => FirstSend(s.pool.tasks[t].error, e);
  }

  lemma SendIs(s: System, pipe: Pipe, w: nat)
    requires !s.pool.fault && !s.eng.fault && w < |s.pool.workers| && s.pool.workers[w].Reply?
    requires s.pool.workers[w].task in s.pool.tasks
    ensures Next(s, pipe, Send(w)) == SendReply(s, w, s.pool.workers[w].task, s.pool.workers[w].answer)
  {
  }

  /** The reply finds both buffers empty and both channels open: it neither blocks nor panics. */
  lemma SendNeverBlocks(s: System, pipe: Pipe, w: nat)
    requires Inv(s, pipe) && !s.pool.fault && !s.eng.fault && w < |s.pool.workers| && s.pool.workers[w].Reply?
    ensures var t, answer := s.pool.workers[w].task, s.pool.workers[w].answer;
            t in s.pool.tasks
            && Next(s, pipe, Send(w)) == Some(SetWorker(SetTask(s, t, Replied(s.pool.tasks[t], answer)), w, Idle))
  {
    var t, answer := s.pool.workers[w].task, s.pool.workers[w].answer;
    assert WorkerOk(s, pipe, s.pool.workers[w]);
    HandsOf(s, pipe, w, t);
    SendIs(s, pipe, w);
    ReplyOnUntouched(s, w, t, answer);
  }

  lemma SendKeepsInv(s: System, pipe: Pipe, w: nat)
    requires Inv(s, pipe) && Next(s, pipe, Send(w)).Some?
    ensures Inv(Next(s, pipe, Send(w)).value, pipe)
  {
    var t, answer := s.pool.workers[w].task, s.pool.workers[w].answer;
    assert WorkerOk(s, pipe, s.pool.workers[w]);
    SendNeverBlocks(s, pipe, w);
    ReplyKeepsInv(s, pipe, w, t, answer);
  }

  lemma ReplyKeepsInv(s: System, pipe: Pipe, w: nat, t: nat, answer: Result<Prediction>)
    requires Inv(s, pipe) && w < |s.pool.workers| && s.pool.workers[w] == Reply(t, answer)
    requires t in s.pool.tasks && ChainGives(s, pipe, t, answer)
    ensures Inv(SetWorker(SetTask(s, t, Replied(s.pool.tasks[t], answer)), w, Idle), pipe)
  {
    var s' := SetWorker(SetTask(s, t, Replied(s.pool.tasks[t], answer)), w, Idle);
    HandsOf(s, pipe, w, t);
    assert Untouched(s.pool.tasks[t]);
    TasksKeepWorkers(s, s', pipe);
    OtherReplies(s, s', pipe, t);
    OneLetGo(s, s', w, t);
    assert ReplyOk(s', pipe, t);
  }

  lemma OneLetGo(s: System, s': System, w: nat, t: nat)
    requires w < |s.pool.workers| && s'.pool.workers == s.pool.workers[w := Idle]
    requires forall x :: 0 <= x < |s.pool.workers| && x != w ==> !Holds(s.pool.workers[x], t)
    requires Holds(s.pool.workers[w], t)
    ensures forall u :: InHands(s', u) <==> InHands(s, u) && u != t
  {
    forall u
      ensures InHands(s', u) <==> InHands(s, u) && u != t
    {
      if InHands(s, u) && u != t {
        var x :| 0 <= x < |s.pool.workers| && Holds(s.pool.workers[x], u);
        assert Holds(s'.pool.workers[x], u);
      }
      if InHands(s', u) {
        var x :| 0 <= x < |s'.pool.workers| && Holds(s'.pool.workers[x], u);
        assert x != w && Holds(s.pool.workers[x], u);
      }
    }
  }

  lemma PreKeepsInv(s: System, pipe: Pipe, w: nat)
    requires Inv(s, pipe) && w < |s.pool.workers| && PreNext(s, pipe, w).Some?
    ensures Inv(PreNext(s, pipe, w).value, pipe)
  {
    assert WorkerOk(s, pipe, s.pool.workers[w]);
    SameHands(s, pipe, w, PreNext(s, pipe, w).value.pool.workers[w]);
  }

  lemma CollectKeepsInv(s: System, pipe: Pipe, w: nat)
    requires Inv(s, pipe) && w < |s.pool.workers| && CollectNext(s, w).Some?
    ensures Inv(CollectNext(s, w).value, pipe)
  {
    assert WorkerOk(s, pipe, s.pool.workers[w]);
    SameHands(s, pipe, w, CollectNext(s, w).value.pool.workers[w]);
  }

  lemma PostKeepsInv(s: System, pipe: Pipe, w: nat)
    requires Inv(s, pipe) && w < |s.pool.workers| && s.pool.workers[w].Post?
    ensures var x := s.pool.workers[w]; Inv(SetWorker(s, w, Reply(x.task, Finish(pipe, Ok(x.prediction)))), pipe)
  {
    var x := s.pool.workers[w];
    assert WorkerOk(s, pipe, x);
    SameHands(s, pipe, w, Reply(x.task, Finish(pipe, Ok(x.prediction))));
  }

  lemma WorkerStepKeepsInv(s: System, pipe: Pipe, a: Step)
    requires Inv(s, pipe) && IsWorkerStep(a) && Next(s, pipe, a).Some?
    ensures Inv(Next(s, pipe, a).value, pipe)
  {
    var w := a.w;
    if a.Take? {
      TakeKeepsInv(s, pipe, w);
    } else if a.AskEngine? {
      AskKeepsInv(s, pipe, w);
    } else if a.Send? {
      SendKeepsInv(s, pipe, w);
    } else if a.RunPre? {
      PreKeepsInv(s, pipe, w);
    } else if a.Collect? {
      CollectKeepsInv(s, pipe, w);
    } else if a.RunPost? {
      PostKeepsInv(s, pipe, w);
    } else {
      SameHands(s, pipe, w, Exited);
    }
  }

  // ---- Submitters, receivers and Shutdown ----

  lemma SubmitKeepsInv(s: System, pipe: Pipe, a: Step)
    requires Inv(s, pipe) && a.Submit? && Next(s, pipe, a).Some?
    ensures Inv(Next(s, pipe, a).value, pipe)
  {
    var s' := Next(s, pipe, a).value;
    TasksKeepWorkers(s, s', pipe);
    HandsAgree(s, s');
    forall w | 0 <= w < |s.pool.workers|
      ensures !Holds(s.pool.workers[w], a.t)
    {
      assert WorkerOk(s, pipe, s.pool.workers[w]);
    }
    forall u | u in s'.pool.tasks && u !in s'.pool.pending && u !in s'.pool.queue && !InHands(s', u)
      ensures ReplyOk(s', pipe, u)
    {
      assert ReplyOk(s, pipe, u);
    }
  }

  lemma EnqueueKeepsPlaces(s: System, pipe: Pipe, t: nat)
    requires PlacesOk(s, pipe) && t in s.pool.pending && |s.pool.queue| < CAPACITY
    ensures PlacesOk(s.(pool := s.pool.(pending := s.pool.pending - {t}, queue := s.pool.queue + [t])), pipe)
  {
    var s' := s.(pool := s.pool.(pending := s.pool.pending - {t}, queue := s.pool.queue + [t]));
    HandsAgree(s, s');
    assert t in s'.pool.queue;
    forall u | u in s'.pool.tasks && u !in s'.pool.pending && u !in s'.pool.queue && !InHands(s', u)
      ensures ReplyOk(s', pipe, u)
    {
      assert ReplyOk(s, pipe, u);
    }
  }

  lemma EnqueueKeepsInv(s: System, pipe: Pipe, t: nat)
    requires Inv(s, pipe) && !s.pool.closed && Next(s, pipe, Enqueue(t)).Some?
    ensures Inv(Next(s, pipe, Enqueue(t)).value, pipe)
  {
    EnqueueKeepsPlaces(s, pipe, t);
    TasksKeepWorkers(s, Next(s, pipe, Enqueue(t)).value, pipe);
  }

  /** A submitter turned away by a shutdown finds its error channel open and empty and its result
      channel open: its send and its two closes neither block nor panic. */
  lemma RefuseNeverBlocks(s: System, pipe: Pipe, t: nat)
    requires Inv(s, pipe) && !s.pool.fault && !s.eng.fault && t in s.pool.pending && s.pool.cancelled
    ensures t in s.pool.tasks && !s.pool.tasks[t].error.closed && !s.pool.tasks[t].result.closed
    ensures Next(s, pipe, Refuse(t))
         == Some(SetTask(s.(pool := s.pool.(pending := s.pool.pending - {t})), t, TurnedAway(s.pool.tasks[t])))
  {
    assert Untouched(s.pool.tasks[t]);
    FirstSend(s.pool.tasks[t].error, ContextDone);
  }

  function TurnedAway(task: Task): Task {
    task.(error := Chan([ContextDone], 0, true), result := task.result.(closed := true))
  }

  lemma RefuseKeepsInv(s: System, pipe: Pipe, t: nat)
    requires Inv(s, pipe) && Next(s, pipe, Refuse(t)).Some?
    ensures Inv(Next(s, pipe, Refuse(t)).value, pipe)
  {
    var s' := Next(s, pipe, Refuse(t)).value;
    RefuseNeverBlocks(s, pipe, t);
    TasksKeepWorkers(s, s', pipe);
    HandsAgree(s, s');
    OtherReplies(s, s', pipe, t);
    assert ReplyOk(s', pipe, t);
  }

  /** A submitter takes its value out of the buffer. */
  lemma ReceivedKeepsInv(s: System, pipe: Pipe, t: nat, task: Task)
    requires Inv(s, pipe) && t in s.pool.tasks && SameRequest(s.pool.tasks[t], task) && !Untouched(s.pool.tasks[t])
    requires task.result.sent == s.pool.tasks[t].result.sent && task.error.sent == s.pool.tasks[t].error.sent
    requires task.result.taken <= |task.result.sent| && task.error.taken <= |task.error.sent|
    ensures Inv(SetTask(s, t, task), pipe)
  {
    var s' := SetTask(s, t, task);
    TasksKeepWorkers(s, s', pipe);
    HandsAgree(s, s');
    OtherReplies(s, s', pipe, t);
    assert ReplyOk(s, pipe, t);
    assert ReplyOk(s', pipe, t);
  }

  lemma SentMeansReplied(s: System, pipe: Pipe, t: nat)
    requires Inv(s, pipe) && t in s.pool.tasks && !Untouched(s.pool.tasks[t])
    ensures ReplyOk(s, pipe, t)
  {
  }

  lemma ReceiveResultKeepsInv(s: System, pipe: Pipe, t: nat)
    requires Inv(s, pipe) && t in s.pool.tasks && s.pool.tasks[t].result.taken < |s.pool.tasks[t].result.sent|
    ensures Inv(SetTask(s, t, s.pool.tasks[t].(result := Taken(s.pool.tasks[t].result))), pipe)
  {
    SentMeansReplied(s, pipe, t);
    ReceivedKeepsInv(s, pipe, t, s.pool.tasks[t].(result := Taken(s.pool.tasks[t].result)));
  }

  lemma ReceiveErrorKeepsInv(s: System, pipe: Pipe, t: nat)
    requires Inv(s, pipe) && t in s.pool.tasks && s.pool.tasks[t].error.taken < |s.pool.tasks[t].error.sent|
    ensures Inv(SetTask(s, t, s.pool.tasks[t].(error := Taken(s.pool.tasks[t].error))), pipe)
  {
    SentMeansReplied(s, pipe, t);
    ReceivedKeepsInv(s, pipe, t, s.pool.tasks[t].(error := Taken(s.pool.tasks[t].error)));
  }

  lemma FlagsKeepInv(s: System, s': System, pipe: Pipe)
    requires Inv(s, pipe) && s'.eng == s.eng
    requires s'.pool == s.pool.(cancelled := s'.pool.cancelled, closed := s'.pool.closed, ended := s'.pool.ended,
                                fault := s'.pool.fault)
    requires (s.pool.cancelled ==> s'.pool.cancelled) && (s.pool.closed ==> s'.pool.closed)
    requires s'.pool.closed ==> s'.pool.cancelled
    ensures Inv(s', pipe)
  {
    TasksKeepWorkers(s, s', pipe);
    HandsAgree(s, s');
    SamePlaces(s, s', pipe);
  }

  /** Every step of the service keeps the invariant. */
  lemma StepKeepsInv(s: System, pipe: Pipe, a: Step)
    requires Inv(s, pipe) && Next(s, pipe, a).Some?
    ensures Inv(Next(s, pipe, a).value, pipe)
  {
    var s' := Next(s, pipe, a).value;
    if a.Engine? {
      EngineStepKeepsInv(s, pipe, a.a);
    } else if IsWorkerStep(a) {
      WorkerStepKeepsInv(s, pipe, a);
    } else if a.Submit? {
      SubmitKeepsInv(s, pipe, a);
    } else if a.Refuse? {
      RefuseKeepsInv(s, pipe, a.t);
    } else if a.ReceiveResult? {
      ReceiveResultKeepsInv(s, pipe, a.t);
    } else if a.ReceiveError? {
      ReceiveErrorKeepsInv(s, pipe, a.t);
    } else if s'.pool.fault || a.Cancel? || a.CloseTasks? || a.EndShutdown? {
      FlagsKeepInv(s, s', pipe);
    } else {
      EnqueueKeepsInv(s, pipe, a.t);
    }
  }

  lemma {:induction false} RunKeepsInv(s: System, pipe: Pipe, steps: seq<Step>)
    requires Inv(s, pipe) && Run(s, pipe, steps).Some?
    ensures Inv(Run(s, pipe, steps).value, pipe)
    decreases |steps|
  {
    if steps != [] {
      StepKeepsInv(s, pipe, steps[0]);
      RunKeepsInv(Next(s, pipe, steps[0]).value, pipe, steps[1..]);
    }
  }
}
