/** Deadlock freedom and draining: once nothing new arrives, a service that is not being shut down
    answers every task, however few slots it has. */
module Draining {
  import opened Values
  import opened Inference
  import E = SessionPool
  import EI = SessionPoolInvariant
  import ET = SessionPoolTheorems
  import opened WorkerPool
  import opened WorkerPoolInvariant
  import WT = WorkerPoolTheorems

  // ---- Sums ----

  ghost function Total(m: map<nat, nat>): nat
    decreases |m|
  {
    if m == map[] then 0
    else
      var k :| k in m;
      assert (m - {k}).Keys == m.Keys - {k};
      m[k] + Total(m - {k})
  }

  lemma {:induction false} TotalRemove(m: map<nat, nat>, k: nat)
    requires k in m
    ensures Total(m) == m[k] + Total(m - {k})
    decreases |m|
  {
    var x :| x in m && Total(m) == m[x] + Total(m - {x});
    if x != k {
      assert (m - {x}).Keys == m.Keys - {x} && (m - {k}).Keys == m.Keys - {k};
      TotalRemove(m - {x}, k);
      TotalRemove(m - {k}, x);
      assert m - {x} - {k} == m - {k} - {x};
    }
  }

  lemma TotalUpdate(m: map<nat, nat>, k: nat, v: nat)
    ensures Total(m[k := v]) + (if k in m then m[k] else 0) == Total(m) + v
  {
    TotalRemove(m[k := v], k);
    assert m[k := v] - {k} == m - {k};
    if k in m {
      TotalRemove(m, k);
    } else {
      assert m - {k} == m;
    }
  }

  lemma OneMore(n: nat, w: nat)
    ensures (n + 1) * w == n * w + w
  {
  }

  // ---- The measure ----

  /** What an engine call has still to do; b bounds the inputs and outputs of any model. */
  function Work(e: E.State, c: nat, b: nat): nat
    requires c in e.calls
  {
    var call := e.calls[c];
    if call.phase.Called? then b + 6
    else if call.at.None? || call.at.value >= |e.insts| then 0
    else Left(call.phase, e.insts[call.at.value].net)
  }

  function Left(p: E.Phase, net: Net): nat {
    match p
    case Called(_) => 0
    case Waiting(_) => 4 + |net.inputs| + |net.outputs|
    case Filling(_, flats, next) => 3 + |net.outputs| + if next <= |flats| then |flats| - next else 0
    case Reading(_, got) => 2 + if |got| <= |net.outputs| then |net.outputs| - |got| else 0
    case Leaving(_, _) => 1
    case Finished(_) => 0
  }

  ghost predicate Bounded(e: E.State, b: nat) {
    forall j :: 0 <= j < |e.insts| ==> |e.insts[j].net.inputs| + |e.insts[j].net.outputs| <= b
  }

  function Works(e: E.State, b: nat): map<nat, nat> {
    map c | c in e.calls :: Work(e, c, b)
  }

  function Weight(w: Worker, b: nat): nat {
    match w
    case Exited => 0
    case Idle => 1
    case Pre(_) => b + 13
    case Ask(_, _) => b + 12
    case Await(_) => 4
    case Post(_, _) => 3
    case Reply(_, _) => 2
  }

  function Weights(ws: seq<Worker>, b: nat): nat {
    if ws == [] then 0 else Weights(ws[..|ws| - 1], b) + Weight(ws[|ws| - 1], b)
  }

  lemma {:induction false} WeightsUpdate(ws: seq<Worker>, w: nat, x: Worker, b: nat)
    requires w < |ws|
    ensures Weights(ws[w := x], b) + Weight(ws[w], b) == Weights(ws, b) + Weight(x, b)
  {
    var n := |ws| - 1;
    if w == n {
      assert ws[w := x][..n] == ws[..n];
    } else {
      WeightsUpdate(ws[..n], w, x, b);
      assert ws[w := x][..n] == ws[..n][w := x];
    }
  }

  ghost function Measure(s: System, b: nat): nat {
    |s.pool.pending| * (b + 15) + |s.pool.queue| * (b + 14) + Weights(s.pool.workers, b) + Total(Works(s.eng, b))
  }

  // ---- Progress steps ----

  predicate EngineProgress(a: E.Step) {
    E.IsMove(a) || a.Lookup?
  }

  /** Everything that carries a submitted task or a begun call forward. */
  predicate Progress(a: Step) {
    (a.Engine? && EngineProgress(a.a))
    || a.Enqueue? || a.Take? || a.RunPre? || a.AskEngine? || a.Collect? || a.RunPost? || a.Send?
  }

  /** All of that, and after a shutdown also submitters turned away and workers leaving. */
  predicate Working(a: Step) {
    Progress(a) || a.Refuse? || a.Exit?
  }

  /** Nothing has panicked, no load or unload is under way, and nobody is inside a closed model. */
  ghost predicate Running(s: System, pipe: Pipe) {
    Inv(s, pipe) && ET.Calm(s.eng) && s.eng.lock.Free? && !s.pool.fault
  }

  /** A running service with workers to serve and no shutdown. */
  ghost predicate Serving(s: System, pipe: Pipe, b: nat) {
    Running(s, pipe) && Bounded(s.eng, b) && !s.pool.cancelled && !s.pool.closed && s.pool.workers != []
  }

  // ---- Every working step lowers the measure ----

  lemma LeftDrops(call: E.Call, inst: E.Instance, a: E.Step)
    requires EI.InstOk(inst) && EI.Knows(call, inst) && E.IsMove(a) && E.MoveOf(call, inst, a).Moves?
    ensures var m := E.MoveOf(call, inst, a);
            m.inst.net == inst.net && !m.phase.Called? && !call.phase.Called?
            && Left(m.phase, inst.net) < Left(call.phase, inst.net)
  {
  }

  lemma OneCallWorks(e: E.State, c: nat, j: nat, p: E.Phase, inst: E.Instance, b: nat)
    requires c in e.calls && e.calls[c].at == Some(j) && j < |e.insts| && inst.net == e.insts[j].net
    requires !p.Called? && !e.calls[c].phase.Called? && Left(p, inst.net) < Left(e.calls[c].phase, inst.net)
    ensures var e' := E.SetInst(E.SetPhase(e, c, p), j, inst);
            Works(e', b) == Works(e, b)[c := Left(p, inst.net)] && Left(p, inst.net) < Work(e, c, b)
  {
    var e' := E.SetInst(E.SetPhase(e, c, p), j, inst);
    assert forall i :: 0 <= i < |e.insts| ==> e'.insts[i].net == e.insts[i].net;
    assert forall d :: d in e.calls && d != c ==> e'.calls[d] == e.calls[d] && Work(e', d, b) == Work(e, d, b);
  }

  lemma MoveLowersWorks(e: E.State, a: E.Step, b: nat)
    requires EI.Inv(e) && E.IsMove(a) && E.Next(e, a).Some? && !E.Next(e, a).value.fault
    ensures Total(Works(E.Next(e, a).value, b)) < Total(Works(e, b))
  {
    assert EI.CallOk(e, a.c);
    var call := e.calls[a.c];
    var j := call.at.value;
    EI.MoveShape(e, a, j);
    var m := E.MoveOf(call, e.insts[j], a);
    assert EI.InstOk(e.insts[j]);
    LeftDrops(call, e.insts[j], a);
    OneCallWorks(e, a.c, j, m.phase, m.inst, b);
    TotalUpdate(Works(e, b), a.c, Left(m.phase, m.inst.net));
  }

  lemma FoundHasLess(e: E.State, c: nat, call: E.Call, b: nat)
    requires Bounded(e, b) && c in e.calls && e.calls[c].phase.Called?
    requires call.phase.Waiting? || call.phase.Finished?
    ensures Work(e.(calls := e.calls[c := call]), c, b) < Work(e, c, b)
  {
  }

  lemma LookupLowersWork(e: E.State, c: nat, b: nat)
    requires EI.Inv(e) && Bounded(e, b) && c in e.calls && e.calls[c].phase.Called?
    ensures var e' := E.LookupNext(e, c);
            c in e'.calls && e' == e.(calls := e.calls[c := e'.calls[c]]) && Work(e', c, b) < Work(e, c, b)
  {
    EI.LookupCallOk(e, c);
    FoundHasLess(e, c, E.LookupNext(e, c).calls[c], b);
  }

  lemma OneWork(e: E.State, c: nat, call: E.Call, b: nat)
    requires c in e.calls
    ensures Works(e.(calls := e.calls[c := call]), b)
         == Works(e, b)[c := Work(e.(calls := e.calls[c := call]), c, b)]
  {
  }

  lemma LookupLowersWorks(e: E.State, c: nat, b: nat)
    requires EI.Inv(e) && Bounded(e, b) && c in e.calls && e.calls[c].phase.Called?
    ensures Total(Works(E.LookupNext(e, c), b)) < Total(Works(e, b))
  {
    var e' := E.LookupNext(e, c);
    LookupLowersWork(e, c, b);
    OneWork(e, c, e'.calls[c], b);
    TotalUpdate(Works(e, b), c, Work(e', c, b));
  }

  lemma EngineLowersWorks(e: E.State, a: E.Step, b: nat)
    requires EI.Inv(e) && Bounded(e, b) && EngineProgress(a) && E.Next(e, a).Some? && !E.Next(e, a).value.fault
    ensures Total(Works(E.Next(e, a).value, b)) < Total(Works(e, b))
  {
    if a.Lookup? {
      LookupLowersWorks(e, a.c, b);
    } else {
      MoveLowersWorks(e, a, b);
    }
  }

  lemma BeginAddsWork(e: E.State, c: nat, id: string, version: string, input: Value, b: nat)
    requires E.Next(e, E.Begin(c, id, version, input)).Some?
    ensures Total(Works(E.Next(e, E.Begin(c, id, version, input)).value, b)) <= Total(Works(e, b)) + b + 6
  {
    var e' := e.(calls := e.calls[c := E.NewCall(id, version, input)]);
    assert E.Next(e, E.Begin(c, id, version, input)) == Some(e') && c !in e.calls;
    OneNewWork(e, c, id, version, input, b);
    TotalUpdate(Works(e, b), c, Work(e', c, b));
  }

  lemma OneNewWork(e: E.State, c: nat, id: string, version: string, input: Value, b: nat)
    requires c !in e.calls
    ensures var e' := e.(calls := e.calls[c := E.NewCall(id, version, input)]);
            Work(e', c, b) <= b + 6 && Works(e', b) == Works(e, b)[c := Work(e', c, b)]
  {
  }

  lemma EnqueueLowers(s: System, pipe: Pipe, t: nat, b: nat)
    requires !s.pool.closed && Next(s, pipe, Enqueue(t)).Some?
    ensures Measure(Next(s, pipe, Enqueue(t)).value, b) < Measure(s, b)
  {
    var s' := Next(s, pipe, Enqueue(t)).value;
    assert |s'.pool.pending| == |s.pool.pending| - 1;
    assert |s'.pool.queue| == |s.pool.queue| + 1;
    OneMore(|s'.pool.pending|, b + 15);
    OneMore(|s.pool.queue|, b + 14);
  }

  lemma TakeLowers(s: System, pipe: Pipe, w: nat, b: nat)
    requires Next(s, pipe, Take(w)).Some?
    ensures Measure(Next(s, pipe, Take(w)).value, b) < Measure(s, b)
  {
    WeightsUpdate(s.pool.workers, w, Pre(s.pool.queue[0]), b);
    OneMore(|s.pool.queue| - 1, b + 14);
  }

  lemma AskLowers(s: System, pipe: Pipe, w: nat, b: nat)
    requires Next(s, pipe, AskEngine(w)).Some?
    ensures Measure(Next(s, pipe, AskEngine(w)).value, b) < Measure(s, b)
  {
    var t := s.pool.workers[w].task;
    BeginAddsWork(s.eng, t, s.pool.tasks[t].id, s.pool.tasks[t].version, s.pool.workers[w].input, b);
    WeightsUpdate(s.pool.workers, w, Await(t), b);
  }

  /** The steps that only advance one worker. */
  lemma HandLowers(s: System, w: nat, x: Worker, b: nat)
    requires w < |s.pool.workers| && Weight(x, b) < Weight(s.pool.workers[w], b)
    ensures Measure(SetWorker(s, w, x), b) < Measure(s, b)
  {
    WeightsUpdate(s.pool.workers, w, x, b);
  }

  lemma PreLowers(s: System, pipe: Pipe, w: nat, b: nat)
    requires w < |s.pool.workers| && PreNext(s, pipe, w).Some?
    ensures Measure(PreNext(s, pipe, w).value, b) < Measure(s, b)
  {
    HandLowers(s, w, PreNext(s, pipe, w).value.pool.workers[w], b);
  }

  lemma CollectLowers(s: System, w: nat, b: nat)
    requires w < |s.pool.workers| && CollectNext(s, w).Some?
    ensures Measure(CollectNext(s, w).value, b) < Measure(s, b)
  {
    HandLowers(s, w, CollectNext(s, w).value.pool.workers[w], b);
  }

  lemma SendLowers(s: System, pipe: Pipe, w: nat, b: nat)
    requires Inv(s, pipe) && !s.pool.fault && !s.eng.fault && w < |s.pool.workers| && s.pool.workers[w].Reply?
    ensures Next(s, pipe, Send(w)).Some? && Measure(Next(s, pipe, Send(w)).value, b) < Measure(s, b)
  {
    var t, answer := s.pool.workers[w].task, s.pool.workers[w].answer;
    SendNeverBlocks(s, pipe, w);
    var sent := SetTask(s, t, Replied(s.pool.tasks[t], answer));
    assert Measure(sent, b) == Measure(s, b);
    HandLowers(sent, w, Idle, b);
  }

  lemma PostLowers(s: System, pipe: Pipe, w: nat, b: nat)
    requires Next(s, pipe, RunPost(w)).Some?
    ensures Measure(Next(s, pipe, RunPost(w)).value, b) < Measure(s, b)
  {
    var x := s.pool.workers[w];
    HandLowers(s, w, Reply(x.task, Finish(pipe, Ok(x.prediction))), b);
  }

  lemma EngineLowers(s: System, a: E.Step, b: nat)
    requires EI.Inv(s.eng) && Bounded(s.eng, b) && EngineProgress(a)
    requires E.Next(s.eng, a).Some? && !E.Next(s.eng, a).value.fault
    ensures Measure(s.(eng := E.Next(s.eng, a).value), b) < Measure(s, b)
  {
    EngineLowersWorks(s.eng, a, b);
  }

  lemma RefuseLowers(s: System, pipe: Pipe, t: nat, b: nat)
    requires Inv(s, pipe) && Next(s, pipe, Refuse(t)).Some?
    ensures Measure(Next(s, pipe, Refuse(t)).value, b) < Measure(s, b)
  {
    RefuseNeverBlocks(s, pipe, t);
    var s' := Next(s, pipe, Refuse(t)).value;
    assert |s'.pool.pending| == |s.pool.pending| - 1;
    OneMore(|s'.pool.pending|, b + 15);
  }

  lemma ExitLowers(s: System, pipe: Pipe, w: nat, b: nat)
    requires Next(s, pipe, Exit(w)).Some?
    ensures Measure(Next(s, pipe, Exit(w)).value, b) < Measure(s, b)
  {
    HandLowers(s, w, Exited, b);
  }

  /** Every working step lowers the measure, during a shutdown too, so only so many can follow one
      another. */
  lemma StepLowersMeasure(s: System, pipe: Pipe, a: Step, b: nat)
    requires Running(s, pipe) && Bounded(s.eng, b) && Working(a) && Next(s, pipe, a).Some?
    requires !Next(s, pipe, a).value.eng.fault && !Next(s, pipe, a).value.pool.fault
    ensures Measure(Next(s, pipe, a).value, b) < Measure(s, b)
  {
    if a.Engine? {
      EngineLowers(s, a.a, b);
    } else if a.Enqueue? {
      EnqueueLowers(s, pipe, a.t, b);
    } else if a.Take? {
      TakeLowers(s, pipe, a.w, b);
    } else if a.AskEngine? {
      AskLowers(s, pipe, a.w, b);
    } else if a.Send? {
      SendLowers(s, pipe, a.w, b);
    } else if a.RunPre? {
      PreLowers(s, pipe, a.w, b);
    } else if a.Collect? {
      CollectLowers(s, a.w, b);
    } else if a.RunPost? {
      PostLowers(s, pipe, a.w, b);
    } else if a.Refuse? {
      RefuseLowers(s, pipe, a.t, b);
    } else {
      ExitLowers(s, pipe, a.w, b);
    }
  }

  // ---- What keeps the service running ----

  /** Everything but loads, unloads and Close: shutdowns included. */
  predicate Steady(a: Step) {
    a.Engine? ==> !WT.ChangesRegistry(a.a)
  }

  lemma EngineStaysCalm(e: E.State, a: E.Step)
    requires EI.Inv(e) && ET.Calm(e) && E.Next(e, a).Some? && !WT.ChangesRegistry(a)
    ensures ET.Calm(E.Next(e, a).value) && E.Next(e, a).value.lock == e.lock
  {
    ET.StepStaysCalm(e, a);
    if E.IsMove(a) {
      EI.MoveShape(e, a, e.calls[a.c].at.value);
    }
  }

  /** A step that changes no registry and does not panic keeps the service running, cancelled or not. */
  lemma StepKeepsRunning(s: System, pipe: Pipe, a: Step)
    requires Running(s, pipe) && Steady(a) && Next(s, pipe, a).Some? && !Next(s, pipe, a).value.pool.fault
    ensures Running(Next(s, pipe, a).value, pipe) && WT.SameRegistry(s.eng, Next(s, pipe, a).value.eng)
  {
    StepKeepsInv(s, pipe, a);
    WT.StepOnEngine(s, pipe, a);
    if WT.EngineOf(s, a).Some? {
      EngineStaysCalm(s.eng, WT.EngineOf(s, a).value);
      WT.EngineKeepsRegistry(s.eng, WT.EngineOf(s, a).value);
    }
  }

  lemma StaysOpen(s: System, pipe: Pipe, a: Step)
    requires Inv(s, pipe) && !s.pool.cancelled && !s.pool.closed && !a.Cancel? && Next(s, pipe, a).Some?
    ensures var p := Next(s, pipe, a).value.pool;
            !p.fault && !p.cancelled && !p.closed && |p.workers| == |s.pool.workers|
  {
    WT.PoolPanicsIff(s, pipe, a);
    WT.StepKeepsCancelled(s, pipe, a);
  }

  /** Submissions, other clients and slow receivers do not stop the service from serving. */
  lemma UndisturbedKeepsServing(s: System, pipe: Pipe, a: Step, b: nat)
    requires Serving(s, pipe, b) && WT.Undisturbed(a) && Next(s, pipe, a).Some?
    ensures Serving(Next(s, pipe, a).value, pipe, b)
  {
    StaysOpen(s, pipe, a);
    StepKeepsRunning(s, pipe, a);
  }

  // ---- While a task is unanswered, some progress step is enabled ----

  /** The step an owner takes next. */
  function OwnStep(c: nat, p: E.Phase): E.Step
    requires p.Filling? || p.Reading? || p.Leaving?
  {
    match p
    case Filling(_, flats, next) => if next < |flats| then E.FillOne(c) else E.RunSession(c, [])
    case Reading(_, _) => E.ReadOne(c)
    case Leaving(_, _) => E.Return(c)
  }

  lemma OwnStepMoves(call: E.Call, inst: E.Instance, c: nat)
    requires EI.InstOk(inst) && EI.Knows(call, inst) && EI.HoldsFairly(call, inst)
    requires call.phase.Filling? || call.phase.Reading? || call.phase.Leaving?
    ensures !E.MoveOf(call, inst, OwnStep(c, call.phase)).Blocked?
  {
    if call.phase.Leaving? {
      if !inst.closed { EI.ReturnStep(call, inst); }
    } else if call.phase.Reading? {
      EI.ReadStep(call, inst);
    } else if call.phase.next < |call.phase.flats| {
      EI.FillStep(call, inst);
    } else {
      EI.RunStep(call, inst, []);
    }
  }

  /** The owner of a slot can always take its next step: nothing it does waits for anyone. */
  lemma OwnerMoves(e: E.State, c: nat) returns (a: E.Step)
    requires EI.Inv(e) && ET.Calm(e) && c in e.calls
    requires e.calls[c].phase.Filling? || e.calls[c].phase.Reading? || e.calls[c].phase.Leaving?
    ensures EngineProgress(a) && E.Next(e, a).Some?
  {
    assert EI.CallOk(e, c);
    var call, inst := e.calls[c], e.insts[e.calls[c].at.value];
    assert EI.InstOk(inst);
    EI.HoldersAreFair(e, c);
    a := OwnStep(c, call.phase);
    OwnStepMoves(call, inst, c);
    EI.MoveShape(e, a, call.at.value);
  }

  /** A call that waits on an empty pool waits for an owner, who can move. */
  lemma WaiterIsServed(e: E.State, c: nat) returns (a: E.Step)
    requires EI.Inv(e) && ET.Calm(e) && c in e.calls && e.calls[c].phase.Waiting?
    ensures EngineProgress(a) && E.Next(e, a).Some?
  {
    assert EI.CallOk(e, c);
    var j := e.calls[c].at.value;
    var inst := e.insts[j];
    assert EI.InstOk(inst);
    if inst.pool != [] {
      a := E.Checkout(c);
    } else {
      assert E.Live(e.calls[c], j);
      assert !inst.closed && inst.destroyed == [];
      assert EI.Owned(e, j, 0);
      var d :| d in e.calls && E.Owns(e.calls[d], j, 0);
      a := OwnerMoves(e, d);
    }
  }

  lemma CallMoves(e: E.State, c: nat) returns (a: E.Step)
    requires EI.Inv(e) && ET.Calm(e) && e.lock.Free? && c in e.calls && !e.calls[c].phase.Finished?
    ensures EngineProgress(a) && E.Next(e, a).Some?
  {
    if e.calls[c].phase.Called? {
      a := E.Lookup(c);
    } else if e.calls[c].phase.Waiting? {
      a := WaiterIsServed(e, c);
    } else {
      a := OwnerMoves(e, c);
    }
  }

  lemma AwaitMoves(s: System, pipe: Pipe, w: nat) returns (a: Step)
    requires Running(s, pipe) && w < |s.pool.workers| && s.pool.workers[w].Await?
    ensures Progress(a) && !a.Take? && !a.Enqueue? && Next(s, pipe, a).Some?
  {
    var t := s.pool.workers[w].task;
    assert WorkerOk(s, pipe, s.pool.workers[w]);
    if s.eng.calls[t].phase.Finished? {
      a := Collect(w);
    } else {
      var m := CallMoves(s.eng, t);
      a := Engine(m);
    }
  }

  lemma WorkerMoves(s: System, pipe: Pipe, w: nat) returns (a: Step)
    requires Running(s, pipe) && w < |s.pool.workers| && Busy(s.pool.workers[w])
    ensures Progress(a) && !a.Take? && !a.Enqueue? && Next(s, pipe, a).Some?
  {
    var x := s.pool.workers[w];
    assert WorkerOk(s, pipe, x);
    if x.Await? {
      a := AwaitMoves(s, pipe, w);
    } else if x.Reply? {
      SendNeverBlocks(s, pipe, w);
      a := Send(w);
    } else {
      a := if x.Pre? then RunPre(w) else if x.Ask? then AskEngine(w) else RunPost(w);
    }
  }

  /** No deadlock: a task without an answer means an enabled progress step, for any number of
      workers and slots from one up. */
  lemma UnansweredMeansProgress(s: System, pipe: Pipe, b: nat, t: nat) returns (a: Step)
    requires Serving(s, pipe, b) && t in s.pool.tasks && !Answered(s.pool.tasks[t])
    ensures Progress(a) && Next(s, pipe, a).Some?
  {
    if w :| 0 <= w < |s.pool.workers| && Busy(s.pool.workers[w]) {
      a := WorkerMoves(s, pipe, w);
    } else {
      assert WorkerOk(s, pipe, s.pool.workers[0]);
      assert s.pool.workers[0].Idle?;
      if s.pool.queue != [] {
        a := Take(0);
      } else {
        forall w | 0 <= w < |s.pool.workers|
          ensures !Holds(s.pool.workers[w], t)
        {
          assert !Busy(s.pool.workers[w]);
        }
        OnePlace(s, pipe, t);
        a := Enqueue(t);
      }
    }
  }

  lemma OnePlace(s: System, pipe: Pipe, t: nat)
    requires Inv(s, pipe) && t in s.pool.tasks
    ensures t in s.pool.pending || t in s.pool.queue || InHands(s, t) || Answered(s.pool.tasks[t])
  {
    assert t in s.pool.pending || t in s.pool.queue || InHands(s, t) || ReplyOk(s, pipe, t);
  }

  // ---- Schedules ----

  /** A run of progress steps only. */
  ghost predicate Drives(s: System, pipe: Pipe, steps: seq<Step>) {
    (forall i :: 0 <= i < |steps| ==> Progress(steps[i])) && Run(s, pipe, steps).Some?
  }

  /** Whatever order the scheduler picks, it can take no more steps than the measure, and when it
      can take none every task has been answered. */
  lemma {:induction false} EveryScheduleDrains(s: System, pipe: Pipe, b: nat, steps: seq<Step>)
    requires Serving(s, pipe, b) && Drives(s, pipe, steps)
    ensures Serving(Run(s, pipe, steps).value, pipe, b)
    ensures |steps| + Measure(Run(s, pipe, steps).value, b) <= Measure(s, b)
    ensures (forall a :: Progress(a) ==> Next(Run(s, pipe, steps).value, pipe, a).None?) ==>
              forall t :: t in Run(s, pipe, steps).value.pool.tasks ==>
                  Answered(Run(s, pipe, steps).value.pool.tasks[t])
    decreases |steps|
  {
    if steps != [] {
      var s1 := Next(s, pipe, steps[0]).value;
      UndisturbedKeepsServing(s, pipe, steps[0], b);
      StepLowersMeasure(s, pipe, steps[0], b);
      EveryScheduleDrains(s1, pipe, b, steps[1..]);
    } else {
      forall t | t in s.pool.tasks && !Answered(s.pool.tasks[t])
        ensures exists a :: Progress(a) && Next(s, pipe, a).Some?
      {
        var a := UnansweredMeansProgress(s, pipe, b, t);
      }
    }
  }

  // ---- From the start ----

  lemma {:induction false} BoundExists(insts: seq<E.Instance>) returns (b: nat)
    ensures forall j :: 0 <= j < |insts| ==> |insts[j].net.inputs| + |insts[j].net.outputs| <= b
  {
    b := 0;
    if insts != [] {
      var init, last := insts[..|insts| - 1], insts[|insts| - 1];
      var c := BoundExists(init);
      b := c + |last.net.inputs| + |last.net.outputs|;
      assert forall j :: 0 <= j < |init| ==> insts[j] == init[j];
    }
  }

  lemma {:induction false} RunKeepsServing(s: System, pipe: Pipe, steps: seq<Step>, b: nat)
    requires Serving(s, pipe, b) && Run(s, pipe, steps).Some?
    requires forall i :: 0 <= i < |steps| ==> WT.Undisturbed(steps[i])
    ensures Serving(Run(s, pipe, steps).value, pipe, b)
    decreases |steps|
  {
    if steps != [] {
      UndisturbedKeepsServing(s, pipe, steps[0], b);
      RunKeepsServing(Next(s, pipe, steps[0]).value, pipe, steps[1..], b);
    }
  }

  /** The whole story: start a pool with at least one worker on an idle engine; let it run with any
      submissions and other clients; then let only progress steps happen.  They come to an end within the
      measure, and where none is left every task has its answer. */
  lemma ServiceDrains(s: System, pipe: Pipe, busy: seq<Step>, quiet: seq<Step>) returns (b: nat)
    requires Fresh(s) && EI.Inv(s.eng) && ET.Calm(s.eng) && s.eng.lock.Free? && s.pool.workers != []
    requires Run(s, pipe, busy).Some? && forall i :: 0 <= i < |busy| ==> WT.Undisturbed(busy[i])
    requires Drives(Run(s, pipe, busy).value, pipe, quiet)
    ensures |quiet| <= Measure(Run(s, pipe, busy).value, b)
    ensures var end := Run(Run(s, pipe, busy).value, pipe, quiet).value;
            (forall a :: Progress(a) ==> Next(end, pipe, a).None?) ==>
              forall t :: t in end.pool.tasks ==> Answered(end.pool.tasks[t])
  {
    b := BoundExists(s.eng.insts);
    WT.FreshHolds(s, pipe);
    RunKeepsServing(s, pipe, busy, b);
    EveryScheduleDrains(Run(s, pipe, busy).value, pipe, b, quiet);
  }
}
