/** What a shutdown leaves unanswered, and what it cannot. */
module Shutdown {
  import opened Values
  import opened WorkerPool
  import opened WorkerPoolInvariant
  import WT = WorkerPoolTheorems
  import opened Draining

  // ---- Where a shutdown comes to rest ----

  ghost predicate AtRest(s: System, pipe: Pipe) {
    forall a :: Working(a) ==> Next(s, pipe, a).None?
  }

  lemma NobodyHolds(s: System, pipe: Pipe, t: nat)
    requires Running(s, pipe) && AtRest(s, pipe)
    ensures !InHands(s, t)
  {
    if InHands(s, t) {
      var w :| 0 <= w < |s.pool.workers| && Holds(s.pool.workers[w], t);
      var a := WorkerMoves(s, pipe, w);
      assert false;
    }
  }

  /** What a shutdown leaves behind: when nothing more can happen, the tasks without an answer are
      exactly those still in the task channel, and every worker has gone. */
  lemma ShutdownLeavesTheQueue(s: System, pipe: Pipe)
    requires Running(s, pipe) && s.pool.cancelled && AtRest(s, pipe)
    ensures forall t :: t in s.pool.tasks ==> (!Answered(s.pool.tasks[t]) <==> t in s.pool.queue)
    ensures forall w :: 0 <= w < |s.pool.workers| ==> s.pool.workers[w].Exited?
  {
    forall t | t in s.pool.tasks
      ensures !Answered(s.pool.tasks[t]) <==> t in s.pool.queue
    {
      NobodyHolds(s, pipe, t);
      OnePlace(s, pipe, t);
      if t in s.pool.pending {
        RefuseNeverBlocks(s, pipe, t);
      }
    }
    forall w | 0 <= w < |s.pool.workers|
      ensures s.pool.workers[w].Exited?
    {
      if Busy(s.pool.workers[w]) {
        NobodyHolds(s, pipe, s.pool.workers[w].task);
      } else {
        assert Next(s, pipe, Exit(w)).None?;
      }
    }
  }

  // ---- It does come to rest ----

  lemma {:induction false} FaultEnds(s: System, pipe: Pipe, steps: seq<Step>)
    requires s.pool.fault && Run(s, pipe, steps).Some?
    ensures steps == []
  {
  }

  /** A run that changes no registry and does not panic stays running, with a Cancel, a close of the task
      channel and an end of Shutdown wherever they come; and a cancelled pool stays cancelled. */
  lemma {:induction false} RunKeepsRunning(s: System, pipe: Pipe, steps: seq<Step>)
    requires Running(s, pipe) && Run(s, pipe, steps).Some? && !Run(s, pipe, steps).value.pool.fault
    requires forall i :: 0 <= i < |steps| ==> Steady(steps[i])
    ensures Running(Run(s, pipe, steps).value, pipe)
    ensures s.pool.cancelled ==> Run(s, pipe, steps).value.pool.cancelled
    decreases |steps|
  {
    if steps != [] {
      var s1 := Next(s, pipe, steps[0]).value;
      if s1.pool.fault {
        FaultEnds(s1, pipe, steps[1..]);
      }
      StepKeepsRunning(s, pipe, steps[0]);
      if !steps[0].Cancel? {
        WT.StepKeepsCancelled(s, pipe, steps[0]);
      }
      RunKeepsRunning(s1, pipe, steps[1..]);
    }
  }

  /** No schedule of working steps is longer than the measure, in a cancelled pool either. */
  lemma {:induction false} EveryScheduleEnds(s: System, pipe: Pipe, b: nat, steps: seq<Step>)
    requires Running(s, pipe) && Bounded(s.eng, b) && Run(s, pipe, steps).Some? && !Run(s, pipe, steps).value.pool.fault
    requires forall i :: 0 <= i < |steps| ==> Working(steps[i])
    ensures |steps| + Measure(Run(s, pipe, steps).value, b) <= Measure(s, b)
    decreases |steps|
  {
    if steps != [] {
      var s1 := Next(s, pipe, steps[0]).value;
      if s1.pool.fault {
        FaultEnds(s1, pipe, steps[1..]);
      }
      StepKeepsRunning(s, pipe, steps[0]);
      StepLowersMeasure(s, pipe, steps[0], b);
      EveryScheduleEnds(s1, pipe, b, steps[1..]);
    }
  }

  // ---- Driving the pool while the task channel is left alone ----

  /** Working steps that neither take from the task channel nor send to it. */
  predicate LeavesQueue(a: Step) {
    Working(a) && !a.Take? && !a.Enqueue?
  }

  /** Those of them that serve the tasks in hand. */
  predicate Serves(a: Step) {
    Progress(a) && !a.Take? && !a.Enqueue?
  }

  /** Where such steps lead: the task channel, the tasks and the flags are as they were, and nobody new
      is at the channel. */
  ghost predicate QueueLeft(s: System, s': System) {
    && s'.pool.queue == s.pool.queue && s'.pool.tasks.Keys == s.pool.tasks.Keys && s'.pool.pending <= s.pool.pending
    && s'.pool.cancelled == s.pool.cancelled && s'.pool.closed == s.pool.closed && s'.pool.fault == s.pool.fault
    && |s'.pool.workers| == |s.pool.workers|
  }

  /** And, if nobody leaves or is turned away, so are the submitters and the workers still there. */
  ghost predicate NobodyLeft(s: System, s': System) {
    && s'.pool.pending == s.pool.pending && |s'.pool.workers| == |s.pool.workers|
    && forall w :: 0 <= w < |s.pool.workers| && s'.pool.workers[w].Exited? ==> s.pool.workers[w].Exited?
  }

  lemma HandLeaves(s: System, s': System, w: nat, x: Worker)
    requires w < |s.pool.workers| && s'.pool == s.pool.(workers := s.pool.workers[w := x])
    ensures QueueLeft(s, s') && (!x.Exited? ==> NobodyLeft(s, s'))
  {
  }

  lemma SendLeaves(s: System, pipe: Pipe, w: nat)
    requires Inv(s, pipe) && Next(s, pipe, Send(w)).Some?
    ensures QueueLeft(s, Next(s, pipe, Send(w)).value) && NobodyLeft(s, Next(s, pipe, Send(w)).value)
  {
    var t, answer := s.pool.workers[w].task, s.pool.workers[w].answer;
    SendNeverBlocks(s, pipe, w);
    HandLeaves(SetTask(s, t, Replied(s.pool.tasks[t], answer)), Next(s, pipe, Send(w)).value, w, Idle);
  }

  lemma RefuseLeaves(s: System, pipe: Pipe, t: nat)
    requires Inv(s, pipe) && Next(s, pipe, Refuse(t)).Some?
    ensures QueueLeft(s, Next(s, pipe, Refuse(t)).value)
  {
    RefuseNeverBlocks(s, pipe, t);
  }

  lemma AskLeaves(s: System, pipe: Pipe, w: nat)
    requires Next(s, pipe, AskEngine(w)).Some?
    ensures QueueLeft(s, Next(s, pipe, AskEngine(w)).value) && NobodyLeft(s, Next(s, pipe, AskEngine(w)).value)
  {
    HandLeaves(s, Next(s, pipe, AskEngine(w)).value, w, Await(s.pool.workers[w].task));
  }

  /** The steps of one worker that touch neither the engine nor the reply channels. */
  lemma OwnLeaves(s: System, pipe: Pipe, a: Step)
    requires (a.RunPre? || a.Collect? || a.RunPost? || a.Exit?) && Next(s, pipe, a).Some?
    ensures QueueLeft(s, Next(s, pipe, a).value)
    ensures !a.Exit? ==> NobodyLeft(s, Next(s, pipe, a).value)
  {
    var s' := Next(s, pipe, a).value;
    HandLeaves(s, s', a.w, s'.pool.workers[a.w]);
  }

  lemma LeavingStep(s: System, pipe: Pipe, a: Step)
    requires Inv(s, pipe) && LeavesQueue(a) && Next(s, pipe, a).Some?
    ensures QueueLeft(s, Next(s, pipe, a).value)
    ensures Serves(a) ==> NobodyLeft(s, Next(s, pipe, a).value)
  {
    if a.Send? {
      SendLeaves(s, pipe, a.w);
    } else if a.Refuse? {
      RefuseLeaves(s, pipe, a.t);
    } else if a.AskEngine? {
      AskLeaves(s, pipe, a.w);
    } else if !a.Engine? {
      OwnLeaves(s, pipe, a);
    }
  }

  lemma NothingTaken(s: System, pipe: Pipe)
    requires Running(s, pipe) && s.pool.cancelled
    requires forall a :: LeavesQueue(a) ==> Next(s, pipe, a).None?
    ensures AtRest(s, pipe)
  {
    forall t | t in s.pool.pending
      ensures false
    {
      RefuseNeverBlocks(s, pipe, t);
    }
    forall w | 0 <= w < |s.pool.workers|
      ensures !s.pool.workers[w].Idle?
    {
      assert Next(s, pipe, Exit(w)).None?;
    }
  }

  /** A cancelled pool can be driven to rest without anything being taken from its task channel. */
  lemma {:induction false} DriveToRest(s: System, pipe: Pipe, b: nat) returns (steps: seq<Step>)
    requires Running(s, pipe) && Bounded(s.eng, b) && s.pool.cancelled
    ensures Run(s, pipe, steps).Some? && forall i :: 0 <= i < |steps| ==> LeavesQueue(steps[i])
    ensures QueueLeft(s, Run(s, pipe, steps).value) && AtRest(Run(s, pipe, steps).value, pipe)
    decreases Measure(s, b)
  {
    if a :| LeavesQueue(a) && Next(s, pipe, a).Some? {
      var s1 := Next(s, pipe, a).value;
      LeavingStep(s, pipe, a);
      StepKeepsRunning(s, pipe, a);
      StepLowersMeasure(s, pipe, a, b);
      var rest := DriveToRest(s1, pipe, b);
      steps := [a] + rest;
      assert steps[1..] == rest;
    } else {
      NothingTaken(s, pipe);
      steps := [];
    }
  }

  lemma ServeOne(s: System, pipe: Pipe, b: nat, w: nat) returns (a: Step)
    requires Running(s, pipe) && Bounded(s.eng, b) && w < |s.pool.workers| && Busy(s.pool.workers[w])
    ensures Serves(a) && Next(s, pipe, a).Some?
    ensures var s1 := Next(s, pipe, a).value;
            && Running(s1, pipe) && Bounded(s1.eng, b) && Measure(s1, b) < Measure(s, b)
            && QueueLeft(s, s1) && NobodyLeft(s, s1)
  {
    a := WorkerMoves(s, pipe, w);
    LeavingStep(s, pipe, a);
    StepKeepsRunning(s, pipe, a);
    StepLowersMeasure(s, pipe, a, b);
  }

  /** The workers can be driven until none is busy, nobody leaving. */
  lemma {:induction false} DriveToIdle(s: System, pipe: Pipe, b: nat) returns (steps: seq<Step>)
    requires Running(s, pipe) && Bounded(s.eng, b)
    ensures Run(s, pipe, steps).Some? && forall i :: 0 <= i < |steps| ==> Serves(steps[i])
    ensures var end := Run(s, pipe, steps).value;
            && QueueLeft(s, end) && NobodyLeft(s, end) && Running(end, pipe) && Bounded(end.eng, b)
            && forall w :: 0 <= w < |end.pool.workers| ==> !Busy(end.pool.workers[w])
    decreases Measure(s, b)
  {
    if w :| 0 <= w < |s.pool.workers| && Busy(s.pool.workers[w]) {
      var a := ServeOne(s, pipe, b, w);
      var rest := DriveToIdle(Next(s, pipe, a).value, pipe, b);
      steps := [a] + rest;
      assert steps[1..] == rest;
    } else {
      steps := [];
    }
  }

  // ---- Who can be left without an answer ----

  /** The run changes no registry, does not panic, comes to rest, and leaves task t without an answer. */
  ghost predicate StrandedBy(s: System, pipe: Pipe, steps: seq<Step>, t: nat) {
    && (forall i :: 0 <= i < |steps| ==> Steady(steps[i])) && Run(s, pipe, steps).Some?
    && var end := Run(s, pipe, steps).value;
       !end.pool.fault && AtRest(end, pipe) && t in end.pool.tasks && !Answered(end.pool.tasks[t])
  }

  ghost predicate CanBeStranded(s: System, pipe: Pipe, t: nat) {
    exists steps :: StrandedBy(s, pipe, steps, t)
  }

  lemma {:induction false} RunOn(s: System, pipe: Pipe, first: seq<Step>, rest: seq<Step>)
    requires Run(s, pipe, first).Some?
    ensures Run(s, pipe, first + rest) == Run(Run(s, pipe, first).value, pipe, rest)
    decreases |first|
  {
    if first == [] {
      assert first + rest == rest;
    } else {
      assert (first + rest)[1..] == first[1..] + rest;
      RunOn(Next(s, pipe, first[0]).value, pipe, first[1..], rest);
    }
  }

  lemma StrandedLater(s: System, pipe: Pipe, first: seq<Step>, t: nat)
    requires Run(s, pipe, first).Some? && forall i :: 0 <= i < |first| ==> Steady(first[i])
    requires CanBeStranded(Run(s, pipe, first).value, pipe, t)
    ensures CanBeStranded(s, pipe, t)
  {
    var rest :| StrandedBy(Run(s, pipe, first).value, pipe, rest, t);
    RunOn(s, pipe, first, rest);
    assert StrandedBy(s, pipe, first + rest, t);
  }

  lemma StrandedNext(s: System, pipe: Pipe, a: Step, t: nat)
    requires Next(s, pipe, a).Some? && Steady(a) && CanBeStranded(Next(s, pipe, a).value, pipe, t)
    ensures CanBeStranded(s, pipe, t)
  {
    assert [a][1..] == [] && Run(s, pipe, [a]) == Some(Next(s, pipe, a).value);
    StrandedLater(s, pipe, [a], t);
  }

  /** A queued task is left behind when the workers choose to leave. */
  lemma QueuedIsStranded(s: System, pipe: Pipe, b: nat, t: nat)
    requires Running(s, pipe) && Bounded(s.eng, b) && s.pool.cancelled && t in s.pool.queue
    ensures CanBeStranded(s, pipe, t)
  {
    var steps := DriveToRest(s, pipe, b);
    RunKeepsRunning(s, pipe, steps);
    assert Untouched(Run(s, pipe, steps).value.pool.tasks[t]);
    assert StrandedBy(s, pipe, steps, t);
  }

  /** So is a pending one whose submitter finds room before it sees the shutdown. */
  lemma EnteringIsStranded(s: System, pipe: Pipe, b: nat, t: nat)
    requires Running(s, pipe) && Bounded(s.eng, b) && s.pool.cancelled && !s.pool.closed
    requires t in s.pool.pending && |s.pool.queue| < CAPACITY
    ensures CanBeStranded(s, pipe, t)
  {
    var s1 := Next(s, pipe, Enqueue(t)).value;
    StepKeepsRunning(s, pipe, Enqueue(t));
    QueuedIsStranded(s1, pipe, b, t);
    StrandedNext(s, pipe, Enqueue(t), t);
  }

  lemma TakeMakesRoom(s: System, pipe: Pipe)
    requires Running(s, pipe) && s.pool.workers != [] && s.pool.workers[0].Idle? && |s.pool.queue| == CAPACITY
    ensures Next(s, pipe, Take(0)) == TakeNext(s, 0) && TakeNext(s, 0).Some?
    ensures var s' := TakeNext(s, 0).value;
            && s'.eng == s.eng && |s'.pool.queue| < CAPACITY && s'.pool.pending == s.pool.pending
            && s'.pool.cancelled == s.pool.cancelled && s'.pool.closed == s.pool.closed && !s'.pool.fault
  {
  }

  lemma IdleIsStranded(s: System, pipe: Pipe, b: nat, t: nat)
    requires Running(s, pipe) && Bounded(s.eng, b) && s.pool.cancelled && !s.pool.closed
    requires s.pool.workers != [] && s.pool.workers[0].Idle? && t in s.pool.pending && |s.pool.queue| == CAPACITY
    ensures CanBeStranded(s, pipe, t)
  {
    TakeMakesRoom(s, pipe);
    StepKeepsRunning(s, pipe, Take(0));
    EnteringIsStranded(TakeNext(s, 0).value, pipe, b, t);
    StrandedNext(s, pipe, Take(0), t);
  }

  /** And a worker can make room in a full channel. */
  lemma WaitingIsStranded(s: System, pipe: Pipe, b: nat, t: nat)
    requires Running(s, pipe) && Bounded(s.eng, b) && s.pool.cancelled && !s.pool.closed && s.pool.workers != []
    requires forall w :: 0 <= w < |s.pool.workers| ==> !s.pool.workers[w].Exited?
    requires t in s.pool.pending && |s.pool.queue| == CAPACITY
    ensures CanBeStranded(s, pipe, t)
  {
    var steps := DriveToIdle(s, pipe, b);
    IdleIsStranded(Run(s, pipe, steps).value, pipe, b, t);
    StrandedLater(s, pipe, steps, t);
  }

  /** Task t is past the task channel. */
  ghost predicate Past(s: System, t: nat) {
    t in s.pool.tasks && t !in s.pool.pending && t !in s.pool.queue
  }

  /** Task t is still at a task channel that is full and that nobody empties. */
  ghost predicate ShutOut(s: System, t: nat) {
    t in s.pool.tasks && t !in s.pool.queue && s.pool.workers == [] && |s.pool.queue| >= CAPACITY
  }

  /** Submitters arriving, receivers, and the steps of Shutdown. */
  lemma OthersKeepQueue(s: System, pipe: Pipe, a: Step, t: nat)
    requires !Working(a) && !a.Engine? && Next(s, pipe, a).Some? && t in s.pool.tasks
    ensures var p := Next(s, pipe, a).value.pool;
            p.queue == s.pool.queue && t in p.tasks && (t in p.pending ==> t in s.pool.pending)
            && p.workers == s.pool.workers
  {
  }

  lemma StepStaysOut(s: System, pipe: Pipe, a: Step, t: nat)
    requires Inv(s, pipe) && (Past(s, t) || ShutOut(s, t)) && Next(s, pipe, a).Some?
    ensures Past(Next(s, pipe, a).value, t) || ShutOut(Next(s, pipe, a).value, t)
  {
    if LeavesQueue(a) {
      LeavingStep(s, pipe, a);
    } else if !Working(a) && !a.Engine? {
      OthersKeepQueue(s, pipe, a, t);
    }
  }

  lemma {:induction false} RunStaysOut(s: System, pipe: Pipe, steps: seq<Step>, t: nat)
    requires Inv(s, pipe) && (Past(s, t) || ShutOut(s, t)) && Run(s, pipe, steps).Some?
    ensures Past(Run(s, pipe, steps).value, t) || ShutOut(Run(s, pipe, steps).value, t)
    decreases |steps|
  {
    if steps != [] {
      StepKeepsInv(s, pipe, steps[0]);
      StepStaysOut(s, pipe, steps[0], t);
      RunStaysOut(Next(s, pipe, steps[0]).value, pipe, steps[1..], t);
    }
  }

  lemma OutIsAnswered(s: System, pipe: Pipe, t: nat)
    requires Running(s, pipe) && s.pool.cancelled && (Past(s, t) || ShutOut(s, t))
    ensures !CanBeStranded(s, pipe, t)
  {
    forall steps | StrandedBy(s, pipe, steps, t)
      ensures false
    {
      RunKeepsRunning(s, pipe, steps);
      RunStaysOut(s, pipe, steps, t);
      ShutdownLeavesTheQueue(Run(s, pipe, steps).value, pipe);
    }
  }

  lemma CancelKeepsRunning(s: System, pipe: Pipe)
    requires Running(s, pipe) && !s.pool.cancelled && !s.pool.closed
    ensures Next(s, pipe, Cancel) == Some(s.(pool := s.pool.(cancelled := true)))
    ensures Running(s.(pool := s.pool.(cancelled := true)), pipe)
    ensures forall w :: 0 <= w < |s.pool.workers| ==> !s.pool.workers[w].Exited?
  {
    StepKeepsRunning(s, pipe, Cancel);
    forall w | 0 <= w < |s.pool.workers|
      ensures !s.pool.workers[w].Exited?
    {
      assert WorkerOk(s, pipe, s.pool.workers[w]);
    }
  }

  /** Exactly which tasks a shutdown can leave without an answer, seen when it begins: those in the task
      channel, and those whose submitters are at a channel that has room or that some worker may empty.  A
      task that a worker has taken is always answered. */
  lemma StrandedIff(s: System, pipe: Pipe, t: nat)
    requires Running(s, pipe) && !s.pool.cancelled && !s.pool.closed && t in s.pool.tasks
    requires Next(s, pipe, Cancel).Some?
    ensures CanBeStranded(Next(s, pipe, Cancel).value, pipe, t)
       <==> t in s.pool.queue || (t in s.pool.pending && (|s.pool.queue| < CAPACITY || s.pool.workers != []))
  {
    CancelKeepsRunning(s, pipe);
    var s1 := s.(pool := s.pool.(cancelled := true));
    var b := BoundExists(s.eng.insts);
    if t in s.pool.queue {
      QueuedIsStranded(s1, pipe, b, t);
    } else if t in s.pool.pending && |s.pool.queue| < CAPACITY {
      EnteringIsStranded(s1, pipe, b, t);
    } else if t in s.pool.pending && s.pool.workers != [] {
      WaitingIsStranded(s1, pipe, b, t);
    } else {
      OutIsAnswered(s1, pipe, t);
    }
  }

  /** A task that a worker holds when the shutdown begins is answered in every run that comes to rest. */
  lemma HeldIsAnswered(s: System, pipe: Pipe, steps: seq<Step>, t: nat)
    requires Running(s, pipe) && s.pool.cancelled && t in s.pool.tasks && InHands(s, t)
    requires Run(s, pipe, steps).Some? && forall i :: 0 <= i < |steps| ==> Steady(steps[i])
    requires !Run(s, pipe, steps).value.pool.fault && AtRest(Run(s, pipe, steps).value, pipe)
    ensures t in Run(s, pipe, steps).value.pool.tasks && Answered(Run(s, pipe, steps).value.pool.tasks[t])
  {
    RunStaysOut(s, pipe, steps, t);
    OutIsAnswered(s, pipe, t);
    assert !StrandedBy(s, pipe, steps, t);
  }
}
