/** Concrete runs of the service into what its theorems say of a shutdown. */
module WorkerPoolRuns {
  import opened Values
  import E = SessionPool
  import opened WorkerPool
  import opened WorkerPoolInvariant
  import opened Shutdown

  /** One worker, no models, no pipeline. */
  const IDLE := System(E.START, Pool(map[], {}, [], false, false, [Idle], None, false))

  const NEW_TASK := Task("m", "", Other, NewChan(), NewChan())

  lemma RunFurther(s: System, pipe: Pipe, steps: seq<Step>, a: Step)
    requires Run(s, pipe, steps).Some?
    ensures Run(s, pipe, steps + [a]) == Next(Run(s, pipe, steps).value, pipe, a)
  {
    RunOn(s, pipe, steps, [a]);
    assert [a][1..] == [];
  }

  /** One task of the given state, nothing else. */
  function WithTask(queue: seq<nat>, worker: Worker, closed: bool, cancelled: bool, ended: Option<bool>): System {
    System(E.START, Pool(map[0 := NEW_TASK], {}, queue, closed, cancelled, [worker], ended, false))
  }

  lemma QueueOne() returns (steps: seq<Step>)
    ensures Run(IDLE, None, steps) == Some(WithTask([0], Idle, false, false, None))
  {
    RunFurther(IDLE, None, [], Submit(0, "m", "", Other));
    steps := [] + [Submit(0, "m", "", Other)];
    var s := Run(IDLE, None, steps).value;
    assert s.pool.tasks == map[0 := NEW_TASK] && s.pool.pending == {0};
    RunFurther(IDLE, None, steps, Enqueue(0));
    steps := steps + [Enqueue(0)];
    assert s.pool.pending - {0} == {} && [] + [0] == [0];
  }

  /** A task is queued, the shutdown begins, and the one worker chooses to leave: the pool is at rest and
      the task has no answer. */
  lemma StrandedRun() returns (steps: seq<Step>)
    ensures Run(IDLE, None, steps) == Some(WithTask([0], Exited, false, true, None))
    ensures AtRest(Run(IDLE, None, steps).value, None) && !Answered(Run(IDLE, None, steps).value.pool.tasks[0])
  {
    var before := QueueOne();
    RunFurther(IDLE, None, before, Cancel);
    steps := before + [Cancel];
    RunFurther(IDLE, None, steps, Exit(0));
    steps := steps + [Exit(0)];
    assert [Idle][0 := Exited] == [Exited];
    NothingLeft(Run(IDLE, None, steps).value);
  }

  lemma NothingLeft(s: System)
    requires s == WithTask([0], Exited, false, true, None)
    ensures AtRest(s, None)
  {
  }

  lemma TakeOne() returns (steps: seq<Step>)
    ensures Run(IDLE, None, steps) == Some(WithTask([], Pre(0), false, false, None))
  {
    var before := QueueOne();
    RunFurther(IDLE, None, before, Take(0));
    steps := before + [Take(0)];
    assert [0][1..] == [] && [Idle][0 := Pre(0)] == [Pre(0)];
  }

  lemma ShutDown(s: System)
    requires s == WithTask([], Pre(0), false, false, None)
    ensures Run(s, None, [Cancel] + [CloseTasks]) == Some(WithTask([], Pre(0), true, true, None))
  {
    var s1 := WithTask([], Pre(0), false, true, None);
    assert Next(s, None, Cancel) == Some(s1);
    RunFurther(s, None, [], Cancel);
    assert [] + [Cancel] == [Cancel];
    RunFurther(s, None, [Cancel], CloseTasks);
  }

  /** A worker has taken the task when the shutdown begins: Shutdown returns while the worker holds it. */
  lemma HastyRun() returns (steps: seq<Step>)
    ensures Run(IDLE, None, steps) == Some(WithTask([], Pre(0), true, true, Some(false)))
  {
    var before := TakeOne();
    ShutDown(Run(IDLE, None, before).value);
    RunOn(IDLE, None, before, [Cancel] + [CloseTasks]);
    steps := before + ([Cancel] + [CloseTasks]);
    RunFurther(IDLE, None, steps, EndShutdown(false));
    steps := steps + [EndShutdown(false)];
  }
}
