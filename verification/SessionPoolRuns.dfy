/** Concrete runs of the session-pool machine into the states its theorems warn of. */
module SessionPoolRuns {
  import opened Values
  import opened Inference
  import opened ModelKeys
  import opened SessionPool
  import opened SessionPoolTheorems

  const META := TensorMeta(Float32, [1.0], 1)

  /** One input "x" and one output "y", a number each; the model is the identity. */
  const IDENTITY := Net(["x"], [META], ["y"], [META], ins => Wrote(ins), (d, x) => x)

  const SLOT := Slot([[0.0]], [[0.0]])

  /** "m" while it is being loaded. */
  function Half(slots: seq<Slot>, pool: seq<nat>, destroyed: seq<nat>): Instance {
    Instance("m", IDENTITY, slots, pool, false, destroyed)
  }

  lemma {:induction false} RunFurther(s: State, steps: seq<Step>, a: Step)
    requires Run(s, steps).Some?
    ensures Run(s, steps + [a]) == Next(Run(s, steps).value, a)
    decreases |steps|
  {
    if steps == [] {
      assert steps + [a] == [a] && [a][1..] == [];
    } else {
      assert (steps + [a])[1..] == steps[1..] + [a];
      RunFurther(Next(s, steps[0]).value, steps[1..], a);
    }
  }

  lemma BeginLoad(n: nat) returns (steps: seq<Step>)
    requires n > 0
    ensures Run(START, steps) == Some(START.(lock := Lock.Loading(Half([], [], []), n)))
  {
    var a := LoadBegin("m", "", IDENTITY, Some((n, 0)));
    RunFurther(START, [], a);
    steps := [] + [a];
  }

  lemma CreateFirst(n: nat) returns (steps: seq<Step>)
    requires n > 0
    ensures Run(START, steps) == Some(START.(lock := Lock.Loading(Half([SLOT], [0], []), n)))
  {
    var before := BeginLoad(n);
    RunFurther(START, before, CreateSlot(SLOT));
    steps := before + [CreateSlot(SLOT)];
    assert [] + [SLOT] == [SLOT] && [] + [0] == [0];
  }

  // ---- Loads that fail ----

  /** Two slots are wanted and the second cannot be created: the first is destroyed, and the cleanup
      waits on its channel with the lock held. */
  lemma FailedLoadRun() returns (steps: seq<Step>)
    ensures Run(START, steps) == Some(START.(lock := Cleaning(Half([SLOT], [], [0]))))
    ensures Next(Run(START, steps).value, CleanOne).None?
  {
    var before := CreateFirst(2);
    RunFurther(START, before, CreateFails);
    steps := before + [CreateFails];
    RunFurther(START, steps, CleanOne);
    steps := steps + [CleanOne];
    assert [0][1..] == [] && [] + [0] == [0];
  }

  /** Not even the first slot can be created: the cleanup waits at once. */
  lemma FailedFirstSlotRun(n: nat) returns (steps: seq<Step>)
    requires n > 0
    ensures Run(START, steps) == Some(START.(lock := Cleaning(Half([], [], []))))
    ensures Next(Run(START, steps).value, CleanOne).None?
  {
    var before := BeginLoad(n);
    RunFurther(START, before, CreateFails);
    steps := before + [CreateFails];
  }

  // ---- Unloading under a caller ----

  /** "m" loaded with one slot. */
  function Loaded(pool: seq<nat>): State {
    State(map["m" := 0], [Half([SLOT], pool, [])], map[], Free, false)
  }

  lemma LoadOne() returns (steps: seq<Step>)
    ensures Run(START, steps) == Some(Loaded([0]))
  {
    var before := CreateFirst(1);
    RunFurther(START, before, LoadEnd);
    steps := before + [LoadEnd];
    assert [] + [Half([SLOT], [0], [])] == [Half([SLOT], [0], [])];
    assert START.models["m" := 0] == map["m" := 0];
  }

  /** Two numbers, one more than the model takes. */
  const ASKED := Slice(Float32, [2.0, 3.0])

  /** With one call, number 7, that has found it. */
  function Called(s: State, p: Phase): State {
    s.(calls := map[7 := Call("m", "", ASKED, Some(0), p, false)])
  }

  /** A call that has found "m" and waits for its slot. */
  lemma CallOne() returns (steps: seq<Step>)
    ensures Run(START, steps) == Some(Called(Loaded([0]), Waiting([[2.0, 3.0]])))
  {
    var before := LoadOne();
    RunFurther(START, before, Begin(7, "m", "", ASKED));
    steps := before + [Begin(7, "m", "", ASKED)];
    var s := Run(START, steps).value;
    assert s == Loaded([0]).(calls := map[7 := Call("m", "", ASKED, None, Phase.Called("m"), false)]);
    RunFurther(START, steps, Lookup(7));
    steps := steps + [Lookup(7)];
    assert ModelKey("m", "") == Ok("m") && Resolve(IDENTITY, ASKED) == Ok([[2.0, 3.0]]);
    assert LookupNext(s, 7) == Called(Loaded([0]), Waiting([[2.0, 3.0]]));
  }

  /** The caller is still waiting when the model is unloaded: the drain takes the last slot, and the
      caller receives nil. */
  lemma NilSlotRun() returns (before: seq<Step>, steps: seq<Step>)
    ensures Run(START, before).Some? && Next(Run(START, before).value, UnloadBegin("m", "")).Some?
    ensures PanicsBy(Next(Run(START, before).value, UnloadBegin("m", "")).value, steps)
  {
    before := CallOne();
    var s := Run(START, before).value;
    UnloadWhileWaiting(s);
    var s1 := Next(s, UnloadBegin("m", "")).value;
    DrainThenReceive(s1);
    steps := [] + [Drain];
    RunFurther(s1, [], Drain);
    RunFurther(s1, steps, Checkout(7));
    steps := steps + [Checkout(7)];
  }

  lemma UnloadWhileWaiting(s: State)
    requires s == Called(Loaded([0]), Waiting([[2.0, 3.0]]))
    ensures Next(s, UnloadBegin("m", "")) == Some(ClosePool(s, "m").(lock := Lock.Unloading("m")))
  {
    assert ModelKey("m", "") == Ok("m");
  }

  lemma DrainThenReceive(s: State)
    requires s == ClosePool(Called(Loaded([0]), Waiting([[2.0, 3.0]])), "m").(lock := Lock.Unloading("m"))
    ensures Next(s, Drain).Some?
    ensures Next(Next(s, Drain).value, Checkout(7)) == Some(Next(s, Drain).value.(fault := true))
  {
    var s1 := Next(s, Drain).value;
    assert [0][1..] == [] && s1.insts[0].pool == [] && s1.insts[0].closed;
  }

  lemma CheckoutSlot(s: State)
    requires s == Called(Loaded([0]), Waiting([[2.0, 3.0]]))
    ensures Next(s, Checkout(7)) == Some(Called(Loaded([]), Filling(0, [[2.0, 3.0]], 0)))
  {
    assert [0][1..] == [] && s.insts[0 := Half([SLOT], [], [])] == [Half([SLOT], [], [])];
    var s' := Next(s, Checkout(7)).value;
    assert s'.calls == Called(s, Filling(0, [[2.0, 3.0]], 0)).calls;
  }

  lemma CheckoutOne() returns (steps: seq<Step>)
    ensures Run(START, steps) == Some(Called(Loaded([]), Filling(0, [[2.0, 3.0]], 0)))
  {
    var before := CallOne();
    CheckoutSlot(Run(START, before).value);
    RunFurther(START, before, Checkout(7));
    steps := before + [Checkout(7)];
  }

  /** "m" closed with its slot out. */
  function Unloading(p: Phase): State {
    Called(State(map["m" := 0], [Half([SLOT], [], []).(closed := true)], map[], Lock.Unloading("m"), false), p)
  }

  lemma UnloadWithSlotOut(s: State, p: Phase)
    requires s == Called(Loaded([]), p)
    ensures Next(s, UnloadBegin("m", "")) == Some(Unloading(p))
  {
    assert ModelKey("m", "") == Ok("m");
    assert s.insts[0 := Half([SLOT], [], []).(closed := true)] == [Half([SLOT], [], []).(closed := true)];
  }

  lemma FillTooLong(s: State)
    requires s == Unloading(Filling(0, [[2.0, 3.0]], 0))
    ensures Next(s, FillOne(7)) == Some(Unloading(Leaving(0, Err(SizeMismatch(0)))))
  {
    var call, inst := s.calls[7], s.insts[0];
    assert |call.phase.flats[0]| == 2 && inst.net.inputs[0] == META;
    assert MoveOf(call, inst, FillOne(7)) == Moves(Leaving(0, Err(SizeMismatch(0))), inst);
    assert s.insts[0 := inst] == s.insts;
    assert Next(s, FillOne(7)).value.calls == Unloading(Leaving(0, Err(SizeMismatch(0)))).calls;
  }

  /** The caller has a slot when the model is unloaded, finds its input too long, and returns the slot
      to the closed channel. */
  lemma ClosedReturnRun() returns (before: seq<Step>, steps: seq<Step>)
    ensures Run(START, before).Some? && Next(Run(START, before).value, UnloadBegin("m", "")).Some?
    ensures PanicsBy(Next(Run(START, before).value, UnloadBegin("m", "")).value, steps)
    ensures forall i :: 0 <= i < |steps| ==> IsMove(steps[i])
  {
    before := CheckoutOne();
    UnloadWithSlotOut(Run(START, before).value, Filling(0, [[2.0, 3.0]], 0));
    var s2 := Unloading(Filling(0, [[2.0, 3.0]], 0));
    FillTooLong(s2);
    RunFurther(s2, [], FillOne(7));
    RunFurther(s2, [] + [FillOne(7)], Return(7));
    steps := [FillOne(7), Return(7)];
    assert steps == [] + [FillOne(7)] + [Return(7)];
  }
}
