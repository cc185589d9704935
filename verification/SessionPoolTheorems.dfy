/** The claims made for the session pool: the life of a slot, and when an unload is safe. */
module SessionPoolTheorems {
  import opened Values
  import opened ModelKeys
  import opened Counting
  import opened SessionPool
  import opened SessionPoolInvariant

  lemma StartHolds()
    ensures Inv(START)
  {
  }

  /** In every reachable state each slot of each load is in exactly one place: free in the pool
      once, destroyed once, or owned by exactly one call. */
  lemma SlotLifecycle(steps: seq<Step>, j: nat, k: nat)
    requires Run(START, steps).Some?
    requires j < |Run(START, steps).value.insts| && k < |Run(START, steps).value.insts[j].slots|
    ensures var s := Run(START, steps).value;
            && NoDup(s.insts[j].pool) && NoDup(s.insts[j].destroyed)
            && (k in s.insts[j].pool ==> k !in s.insts[j].destroyed && !Owned(s, j, k))
            && (k in s.insts[j].destroyed ==> !Owned(s, j, k))
            && (k !in s.insts[j].pool && k !in s.insts[j].destroyed ==> Owned(s, j, k))
            && (forall c, d :: c in s.calls && d in s.calls && Owns(s.calls[c], j, k) && Owns(s.calls[d], j, k) ==>
                  c == d)
  {
    StartHolds();
    RunKeepsInv(START, steps);
    var s := Run(START, steps).value;
    assert InstOk(s.insts[j]);
  }

  /** The deferred return never waits: it finds room, or the channel is closed and it panics. */
  lemma ReturnNeverBlocks(s: State, c: nat)
    requires Inv(s) && !s.fault && c in s.calls && s.calls[c].phase.Leaving?
    ensures s.calls[c].at.Some? && s.calls[c].at.value < |s.insts| && Next(s, Return(c)).Some?
    ensures Next(s, Return(c)).value.fault <==> s.insts[s.calls[c].at.value].closed
  {
    assert CallOk(s, c);
    var inst := s.insts[s.calls[c].at.value];
    assert InstOk(inst);
    HoldersAreFair(s, c);
    if !inst.closed {
      ReturnStep(s.calls[c], inst);
    }
  }

  /** The channel of slots is first-in-first-out: a checkout gets the slot that has been free longest ... */
  lemma CheckoutTakesHead(s: State, c: nat, j: nat)
    requires !s.fault && c in s.calls && s.calls[c].at == Some(j) && s.calls[c].phase.Waiting?
    requires j < |s.insts| && |s.insts[j].pool| > 0
    ensures var inst := s.insts[j];
            Next(s, Checkout(c))
            == Some(SetInst(SetPhase(s, c, Filling(inst.pool[0], s.calls[c].phase.flats, 0)), j,
                            inst.(pool := inst.pool[1..])))
  {
    MoveShape(s, Checkout(c), j);
  }

  /** ... and a return puts its slot behind all others. */
  lemma ReturnGoesLast(s: State, c: nat, j: nat)
    requires Inv(s) && !s.fault && c in s.calls && s.calls[c].at == Some(j) && s.calls[c].phase.Leaving?
    requires j < |s.insts| && !s.insts[j].closed
    ensures var call, inst := s.calls[c], s.insts[j];
            Next(s, Return(c))
            == Some(SetInst(SetPhase(s, c, Finished(call.phase.result)), j,
                            inst.(pool := inst.pool + [call.phase.slot])))
  {
    ReturnNeverBlocks(s, c);
    MoveShape(s, Return(c), j);
  }

  /** A caller waiting at an empty channel: on an open one it stays where it is, on a closed one it
      receives nil and panics. */
  lemma EmptyPoolWaits(s: State, c: nat, j: nat)
    requires !s.fault && c in s.calls && s.calls[c].at == Some(j) && s.calls[c].phase.Waiting?
    requires j < |s.insts| && s.insts[j].pool == []
    ensures Next(s, Checkout(c)) == if s.insts[j].closed then Some(s.(fault := true)) else None
  {
    MoveShape(s, Checkout(c), j);
  }

  /** A waiting call can give up exactly when its context is done; then it ends with that error and leaves
      slots and registry alone. */
  lemma GivesUpIff(s: State, c: nat)
    requires Inv(s) && !s.fault && c in s.calls
    ensures Next(s, GiveUp(c)).Some? <==> s.calls[c].phase.Waiting? && s.calls[c].ctxDone
    ensures Next(s, GiveUp(c)).Some? ==>
              Next(s, GiveUp(c)).value == SetPhase(s, c, Finished(Err(ContextDone)))
  {
    assert CallOk(s, c);
    if s.calls[c].at.Some? {
      var j := s.calls[c].at.value;
      assert s.insts[j := s.insts[j]] == s.insts;
    }
  }

  lemma CancelSays(s: State, c: nat)
    requires !s.fault && c in s.calls
    ensures Next(s, CancelCtx(c)) == Some(s.(calls := s.calls[c := s.calls[c].(ctxDone := true)]))
  {
  }

  lemma RunOfTwo(s: State, a: Step, b: Step)
    requires Next(s, a).Some?
    ensures Run(s, [a, b]) == Next(Next(s, a).value, b)
  {
    assert [a, b][1..] == [b] && [b][1..] == [];
    var s1 := Next(s, a).value;
    assert Run(s1, [b]) == Next(s1, b);
  }

  lemma LeftBehind(s: State, c: nat)
    requires c in s.calls
    ensures var s1 := s.(calls := s.calls[c := s.calls[c].(ctxDone := true)]);
            var left := s.calls[c].(ctxDone := true, phase := Finished(Err(ContextDone)));
            SetPhase(s1, c, Finished(Err(ContextDone))) == s.(calls := s.calls[c := left])
  {
    var done := s.calls[c].(ctxDone := true);
    var left := done.(phase := Finished(Err(ContextDone)));
    assert s.calls[c := done][c := left] == s.calls[c := left];
  }

  /** So no call need wait for ever: wherever it waits, its context can end, and it can leave with that. */
  lemma WaitingCallCanLeave(s: State, c: nat)
    requires Inv(s) && !s.fault && c in s.calls && s.calls[c].phase.Waiting?
    ensures var left := s.calls[c].(ctxDone := true, phase := Finished(Err(ContextDone)));
            Run(s, [CancelCtx(c), GiveUp(c)]) == Some(s.(calls := s.calls[c := left]))
  {
    var s1 := s.(calls := s.calls[c := s.calls[c].(ctxDone := true)]);
    assert Next(s, CancelCtx(c)) == Some(s1) by { CancelSays(s, c); }
    assert Inv(s1) by { StepKeepsInv(s, CancelCtx(c)); }
    GivesUpIff(s1, c);
    LeftBehind(s, c);
    RunOfTwo(s, CancelCtx(c), GiveUp(c));
  }

  // ---- Unloading when nobody is inside ----

  /** No call is between its lookup of instance j and its return. */
  ghost predicate Quiet(s: State, j: nat) {
    forall c :: c in s.calls ==> !Live(s.calls[c], j)
  }

  /** Unload and Close are begun only with nobody inside the models they close. */
  ghost predicate Considerate(s: State, a: Step) {
    match a
    case UnloadBegin(id, version) =>
      ModelKey(id, version).Ok? && ModelKey(id, version).value in s.models ==>
        Quiet(s, s.models[ModelKey(id, version).value])
    case CloseBegin => forall key :: key in s.models ==> Quiet(s, s.models[key])
    case _ => true
  }

  ghost predicate Calm(s: State) {
    && !s.fault
    && (forall j :: 0 <= j < |s.insts| && s.insts[j].closed ==> Quiet(s, j))
    && (s.lock.Closing? ==> forall key :: key in s.models ==> Quiet(s, s.models[key]))
  }

  ghost predicate ConsiderateRun(s: State, steps: seq<Step>)
    decreases |steps|
  {
    steps != [] ==>
      && Considerate(s, steps[0])
      && (Next(s, steps[0]).Some? ==> ConsiderateRun(Next(s, steps[0]).value, steps[1..]))
  }

  lemma MoveStaysCalm(s: State, a: Step)
    requires Inv(s) && Calm(s) && IsMove(a) && MoveNext(s, a).Some?
    ensures Calm(MoveNext(s, a).value)
  {
    var j := s.calls[a.c].at.value;
    var call, inst := s.calls[a.c], s.insts[j];
    MoveKeepsNet(call, inst, a);
    assert Quiet(s, j) ==> !Live(call, j);
    var m := MoveOf(call, inst, a);
    assert call.phase.Finished? ==> m.Blocked?;
    MovedStaysCalm(s, a.c, j, m.phase, m.inst);
  }

  lemma MovedStaysCalm(s: State, c: nat, j: nat, p: Phase, inst: Instance)
    requires Calm(s) && c in s.calls && s.calls[c].at == Some(j) && j < |s.insts| && !s.calls[c].phase.Finished?
    requires inst.closed == s.insts[j].closed
    ensures Calm(SetInst(SetPhase(s, c, p), j, inst))
  {
    var s' := SetInst(SetPhase(s, c, p), j, inst);
    assert forall d, i :: d in s'.calls && Live(s'.calls[d], i) ==> Live(s.calls[d], i);
  }

  lemma LookupStaysCalm(s: State, c: nat)
    requires Inv(s) && Calm(s) && c in s.calls && s.calls[c].phase.Called? && s.lock.Free?
    ensures Calm(LookupNext(s, c))
  {
    LookupFindsOpen(s, c);
    var s' := LookupNext(s, c);
    forall i | 0 <= i < |s'.insts| && s'.insts[i].closed
      ensures Quiet(s', i)
    {
      assert Quiet(s, i);
    }
  }

  /** A lookup finds an instance whose channel is open, if any, and changes nothing else. */
  lemma LookupFindsOpen(s: State, c: nat)
    requires RegistryOk(s) && c in s.calls && s.lock.Free? && s.calls[c].phase.Called?
    ensures var s' := LookupNext(s, c);
            && s'.insts == s.insts && s'.lock == s.lock && s'.fault == s.fault && s'.models == s.models
            && c in s'.calls && s'.calls == s.calls[c := s'.calls[c]]
            && (s'.calls[c].phase.Finished? || s'.calls[c] == s.calls[c]
                || (s'.calls[c].at.Some? && s'.calls[c].at.value < |s.insts| && !s.insts[s'.calls[c].at.value].closed))
  {
  }

  /** Nobody is affected by a step that leaves the calls as they are and closes only quiet instances. */
  lemma QuietChange(s: State, s': State)
    requires Calm(s) && s'.calls == s.calls && !s'.fault
    requires forall j :: 0 <= j < |s'.insts| && s'.insts[j].closed ==>
             (j < |s.insts| && s.insts[j].closed) || Quiet(s, j)
    requires s'.lock.Closing? ==> forall key :: key in s'.models ==> Quiet(s, s'.models[key])
    ensures Calm(s')
  {
    assert forall j :: Quiet(s, j) ==> Quiet(s', j);
  }

  lemma CloseStaysCalm(s: State, key: string, lock: Lock)
    requires Inv(s) && Calm(s) && key in s.models && Quiet(s, s.models[key])
    requires lock.Closing? ==> s.lock.Closing?
    ensures Calm(ClosePool(s, key).(lock := lock))
  {
    QuietChange(s, ClosePool(s, key).(lock := lock));
  }

  lemma LoadEndStaysCalm(s: State)
    requires Inv(s) && Calm(s) && LoadEndNext(s).Some?
    ensures Calm(LoadEndNext(s).value)
  {
    QuietChange(s, LoadEndNext(s).value);
  }

  lemma DrainStaysCalm(s: State)
    requires Calm(s) && DrainNext(s).Some?
    ensures Calm(DrainNext(s).value)
  {
    QuietChange(s, DrainNext(s).value);
  }

  /** The steps that change no instance. */
  lemma LockStaysCalm(s: State, a: Step)
    requires Calm(s) && Considerate(s, a) && RegistryNext(s, a).Some?
    requires !a.UnloadBegin? && !a.ClosePick? && !a.LoadEnd? && !a.Drain?
    ensures Calm(RegistryNext(s, a).value)
  {
    QuietChange(s, RegistryNext(s, a).value);
  }

  lemma RegistryStaysCalm(s: State, a: Step)
    requires Inv(s) && Calm(s) && Considerate(s, a) && RegistryNext(s, a).Some?
    ensures Calm(RegistryNext(s, a).value)
  {
    if a.UnloadBegin? {
      CloseStaysCalm(s, ModelKey(a.id, a.version).value, Unloading(ModelKey(a.id, a.version).value));
    } else if a.ClosePick? {
      CloseStaysCalm(s, a.key, Closing(s.lock.left - {a.key}, Some(a.key)));
    } else if a.LoadEnd? {
      LoadEndStaysCalm(s);
    } else if a.Drain? {
      DrainStaysCalm(s);
    } else {
      LockStaysCalm(s, a);
    }
  }

  lemma ClientStaysCalm(s: State, c: nat, call: Call)
    requires Calm(s) && (c !in s.calls ==> call.at.None?)
    requires c in s.calls ==> call.at == s.calls[c].at && call.phase == s.calls[c].phase
    ensures Calm(s.(calls := s.calls[c := call]))
  {
    var s' := s.(calls := s.calls[c := call]);
    assert forall d, i :: d in s'.calls && Live(s'.calls[d], i) ==> d in s.calls && Live(s.calls[d], i);
  }

  lemma StepStaysCalm(s: State, a: Step)
    requires Inv(s) && Calm(s) && Considerate(s, a) && Next(s, a).Some?
    ensures Calm(Next(s, a).value)
  {
    if IsMove(a) {
      MoveStaysCalm(s, a);
    } else if a.Lookup? {
      LookupStaysCalm(s, a.c);
    } else if a.Begin? {
      ClientStaysCalm(s, a.c, NewCall(a.id, a.version, a.input));
    } else if a.CancelCtx? {
      ClientStaysCalm(s, a.c, s.calls[a.c].(ctxDone := true));
    } else {
      RegistryStaysCalm(s, a);
    }
  }

  /** With considerate unloads no run panics. */
  lemma {:induction false} ConsiderateRunsAreSafe(s: State, steps: seq<Step>)
    requires Inv(s) && Calm(s) && Run(s, steps).Some? && ConsiderateRun(s, steps)
    ensures Inv(Run(s, steps).value) && Calm(Run(s, steps).value) && !Run(s, steps).value.fault
    decreases |steps|
  {
    if steps != [] {
      StepKeepsInv(s, steps[0]);
      StepStaysCalm(s, steps[0]);
      ConsiderateRunsAreSafe(Next(s, steps[0]).value, steps[1..]);
    }
  }

  lemma QuietOwnsNothing(s: State, j: nat, k: nat)
    requires Quiet(s, j)
    ensures !Owned(s, j, k)
  {
    forall c | c in s.calls
      ensures !Owns(s.calls[c], j, k)
    {
      assert !Live(s.calls[c], j);
    }
  }

  /** And once such an unload is through, every slot of the model has been destroyed exactly once. */
  lemma EachSlotDestroyedOnce(s: State, j: nat)
    requires Inv(s) && Calm(s) && j < |s.insts| && s.insts[j].closed
    requires Draining(s.lock).Some? ==> s.models[Draining(s.lock).value] != j
    ensures NoDup(s.insts[j].destroyed) && |s.insts[j].destroyed| == |s.insts[j].slots|
    ensures forall k :: k in s.insts[j].destroyed <==> 0 <= k < |s.insts[j].slots|
  {
    var inst := s.insts[j];
    assert InstOk(inst) && inst.pool == [];
    forall k: nat | k < |inst.slots|
      ensures k in inst.destroyed
    {
      QuietOwnsNothing(s, j, k);
    }
    DistinctCount(inst.destroyed);
    BelowCount(|inst.slots|);
    assert Members(inst.destroyed) == Below(|inst.slots|);
  }

  // ---- Unloading under a caller ----

  ghost predicate NoNewUnload(steps: seq<Step>) {
    forall i :: 0 <= i < |steps| ==> !steps[i].UnloadBegin? && !steps[i].CloseBegin?
  }

  ghost predicate PanicsBy(s: State, steps: seq<Step>) {
    NoNewUnload(steps) && Run(s, steps).Some? && Run(s, steps).value.fault
  }

  /** Some continuation without a further unload panics. */
  ghost predicate CanPanic(s: State) {
    exists steps :: PanicsBy(s, steps)
  }

  /** What call c has still to do before its slot is back, or before it misses one. */
  function Remaining(call: Call, inst: Instance): nat {
    match call.phase
    case Called(_) => 0
    case Waiting(_) => |inst.pool|
    case Filling(k, flats, next) =>
      if next <= |flats| then 2 + |flats| - next + |inst.net.outputs| else 0
    case Reading(k, got) => if |got| <= |inst.net.outputs| then 1 + |inst.net.outputs| - |got| else 0
    case Leaving(_, _) => 0
    case Finished(_) => 0
  }

  /** A live call of a model being unloaded has a way into a panic. */
  lemma {:induction false} PathToPanic(s: State, c: nat, j: nat) returns (steps: seq<Step>)
    requires Inv(s) && !s.fault && c in s.calls && Live(s.calls[c], j) && j < |s.insts| && s.insts[j].closed
    requires Draining(s.lock).Some? && s.models[Draining(s.lock).value] == j
    ensures PanicsBy(s, steps)
    decreases Remaining(s.calls[c], s.insts[j])
  {
    assert CallOk(s, c);
    var call, inst := s.calls[c], s.insts[j];
    var a := PanicStep(s, c, j);
    StepKeepsInv(s, a);
    var s1 := Next(s, a).value;
    if s1.fault {
      steps := [a];
      assert steps[1..] == [] && Run(s1, []) == Some(s1);
    } else {
      var rest := PathToPanic(s1, c, j);
      steps := [a] + rest;
      assert steps[1..] == rest;
    }
  }

  /** A step has led on: into the panic, or nearer to it with the unload still under way. */
  ghost predicate Nearer(s: State, a: Step, c: nat, j: nat)
    requires c in s.calls && j < |s.insts|
  {
    && !a.UnloadBegin? && !a.CloseBegin? && Next(s, a).Some?
    && var s1 := Next(s, a).value;
       s1.fault || (&& c in s1.calls && Live(s1.calls[c], j) && j < |s1.insts| && s1.insts[j].closed
                    && s1.lock == s.lock && s1.models == s.models
                    && Remaining(s1.calls[c], s1.insts[j]) < Remaining(s.calls[c], s.insts[j]))
  }

  /** A call's own step that finishes nothing leads on. */
  lemma OwnStepNearer(s: State, a: Step, c: nat, j: nat)
    requires Inv(s) && !s.fault && c in s.calls && s.calls[c].at == Some(j) && j < |s.insts| && s.insts[j].closed
    requires IsMove(a) && a.c == c && MoveOf(s.calls[c], s.insts[j], a).Moves?
    requires var m := MoveOf(s.calls[c], s.insts[j], a);
             && !m.phase.Finished? && m.inst.closed
             && Remaining(s.calls[c].(phase := m.phase), m.inst) < Remaining(s.calls[c], s.insts[j])
    ensures Nearer(s, a, c, j)
  {
    MoveShape(s, a, j);
    var m := MoveOf(s.calls[c], s.insts[j], a);
    var s1 := SetInst(SetPhase(s, c, m.phase), j, m.inst);
    assert s1.calls[c] == s.calls[c].(phase := m.phase) && s1.insts[j] == m.inst;
  }

  lemma FillNearer(call: Call, inst: Instance)
    requires InstOk(inst) && Knows(call, inst) && HoldsFairly(call, inst)
    requires call.phase.Filling? && call.phase.next < |call.phase.flats|
    ensures var m := MoveOf(call, inst, FillOne(0));
            m.Moves? && !m.phase.Finished? && m.inst.closed == inst.closed
            && Remaining(call.(phase := m.phase), m.inst) < Remaining(call, inst)
  {
    FillStep(call, inst);
  }

  lemma RunNearer(call: Call, inst: Instance)
    requires InstOk(inst) && Knows(call, inst) && HoldsFairly(call, inst)
    requires call.phase.Filling? && call.phase.next == |call.phase.flats|
    ensures var m := MoveOf(call, inst, RunSession(0, []));
            m.Moves? && !m.phase.Finished? && m.inst.closed == inst.closed
            && Remaining(call.(phase := m.phase), m.inst) < Remaining(call, inst)
  {
    RunStep(call, inst, []);
  }

  lemma ReadNearer(call: Call, inst: Instance)
    requires InstOk(inst) && Knows(call, inst) && HoldsFairly(call, inst) && call.phase.Reading?
    ensures var m := MoveOf(call, inst, ReadOne(0));
            m.Moves? && !m.phase.Finished? && m.inst.closed == inst.closed
            && Remaining(call.(phase := m.phase), m.inst) < Remaining(call, inst)
  {
    ReadStep(call, inst);
  }

  lemma DrainNearer(s: State, c: nat, j: nat)
    requires !s.fault && c in s.calls && s.calls[c].at == Some(j) && j < |s.insts| && s.insts[j].closed
    requires s.calls[c].phase.Waiting? && s.insts[j].pool != []
    requires Draining(s.lock).Some? && Draining(s.lock).value in s.models && s.models[Draining(s.lock).value] == j
    ensures Nearer(s, Drain, c, j)
  {
    assert Next(s, Drain) == Some(SetInst(s, j, DestroyHead(s.insts[j])));
  }

  lemma WaitNearer(s: State, c: nat, j: nat) returns (a: Step)
    requires Inv(s) && !s.fault && c in s.calls && s.calls[c].at == Some(j) && j < |s.insts| && s.insts[j].closed
    requires s.calls[c].phase.Waiting? && Draining(s.lock).Some? && s.models[Draining(s.lock).value] == j
    ensures Nearer(s, a, c, j)
  {
    if s.insts[j].pool == [] {
      a := Checkout(c);
      MoveShape(s, a, j);
    } else {
      a := Drain;
      DrainNearer(s, c, j);
    }
  }

  lemma WorkNearer(s: State, c: nat, j: nat) returns (a: Step)
    requires Inv(s) && !s.fault && c in s.calls && s.calls[c].at == Some(j) && j < |s.insts| && s.insts[j].closed
    requires s.calls[c].phase.Filling? || s.calls[c].phase.Reading?
    ensures Nearer(s, a, c, j)
  {
    assert CallOk(s, c);
    var call, inst := s.calls[c], s.insts[j];
    assert InstOk(inst);
    HoldersAreFair(s, c);
    if call.phase.Reading? {
      ReadNearer(call, inst);
      a := ReadOne(c);
    } else if call.phase.next < |call.phase.flats| {
      FillNearer(call, inst);
      a := FillOne(c);
    } else {
      RunNearer(call, inst);
      a := RunSession(c, []);
    }
    OwnStepNearer(s, a, c, j);
  }

  lemma PanicStep(s: State, c: nat, j: nat) returns (a: Step)
    requires Inv(s) && !s.fault && c in s.calls && Live(s.calls[c], j) && j < |s.insts| && s.insts[j].closed
    requires Draining(s.lock).Some? && s.models[Draining(s.lock).value] == j
    ensures Nearer(s, a, c, j)
  {
    assert CallOk(s, c);
    if s.calls[c].phase.Waiting? {
      a := WaitNearer(s, c, j);
    } else if s.calls[c].phase.Leaving? {
      a := Return(c);
    } else {
      a := WorkNearer(s, c, j);
    }
  }

  lemma {:induction false} AlwaysConsiderate(s: State, steps: seq<Step>)
    requires NoNewUnload(steps)
    ensures ConsiderateRun(s, steps)
    decreases |steps|
  {
    if steps != [] && Next(s, steps[0]).Some? {
      AlwaysConsiderate(Next(s, steps[0]).value, steps[1..]);
    }
  }

  lemma CalmNeverPanics(s: State)
    requires Inv(s) && Calm(s)
    ensures !CanPanic(s)
  {
    forall steps | NoNewUnload(steps) && Run(s, steps).Some?
      ensures !PanicsBy(s, steps)
    {
      AlwaysConsiderate(s, steps);
      ConsiderateRunsAreSafe(s, steps);
    }
  }

  /** Exactly when an unload is dangerous: some continuation panics if and only if, when it begins,
      a call is between its lookup of that model and the return of its slot. */
  lemma UnloadPanicsIff(s: State, id: string, version: string)
    requires Inv(s) && Calm(s) && Next(s, UnloadBegin(id, version)).Some?
    ensures CanPanic(Next(s, UnloadBegin(id, version)).value) <==> !Quiet(s, s.models[ModelKey(id, version).value])
  {
    var j := s.models[ModelKey(id, version).value];
    var s1 := Next(s, UnloadBegin(id, version)).value;
    StepKeepsInv(s, UnloadBegin(id, version));
    if Quiet(s, j) {
      StepStaysCalm(s, UnloadBegin(id, version));
      CalmNeverPanics(s1);
    } else {
      var c :| c in s.calls && Live(s.calls[c], j);
      var steps := PathToPanic(s1, c, j);
    }
  }

  lemma PickIsEnabled(s: State, key: string)
    requires RegistryOk(s) && !s.fault && s.lock == Closing(s.models.Keys, None) && key in s.models
    ensures var s1 := ClosePool(s, key).(lock := Closing(s.models.Keys - {key}, Some(key)));
            Next(s, ClosePick(key)) == Some(s1) && s1.insts[s.models[key]].closed
            && s1.models == s.models && s1.calls == s.calls && !s1.fault && |s1.insts| == |s.insts|
  {
  }

  lemma ClosePath(s: State, key: string, c: nat) returns (steps: seq<Step>)
    requires Inv(s) && !s.fault && s.lock == Closing(s.models.Keys, None)
    requires key in s.models && c in s.calls && Live(s.calls[c], s.models[key])
    ensures PanicsBy(s, steps)
  {
    var pick, s1 := ClosePick(key), ClosePool(s, key).(lock := Closing(s.models.Keys - {key}, Some(key)));
    PickIsEnabled(s, key);
    StepKeepsInv(s, pick);
    var rest := PathToPanic(s1, c, s.models[key]);
    steps := [pick] + rest;
    assert steps[1..] == rest;
  }

  ghost predicate SomeoneInside(s: State) {
    exists key :: key in s.models && !Quiet(s, s.models[key])
  }

  lemma CloseBegins(s: State)
    requires Next(s, CloseBegin).Some?
    ensures !s.fault && Next(s, CloseBegin).value == s.(lock := Closing(s.models.Keys, None))
  {
  }

  lemma CloseIsCalm(s: State)
    requires Inv(s) && Calm(s) && Next(s, CloseBegin).Some? && !SomeoneInside(s)
    ensures !CanPanic(Next(s, CloseBegin).value)
  {
    StepKeepsInv(s, CloseBegin);
    StepStaysCalm(s, CloseBegin);
    CalmNeverPanics(Next(s, CloseBegin).value);
  }

  lemma CloseMayPanic(s: State)
    requires Inv(s) && Next(s, CloseBegin).Some? && SomeoneInside(s)
    ensures CanPanic(Next(s, CloseBegin).value)
  {
    var s1 := Next(s, CloseBegin).value;
    CloseBegins(s);
    StepKeepsInv(s, CloseBegin);
    var key :| key in s.models && !Quiet(s, s.models[key]);
    var c :| c in s.calls && Live(s.calls[c], s.models[key]);
    var steps := ClosePath(s1, key, c);
  }

  /** The same for Close: some continuation panics if and only if a call is inside some model. */
  lemma ClosePanicsIff(s: State)
    requires Inv(s) && Calm(s) && Next(s, CloseBegin).Some?
    ensures CanPanic(Next(s, CloseBegin).value) <==> SomeoneInside(s)
  {
    if SomeoneInside(s) {
      CloseMayPanic(s);
    } else {
      CloseIsCalm(s);
    }
  }
}
