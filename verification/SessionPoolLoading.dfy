/** Loading a model slot by slot under the registry lock, and what becomes of the lock when a slot
    cannot be created. */
module SessionPoolLoading {
  import opened Values
  import opened ModelKeys
  import opened Counting
  import opened Inference
  import opened InferenceLaws
  import EL = SessionPoolLinearization
  import opened SessionPool
  import opened SessionPoolInvariant

  // ---- The cleanup of a failed load ----

  /** The range loop of the cleanup waits: its channel is empty, and open because no step can reach it. */
  lemma CleanupWaits(s: State)
    requires LockOk(s) && s.lock.Cleaning? && s.lock.inst.pool == []
    ensures Receive(s.lock.inst).Waits? && Next(s, CleanOne).None?
  {
  }

  /** The state goes on with the same lock holder and registry, and the calls that have their key still
      wait for their lookup. */
  ghost predicate StillHeld(s: State, s': State) {
    && s'.lock.Cleaning? && s'.models == s.models && |s'.insts| == |s.insts|
    && forall c :: c in s.calls && s.calls[c].phase.Called? ==> c in s'.calls && s'.calls[c].phase == s.calls[c].phase
  }

  lemma MoveLeavesLock(s: State, a: Step)
    requires s.lock.Cleaning? && IsMove(a) && Next(s, a).Some?
    ensures StillHeld(s, Next(s, a).value) && Next(s, a).value.lock == s.lock
  {
    MoveShape(s, a, s.calls[a.c].at.value);
    assert !s.calls[a.c].phase.Called?;
  }

  lemma ClientLeavesLock(s: State, a: Step)
    requires s.lock.Cleaning? && (a.Begin? || a.CancelCtx?) && Next(s, a).Some?
    ensures StillHeld(s, Next(s, a).value) && Next(s, a).value.lock == s.lock
  {
  }

  lemma CleanLeavesLock(s: State)
    requires LockOk(s) && s.lock.Cleaning? && CleanNext(s).Some?
    ensures var s' := CleanNext(s).value;
            StillHeld(s, s') && LockOk(s') && s'.lock.inst.slots == s.lock.inst.slots
  {
    DestroyKeepsChannel(s.lock.inst);
  }

  /** A cleanup keeps the lock, the registry and the slots it was started with, and leaves its channel
      open, whatever else happens. */
  lemma StepKeepsCleaning(s: State, a: Step)
    requires LockOk(s) && s.lock.Cleaning? && Next(s, a).Some?
    ensures var s' := Next(s, a).value;
            StillHeld(s, s') && LockOk(s') && s'.lock.inst.slots == s.lock.inst.slots
  {
    if IsMove(a) {
      MoveLeavesLock(s, a);
    } else if a.Begin? || a.CancelCtx? {
      ClientLeavesLock(s, a);
    } else {
      assert a.CleanOne?;
      CleanLeavesLock(s);
    }
  }

  /** Once a slot creation has failed the lock is never released: no load, unload or Close begins or
      ends any more, and no call gets past its lookup. */
  lemma {:induction false} CleanupNeverReturns(s: State, steps: seq<Step>)
    requires LockOk(s) && s.lock.Cleaning? && Run(s, steps).Some?
    ensures var end := Run(s, steps).value;
            StillHeld(s, end) && LockOk(end) && end.lock.inst.slots == s.lock.inst.slots
    decreases |steps|
  {
    if steps != [] {
      StepKeepsCleaning(s, steps[0]);
      CleanupNeverReturns(Next(s, steps[0]).value, steps[1..]);
    }
  }

  /** A call whose key is refused never needs the lock, held or not: it is over as soon as it begins. */
  lemma RefusedKeyNeedsNoLock(s: State, c: nat, id: string, version: string, input: Value)
    requires !s.fault && c !in s.calls
    ensures var a := Begin(c, id, version, input);
            && Next(s, a).Some? && c in Next(s, a).value.calls
            && Next(s, a).value.calls[c].phase
               == match ModelKey(id, version) case Err(e) => Finished(Err(e)) case Ok(key) => Called(key)
  {
  }

  /** The cleanup does run its course: as many turns as there are slots left in the channel. */
  lemma {:induction false} CleanupEmptiesChannel(s: State) returns (steps: seq<Step>)
    requires LockOk(s) && s.lock.Cleaning? && !s.fault
    ensures |steps| == |s.lock.inst.pool| && (forall i :: 0 <= i < |steps| ==> steps[i].CleanOne?)
    ensures Run(s, steps).Some? && Run(s, steps).value.lock.Cleaning? && Run(s, steps).value.lock.inst.pool == []
    decreases |s.lock.inst.pool|
  {
    if s.lock.inst.pool == [] {
      steps := [];
    } else {
      StepKeepsCleaning(s, CleanOne);
      var rest := CleanupEmptiesChannel(Next(s, CleanOne).value);
      steps := [CleanOne] + rest;
      assert steps[1..] == rest;
    }
  }

  /** And where it waits for ever, it has destroyed every slot that had been created exactly once. */
  lemma CleanupDestroysEachOnce(s: State)
    requires LockOk(s) && s.lock.Cleaning? && s.lock.inst.pool == []
    ensures var inst := s.lock.inst;
            && NoDup(inst.destroyed) && |inst.destroyed| == |inst.slots|
            && forall k :: k in inst.destroyed <==> 0 <= k < |inst.slots|
  {
    var inst := s.lock.inst;
    DistinctCount(inst.destroyed);
    BelowCount(|inst.slots|);
    assert Members(inst.destroyed) == Below(|inst.slots|);
  }

  // ---- When a load returns ----

  /** Creating what is left to create leads to the end of the load. */
  lemma {:induction false} LoadCompletes(s: State) returns (steps: seq<Step>)
    requires LockOk(s) && s.lock.Loading? && !s.fault
    ensures Run(s, steps).Some? && Run(s, steps).value.lock.Free?
    ensures var end := Run(s, steps).value;
            && end.models == s.models[s.lock.inst.key := |s.insts|] && |end.insts| == |s.insts| + 1
            && end.insts[..|s.insts|] == s.insts && |end.insts[|s.insts|].slots| == s.lock.n
            && end.insts[|s.insts|].net == s.lock.inst.net
    decreases s.lock.n - |s.lock.inst.slots|
  {
    var inst := s.lock.inst;
    if |inst.slots| == s.lock.n {
      steps := [LoadEnd];
      assert Run(Next(s, LoadEnd).value, []) == Next(s, LoadEnd);
    } else {
      var a := CreateSlot(Slot(seq(|inst.net.inputs|, i => []), []));
      CreateNeverBlocks(s, a.slot);
      CreateKeepsChannel(inst, a.slot);
      var rest := LoadCompletes(Next(s, a).value);
      steps := [a] + rest;
      assert steps[1..] == rest;
    }
  }

  /** Loading begins exactly when the lock is free and the key is accepted and new. */
  lemma LoadBeginsIff(s: State, id: string, version: string, net: Net, config: Config)
    requires !s.fault && net.Valid()
    ensures var a, key := LoadBegin(id, version, net, config), ManagerKey(id, version);
            && (Next(s, a).Some? <==> s.lock.Free? && Accepted(id, version) && key !in s.models)
            && (Next(s, a).Some? ==> Next(s, a).value.lock.Loading? && Next(s, a).value.lock.inst.key == key
                                     && Next(s, a).value.lock.inst.net == net
                                     && Next(s, a).value.lock.n == SessionPoolSize(config))
  {
    AcceptedKey(id, version);
  }

  /** A load that begins can run to its end, and then requests for its model are answered by its own network;
      those for any other key are answered as before. */
  lemma LoadThenAsk(s: State, id: string, version: string, net: Net, config: Config) returns (steps: seq<Step>)
    requires Inv(s) && Next(s, LoadBegin(id, version, net, config)).Some?
    ensures steps != [] && steps[0] == LoadBegin(id, version, net, config) && Run(s, steps).Some?
    ensures var end := Run(s, steps).value;
            && net.Valid() && (forall input :: Outcome(net, id, input, EL.Answer(end, id, version, input)))
            && forall id', version', input :: Accepted(id', version') && (id', version') != (id, version) ==>
                 EL.Answer(end, id', version', input) == EL.Answer(s, id', version', input)
  {
    var a := LoadBegin(id, version, net, config);
    var s1 := Next(s, a).value;
    AcceptedKey(id, version);
    StepKeepsInv(s, a);
    var rest := LoadCompletes(s1);
    steps := [a] + rest;
    assert steps[1..] == rest;
    RunKeepsInv(s1, rest);
    var end := Run(s, steps).value;
    forall input
      ensures Outcome(net, id, input, EL.Answer(end, id, version, input))
    {
      EL.AnswerSays(end, id, version, input);
    }
    forall id', version', input | Accepted(id', version') && (id', version') != (id, version)
      ensures EL.Answer(end, id', version', input) == EL.Answer(s, id', version', input)
    {
      OthersAnswerAlike(s, end, id, version, id', version', input);
    }
  }

  lemma OthersAnswerAlike(s: State, end: State, id: string, version: string, id': string, version': string,
                          input: Value)
    requires Inv(s) && Accepted(id, version) && Accepted(id', version') && (id', version') != (id, version)
    requires end.models == s.models[ManagerKey(id, version) := |s.insts|]
    requires |end.insts| > |s.insts| && end.insts[..|s.insts|] == s.insts
    ensures EL.Answer(end, id', version', input) == EL.Answer(s, id', version', input)
  {
    AcceptedKey(id', version');
    KeyInjective(id, version, id', version');
    var key := ManagerKey(id', version');
    if key in s.models {
      assert end.insts[s.models[key]] == end.insts[..|s.insts|][s.models[key]];
    }
  }

  /** The lock is held all along the run and at its end. */
  ghost predicate HeldAlong(s: State, steps: seq<Step>)
    decreases |steps|
  {
    !s.lock.Free? && (steps != [] && Next(s, steps[0]).Some? ==> HeldAlong(Next(s, steps[0]).value, steps[1..]))
  }

  /** A step that leaves the lock with the load fails it only by failing to create a slot. */
  lemma LoadingStep(s: State, a: Step)
    requires LockOk(s) && (s.lock.Loading? || s.lock.Cleaning?) && Next(s, a).Some?
    requires !Next(s, a).value.lock.Free?
    ensures var s' := Next(s, a).value;
            && (s'.lock.Loading? || s'.lock.Cleaning?)
            && (s'.lock.Loading? <==> s.lock.Loading? && a != CreateFails)
  {
    if IsMove(a) {
      MoveShape(s, a, s.calls[a.c].at.value);
    }
  }

  /** A load that has not returned is cleaning up exactly when one of its creations has failed. */
  lemma {:induction false} StillLoadingIff(s: State, steps: seq<Step>)
    requires Inv(s) && (s.lock.Loading? || s.lock.Cleaning?) && Run(s, steps).Some? && HeldAlong(s, steps)
    ensures var end := Run(s, steps).value;
            && Inv(end) && (end.lock.Loading? || end.lock.Cleaning?)
            && (end.lock.Loading? <==> s.lock.Loading? && CreateFails !in steps)
    decreases |steps|
  {
    if steps != [] {
      var s1 := Next(s, steps[0]).value;
      StepKeepsInv(s, steps[0]);
      LoadingStep(s, steps[0]);
      assert CreateFails in steps <==> steps[0] == CreateFails || CreateFails in steps[1..] by {
        assert steps == [steps[0]] + steps[1..];
      }
      StillLoadingIff(s1, steps[1..]);
    }
  }

  ghost predicate ReleasedBy(s: State, steps: seq<Step>) {
    Run(s, steps).Some? && Run(s, steps).value.lock.Free?
  }

  ghost predicate CanRelease(s: State) {
    exists steps :: ReleasedBy(s, steps)
  }

  /** Exactly when a load can still return.  Let it take the lock, and let any run follow in which it
      has not given the lock back and nothing panics: some continuation releases the lock if and only
      if none of its slot creations has failed. */
  lemma LoadReturnsIff(s: State, a: Step, steps: seq<Step>)
    requires Inv(s) && s.lock.Free? && a.LoadBegin? && Next(s, a).Some?
    requires Run(Next(s, a).value, steps).Some? && HeldAlong(Next(s, a).value, steps)
    requires !Run(Next(s, a).value, steps).value.fault
    ensures CanRelease(Run(Next(s, a).value, steps).value) <==> CreateFails !in steps
  {
    var s1 := Next(s, a).value;
    StepKeepsInv(s, a);
    StillLoadingIff(s1, steps);
    var now := Run(s1, steps).value;
    if CreateFails in steps {
      forall more | Run(now, more).Some?
        ensures !ReleasedBy(now, more)
      {
        CleanupNeverReturns(now, more);
      }
    } else {
      var more := LoadCompletes(now);
      assert ReleasedBy(now, more);
    }
  }
}
