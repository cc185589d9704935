/** How an unload and a Close come to their ends: what they leave of the registry, the channels and the
    slots when nothing else happens meanwhile. */
module SessionPoolUnloading {
  import opened Values
  import opened ModelKeys
  import EL = SessionPoolLinearization
  import opened SessionPool
  import opened SessionPoolInvariant

  /** From s to end instance j has been closed and its free slots destroyed, oldest first. */
  ghost predicate Emptied(s: State, end: State, j: nat)
    requires j < |s.insts|
  {
    && end.calls == s.calls && !end.fault && |end.insts| == |s.insts|
    && end.insts[j] == s.insts[j].(closed := true, pool := [], destroyed := s.insts[j].destroyed + s.insts[j].pool)
    && forall i :: 0 <= i < |s.insts| && i != j ==> end.insts[i] == s.insts[i]
  }

  lemma {:induction false} RunsOn(s: State, first: seq<Step>, rest: seq<Step>)
    requires Run(s, first).Some?
    ensures Run(s, first + rest) == Run(Run(s, first).value, rest)
    decreases |first|
  {
    if first == [] {
      assert first + rest == rest;
    } else {
      assert (first + rest)[0] == first[0] && (first + rest)[1..] == first[1..] + rest;
      RunsOn(Next(s, first[0]).value, first[1..], rest);
    }
  }

  lemma OneStep(s: State, a: Step)
    ensures Run(s, [a]) == Next(s, a)
  {
    assert [a][1..] == [];
  }

  lemma DrainSays(s: State, key: string)
    requires RegistryOk(s) && !s.fault && Draining(s.lock) == Some(key)
    ensures key in s.models && s.models[key] < |s.insts| && s.insts[s.models[key]].closed
    ensures s.insts[s.models[key]].pool != [] ==>
              Next(s, Drain) == Some(SetInst(s, s.models[key], DestroyHead(s.insts[s.models[key]])))
    ensures s.insts[s.models[key]].pool == [] ==> Drained(s, key)
  {
  }

  lemma EmptiedFurther(s: State, s1: State, end: State, j: nat)
    requires j < |s.insts| && s.insts[j].closed && s.insts[j].pool != [] && s1 == SetInst(s, j, DestroyHead(s.insts[j]))
    requires Emptied(s1, end, j)
    ensures Emptied(s, end, j)
  {
    var inst := s.insts[j];
    assert inst.pool == [inst.pool[0]] + inst.pool[1..];
    assert inst.destroyed + [inst.pool[0]] + inst.pool[1..] == inst.destroyed + inst.pool;
  }

  /** The range loop over a closed channel ends after as many turns as it holds slots. */
  lemma {:induction false} DrainsOut(s: State, key: string) returns (steps: seq<Step>)
    requires Inv(s) && !s.fault && Draining(s.lock) == Some(key)
    ensures key in s.models && s.models[key] < |s.insts| && |steps| == |s.insts[s.models[key]].pool|
    ensures Run(s, steps).Some?
    ensures var end := Run(s, steps).value;
            && Inv(end) && Emptied(s, end, s.models[key]) && end.lock == s.lock && end.models == s.models
    decreases if key in s.models && s.models[key] < |s.insts| then |s.insts[s.models[key]].pool| else 0
  {
    DrainSays(s, key);
    var j := s.models[key];
    steps := [];
    if s.insts[j].pool != [] {
      StepKeepsInv(s, Drain);
      var s1 := Next(s, Drain).value;
      var rest := DrainsOut(s1, key);
      steps := [Drain] + rest;
      assert steps[1..] == rest;
      EmptiedFurther(s, s1, Run(s, steps).value, j);
    }
  }

  lemma UnloadBeginSays(s: State, id: string, version: string)
    requires RegistryOk(s) && !s.fault
    ensures var a, key := UnloadBegin(id, version), ManagerKey(id, version);
            && (Next(s, a).Some? <==> s.lock.Free? && Accepted(id, version) && key in s.models)
            && (Next(s, a).Some? ==> s.models[key] < |s.insts|
                                     && Next(s, a).value == Closed(s, s.models[key]).(lock := Unloading(key)))
  {
    AcceptedKey(id, version);
  }

  function Closed(s: State, j: nat): State
    requires j < |s.insts|
  {
    s.(insts := s.insts[j := s.insts[j].(closed := true)])
  }

  lemma UnloadEndSays(s: State, key: string)
    requires RegistryOk(s) && !s.fault && s.lock == Unloading(key) && key in s.models
    requires s.models[key] < |s.insts| && s.insts[s.models[key]].pool == []
    ensures Next(s, UnloadEnd) == Some(s.(models := s.models - {key}, lock := Free))
  {
    DrainSays(s, key);
  }

  /** An unload begins exactly when the lock is free, the key is accepted and the model there, and it can run
      to its end: then the registry is the same without that key, the lock is free, the channel is closed
      and empty, the slots that were in it are destroyed in order, and no other model has changed. */
  lemma UnloadCompletes(s: State, id: string, version: string) returns (steps: seq<Step>)
    requires Inv(s) && !s.fault && s.lock.Free? && Accepted(id, version) && ManagerKey(id, version) in s.models
    ensures steps != [] && steps[0] == UnloadBegin(id, version) && Run(s, steps).Some?
    ensures var end, key := Run(s, steps).value, ManagerKey(id, version);
            && end.lock.Free? && end.models == s.models - {key}
            && s.models[key] < |s.insts| && Emptied(s, end, s.models[key])
    ensures forall input :: EL.Answer(Run(s, steps).value, id, version, input) == Err(ModelNotFound)
  {
    var key := ManagerKey(id, version);
    AcceptedKey(id, version);
    UnloadBeginSays(s, id, version);
    var s1 := Next(s, UnloadBegin(id, version)).value;
    StepKeepsInv(s, UnloadBegin(id, version));
    var drains := DrainsOut(s1, key);
    var s2 := Run(s1, drains).value;
    UnloadEndSays(s2, key);
    OneStep(s2, UnloadEnd);
    RunsOn(s1, drains, [UnloadEnd]);
    steps := [UnloadBegin(id, version)] + (drains + [UnloadEnd]);
    assert steps[1..] == drains + [UnloadEnd];
  }

  // ---- Close ----

  /** Instance i is closed in end, and the slots that were free in s are destroyed. */
  ghost predicate EmptiedAt(s: State, end: State, i: nat)
    requires i < |s.insts| == |end.insts|
  {
    end.insts[i] == s.insts[i].(closed := true, pool := [], destroyed := s.insts[i].destroyed + s.insts[i].pool)
  }

  ghost predicate AllEmptied(s: State, end: State) {
    && end.calls == s.calls && !end.fault && |end.insts| == |s.insts|
    && forall i :: 0 <= i < |s.insts| ==> EmptiedAt(s, end, i)
  }

  /** With nothing left to close, every channel is closed and empty. */
  lemma NothingLeft(s: State)
    requires RegistryOk(s) && !s.fault && s.lock == Closing({}, None)
    ensures AllEmptied(s, s.(models := map[], lock := Free))
  {
    forall i | 0 <= i < |s.insts|
      ensures s.insts[i].closed && s.insts[i].pool == []
    {
    }
  }

  lemma PickSays(s: State, key: string)
    requires RegistryOk(s) && !s.fault && s.lock.Closing? && s.lock.current.None? && key in s.lock.left
    ensures key in s.models && s.models[key] < |s.insts|
    ensures Next(s, ClosePick(key))
         == Some(Closed(s, s.models[key]).(lock := Closing(s.lock.left - {key}, Some(key))))
  {
  }

  lemma PickedSays(s: State, key: string)
    requires RegistryOk(s) && !s.fault && s.lock.Closing? && s.lock.current == Some(key)
    requires key in s.models && s.models[key] < |s.insts| && s.insts[s.models[key]].pool == []
    ensures Next(s, ClosePicked) == Some(s.(lock := Closing(s.lock.left, None)))
  {
    DrainSays(s, key);
  }

  lemma OneMoreEmptied(s: State, s1: State, s2: State, s3: State, end: State, j: nat)
    requires j < |s.insts| && s1.insts == s.insts[j := s.insts[j].(closed := true)] && s1.calls == s.calls
    requires Emptied(s1, s2, j) && s3.insts == s2.insts && s3.calls == s2.calls && AllEmptied(s3, end)
    ensures AllEmptied(s, end)
  {
    forall i | 0 <= i < |s.insts|
      ensures EmptiedAt(s, end, i)
    {
      assert EmptiedAt(s3, end, i);
      assert s.insts[i].destroyed + s.insts[i].pool + [] == s.insts[i].destroyed + s.insts[i].pool;
    }
  }

  /** One turn of Close: a model is picked, its channel closed and emptied. */
  lemma ClosesOne(s: State, key: string) returns (steps: seq<Step>)
    requires Inv(s) && !s.fault && s.lock.Closing? && s.lock.current.None? && key in s.lock.left
    ensures key in s.models && s.models[key] < |s.insts| && Run(s, steps).Some?
    ensures var s1, s3 := Closed(s, s.models[key]), Run(s, steps).value;
            && Inv(s3) && s3.models == s.models && s3.lock == Closing(s.lock.left - {key}, None)
            && Emptied(s1, s3, s.models[key])
  {
    PickSays(s, key);
    StepKeepsInv(s, ClosePick(key));
    var s1 := Next(s, ClosePick(key)).value;
    var drains := DrainsOut(s1, key);
    var s2 := Run(s1, drains).value;
    PickedSays(s2, key);
    StepKeepsInv(s2, ClosePicked);
    OneStep(s2, ClosePicked);
    RunsOn(s1, drains, [ClosePicked]);
    steps := [ClosePick(key)] + (drains + [ClosePicked]);
    assert steps[1..] == drains + [ClosePicked];
  }

  lemma {:induction false} ClosesAll(s: State) returns (steps: seq<Step>)
    requires Inv(s) && !s.fault && s.lock.Closing? && s.lock.current.None?
    ensures Run(s, steps).Some?
    ensures var end := Run(s, steps).value; end.models == map[] && end.lock.Free? && AllEmptied(s, end)
    decreases if s.lock.Closing? then |s.lock.left| else 0
  {
    if s.lock.left == {} {
      steps := [CloseEnd];
      OneStep(s, CloseEnd);
      NothingLeft(s);
    } else {
      var key :| key in s.lock.left;
      var first := ClosesOne(s, key);
      var s3 := Run(s, first).value;
      var rest := ClosesAll(s3);
      steps := first + rest;
      RunsOn(s, first, rest);
      OneMoreEmptied(s, Closed(s, s.models[key]), s3, s3, Run(s, steps).value, s.models[key]);
    }
  }

  /** Close can run to its end whenever the lock is free: then no model is registered, the lock is free again,
      every channel is closed and empty and every slot that was free is destroyed. */
  lemma CloseCompletes(s: State) returns (steps: seq<Step>)
    requires Inv(s) && !s.fault && s.lock.Free?
    ensures steps != [] && steps[0] == CloseBegin && Run(s, steps).Some?
    ensures var end := Run(s, steps).value; end.models == map[] && end.lock.Free? && AllEmptied(s, end)
  {
    StepKeepsInv(s, CloseBegin);
    var s1 := Next(s, CloseBegin).value;
    var rest := ClosesAll(s1);
    steps := [CloseBegin] + rest;
    assert steps[1..] == rest;
    forall i | 0 <= i < |s.insts|
      ensures EmptiedAt(s, Run(s, steps).value, i)
    {
      assert EmptiedAt(s1, Run(s1, rest).value, i);
    }
  }
}
