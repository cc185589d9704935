/** Why a failed load hangs: the one-step loads of module Registry are what the slot-by-slot machine of
    module SessionPool does, with stuck standing for a cleanup that waits on its channel. */
module LoadRefinement {
  import opened Inference
  import opened ModelKeys
  import opened SessionPool
  import opened SessionPoolInvariant
  import L = SessionPoolLoading
  import R = Registry

  /** r is what the engine's callers can see of s between loads. */
  ghost predicate Abstracts(r: R.State, s: State) {
    && r.engine.Keys == s.models.Keys
    && if r.stuck then s.lock.Cleaning? && s.lock.inst.pool == [] else s.lock.Free?
  }

  /** Creating slots one by one as the disk allows leads to the loaded model, or to the cleanup that
      has emptied its channel. */
  lemma {:induction false} CreationRun(s: State, created: seq<bool>) returns (steps: seq<Step>)
    requires LockOk(s) && s.lock.Loading? && !s.fault && |created| == s.lock.n - |s.lock.inst.slots|
    ensures Run(s, steps).Some?
    ensures var end := Run(s, steps).value;
            if false in created then end.lock.Cleaning? && end.lock.inst.pool == [] && end.models == s.models
            else end.lock.Free? && end.models == s.models[s.lock.inst.key := |s.insts|]
    decreases |created|
  {
    if created == [] {
      steps := [LoadEnd];
      assert steps[1..] == [] && Run(Next(s, LoadEnd).value, []) == Next(s, LoadEnd);
    } else {
      var inst := s.lock.inst;
      var a := if created[0] then CreateSlot(Slot(seq(|inst.net.inputs|, i => []), [])) else CreateFails;
      var rest: seq<Step>;
      if created[0] {
        CreateNeverBlocks(s, a.slot);
        CreateKeepsChannel(inst, a.slot);
        rest := CreationRun(Next(s, a).value, created[1..]);
        assert created == [created[0]] + created[1..];
      } else {
        FailureStartsCleanup(s);
        rest := L.CleanupEmptiesChannel(Next(s, a).value);
        L.CleanupNeverReturns(Next(s, a).value, rest);
      }
      steps := [a] + rest;
      assert steps[1..] == rest;
    }
  }

  lemma FailureStartsCleanup(s: State)
    requires LockOk(s) && s.lock.Loading? && !s.fault && |s.lock.inst.slots| < s.lock.n
    ensures Next(s, CreateFails).Some?
    ensures var s' := Next(s, CreateFails).value; s'.lock.Cleaning? && LockOk(s') && s'.models == s.models && !s'.fault
  {
    forall k: nat | k < |s.lock.inst.slots|
      ensures k in s.lock.inst.pool
    {
      InNumbers(|s.lock.inst.slots|, k);
    }
  }

  /** Every load of a usable file, whatever slots can be created: the machine has a run that ends where
      the registry's one step says, stuck and all. */
  lemma LoadRefines(r: R.State, s: State, m: R.Model, net: Net, config: Config, created: seq<bool>)
    returns (steps: seq<Step>)
    requires Abstracts(r, s) && !s.fault && net.Valid() && |created| == SessionPoolSize(config)
    ensures Run(s, steps).Some?
    ensures Abstracts(R.EngineApply(r, R.Load(m, R.Usable(created))).0, Run(s, steps).value)
  {
    var key := ModelKey(m.id, m.version);
    if r.stuck || key.Err? || key.value in r.engine {
      steps := [];
    } else {
      var a := LoadBegin(m.id, m.version, net, config);
      var s1 := Next(s, a).value;
      assert LockOk(s1);
      var rest := CreationRun(s1, created);
      steps := [a] + rest;
      assert steps[1..] == rest;
    }
  }
}
