/** What every step of the session-pool machine keeps: slots are never shared, lost or used after
    destruction, and every call carries its own prediction. */
module SessionPoolInvariant {
  import opened Values
  import opened Inference
  import opened ModelKeys
  import opened Counting
  import opened SessionPool

  ghost predicate InRange(s: seq<nat>, n: nat) {
    forall k :: k in s ==> k < n
  }

  /** A load's slots, whether or not it is through. */
  ghost predicate ChannelOk(inst: Instance) {
    && inst.net.Valid()
    && (forall k :: 0 <= k < |inst.slots| ==> |inst.slots[k].ins| == |inst.net.inputs|)
    && NoDup(inst.pool) && InRange(inst.pool, |inst.slots|)
    && NoDup(inst.destroyed) && InRange(inst.destroyed, |inst.slots|)
    && (forall k :: k in inst.pool ==> k !in inst.destroyed)
  }

  /** A loaded model: at least one slot, none destroyed while its channel is open. */
  ghost predicate InstOk(inst: Instance) {
    ChannelOk(inst) && inst.slots != [] && (inst.destroyed != [] ==> inst.closed)
  }

  /** The numbers 0, ..., n-1: a channel filled in order. */
  function Numbers(n: nat): (s: seq<nat>)
    ensures |s| == n && forall i :: 0 <= i < n ==> s[i] == i
  {
    if n == 0 then [] else Numbers(n - 1) + [n - 1]
  }

  /** A load under way has put every slot it created into its open channel; a cleanup takes them out
      of it and destroys them, and nobody closes it. */
  ghost predicate LockOk(s: State) {
    match s.lock
    case Loading(inst, n) =>
      && ChannelOk(inst) && !inst.closed && inst.destroyed == [] && 0 < n && |inst.slots| <= n
      && inst.pool == Numbers(|inst.slots|) && inst.key !in s.models
    case Cleaning(inst) =>
      && ChannelOk(inst) && !inst.closed
      && forall k :: 0 <= k < |inst.slots| ==> k in inst.pool || k in inst.destroyed
    case Free => true
    case Unloading(_) => true
    case Closing(_, _) => true
  }

  /** outs is what the model writes for this input. */
  ghost predicate Produces(net: Net, input: Value, outs: seq<seq<real>>) {
    && net.Valid() && Resolve(net, input).Ok?
    && var flats := Resolve(net, input).value;
       FillAll(net, flats, |flats|).Ok? && RunNet(net, FillAll(net, flats, |flats|).value) == Wrote(outs)
  }

  /** What a call knows, phase by phase; the slot it owns holds its own data and nothing else. */
  ghost predicate Knows(call: Call, inst: Instance) {
    inst.net.Valid() &&
    match call.phase
    case Called(_) => false
    case Waiting(flats) => Resolve(inst.net, call.input) == Ok(flats)
    case Filling(k, flats, next) =>
      && Resolve(inst.net, call.input) == Ok(flats) && next <= |flats|
      && k < |inst.slots| && |inst.slots[k].ins| == |inst.net.inputs|
      && FillAll(inst.net, flats, next) == Ok(inst.slots[k].ins[..next])
    case Reading(k, got) =>
      k < |inst.slots| && Produces(inst.net, call.input, inst.slots[k].outs) && got <= inst.slots[k].outs
    case Leaving(k, result) => k < |inst.slots| && result == Predict(inst.net, call.id, call.input)
    case Finished(result) =>
      result == Predict(inst.net, call.id, call.input) || (call.ctxDone && result == Err(ContextDone))
  }

  ghost predicate CallOk(s: State, c: nat)
    requires c in s.calls
  {
    var call := s.calls[c];
    match call.at
    case None =>
      if call.phase.Called? then ModelKey(call.id, call.version) == Ok(call.phase.key)
      else call.phase.Finished? && call.phase.result == Refusal(call.id, call.version)
    case Some(j) =>
      j < |s.insts| && ModelKey(call.id, call.version) == Ok(s.insts[j].key) && Knows(call, s.insts[j])
  }

  /** The answer to a call whose lookup finds no model. */
  function Refusal(id: string, version: string): Result<Prediction> {
    match ModelKey(id, version)
    case Err(e) => Err(e)
    case Ok(_) => Err(ModelNotFound)
  }

  ghost predicate Owned(s: State, j: nat, k: nat) {
    exists c :: c in s.calls && Owns(s.calls[c], j, k)
  }

  ghost predicate SlotsOk(s: State) {
    && (forall j :: 0 <= j < |s.insts| ==> InstOk(s.insts[j]))
    && (forall c, j, k :: c in s.calls && 0 <= j < |s.insts| && Owns(s.calls[c], j, k) ==>
          k !in s.insts[j].pool && k !in s.insts[j].destroyed)
    && (forall c, d, j, k :: c in s.calls && d in s.calls && Owns(s.calls[c], j, k) && Owns(s.calls[d], j, k) ==>
          c == d)
    && (forall j, k :: 0 <= j < |s.insts| && 0 <= k < |s.insts[j].slots| ==>
          k in s.insts[j].pool || k in s.insts[j].destroyed || Owned(s, j, k))
  }

  ghost predicate CallsOk(s: State) {
    forall c :: c in s.calls ==> CallOk(s, c)
  }

  /** Keys find their own instances; an instance is closed only when it is being drained or has been
      drained and dropped. */
  ghost predicate RegistryOk(s: State) {
    && (forall key :: key in s.models ==> s.models[key] < |s.insts| && s.insts[s.models[key]].key == key)
    && (Draining(s.lock).Some? ==>
          Draining(s.lock).value in s.models && s.insts[s.models[Draining(s.lock).value]].closed)
    && (s.lock.Closing? ==> s.lock.left <= s.models.Keys
                            && (s.lock.current.Some? ==> s.lock.current.value !in s.lock.left))
    && (forall key :: key in s.models && s.insts[s.models[key]].closed ==>
          Draining(s.lock) == Some(key) || (s.lock.Closing? && key !in s.lock.left))
    && (forall key :: key in s.models && s.lock.Closing? && key !in s.lock.left ==> s.insts[s.models[key]].closed)
    && (forall j :: 0 <= j < |s.insts| && s.insts[j].closed && s.insts[j].pool != [] ==>
          Draining(s.lock).Some? && s.models[Draining(s.lock).value] == j)
    && (forall j :: 0 <= j < |s.insts| && !s.insts[j].closed ==>
          s.insts[j].key in s.models && s.models[s.insts[j].key] == j)
  }

  ghost predicate Inv(s: State) {
    SlotsOk(s) && CallsOk(s) && RegistryOk(s) && LockOk(s)
  }

  /** Same instance but for its slots' tensors and its pool. */
  ghost predicate SameInst(a: Instance, b: Instance) {
    a.key == b.key && a.net == b.net && |a.slots| == |b.slots| && a.closed == b.closed && a.destroyed == b.destroyed
  }

  /** The slot a call has checked out, if any. */
  function Held(call: Call): set<nat> {
    if call.phase.Filling? || call.phase.Reading? || call.phase.Leaving? then {call.phase.slot} else {}
  }

  /** A step of one call on one instance keeps everything, if it leaves other callers' slots alone and
      moves its own slot only between itself and the pool. */
  lemma MoveKeepsSlots(s: State, c: nat, j: nat, p: Phase, inst: Instance)
    requires SlotsOk(s) && c in s.calls && j < |s.insts| && s.calls[c].at == Some(j)
    requires SameInst(s.insts[j], inst) && InstOk(inst)
    requires var call := s.calls[c]; var call' := call.(phase := p);
             && (forall k :: k in Held(call') ==> k !in inst.pool && k !in inst.destroyed)
             && (forall k :: k in inst.pool || k in Held(call') <==> k in s.insts[j].pool || k in Held(call))
    ensures SlotsOk(SetInst(SetPhase(s, c, p), j, inst))
  {
    var s' := SetInst(SetPhase(s, c, p), j, inst);
    var call, call' := s.calls[c], s'.calls[c];
    forall d, i, k | d in s'.calls && 0 <= i < |s'.insts| && Owns(s'.calls[d], i, k)
      ensures k !in s'.insts[i].pool && k !in s'.insts[i].destroyed
    {
      if d != c && i == j {
        assert Owns(s.calls[d], j, k);
        assert k !in s.insts[j].pool && !Owns(call, j, k);
        assert k !in Held(call);
      }
    }
    forall d, e, i, k | d in s'.calls && e in s'.calls && Owns(s'.calls[d], i, k) && Owns(s'.calls[e], i, k)
      ensures d == e
    {
      if d == c && e != c {
        NotOthers(s, c, e, j, k, p, inst);
      } else if e == c && d != c {
        NotOthers(s, c, d, j, k, p, inst);
      }
    }
    forall i, k | 0 <= i < |s'.insts| && 0 <= k < |s'.insts[i].slots|
      ensures k in s'.insts[i].pool || k in s'.insts[i].destroyed || Owned(s', i, k)
    {
      if k in s.insts[i].pool || k in s.insts[i].destroyed {
        if i == j && k in Held(call') { assert Owns(s'.calls[c], i, k); }
      } else {
        var d :| d in s.calls && Owns(s.calls[d], i, k);
        if d != c {
          assert Owns(s'.calls[d], i, k);
        } else if k in Held(call') {
          assert Owns(s'.calls[c], i, k);
        }
      }
    }
  }

  lemma NotOthers(s: State, c: nat, d: nat, j: nat, k: nat, p: Phase, inst: Instance)
    requires SlotsOk(s) && c in s.calls && d in s.calls && c != d && j < |s.insts| && s.calls[c].at == Some(j)
    requires forall x :: x in inst.pool || x in Held(s.calls[c].(phase := p)) <==>
                         x in s.insts[j].pool || x in Held(s.calls[c])
    ensures !(Owns(s.calls[c].(phase := p), j, k) && Owns(s.calls[d], j, k))
  {
    if Owns(s.calls[c].(phase := p), j, k) && Owns(s.calls[d], j, k) {
      assert k in s.insts[j].pool || k in Held(s.calls[c]);
      assert k in Held(s.calls[c]) ==> Owns(s.calls[c], j, k);
    }
  }

  /** Other calls keep what they know when only slots they do not own are written. */
  lemma MoveKeepsCalls(s: State, c: nat, j: nat, p: Phase, inst: Instance)
    requires CallsOk(s) && SlotsOk(s) && c in s.calls && j < |s.insts| && s.calls[c].at == Some(j)
    requires SameInst(s.insts[j], inst)
    requires forall k :: 0 <= k < |inst.slots| && k !in Held(s.calls[c]) ==> inst.slots[k] == s.insts[j].slots[k]
    requires Knows(s.calls[c].(phase := p), inst)
    ensures CallsOk(SetInst(SetPhase(s, c, p), j, inst))
  {
    var s' := SetInst(SetPhase(s, c, p), j, inst);
    forall d | d in s'.calls
      ensures CallOk(s', d)
    {
      assert CallOk(s, d);
      if d == c {
        assert s'.insts[j] == inst;
      } else if s.calls[d].at == Some(j) {
        forall k | k in Held(s.calls[d])
          ensures k !in Held(s.calls[c])
        {
          assert Owns(s.calls[d], j, k);
          assert k in Held(s.calls[c]) ==> Owns(s.calls[c], j, k);
        }
      }
    }
  }

  lemma MoveKeepsRegistry(s: State, c: nat, j: nat, p: Phase, inst: Instance)
    requires RegistryOk(s) && c in s.calls && j < |s.insts| && s.calls[c].at == Some(j)
    requires SameInst(s.insts[j], inst) && (inst.closed && inst.pool != [] ==> s.insts[j].pool != [])
    ensures RegistryOk(SetInst(SetPhase(s, c, p), j, inst))
  {
  }

  /** The slot a call owns is neither free nor destroyed. */
  ghost predicate HoldsFairly(call: Call, inst: Instance) {
    forall k :: k in Held(call) ==> k !in inst.pool && k !in inst.destroyed
  }

  /** A step that writes at most its own slot and moves that slot only to or from the pool. */
  ghost predicate LocalMove(call: Call, inst: Instance, p: Phase, inst': Instance) {
    var call' := call.(phase := p);
    && Knows(call', inst') && SameInst(inst, inst') && InstOk(inst') && HoldsFairly(call', inst')
    && (inst'.closed && inst'.pool != [] ==> inst.pool != [])
    && (forall k :: 0 <= k < |inst.slots| && k !in Held(call) ==> inst'.slots[k] == inst.slots[k])
    && (forall k :: k in inst'.pool || k in Held(call') <==> k in inst.pool || k in Held(call))
  }

  lemma CheckoutStep(call: Call, inst: Instance)
    requires InstOk(inst) && Knows(call, inst) && call.phase.Waiting? && inst.pool != []
    ensures LocalMove(call, inst, Filling(inst.pool[0], call.phase.flats, 0), inst.(pool := inst.pool[1..]))
  {
    var k := inst.pool[0];
    assert inst.pool == [k] + inst.pool[1..];
    assert k in inst.pool;
    assert inst.slots[k].ins[..0] == [];
    assert forall x :: x in inst.pool[1..] ==> x in inst.pool;
  }

  lemma FillStep(call: Call, inst: Instance)
    requires InstOk(inst) && Knows(call, inst) && HoldsFairly(call, inst)
    requires call.phase.Filling? && call.phase.next < |call.phase.flats|
    ensures var m := MoveOf(call, inst, FillOne(0)); m.Moves? && LocalMove(call, inst, m.phase, m.inst)
  {
    var k, flats, next := call.phase.slot, call.phase.flats, call.phase.next;
    if |flats[next]| == inst.net.inputs[next].size {
      var ins := inst.slots[k].ins;
      var filled := CastAll(inst.net.wild, inst.net.inputs[next].dtype, flats[next]);
      assert ins[next := filled][..next + 1] == ins[..next] + [filled];
    } else {
      FillFailsFirst(inst.net, flats, |flats|);
    }
  }

  lemma RunStep(call: Call, inst: Instance, junk: seq<seq<real>>)
    requires InstOk(inst) && Knows(call, inst) && HoldsFairly(call, inst)
    requires call.phase.Filling? && call.phase.next == |call.phase.flats|
    ensures var m := MoveOf(call, inst, RunSession(0, junk)); m.Moves? && LocalMove(call, inst, m.phase, m.inst)
  {
    var ins := inst.slots[call.phase.slot].ins;
    assert ins[..call.phase.next] == ins;
  }

  lemma ReadStep(call: Call, inst: Instance)
    requires InstOk(inst) && Knows(call, inst) && HoldsFairly(call, inst) && call.phase.Reading?
    ensures var m := MoveOf(call, inst, ReadOne(0)); m.Moves? && LocalMove(call, inst, m.phase, m.inst)
  {
    var outs, got := inst.slots[call.phase.slot].outs, call.phase.got;
    if |got| == |outs| {
      assert got == outs;
    }
  }

  /** The deferred return finds room and leaves the pool without repetition. */
  lemma ReturnStep(call: Call, inst: Instance)
    requires InstOk(inst) && Knows(call, inst) && HoldsFairly(call, inst) && call.phase.Leaving? && !inst.closed
    ensures |inst.pool| < |inst.slots|
    ensures LocalMove(call, inst, Finished(call.phase.result), inst.(pool := inst.pool + [call.phase.slot]))
  {
    RoomForOne(inst.pool, |inst.slots|, call.phase.slot);
  }

  /** Whatever its kind, a call's own step is local. */
  lemma MoveIsLocal(call: Call, inst: Instance, a: Step)
    requires InstOk(inst) && Knows(call, inst) && HoldsFairly(call, inst) && IsMove(a)
    requires MoveOf(call, inst, a).Moves?
    ensures LocalMove(call, inst, MoveOf(call, inst, a).phase, MoveOf(call, inst, a).inst)
  {
    match a
    case Checkout(_) => CheckoutStep(call, inst);
    case GiveUp(_) =>
    case FillOne(_) => FillStep(call, inst);
    case RunSession(_, junk) => RunStep(call, inst, junk);
    case ReadOne(_) => ReadStep(call, inst);
    case Return(_) => ReturnStep(call, inst);
  }

  lemma HoldersAreFair(s: State, c: nat)
    requires SlotsOk(s) && c in s.calls && s.calls[c].at.Some? && s.calls[c].at.value < |s.insts|
    ensures HoldsFairly(s.calls[c], s.insts[s.calls[c].at.value])
  {
    forall k | k in Held(s.calls[c])
      ensures k !in s.insts[s.calls[c].at.value].pool && k !in s.insts[s.calls[c].at.value].destroyed
    {
      assert Owns(s.calls[c], s.calls[c].at.value, k);
    }
  }

  /** What a move makes of the state, spelled out. */
  lemma MoveShape(s: State, a: Step, j: nat)
    requires !s.fault && IsMove(a) && a.c in s.calls && s.calls[a.c].at == Some(j) && j < |s.insts|
    ensures Next(s, a)
         == match MoveOf(s.calls[a.c], s.insts[j], a)
            case Blocked => None
            case Panic => Some(s.(fault := true))
            case Moves(p, inst) => Some(SetInst(SetPhase(s, a.c, p), j, inst))
  {
  }

  /** No move changes the model, closes the channel or starts from a finished call; on an open channel
      none panics. */
  lemma MoveKeepsNet(call: Call, inst: Instance, a: Step)
    requires IsMove(a)
    ensures MoveOf(call, inst, a).Moves? ==>
              MoveOf(call, inst, a).inst.net == inst.net && MoveOf(call, inst, a).inst.closed == inst.closed
    ensures !MoveOf(call, inst, a).Blocked? ==> !call.phase.Finished?
    ensures !inst.closed ==> !MoveOf(call, inst, a).Panic?
  {
  }

  lemma MoveKeepsInv(s: State, a: Step)
    requires Inv(s) && IsMove(a) && MoveNext(s, a).Some?
    ensures Inv(MoveNext(s, a).value)
  {
    var j := s.calls[a.c].at.value;
    var m := MoveOf(s.calls[a.c], s.insts[j], a);
    if m.Moves? {
      assert CallOk(s, a.c) && InstOk(s.insts[j]);
      HoldersAreFair(s, a.c);
      MoveIsLocal(s.calls[a.c], s.insts[j], a);
      MoveKeepsSlots(s, a.c, j, m.phase, m.inst);
      MoveKeepsCalls(s, a.c, j, m.phase, m.inst);
      MoveKeepsRegistry(s, a.c, j, m.phase, m.inst);
    } else {
      SameButFault(s);
    }
  }

  lemma SameButFault(s: State)
    requires Inv(s)
    ensures Inv(s.(fault := true))
  {
    RegistryChange(s, s.(fault := true));
  }

  /** Slots and calls depend on the instances and calls only. */
  lemma RegistryChange(s: State, s': State)
    requires SlotsOk(s) && CallsOk(s) && s'.insts == s.insts && s'.calls == s.calls
    ensures SlotsOk(s') && CallsOk(s')
  {
    forall j, k | 0 <= j < |s'.insts| && 0 <= k < |s'.insts[j].slots|
      ensures k in s'.insts[j].pool || k in s'.insts[j].destroyed || Owned(s', j, k)
    {
      assert Owned(s, j, k) ==> Owned(s', j, k);
    }
    forall c | c in s'.calls
      ensures CallOk(s', c)
    {
      assert CallOk(s, c);
    }
  }

  lemma CallKeepsSlots(s: State, c: nat, call: Call)
    requires SlotsOk(s) && Held(call) == (if c in s.calls then Held(s.calls[c]) else {})
    requires c in s.calls && Held(call) != {} ==> call.at == s.calls[c].at
    ensures SlotsOk(s.(calls := s.calls[c := call]))
  {
    var s' := s.(calls := s.calls[c := call]);
    forall d, j, k | d in s'.calls && Owns(s'.calls[d], j, k)
      ensures d in s.calls && Owns(s.calls[d], j, k)
    {
      assert d == c ==> k in Held(call);
    }
    forall j, k | 0 <= j < |s'.insts| && 0 <= k < |s'.insts[j].slots|
      ensures k in s'.insts[j].pool || k in s'.insts[j].destroyed || Owned(s', j, k)
    {
      if Owned(s, j, k) {
        var d :| d in s.calls && Owns(s.calls[d], j, k);
        assert d == c ==> k in Held(s.calls[c]);
        assert Owns(s'.calls[d], j, k);
      }
    }
  }

  /** A call appears, is looked up or is cancelled; no slot changes hands. */
  lemma CallChange(s: State, c: nat, call: Call)
    requires Inv(s) && Held(call) == (if c in s.calls then Held(s.calls[c]) else {})
    requires c in s.calls && Held(call) != {} ==> call.at == s.calls[c].at
    requires CallOk(s.(calls := s.calls[c := call]), c)
    ensures Inv(s.(calls := s.calls[c := call]))
  {
    var s' := s.(calls := s.calls[c := call]);
    CallKeepsSlots(s, c, call);
    forall d | d in s'.calls
      ensures CallOk(s', d)
    {
      assert d != c ==> CallOk(s, d);
    }
  }

  /** Closing a pool, or moving its head to the destroyed slots, touches no owned slot. */
  lemma PoolChange(s: State, j: nat, inst: Instance)
    requires SlotsOk(s) && CallsOk(s) && j < |s.insts| && InstOk(inst)
    requires inst.key == s.insts[j].key && inst.net == s.insts[j].net && inst.slots == s.insts[j].slots
    requires forall k :: k in inst.pool || k in inst.destroyed <==> k in s.insts[j].pool || k in s.insts[j].destroyed
    ensures SlotsOk(SetInst(s, j, inst)) && CallsOk(SetInst(s, j, inst))
  {
    var s' := SetInst(s, j, inst);
    forall i, k | 0 <= i < |s'.insts| && 0 <= k < |s'.insts[i].slots|
      ensures k in s'.insts[i].pool || k in s'.insts[i].destroyed || Owned(s', i, k)
    {
      assert Owned(s, i, k) ==> Owned(s', i, k);
    }
    forall c | c in s'.calls
      ensures CallOk(s', c)
    {
      assert CallOk(s, c);
    }
  }

  /** What a lookup in the registry makes of a call. */
  lemma LookupFinds(s: State, c: nat)
    requires SlotsOk(s) && RegistryOk(s) && c in s.calls && s.calls[c].phase.Called? && s.calls[c].phase.key in s.models
    ensures var j := s.models[s.calls[c].phase.key];
            j < |s.insts| && InstOk(s.insts[j])
            && LookupNext(s, c) == s.(calls := s.calls[c := Found(s.calls[c], j, s.insts[j].net)])
  {
    assert InstOk(s.insts[s.models[s.calls[c].phase.key]]);
  }

  /** What the lookup makes of a call is in order. */
  lemma LookupCallOk(s: State, c: nat)
    requires Inv(s) && c in s.calls && s.calls[c].phase.Called?
    ensures var s' := LookupNext(s, c);
            c in s'.calls && s' == s.(calls := s.calls[c := s'.calls[c]])
            && CallOk(s', c) && !s'.calls[c].phase.Called? && Held(s'.calls[c]) == {}
  {
    assert CallOk(s, c);
    if s.calls[c].phase.key in s.models {
      LookupFinds(s, c);
    }
  }

  lemma LookupKeepsInv(s: State, c: nat)
    requires Inv(s) && c in s.calls && s.calls[c].phase.Called?
    ensures Inv(LookupNext(s, c))
  {
    LookupCallOk(s, c);
    CallChange(s, c, LookupNext(s, c).calls[c]);
  }

  lemma AppendKeepsSlots(s: State, inst: Instance, models: map<string, nat>)
    requires SlotsOk(s) && CallsOk(s) && InstOk(inst)
    requires forall k :: 0 <= k < |inst.slots| ==> k in inst.pool
    ensures SlotsOk(s.(insts := s.insts + [inst], models := models))
            && CallsOk(s.(insts := s.insts + [inst], models := models))
  {
    var s' := s.(insts := s.insts + [inst], models := models);
    forall c | c in s'.calls
      ensures CallOk(s', c)
    {
      assert CallOk(s, c);
    }
    forall c, k | c in s'.calls
      ensures !Owns(s'.calls[c], |s.insts|, k)
    {
      assert CallOk(s, c);
    }
    forall j, k | 0 <= j < |s'.insts| && 0 <= k < |s'.insts[j].slots|
      ensures k in s'.insts[j].pool || k in s'.insts[j].destroyed || Owned(s', j, k)
    {
      assert j < |s.insts| && Owned(s, j, k) ==> Owned(s', j, k);
    }
  }

  lemma InNumbers(n: nat, k: nat)
    ensures k in Numbers(n) <==> k < n
  {
    if k < n {
      assert Numbers(n)[k] == k;
    }
  }

  /** A created slot goes into the channel, which has room for it. */
  lemma CreateKeepsChannel(inst: Instance, slot: Slot)
    requires ChannelOk(inst) && inst.pool == Numbers(|inst.slots|) && inst.destroyed == []
    requires |slot.ins| == |inst.net.inputs|
    ensures var inst' := inst.(slots := inst.slots + [slot], pool := inst.pool + [|inst.slots|]);
            ChannelOk(inst') && inst'.pool == Numbers(|inst'.slots|)
  {
  }

  lemma CreateNeverBlocks(s: State, slot: Slot)
    requires LockOk(s) && s.lock.Loading? && |s.lock.inst.slots| < s.lock.n && !s.fault
    requires |slot.ins| == |s.lock.inst.net.inputs|
    ensures Next(s, CreateSlot(slot)).Some?
  {
  }

  /** One turn of a destroying range loop keeps the slots apart. */
  lemma DestroyKeepsChannel(inst: Instance)
    requires ChannelOk(inst) && inst.pool != []
    ensures var inst' := DestroyHead(inst);
            ChannelOk(inst')
            && forall k :: k in inst'.pool || k in inst'.destroyed <==> k in inst.pool || k in inst.destroyed
  {
    var k := inst.pool[0];
    assert inst.pool == [k] + inst.pool[1..] && k in inst.pool;
    assert forall x :: x in inst.pool[1..] ==> x in inst.pool;
    assert forall i :: 0 <= i < |inst.destroyed| ==> inst.destroyed[i] in inst.destroyed;
  }

  /** A step that only moves the lock along. */
  lemma LockChange(s: State, lock: Lock)
    requires Inv(s) && RegistryOk(s.(lock := lock)) && LockOk(s.(lock := lock))
    ensures Inv(s.(lock := lock))
  {
    RegistryChange(s, s.(lock := lock));
  }

  lemma LoadBeginKeepsInv(s: State, id: string, version: string, net: Net, config: Config)
    requires Inv(s) && LoadBeginNext(s, id, version, net, config).Some?
    ensures Inv(LoadBeginNext(s, id, version, net, config).value)
  {
    LockChange(s, LoadBeginNext(s, id, version, net, config).value.lock);
  }

  lemma CreateKeepsInv(s: State, slot: Slot)
    requires Inv(s) && CreateSlotNext(s, slot).Some?
    ensures Inv(CreateSlotNext(s, slot).value)
  {
    CreateKeepsChannel(s.lock.inst, slot);
    LockChange(s, CreateSlotNext(s, slot).value.lock);
  }

  lemma FailureKeepsInv(s: State)
    requires Inv(s) && s.lock.Loading?
    ensures Inv(s.(lock := Cleaning(s.lock.inst)))
  {
    forall k: nat | k < |s.lock.inst.slots|
      ensures k in s.lock.inst.pool
    {
      InNumbers(|s.lock.inst.slots|, k);
    }
    LockChange(s, Cleaning(s.lock.inst));
  }

  lemma CleanKeepsInv(s: State)
    requires Inv(s) && CleanNext(s).Some?
    ensures Inv(CleanNext(s).value)
  {
    DestroyKeepsChannel(s.lock.inst);
    LockChange(s, CleanNext(s).value.lock);
  }

  lemma LoadEndKeepsInv(s: State)
    requires Inv(s) && LoadEndNext(s).Some?
    ensures Inv(LoadEndNext(s).value)
  {
    var s', inst := LoadEndNext(s).value, s.lock.inst;
    forall k: nat | k < |inst.slots|
      ensures k in inst.pool
    {
      InNumbers(|inst.slots|, k);
    }
    AppendKeepsSlots(s, inst, s.models[inst.key := |s.insts|]);
    RegistryChange(s.(insts := s.insts + [inst], models := s.models[inst.key := |s.insts|]), s');
    AppendKeepsRegistry(s, inst);
  }

  lemma AppendKeepsRegistry(s: State, inst: Instance)
    requires RegistryOk(s) && s.lock.Loading? && inst.key !in s.models && !inst.closed
    ensures RegistryOk(s.(insts := s.insts + [inst], models := s.models[inst.key := |s.insts|], lock := Free))
  {
  }

  lemma DrainKeepsInv(s: State)
    requires Inv(s) && DrainNext(s).Some?
    ensures Inv(DrainNext(s).value)
  {
    var j := s.models[Draining(s.lock).value];
    var inst' := DestroyHead(s.insts[j]);
    assert InstOk(s.insts[j]);
    DestroyKeepsChannel(s.insts[j]);
    PoolChange(s, j, inst');
    DrainKeepsRegistry(s, j, inst');
  }

  lemma DrainKeepsRegistry(s: State, j: nat, inst: Instance)
    requires RegistryOk(s) && j < |s.insts| && inst.key == s.insts[j].key && inst.closed && s.insts[j].closed
    requires Draining(s.lock).Some? && s.models[Draining(s.lock).value] == j
    ensures RegistryOk(SetInst(s, j, inst))
  {
  }

  ghost predicate MayClose(lock: Lock, key: string, lock': Lock) {
    || (lock.Free? && lock' == Unloading(key))
    || (lock.Closing? && lock.current.None? && key in lock.left && lock' == Closing(lock.left - {key}, Some(key)))
  }

  lemma CloseKeepsRegistry(s: State, key: string, lock: Lock)
    requires RegistryOk(s) && key in s.models && MayClose(s.lock, key, lock)
    ensures RegistryOk(ClosePool(s, key).(lock := lock))
  {
  }

  lemma CloseKeepsInv(s: State, key: string, lock: Lock)
    requires Inv(s) && key in s.models && MayClose(s.lock, key, lock)
    ensures Inv(ClosePool(s, key).(lock := lock))
  {
    var j := s.models[key];
    assert InstOk(s.insts[j].(closed := true)) by { assert InstOk(s.insts[j]); }
    CloseKeepsRegistry(s, key, lock);
    PoolChange(s, j, s.insts[j].(closed := true));
    RegistryChange(ClosePool(s, key), ClosePool(s, key).(lock := lock));
  }

  lemma UnloadEndKeepsInv(s: State)
    requires Inv(s) && s.lock.Unloading? && Drained(s, s.lock.key)
    ensures Inv(s.(models := s.models - {s.lock.key}, lock := Free))
  {
    RegistryChange(s, s.(models := s.models - {s.lock.key}, lock := Free));
  }

  /** The steps of Close that close no pool. */
  lemma CloseEndKeepsInv(s: State, a: Step)
    requires Inv(s) && (a.CloseBegin? || a.ClosePicked? || a.CloseEnd?) && RegistryNext(s, a).Some?
    ensures Inv(RegistryNext(s, a).value)
  {
    RegistryChange(s, RegistryNext(s, a).value);
  }

  lemma RegistryStepKeepsInv(s: State, a: Step)
    requires Inv(s) && RegistryNext(s, a).Some?
    ensures Inv(RegistryNext(s, a).value)
  {
    match a
    case LoadBegin(id, version, net, config) => LoadBeginKeepsInv(s, id, version, net, config);
    case CreateSlot(slot) => CreateKeepsInv(s, slot);
    case CreateFails => FailureKeepsInv(s);
    case CleanOne => CleanKeepsInv(s);
    case LoadEnd => LoadEndKeepsInv(s);
    case UnloadBegin(id, version) =>
      CloseKeepsInv(s, ModelKey(id, version).value, Unloading(ModelKey(id, version).value));
    case Drain => DrainKeepsInv(s);
    case UnloadEnd => UnloadEndKeepsInv(s);
    case ClosePick(key) => CloseKeepsInv(s, key, Closing(s.lock.left - {key}, Some(key)));
    case CloseBegin => CloseEndKeepsInv(s, a);
    case ClosePicked => CloseEndKeepsInv(s, a);
    case CloseEnd => CloseEndKeepsInv(s, a);
  }

  /** Every step of the machine keeps the invariant, unloads and Close at any moment included. */
  lemma StepKeepsInv(s: State, a: Step)
    requires Inv(s) && Next(s, a).Some?
    ensures Inv(Next(s, a).value)
  {
    if IsMove(a) {
      MoveKeepsInv(s, a);
    } else if a.Begin? {
      CallChange(s, a.c, NewCall(a.id, a.version, a.input));
    } else if a.Lookup? {
      LookupKeepsInv(s, a.c);
    } else if a.CancelCtx? {
      assert CallOk(s, a.c);
      CallChange(s, a.c, s.calls[a.c].(ctxDone := true));
    } else {
      RegistryStepKeepsInv(s, a);
    }
  }

  lemma {:induction false} RunKeepsInv(s: State, steps: seq<Step>)
    requires Inv(s) && Run(s, steps).Some?
    ensures Inv(Run(s, steps).value)
    decreases |steps|
  {
    if steps != [] {
      StepKeepsInv(s, steps[0]);
      RunKeepsInv(Next(s, steps[0]).value, steps[1..]);
    }
  }
}
