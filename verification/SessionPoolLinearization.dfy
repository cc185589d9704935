/** When concurrent Predict calls take effect: each one at its lookup in the registry.  Whatever loads,
    unloads, Close and other calls do, its result is the registry's answer at that moment. */
module SessionPoolLinearization {
  import opened Values
  import opened Inference
  import opened InferenceLaws
  import opened ModelKeys
  import opened SessionPool
  import opened SessionPoolInvariant

  /** The answer the engine owes to a request, given its registry: what a sequential Predict returns. */
  function Answer(s: State, id: string, version: string, input: Value): Result<Prediction> {
    match ModelKey(id, version)
    case Err(e) => Err(e)
    case Ok(key) =>
      if key in s.models && s.models[key] < |s.insts| && s.insts[s.models[key]].net.Valid()
      then Predict(s.insts[s.models[key]].net, id, input) else Err(ModelNotFound)
  }

  /** The registry's answer in plain terms: the first fault of the key, nothing loaded under it, or what the
      model loaded under it makes of the request. */
  lemma AnswerSays(s: State, id: string, version: string, input: Value)
    requires Inv(s)
    ensures var r, key := Answer(s, id, version, input), ManagerKey(id, version);
            if !Accepted(id, version) then
              r == Err(if |id| == 0 then EmptyModelId else if ':' in id then ColonInId else ColonInVersion)
            else if key !in s.models then r == Err(ModelNotFound)
            else
              var j := s.models[key];
              j < |s.insts| && s.insts[j].key == key && s.insts[j].net.Valid()
              && Outcome(s.insts[j].net, id, input, r)
  {
    AcceptedKey(id, version);
    var key := ManagerKey(id, version);
    if Accepted(id, version) && key in s.models {
      assert InstOk(s.insts[s.models[key]]);
      PredictSays(s.insts[s.models[key]].net, id, input);
    }
  }

  /** Call c has the request call, and r is what it will be answered unless its context ends. */
  ghost predicate Bound(s: State, c: nat, call: Call, r: Result<Prediction>) {
    && c in s.calls && SameCall(s.calls[c], call) && !s.calls[c].phase.Called?
    && match s.calls[c].at
       case None => s.calls[c].phase == Finished(r)
       case Some(j) => j < |s.insts| && s.insts[j].net.Valid() && r == Predict(s.insts[j].net, call.id, call.input)
  }

  predicate SameCall(a: Call, b: Call) {
    a.id == b.id && a.version == b.version && a.input == b.input
  }

  /** Loaded models keep their network. */
  ghost predicate KeepsNets(s: State, s': State) {
    |s.insts| <= |s'.insts| && forall j :: 0 <= j < |s.insts| ==> s'.insts[j].net == s.insts[j].net
  }

  lemma RegistryKeepsNets(s: State, a: Step)
    requires RegistryNext(s, a).Some?
    ensures KeepsNets(s, RegistryNext(s, a).value) && RegistryNext(s, a).value.calls == s.calls
  {
  }

  lemma MovedStaysBound(s: State, d: nat, p: Phase, j: nat, inst: Instance, c: nat, call: Call, r: Result<Prediction>)
    requires Bound(s, c, call, r) && d in s.calls && s.calls[d].at == Some(j) && j < |s.insts|
    requires inst.net == s.insts[j].net && !p.Called?
    ensures Bound(SetInst(SetPhase(s, d, p), j, inst), c, call, r)
  {
  }

  /** A move never starts a call over. */
  lemma MoveNotCalled(call: Call, inst: Instance, a: Step)
    requires IsMove(a) && MoveOf(call, inst, a).Moves?
    ensures !MoveOf(call, inst, a).phase.Called? && !call.phase.Called?
  {
  }

  lemma MoveStaysBound(s: State, a: Step, c: nat, call: Call, r: Result<Prediction>)
    requires Bound(s, c, call, r) && IsMove(a) && Next(s, a).Some?
    ensures Bound(Next(s, a).value, c, call, r)
  {
    var j := s.calls[a.c].at.value;
    MoveShape(s, a, j);
    var m := MoveOf(s.calls[a.c], s.insts[j], a);
    if m.Moves? {
      MoveKeepsNet(s.calls[a.c], s.insts[j], a);
      MoveNotCalled(s.calls[a.c], s.insts[j], a);
      MovedStaysBound(s, a.c, m.phase, j, m.inst, c, call, r);
    }
  }

  lemma StepStaysBound(s: State, a: Step, c: nat, call: Call, r: Result<Prediction>)
    requires Bound(s, c, call, r) && Next(s, a).Some?
    ensures Bound(Next(s, a).value, c, call, r)
  {
    if IsMove(a) {
      MoveStaysBound(s, a, c, call, r);
    } else if !a.Begin? && !a.Lookup? && !a.CancelCtx? {
      RegistryKeepsNets(s, a);
    }
  }

  /** The lookup binds the call to the registry's answer. */
  lemma LookupBinds(s: State, c: nat)
    requires Inv(s) && c in s.calls && s.calls[c].phase.Called?
    ensures var call := s.calls[c];
            Bound(LookupNext(s, c), c, call, Answer(s, call.id, call.version, call.input))
  {
    assert CallOk(s, c);
    if s.calls[c].phase.key in s.models {
      LookupFinds(s, c);
    }
  }

  /** So is a call that is over as soon as it begins. */
  lemma BeginBinds(s: State, c: nat, id: string, version: string, input: Value)
    requires Next(s, Begin(c, id, version, input)).Some? && ModelKey(id, version).Err?
    ensures Bound(Next(s, Begin(c, id, version, input)).value, c, NewCall(id, version, input),
                  Err(ModelKey(id, version).error))
  {
  }

  /** A bound call that is over was answered with that, unless its context ended. */
  lemma BoundResult(s: State, c: nat, call: Call, r: Result<Prediction>)
    requires Inv(s) && Bound(s, c, call, r) && s.calls[c].phase.Finished?
    ensures s.calls[c].phase.result == r || (s.calls[c].ctxDone && s.calls[c].phase.result == Err(ContextDone))
  {
    assert CallOk(s, c);
  }

  lemma {:induction false} RunStaysBound(s: State, steps: seq<Step>, c: nat, call: Call, r: Result<Prediction>)
    requires Inv(s) && Bound(s, c, call, r) && Run(s, steps).Some?
    ensures Inv(Run(s, steps).value) && Bound(Run(s, steps).value, c, call, r)
    decreases |steps|
  {
    if steps != [] {
      StepKeepsInv(s, steps[0]);
      StepStaysBound(s, steps[0], c, call, r);
      RunStaysBound(Next(s, steps[0]).value, steps[1..], c, call, r);
    }
  }

  /** Call c has not begun, or has not looked up its model. */
  ghost predicate Before(s: State, c: nat) {
    c in s.calls ==> s.calls[c].phase.Called?
  }

  lemma StepStaysBefore(s: State, a: Step, c: nat)
    requires Before(s, c) && Next(s, a).Some? && a != Lookup(c)
    requires a.Begin? && a.c == c ==> ModelKey(a.id, a.version).Ok?
    ensures Before(Next(s, a).value, c)
  {
    if IsMove(a) {
      MoveShape(s, a, s.calls[a.c].at.value);
      if MoveOf(s.calls[a.c], s.insts[s.calls[a.c].at.value], a).Moves? {
        MoveNotCalled(s.calls[a.c], s.insts[s.calls[a.c].at.value], a);
      }
    } else if !a.Begin? && !a.Lookup? && !a.CancelCtx? {
      RegistryKeepsNets(s, a);
    }
  }

  /** The call that end holds as over was answered, unless its context ended, what the registry of now says. */
  ghost predicate AnswersFor(now: State, end: State, c: nat)
    requires c in end.calls && end.calls[c].phase.Finished?
  {
    var call := end.calls[c];
    call.phase.result == Answer(now, call.id, call.version, call.input)
    || (call.ctxDone && call.phase.result == Err(ContextDone))
  }

  /** Step i of the run is the lookup of call c, and the call was answered what the registry then said. */
  ghost predicate TakesEffectAt(s: State, steps: seq<Step>, c: nat, i: nat) {
    && i < |steps| && steps[i] == Lookup(c) && Run(s, steps[..i]).Some? && Run(s, steps).Some?
    && var end := Run(s, steps).value;
       c in end.calls && end.calls[c].phase.Finished? && AnswersFor(Run(s, steps[..i]).value, end, c)
  }

  lemma LaterByOne(s: State, steps: seq<Step>, c: nat, i: nat)
    requires steps != [] && Next(s, steps[0]).Some? && TakesEffectAt(Next(s, steps[0]).value, steps[1..], c, i)
    ensures TakesEffectAt(s, steps, c, i + 1)
  {
    assert steps[..i + 1][1..] == steps[1..][..i] && steps[..i + 1][0] == steps[0];
  }

  lemma FirstStepLooksUp(s: State, steps: seq<Step>, c: nat)
    requires Inv(s) && Before(s, c) && steps != [] && steps[0] == Lookup(c) && Run(s, steps).Some?
    requires c in Run(s, steps).value.calls && Run(s, steps).value.calls[c].phase.Finished?
    ensures TakesEffectAt(s, steps, c, 0)
  {
    var call, s1, end := s.calls[c], Next(s, steps[0]).value, Run(s, steps).value;
    var r := Answer(s, call.id, call.version, call.input);
    LookupBinds(s, c);
    StepKeepsInv(s, steps[0]);
    RunStaysBound(s1, steps[1..], c, call, r);
    BoundResult(end, c, call, r);
    assert steps[..0] == [];
  }

  lemma RefusedAtBegin(s: State, steps: seq<Step>, c: nat)
    requires Inv(s) && steps != [] && steps[0].Begin? && steps[0].c == c && Run(s, steps).Some?
    requires ModelKey(steps[0].id, steps[0].version).Err?
    ensures c in Run(s, steps).value.calls
    ensures var call := Run(s, steps).value.calls[c]; ModelKey(call.id, call.version).Err?
  {
    var a := steps[0];
    var r := Err(ModelKey(a.id, a.version).error);
    BeginBinds(s, c, a.id, a.version, a.input);
    StepKeepsInv(s, a);
    RunStaysBound(Next(s, a).value, steps[1..], c, NewCall(a.id, a.version, a.input), r);
  }

  /** Concurrent calls are sequential.  Take any run, with loads, unloads and Close at any moment, in which
      call c begins and is over, or had begun and not yet looked up its model.  A refused key was the answer.
      Otherwise the call looked up its model once within the run, and it was answered what a sequential
      Predict on the registry of that moment returns for its own input, or its context ended. */
  lemma {:induction false} ConcurrentCallsAreSequential(s: State, steps: seq<Step>, c: nat)
    requires Inv(s) && Before(s, c) && Run(s, steps).Some?
    requires c in Run(s, steps).value.calls && Run(s, steps).value.calls[c].phase.Finished?
    ensures var call := Run(s, steps).value.calls[c];
            match ModelKey(call.id, call.version)
            case Err(e) => call.phase.result == Err(e)
            case Ok(_) => exists i: nat :: TakesEffectAt(s, steps, c, i)
    decreases |steps|
  {
    RunKeepsInv(s, steps);
    var call := Run(s, steps).value.calls[c];
    assert CallOk(Run(s, steps).value, c);
    if ModelKey(call.id, call.version).Ok? {
      var a := steps[0];
      if a == Lookup(c) {
        FirstStepLooksUp(s, steps, c);
      } else {
        if a.Begin? && a.c == c && ModelKey(a.id, a.version).Err? {
          RefusedAtBegin(s, steps, c);
        }
        StepStaysBefore(s, a, c);
        StepKeepsInv(s, a);
        ConcurrentCallsAreSequential(Next(s, a).value, steps[1..], c);
        var i: nat :| TakesEffectAt(Next(s, a).value, steps[1..], c, i);
        LaterByOne(s, steps, c, i);
      }
    }
  }

  lemma FirstLookup(s: State, steps: seq<Step>, c: nat, k: nat)
    requires Inv(s) && Run(s, steps).Some? && 0 < k < |steps| && steps[0] == Lookup(c)
    ensures steps[k] != Lookup(c)
  {
    var call, s1 := s.calls[c], Next(s, steps[0]).value;
    LookupBinds(s, c);
    StepKeepsInv(s, steps[0]);
    NoLookupAfter(s1, steps[1..], c, call, Answer(s, call.id, call.version, call.input), k - 1);
  }

  /** There is only one lookup to choose from. */
  lemma {:induction false} OneLookup(s: State, steps: seq<Step>, c: nat, i: nat, k: nat)
    requires Inv(s) && Run(s, steps).Some? && i < k < |steps| && steps[i] == Lookup(c)
    ensures steps[k] != Lookup(c)
    decreases |steps|
  {
    var s1 := Next(s, steps[0]).value;
    StepKeepsInv(s, steps[0]);
    if i == 0 {
      FirstLookup(s, steps, c, k);
    } else {
      OneLookup(s1, steps[1..], c, i - 1, k - 1);
    }
  }

  lemma {:induction false} NoLookupAfter(s: State, steps: seq<Step>, c: nat, call: Call, r: Result<Prediction>, k: nat)
    requires Inv(s) && Bound(s, c, call, r) && Run(s, steps).Some? && k < |steps|
    ensures steps[k] != Lookup(c)
    decreases |steps|
  {
    if k > 0 {
      StepKeepsInv(s, steps[0]);
      StepStaysBound(s, steps[0], c, call, r);
      NoLookupAfter(Next(s, steps[0]).value, steps[1..], c, call, r, k - 1);
    }
  }
}
