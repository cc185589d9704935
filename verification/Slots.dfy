/** The session slots of internal/inference/onnx_runtime.go as objects: tensors filled, run and read
    in place, proved against the model function of module Inference. */
module Slots {
  import opened Values
  import opened Inference
  import opened InferenceLaws
  import opened Counting

  datatype Tensor = Tensor(meta: TensorMeta, data: array<real>)

  ghost function Arrays(ts: seq<Tensor>): set<object> {
    set t | t in ts :: t.data
  }

  /** The tensors match their descriptions and share no memory. */
  ghost predicate Laid(ts: seq<Tensor>, metas: seq<TensorMeta>) {
    && |ts| == |metas|
    && (forall i :: 0 <= i < |ts| ==> ts[i].meta == metas[i] && ts[i].data.Length == metas[i].size)
    && (forall i, j :: 0 <= i < j < |ts| ==> ts[i].data != ts[j].data)
  }

  ghost predicate Hold(ts: seq<Tensor>, n: nat, xs: seq<seq<real>>)
    requires n <= |ts| && n <= |xs|
    reads Arrays(ts)
  {
    forall i :: 0 <= i < n ==> ts[i].data[..] == xs[i]
  }

  method FlattenInput(v: Value) returns (r: Result<seq<real>>)
    ensures r == Flatten(v)
    ensures r.Ok? ==> IsFlat(v, r.value)
    ensures r.Err? ==> r == Err(UnsupportedInput) && !Usable(v)
  {
    FlattenSays(v);
    match v
    case Slice(d, xs) =>
      if !FlatType(d) {
        return Err(UnsupportedInput);
      }
      if d != Bool {
        return Ok(xs);
      }
      var out := [];
      for i := 0 to |xs|
        invariant out == Bits(xs[..i])
      {
        assert xs[..i + 1][..i] == xs[..i];
        out := out + [if xs[i] != 0.0 then 1.0 else 0.0];
      }
      assert xs[..|xs|] == xs;
      r := Ok(out);
    case Rows(d, rows) =>
      if d != Float32 && d != Float64 {
        return Err(UnsupportedInput);
      }
      var out := [];
      for i := 0 to |rows|
        invariant out == Concat(rows[..i])
      {
        assert rows[..i + 1][..i] == rows[..i];
        out := out + rows[i];
      }
      assert rows[..|rows|] == rows;
      r := Ok(out);
    case _ => r := Err(UnsupportedInput);
  }

  /** The loop over the input names. */
  method NamedInputs(names: seq<string>, fields: map<string, Value>) returns (r: Result<seq<seq<real>>>)
    ensures r == ResolveNamed(names, fields)
  {
    var out := [];
    for i := 0 to |names|
      invariant ResolveNamed(names[..i], fields) == Ok(out)
    {
      assert names[..i + 1][..i] == names[..i];
      if names[i] !in fields {
        StaysFailed(names, fields, i + 1);
        return Err(MissingInput(names[i]));
      }
      var flat := FlattenInput(fields[names[i]]);
      if flat.Err? {
        StaysFailed(names, fields, i + 1);
        return Err(flat.error);
      }
      out := out + [flat.value];
    }
    assert names[..|names|] == names;
    return Ok(out);
  }

  method ResolveInputs(net: Net, v: Value) returns (r: Result<seq<seq<real>>>)
    requires net.Valid()
    ensures r == Resolve(net, v)
    ensures r.Ok? ==> ResolvedTo(net, v, r.value)
    ensures r.Err? ==> InputRefused(net, v, r.error)
  {
    ResolveSays(net, v);
    if v.Named? {
      r := NamedInputs(net.inputNames, v.fields);
      return;
    }
    if |net.inputNames| != 1 {
      return Err(NotSingleInput);
    }
    var flat := FlattenInput(v);
    match flat
    case Err(e) => r := Err(e);
    case Ok(xs) => r := Ok([xs]);
  }

  /** The first failure among the named inputs is the answer. */
  lemma {:induction false} StaysFailed(names: seq<string>, fields: map<string, Value>, i: nat)
    requires i <= |names| && ResolveNamed(names[..i], fields).Err?
    ensures ResolveNamed(names, fields) == ResolveNamed(names[..i], fields)
    decreases |names|
  {
    if i == |names| {
      assert names[..i] == names;
    } else {
      assert names[..|names| - 1][..i] == names[..i];
      StaysFailed(names[..|names| - 1], fields, i);
    }
  }

  lemma FailsAt(net: Net, flats: seq<seq<real>>, i: nat)
    requires i < |flats| == |net.inputs| && FillAll(net, flats, i).Ok? && |flats[i]| != net.inputs[i].size
    ensures FillAll(net, flats, |flats|) == Err(SizeMismatch(i))
  {
    FillFailsFirst(net, flats, |flats|);
  }

  lemma FillsOneMore(net: Net, flats: seq<seq<real>>, i: nat, ins: seq<seq<real>>)
    requires i < |flats| == |net.inputs| && FillAll(net, flats, i) == Ok(ins) && |flats[i]| == net.inputs[i].size
    ensures FillAll(net, flats, i + 1) == Ok(ins + [CastAll(net.wild, net.inputs[i].dtype, flats[i])])
  {
  }

  /** fillTensor: either the sizes differ and nothing is written, or every element is. */
  method FillTensor(t: Tensor, wild: (DType, real) -> real, flat: seq<real>) returns (ok: bool)
    modifies t.data
    ensures ok <==> |flat| == t.data.Length
    ensures t.data[..] == if ok then CastAll(wild, t.meta.dtype, flat) else old(t.data[..])
    ensures ok && t.meta.dtype in {Float32, Float64} ==> t.data[..] == flat
    ensures ok && t.meta.dtype == Bool ==>
              forall i :: 0 <= i < |flat| ==> t.data[i] == if flat[i] == 0.0 then 0.0 else 1.0
    ensures ok && t.meta.dtype !in {Float32, Float64, Bool} ==>
              forall i, n :: 0 <= i < |flat| && IsTruncation(flat[i], n) && Fits(t.meta.dtype, n) ==>
                t.data[i] == n as real
  {
    CastAllSays(wild, t.meta.dtype, flat);
    AllHoldMeans(wild, t.meta.dtype, flat, CastAll(wild, t.meta.dtype, flat));
    if t.data.Length != |flat| {
      return false;
    }
    for i := 0 to t.data.Length
      invariant forall j :: 0 <= j < i ==> t.data[j] == Cast(wild, t.meta.dtype, flat[j])
    {
      t.data[i] := Cast(wild, t.meta.dtype, flat[i]);
    }
    assert t.data[..] == CastAll(wild, t.meta.dtype, flat);
    return true;
  }

  /** readTensor: a copy, so that the slot can be reused. */
  method ReadTensor(t: Tensor) returns (out: array<real>)
    ensures fresh(out) && out[..] == t.data[..]
  {
    out := new real[t.data.Length];
    for i := 0 to out.Length
      invariant forall j :: 0 <= j < i ==> out[j] == t.data[j]
    {
      out[i] := t.data[i];
    }
  }

  class SessionSlot {
    const net: Net
    const inputs: seq<Tensor>
    const outputs: seq<Tensor>
    var session: bool

    ghost predicate Valid() {
      net.Valid() && Laid(inputs, net.inputs) && Laid(outputs, net.outputs) && Arrays(inputs) !! Arrays(outputs)
    }

    ghost function Footprint(): set<object> {
      Arrays(inputs) + Arrays(outputs)
    }

    /** session.Run: the foreign call, given as net.run.  What a crash leaves in the outputs is not said. */
    method SessionRun(ghost ins: seq<seq<real>>) returns (ok: bool)
      requires Valid() && session && |ins| == |inputs| && Hold(inputs, |inputs|, ins)
      modifies Arrays(outputs)
      ensures ok <==> RunNet(net, ins).Wrote?
      ensures ok ==> Hold(outputs, |outputs|, RunNet(net, ins).outs)
      ensures if ok then Ran(net, ins, RunNet(net, ins).outs) else DidNotRun(net, ins)
    {
      var data := [];
      for i := 0 to |inputs|
        invariant data == ins[..i]
      {
        assert inputs[i].data[..] == ins[i];
        data := data + [inputs[i].data[..]];
      }
      assert ins[..|inputs|] == ins;
      match RunNet(net, data)
      case Crashed => return false;
      case Wrote(outs) =>
        for i := 0 to |outputs|
          invariant Hold(outputs, i, outs)
        {
          Overwrite(outputs[i].data, outs[i]);
          assert forall j :: 0 <= j < i ==> outputs[j].data != outputs[i].data;
        }
        return true;
    }

    /** One turn of the filling loop. */
    method FillOne(i: nat, flat: seq<real>) returns (ok: bool)
      requires Valid() && i < |inputs|
      modifies inputs[i].data
      ensures ok <==> |flat| == net.inputs[i].size
      ensures inputs[i].data[..] == if ok then CastAll(net.wild, net.inputs[i].dtype, flat)
                                    else old(inputs[i].data[..])
    {
      ok := FillTensor(inputs[i], net.wild, flat);
    }

    /** The filling loop of runSlot, which stops at the first input of the wrong size. */
    method FillInputs(flats: seq<seq<real>>) returns (err: Option<Error>, ghost ins: seq<seq<real>>)
      requires Valid() && |flats| == |inputs|
      modifies Arrays(inputs)
      ensures FillAll(net, flats, |flats|) == if err.Some? then Err(err.value) else Ok(ins)
      ensures err.None? ==> |ins| == |inputs| && Hold(inputs, |inputs|, ins)
    {
      ins := [];
      for i := 0 to |inputs|
        invariant |ins| == i && FillAll(net, flats, i) == Ok(ins)
        invariant Hold(inputs, i, ins)
      {
        var ok := FillOne(i, flats[i]);
        if !ok {
          FailsAt(net, flats, i);
          return Some(SizeMismatch(i)), ins;
        }
        assert forall j :: 0 <= j < i ==> inputs[j].data != inputs[i].data;
        assert Hold(inputs, i, ins);
        FillsOneMore(net, flats, i, ins);
        ins := ins + [CastAll(net.wild, net.inputs[i].dtype, flats[i])];
        assert Hold(inputs, i + 1, ins);
      }
      return None, ins;
    }

    method ReadOutputs(ghost outs: seq<seq<real>>) returns (outData: seq<array<real>>, data: seq<seq<real>>)
      requires Valid() && |outs| == |outputs| && Hold(outputs, |outputs|, outs)
      ensures forall i :: 0 <= i < |outData| ==> fresh(outData[i])
      ensures data == outs == Snapshot(outData)
    {
      outData, data := [], [];
      for i := 0 to |outputs|
        invariant |outData| == i && data == outs[..i]
        invariant forall j :: 0 <= j < i ==> fresh(outData[j]) && outData[j][..] == outs[j]
      {
        var out := ReadTensor(outputs[i]);
        outData := outData + [out];
        data := data + [out[..]];
      }
    }

    /** runSlot: fill, run, read.  The answer is the model function of the request, whatever earlier
        calls left in the tensors, and the outputs it hands out are new memory. */
    method RunSlot(flats: seq<seq<real>>, modelId: string) returns (r: Result<Prediction>, outData: seq<array<real>>)
      requires Valid() && session && |flats| == |inputs|
      modifies Footprint()
      ensures r == RunFlat(net, modelId, flats)
      ensures forall i :: 0 <= i < |outData| ==> fresh(outData[i])
      ensures HandedOut(net, modelId, r, outData)
    {
      ghost var ins;
      var err;
      err, ins := FillInputs(flats);
      if err.Some? {
        return Err(err.value), [];
      }
      var ran := SessionRun(ins);
      if !ran {
        return Err(RunFailed), [];
      }
      var data;
      outData, data := ReadOutputs(RunNet(net, ins).outs);
      r := Ok(Prediction(modelId, Output(net, modelId, data)));
    }
  }

  /** destroy: a nil slot, or one already destroyed, is left alone. */
  method Destroy(slot: SessionSlot?)
    modifies slot
    ensures slot != null ==> !slot.session
  {
    if slot == null {
      return;
    }
    if slot.session {
      slot.session := false;
    }
  }

  /** The arrays handed out with a prediction hold the outputs it reports. */
  ghost predicate HandedOut(net: Net, modelId: string, r: Result<Prediction>, out: seq<array<real>>)
    requires net.Valid()
    reads out
  {
    r.Ok? ==> Shaped(net, Snapshot(out)) && r.value.output == Output(net, modelId, Snapshot(out))
  }

  /** What the arrays handed out hold. */
  ghost function Snapshot(outData: seq<array<real>>): (c: seq<seq<real>>)
    reads outData
    ensures |c| == |outData| && forall i :: 0 <= i < |c| ==> c[i] == outData[i][..]
  {
    if outData == [] then [] else Snapshot(outData[..|outData| - 1]) + [outData[|outData| - 1][..]]
  }

  method Overwrite(a: array<real>, xs: seq<real>)
    requires a.Length == |xs|
    modifies a
    ensures a[..] == xs
  {
    forall i | 0 <= i < a.Length {
      a[i] := xs[i];
    }
  }

  /** Head to tail: the same members, still without repetition. */
  lemma Rotate<T>(s: seq<T>)
    requires s != [] && NoDup(s)
    ensures NoDup(s[1..] + [s[0]]) && forall x :: x in s[1..] + [s[0]] <==> x in s
  {
    assert s == [s[0]] + s[1..];
  }

  ghost function TensorsOf(pool: seq<SessionSlot>): set<object> {
    set s, o | s in pool && o in s.Footprint() :: o
  }

  lemma SameTensors(p: seq<SessionSlot>, q: seq<SessionSlot>)
    requires forall s :: s in p <==> s in q
    ensures TensorsOf(p) == TensorsOf(q)
  {
  }

  /** A model's pool between calls, used by one caller at a time. */
  class OnnxModel {
    const net: Net
    var pool: seq<SessionSlot>
    var closed: bool

    ghost predicate Valid()
      reads this, pool
    {
      net.Valid() && NoDup(pool) && forall s :: s in pool ==> s.Valid() && s.net == net && s.session
    }

    ghost function Footprint(): set<object>
      reads this
    {
      TensorsOf(pool)
    }

    /** The part of Predict between checking a slot out and returning it: head to tail. */
    method UseSlot(flats: seq<seq<real>>, modelId: string) returns (r: Result<Prediction>, outData: seq<array<real>>)
      requires Valid() && pool != [] && |flats| == |net.inputs|
      modifies this, Footprint()
      ensures Valid() && Footprint() == old(Footprint())
      ensures pool == old(pool[1..] + [pool[0]])
      ensures r == RunFlat(net, modelId, flats)
      ensures forall i :: 0 <= i < |outData| ==> fresh(outData[i])
      ensures HandedOut(net, modelId, r, outData)
    {
      var slot := pool[0];
      assert slot in pool;
      Rotate(pool);
      SameTensors(pool[1..] + [slot], pool);
      pool := pool[1..];
      r, outData := slot.RunSlot(flats, modelId);
      pool := pool + [slot];
    }

    /** Predict.  With no slot left the call waits for its context. */
    method Predict(modelId: string, input: Value) returns (r: Result<Prediction>, outData: seq<array<real>>)
      requires Valid()
      modifies this, Footprint()
      ensures Valid() && Footprint() == old(Footprint())
      ensures pool == if old(pool) == [] || Resolve(net, input).Err? then old(pool) else old(pool[1..] + [pool[0]])
      ensures r == if old(pool) == [] && Resolve(net, input).Ok? then Err(ContextDone)
                   else Inference.Predict(net, modelId, input)
      ensures old(pool) != [] ==> Outcome(net, modelId, input, r)
      ensures forall i :: 0 <= i < |outData| ==> fresh(outData[i])
      ensures HandedOut(net, modelId, r, outData)
    {
      PredictSays(net, modelId, input);
      var flats := ResolveInputs(net, input);
      if flats.Err? {
        return Err(flats.error), [];
      }
      if pool == [] {
        return Err(ContextDone), [];
      }
      r, outData := UseSlot(flats.value, modelId);
    }

    /** unloadModel's loop over the closed channel: every pooled slot is destroyed, none twice. */
    method Unload()
      requires Valid() && !closed
      modifies this, pool
      ensures closed && pool == [] && forall s :: s in old(pool) ==> !s.session
    {
      closed := true;
      ghost var done := 0;
      while pool != []
        invariant closed && done <= |old(pool)| && pool == old(pool)[done..]
        invariant forall i :: 0 <= i < |old(pool)| ==> (old(pool)[i].session <==> done <= i)
        decreases |pool|
      {
        var slot := pool[0];
        pool := pool[1..];
        Destroy(slot);
        done := done + 1;
      }
    }
  }

  /** given holds the arrays handed out so far, and they still hold what was reported. */
  ghost predicate AllHandedOut(net: Net, modelId: string, replies: seq<Result<Prediction>>,
                               outs: seq<seq<array<real>>>, given: set<object>)
    requires net.Valid()
    reads given
  {
    |replies| == |outs|
    && forall j :: 0 <= j < |outs| ==>
         (forall a :: a in outs[j] ==> a in given) && HandedOut(net, modelId, replies[j], outs[j])
  }

  lemma OneMoreHandedOut(net: Net, modelId: string, replies: seq<Result<Prediction>>, outs: seq<seq<array<real>>>,
                         given: set<object>, r: Result<Prediction>, out: seq<array<real>>)
    requires net.Valid() && AllHandedOut(net, modelId, replies, outs, given) && HandedOut(net, modelId, r, out)
    ensures AllHandedOut(net, modelId, replies + [r], outs + [out], given + set a | a in out)
  {
  }

  /** Each of the first replies is the model function of its own input. */
  ghost predicate AllAnswered(net: Net, modelId: string, inputs: seq<Value>, replies: seq<Result<Prediction>>)
    requires net.Valid()
  {
    |replies| <= |inputs| && forall j :: 0 <= j < |replies| ==> replies[j] == Inference.Predict(net, modelId, inputs[j])
  }

  lemma OneMoreAnswered(net: Net, modelId: string, inputs: seq<Value>, replies: seq<Result<Prediction>>,
                        r: Result<Prediction>)
    requires net.Valid() && AllAnswered(net, modelId, inputs, replies) && |replies| < |inputs|
    requires r == Inference.Predict(net, modelId, inputs[|replies|])
    ensures AllAnswered(net, modelId, inputs, replies + [r])
  {
  }

  lemma AllOutcomes(net: Net, modelId: string, inputs: seq<Value>, replies: seq<Result<Prediction>>)
    requires net.Valid() && |replies| == |inputs| && AllAnswered(net, modelId, inputs, replies)
    ensures forall i :: 0 <= i < |inputs| ==> Outcome(net, modelId, inputs[i], replies[i])
  {
    forall i | 0 <= i < |inputs|
      ensures Outcome(net, modelId, inputs[i], replies[i])
    {
      PredictSays(net, modelId, inputs[i]);
    }
  }

  /** Any number of requests on one pool: no answer depends on the requests before it, even those that
      failed half way through their inputs, and no later request changes an output handed out. */
  method PredictMany(m: OnnxModel, modelId: string, inputs: seq<Value>)
    returns (replies: seq<Result<Prediction>>, outs: seq<seq<array<real>>>)
    requires m.Valid() && m.pool != []
    modifies m, m.Footprint()
    ensures |replies| == |outs| == |inputs|
    ensures AllAnswered(m.net, modelId, inputs, replies)
    ensures forall i :: 0 <= i < |inputs| ==> Outcome(m.net, modelId, inputs[i], replies[i])
    ensures forall i :: 0 <= i < |inputs| ==> HandedOut(m.net, modelId, replies[i], outs[i])
  {
    replies, outs := [], [];
    ghost var given: set<object> := {};
    for i := 0 to |inputs|
      invariant m.Valid() && m.pool != [] && m.Footprint() == old(m.Footprint())
      invariant |replies| == |outs| == i
      invariant AllAnswered(m.net, modelId, inputs, replies)
      invariant fresh(given) && given !! m.Footprint()
      invariant AllHandedOut(m.net, modelId, replies, outs, given)
    {
      var r, out := m.Predict(modelId, inputs[i]);
      OneMoreAnswered(m.net, modelId, inputs, replies, r);
      OneMoreHandedOut(m.net, modelId, replies, outs, given, r, out);
      replies, outs := replies + [r], outs + [out];
      given := given + set a | a in out;
    }
    AllOutcomes(m.net, modelId, inputs, replies);
  }
}
