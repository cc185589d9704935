/** What one prediction does, in plain terms: how a request is laid out flat, what each tensor is filled
    with, what the session is run on and what is reported.  None of the statements uses the functions of
    module Inference that compute it. */
module InferenceLaws {
  import opened Values
  import opened Inference

  // ---- Requests to flat numbers ----

  /** row fills the places from start up to end. */
  predicate Between(row: seq<real>, flat: seq<real>, start: nat, end: nat) {
    start + |row| == end <= |flat| && flat[start..end] == row
  }

  /** flat is the rows one after the other: row i lies between starts[i] and starts[i + 1]. */
  ghost predicate LaidOut(rows: seq<seq<real>>, flat: seq<real>, starts: seq<nat>) {
    && |starts| == |rows| + 1 && starts[0] == 0 && starts[|rows|] == |flat|
    && forall i {:trigger rows[i]} :: 0 <= i < |rows| ==> Between(rows[i], flat, starts[i], starts[i + 1])
  }

  /** flat is the numeric slice v, or the rows of v, with true as 1. */
  ghost predicate IsFlat(v: Value, flat: seq<real>) {
    match v
    case Slice(d, xs) =>
      if d == Bool then |flat| == |xs| && forall i :: 0 <= i < |xs| ==> flat[i] == if xs[i] == 0.0 then 0.0 else 1.0
      else d in {Float32, Float64, Int8, UInt8, Int32, Int64} && flat == xs
    case Rows(d, rows) => d in {Float32, Float64} && exists starts :: LaidOut(rows, flat, starts)
    case _ => false
  }

  ghost predicate Usable(v: Value) {
    exists flat :: IsFlat(v, flat)
  }

  lemma {:induction false} ConcatLays(rows: seq<seq<real>>) returns (starts: seq<nat>)
    ensures LaidOut(rows, Concat(rows), starts)
  {
    if rows == [] {
      starts := [0];
    } else {
      var init, last := rows[..|rows| - 1], rows[|rows| - 1];
      var before := ConcatLays(init);
      var flat, done := Concat(rows), Concat(init);
      starts := before + [|flat|];
      forall i {:trigger rows[i]} | 0 <= i < |rows|
        ensures Between(rows[i], flat, starts[i], starts[i + 1])
      {
        if i < |init| {
          assert init[i] == rows[i] && Between(init[i], done, before[i], before[i + 1]);
          assert flat[starts[i]..starts[i + 1]] == done[starts[i]..starts[i + 1]];
        }
      }
    }
  }

  lemma FlattenSays(v: Value)
    ensures Flatten(v).Ok? ==> IsFlat(v, Flatten(v).value)
    ensures Flatten(v).Err? ==> Flatten(v) == Err(UnsupportedInput) && !Usable(v)
  {
    if v.Rows? {
      var starts := ConcatLays(v.rows);
    }
  }

  // ---- Inputs in the model's order ----

  /** Input i of the model gets flats[i]: the field of its name, or the value itself for a single input. */
  ghost predicate ResolvedTo(net: Net, v: Value, flats: seq<seq<real>>) {
    if v.Named? then
      && |flats| == |net.inputNames|
      && forall i :: 0 <= i < |flats| ==> net.inputNames[i] in v.fields && IsFlat(v.fields[net.inputNames[i]], flats[i])
    else |net.inputNames| == 1 && |flats| == 1 && IsFlat(v, flats[0])
  }

  ghost predicate NameWorks(name: string, fields: map<string, Value>) {
    name in fields && Usable(fields[name])
  }

  /** Name i is the first one that is missing or unusable, and e says which. */
  ghost predicate FirstBad(names: seq<string>, fields: map<string, Value>, i: nat, e: Error) {
    && i < |names| && (forall j :: 0 <= j < i ==> NameWorks(names[j], fields)) && !NameWorks(names[i], fields)
    && e == if names[i] in fields then UnsupportedInput else MissingInput(names[i])
  }

  ghost predicate InputRefused(net: Net, v: Value, e: Error) {
    if v.Named? then exists i: nat :: FirstBad(net.inputNames, v.fields, i, e)
    else if |net.inputNames| != 1 then e == NotSingleInput
    else e == UnsupportedInput && !Usable(v)
  }

  ghost predicate NamesResolve(names: seq<string>, fields: map<string, Value>, flats: seq<seq<real>>) {
    |flats| == |names|
    && forall i :: 0 <= i < |names| ==> names[i] in fields && IsFlat(fields[names[i]], flats[i])
  }

  lemma {:induction false} ResolveNamedSays(names: seq<string>, fields: map<string, Value>)
    ensures ResolveNamed(names, fields).Ok? ==> NamesResolve(names, fields, ResolveNamed(names, fields).value)
    ensures ResolveNamed(names, fields).Err? ==>
              exists i: nat :: FirstBad(names, fields, i, ResolveNamed(names, fields).error)
  {
    if names != [] {
      var init, name := names[..|names| - 1], names[|names| - 1];
      ResolveNamedSays(init, fields);
      var before := ResolveNamed(init, fields);
      if before.Err? {
        var i: nat :| FirstBad(init, fields, i, before.error);
        assert FirstBad(names, fields, i, before.error);
      } else {
        LastName(names, fields, before.value);
      }
    }
  }

  lemma LastName(names: seq<string>, fields: map<string, Value>, flats: seq<seq<real>>)
    requires names != [] && ResolveNamed(names[..|names| - 1], fields) == Ok(flats)
    requires NamesResolve(names[..|names| - 1], fields, flats)
    ensures ResolveNamed(names, fields).Ok? ==> NamesResolve(names, fields, ResolveNamed(names, fields).value)
    ensures ResolveNamed(names, fields).Err? ==>
              FirstBad(names, fields, |names| - 1, ResolveNamed(names, fields).error)
  {
    var name := names[|names| - 1];
    if name in fields {
      FlattenSays(fields[name]);
    }
    forall j | 0 <= j < |names| - 1
      ensures NameWorks(names[j], fields)
    {
      assert names[..|names| - 1][j] == names[j];
      assert IsFlat(fields[names[j]], flats[j]);
    }
  }

  lemma ResolveSays(net: Net, v: Value)
    requires net.Valid()
    ensures Resolve(net, v).Ok? ==> ResolvedTo(net, v, Resolve(net, v).value)
    ensures Resolve(net, v).Err? ==> InputRefused(net, v, Resolve(net, v).error)
  {
    if v.Named? {
      ResolveNamedSays(net.inputNames, v.fields);
    } else {
      FlattenSays(v);
    }
  }

  // ---- Filling tensors ----

  /** n is x with its fraction dropped. */
  predicate IsTruncation(x: real, n: int) {
    if x >= 0.0 then 0 <= n && n as real <= x < n as real + 1.0
    else n <= 0 && n as real - 1.0 < x <= n as real
  }

  /** n fits the integer type d. */
  predicate Fits(d: DType, n: int) {
    match d
    case Int8 => -0x80 <= n < 0x80
    case UInt8 => 0 <= n < 0x100
    case Int16 => -0x8000 <= n < 0x8000
    case UInt16 => 0 <= n < 0x1_0000
    case Int32 => -0x8000_0000 <= n < 0x8000_0000
    case UInt32 => 0 <= n < 0x1_0000_0000
    case Int64 => -0x8000_0000_0000_0000 <= n < 0x8000_0000_0000_0000
    case UInt64 => 0 <= n < 0x1_0000_0000_0000_0000
    case Float32 => false
    case Float64 => false
    case Bool => false
  }

  /** A tensor of type d holds y where it was asked to hold x. */
  ghost predicate Holds(wild: (DType, real) -> real, d: DType, x: real, y: real) {
    if d == Float32 || d == Float64 then y == x
    else if d == Bool then y == if x == 0.0 then 0.0 else 1.0
    else exists n :: IsTruncation(x, n) && y == if Fits(d, n) then n as real else wild(d, x)
  }

  ghost predicate AllHold(wild: (DType, real) -> real, d: DType, xs: seq<real>, ys: seq<real>) {
    |ys| == |xs| && forall i :: 0 <= i < |xs| ==> Holds(wild, d, xs[i], ys[i])
  }

  lemma CastSays(wild: (DType, real) -> real, d: DType, x: real)
    ensures Holds(wild, d, x, Cast(wild, d, x))
  {
    var n := Truncate(x);
    assert IsTruncation(x, n) by {
      if x < 0.0 {
        assert n as real == -((-x).Floor as real);
      }
    }
    assert d !in {Float32, Float64, Bool} ==> (Fits(d, n) <==> Lowest(d) <= n <= Highest(d));
  }

  lemma TruncationIsUnique(x: real, m: int, n: int)
    requires IsTruncation(x, m) && IsTruncation(x, n)
    ensures m == n
  {
  }

  lemma CastAllSays(wild: (DType, real) -> real, d: DType, xs: seq<real>)
    ensures AllHold(wild, d, xs, CastAll(wild, d, xs))
  {
    forall i | 0 <= i < |xs|
      ensures Holds(wild, d, xs[i], CastAll(wild, d, xs)[i])
    {
      CastSays(wild, d, xs[i]);
    }
  }

  /** Type by type: floating-point tensors hold what they were asked to, boolean ones whether it is not 0,
      integer ones the number without its fraction when that fits. */
  lemma AllHoldMeans(wild: (DType, real) -> real, d: DType, xs: seq<real>, ys: seq<real>)
    requires AllHold(wild, d, xs, ys)
    ensures d in {Float32, Float64} ==> ys == xs
    ensures d == Bool ==> forall i :: 0 <= i < |xs| ==> ys[i] == if xs[i] == 0.0 then 0.0 else 1.0
    ensures d !in {Float32, Float64, Bool} ==>
              forall i, n :: 0 <= i < |xs| && IsTruncation(xs[i], n) && Fits(d, n) ==> ys[i] == n as real
  {
    forall i, n | 0 <= i < |xs| && IsTruncation(xs[i], n) && Fits(d, n)
      ensures ys[i] == n as real
    {
      assert Holds(wild, d, xs[i], ys[i]);
      var m :| IsTruncation(xs[i], m) && ys[i] == if Fits(d, m) then m as real else wild(d, xs[i]);
      TruncationIsUnique(xs[i], m, n);
    }
  }

  // ---- The prediction ----

  predicate SizesFit(net: Net, flats: seq<seq<real>>, n: nat)
    requires n <= |flats| == |net.inputs|
  {
    forall i :: 0 <= i < n ==> |flats[i]| == net.inputs[i].size
  }

  /** Every input tensor holds the flat input of its place. */
  ghost predicate AllFilled(net: Net, flats: seq<seq<real>>, ins: seq<seq<real>>)
    requires |flats| == |net.inputs|
  {
    && |ins| == |flats| && SizesFit(net, flats, |flats|)
    && forall i :: 0 <= i < |flats| ==> AllHold(net.wild, net.inputs[i].dtype, flats[i], ins[i])
  }

  /** The session, run on these inputs, wrote outs. */
  predicate Ran(net: Net, ins: seq<seq<real>>, outs: seq<seq<real>>) {
    net.run(ins) == Wrote(outs) && Shaped(net, outs)
  }

  predicate DidNotRun(net: Net, ins: seq<seq<real>>) {
    net.run(ins).Crashed? || !Shaped(net, net.run(ins).outs)
  }

  predicate IsEntry(meta: TensorMeta, data: seq<real>, v: Value) {
    v == Named(map["data" := Slice(meta.dtype, data), "shape" := Slice(Int64, meta.shape)])
  }

  /** The entry of output i stands under its name, unless a later one shares it. */
  predicate EntryStands(net: Net, outs: seq<seq<real>>, n: nat, entries: map<string, Value>, i: nat)
    requires net.Valid() && |outs| == |net.outputs| && n <= |outs| && i < n
  {
    net.outputNames[i] !in net.outputNames[i + 1..n] ==>
      net.outputNames[i] in entries && IsEntry(net.outputs[i], outs[i], entries[net.outputNames[i]])
  }

  predicate OnlyNames(names: seq<string>, entries: map<string, Value>) {
    forall name :: name in entries ==> name in names
  }

  predicate ReportsByName(net: Net, outs: seq<seq<real>>, n: nat, entries: map<string, Value>)
    requires net.Valid() && |outs| == |net.outputs| && n <= |outs|
  {
    OnlyNames(net.outputNames[..n], entries) && forall i :: 0 <= i < n ==> EntryStands(net, outs, n, entries, i)
  }

  /** The report: the first output with its shape and the model id, and all outputs when there are several. */
  predicate Reports(net: Net, modelId: string, outs: seq<seq<real>>, output: Value)
    requires net.Valid() && |outs| == |net.outputs|
  {
    output.Named? && var f := output.fields;
    && f.Keys == {"data", "shape", "model_id"} + (if |outs| > 1 then {"outputs"} else {})
    && f["data"] == Slice(net.outputs[0].dtype, outs[0]) && f["shape"] == Slice(Int64, net.outputs[0].shape)
    && f["model_id"] == Text(modelId)
    && (|outs| > 1 ==> f["outputs"].Named? && ReportsByName(net, outs, |outs|, f["outputs"].fields))
  }

  /** The last place of a name is the last one, or the last one before. */
  lemma LaterNames(names: seq<string>, n: nat, i: nat)
    requires 0 < n <= |names| && i < n - 1
    ensures names[i] !in names[i + 1..n] <==> names[i] !in names[i + 1..n - 1] && names[i] != names[n - 1]
  {
    assert names[i + 1..n] == names[i + 1..n - 1] + [names[n - 1]];
  }

  lemma OneMoreEntry(net: Net, outs: seq<seq<real>>, n: nat, before: map<string, Value>, entry: Value)
    requires net.Valid() && |outs| == |net.outputs| && 0 < n <= |outs| && ReportsByName(net, outs, n - 1, before)
    requires IsEntry(net.outputs[n - 1], outs[n - 1], entry)
    ensures ReportsByName(net, outs, n, before[net.outputNames[n - 1] := entry])
  {
    var names := net.outputNames;
    var entries := before[names[n - 1] := entry];
    assert names[..n] == names[..n - 1] + [names[n - 1]];
    forall i | 0 <= i < n
      ensures EntryStands(net, outs, n, entries, i)
    {
      if i < n - 1 {
        LaterNames(names, n, i);
        assert EntryStands(net, outs, n - 1, before, i);
      }
    }
  }

  lemma {:induction false} NamedOutputsSay(net: Net, outs: seq<seq<real>>, n: nat)
    requires net.Valid() && Shaped(net, outs) && n <= |outs|
    ensures ReportsByName(net, outs, n, NamedOutputs(net, outs, n))
  {
    if n > 0 {
      NamedOutputsSay(net, outs, n - 1);
      OneMoreEntry(net, outs, n, NamedOutputs(net, outs, n - 1), Named(OutputEntry(net.outputs[n - 1], outs[n - 1])));
    }
  }

  lemma OutputSays(net: Net, modelId: string, outs: seq<seq<real>>)
    requires net.Valid() && Shaped(net, outs)
    ensures Reports(net, modelId, outs, Output(net, modelId, outs))
  {
    NamedOutputsSay(net, outs, |outs|);
  }

  /** What a slot makes of flat inputs: the report of a run on tensors that hold them, or the first size that
      is wrong, or the failure of the run. */
  ghost predicate FlatOutcome(net: Net, modelId: string, flats: seq<seq<real>>, r: Result<Prediction>)
    requires net.Valid() && |flats| == |net.inputs|
  {
    if r.Ok? then
      r.value.modelId == modelId && exists ins, outs :: RanAndReports(net, modelId, flats, ins, outs, r.value)
    else WrongSize(net, flats, r.error) || (r.error == RunFailed && exists ins :: FailedToRun(net, flats, ins))
  }

  ghost predicate RanAndReports(net: Net, modelId: string, flats: seq<seq<real>>,
                                ins: seq<seq<real>>, outs: seq<seq<real>>, p: Prediction)
    requires net.Valid() && |flats| == |net.inputs|
  {
    AllFilled(net, flats, ins) && Ran(net, ins, outs) && Reports(net, modelId, outs, p.output)
  }

  ghost predicate FailedToRun(net: Net, flats: seq<seq<real>>, ins: seq<seq<real>>)
    requires |flats| == |net.inputs|
  {
    AllFilled(net, flats, ins) && DidNotRun(net, ins)
  }

  ghost predicate WrongSize(net: Net, flats: seq<seq<real>>, e: Error)
    requires |flats| == |net.inputs|
  {
    e.SizeMismatch? && e.index < |flats| && SizesFit(net, flats, e.index)
    && |flats[e.index]| != net.inputs[e.index].size
  }

  /** What a request is answered by a model: refused for its inputs, or what a slot makes of them. */
  ghost predicate Outcome(net: Net, modelId: string, input: Value, r: Result<Prediction>)
    requires net.Valid()
  {
    || (r.Err? && InputRefused(net, input, r.error))
    || exists flats :: ResolvedTo(net, input, flats) && |flats| == |net.inputs| && FlatOutcome(net, modelId, flats, r)
  }

  lemma FillSays(net: Net, flats: seq<seq<real>>)
    requires |flats| == |net.inputs|
    ensures FillAll(net, flats, |flats|).Ok? ==> AllFilled(net, flats, FillAll(net, flats, |flats|).value)
    ensures FillAll(net, flats, |flats|).Err? ==> WrongSize(net, flats, FillAll(net, flats, |flats|).error)
  {
    FillFailsFirst(net, flats, |flats|);
    if FillAll(net, flats, |flats|).Ok? {
      forall i | 0 <= i < |flats|
        ensures AllHold(net.wild, net.inputs[i].dtype, flats[i], FillAll(net, flats, |flats|).value[i])
      {
        CastAllSays(net.wild, net.inputs[i].dtype, flats[i]);
      }
    } else {
      FillStops(net, flats, |flats|);
    }
  }

  lemma {:induction false} FillStops(net: Net, flats: seq<seq<real>>, n: nat)
    requires n <= |flats| == |net.inputs| && FillAll(net, flats, n).Err?
    ensures WrongSize(net, flats, FillAll(net, flats, n).error)
  {
    FillFailsFirst(net, flats, n - 1);
    if FillAll(net, flats, n - 1).Err? {
      FillStops(net, flats, n - 1);
    }
  }

  lemma RunFlatSays(net: Net, modelId: string, flats: seq<seq<real>>)
    requires net.Valid() && |flats| == |net.inputs|
    ensures FlatOutcome(net, modelId, flats, RunFlat(net, modelId, flats))
  {
    FillSays(net, flats);
    var filled := FillAll(net, flats, |flats|);
    if filled.Ok? {
      var run := RunNet(net, filled.value);
      if run.Wrote? {
        OutputSays(net, modelId, run.outs);
        assert RanAndReports(net, modelId, flats, filled.value, run.outs, RunFlat(net, modelId, flats).value);
      } else {
        assert FailedToRun(net, flats, filled.value);
      }
    }
  }

  lemma PredictSays(net: Net, modelId: string, input: Value)
    requires net.Valid()
    ensures Outcome(net, modelId, input, Predict(net, modelId, input))
  {
    ResolveSays(net, input);
    var flats := Resolve(net, input);
    if flats.Ok? {
      RunFlatSays(net, modelId, flats.value);
    }
  }

  // ---- The plain terms leave no choice ----

  lemma {:induction false} LaidIsConcat(rows: seq<seq<real>>, flat: seq<real>, starts: seq<nat>, n: nat)
    requires LaidOut(rows, flat, starts) && n <= |rows|
    ensures starts[n] <= |flat| && flat[..starts[n]] == Concat(rows[..n])
  {
    if n > 0 {
      LaidIsConcat(rows, flat, starts, n - 1);
      assert rows[..n][..n - 1] == rows[..n - 1];
      assert Between(rows[n - 1], flat, starts[n - 1], starts[n]);
      assert flat[..starts[n]] == flat[..starts[n - 1]] + flat[starts[n - 1]..starts[n]];
    }
  }

  lemma FlatIs(v: Value, flat: seq<real>)
    requires IsFlat(v, flat)
    ensures Flatten(v) == Ok(flat)
  {
    if v.Rows? {
      var starts :| LaidOut(v.rows, flat, starts);
      LaidIsConcat(v.rows, flat, starts, |v.rows|);
      assert v.rows[..|v.rows|] == v.rows && flat[..|flat|] == flat;
    } else if v.dtype == Bool {
      assert flat == Bits(v.elems);
    }
  }

  lemma NamesWork(names: seq<string>, fields: map<string, Value>, flats: seq<seq<real>>)
    requires NamesResolve(names, fields, flats)
    ensures forall i :: 0 <= i < |names| ==> NameWorks(names[i], fields)
  {
    forall i | 0 <= i < |names|
      ensures NameWorks(names[i], fields)
    {
      assert IsFlat(fields[names[i]], flats[i]);
    }
  }

  lemma SameFlats(names: seq<string>, fields: map<string, Value>, xs: seq<seq<real>>, ys: seq<seq<real>>)
    requires NamesResolve(names, fields, xs) && NamesResolve(names, fields, ys)
    ensures xs == ys
  {
    forall i | 0 <= i < |xs|
      ensures xs[i] == ys[i]
    {
      FlatIs(fields[names[i]], xs[i]);
      FlatIs(fields[names[i]], ys[i]);
    }
  }

  lemma ResolvedIs(net: Net, v: Value, flats: seq<seq<real>>)
    requires net.Valid() && ResolvedTo(net, v, flats)
    ensures Resolve(net, v) == Ok(flats)
  {
    if v.Named? {
      NamesWork(net.inputNames, v.fields, flats);
      ResolveNamedSays(net.inputNames, v.fields);
      if Resolve(net, v).Ok? {
        SameFlats(net.inputNames, v.fields, flats, Resolve(net, v).value);
      }
    } else {
      FlatIs(v, flats[0]);
      assert flats == [flats[0]];
    }
  }

  lemma FirstBadIsUnique(names: seq<string>, fields: map<string, Value>, i: nat, e: Error, j: nat, f: Error)
    requires FirstBad(names, fields, i, e) && FirstBad(names, fields, j, f)
    ensures i == j && e == f
  {
  }

  lemma RefusedIs(net: Net, v: Value, e: Error)
    requires net.Valid() && InputRefused(net, v, e)
    ensures Resolve(net, v) == Err(e)
  {
    if v.Named? {
      var i: nat :| FirstBad(net.inputNames, v.fields, i, e);
      ResolveNamedSays(net.inputNames, v.fields);
      if Resolve(net, v).Ok? {
        NamesWork(net.inputNames, v.fields, Resolve(net, v).value);
      } else {
        var j: nat :| FirstBad(net.inputNames, v.fields, j, Resolve(net, v).error);
        FirstBadIsUnique(net.inputNames, v.fields, i, e, j, Resolve(net, v).error);
      }
    } else {
      FlattenSays(v);
    }
  }

  lemma HoldsIs(wild: (DType, real) -> real, d: DType, x: real, y: real)
    requires Holds(wild, d, x, y)
    ensures y == Cast(wild, d, x)
  {
    CastSays(wild, d, x);
    if d !in {Float32, Float64, Bool} {
      var n :| IsTruncation(x, n) && y == if Fits(d, n) then n as real else wild(d, x);
      var m :| IsTruncation(x, m) && Cast(wild, d, x) == if Fits(d, m) then m as real else wild(d, x);
      TruncationIsUnique(x, m, n);
    }
  }

  lemma AllHoldIs(wild: (DType, real) -> real, d: DType, xs: seq<real>, ys: seq<real>)
    requires AllHold(wild, d, xs, ys)
    ensures ys == CastAll(wild, d, xs)
  {
    forall i | 0 <= i < |xs|
      ensures ys[i] == Cast(wild, d, xs[i])
    {
      HoldsIs(wild, d, xs[i], ys[i]);
    }
  }

  lemma FilledIs(net: Net, flats: seq<seq<real>>, ins: seq<seq<real>>)
    requires |flats| == |net.inputs| && AllFilled(net, flats, ins)
    ensures FillAll(net, flats, |flats|) == Ok(ins)
  {
    FillFailsFirst(net, flats, |flats|);
    var filled := FillAll(net, flats, |flats|).value;
    forall i | 0 <= i < |flats|
      ensures ins[i] == filled[i]
    {
      AllHoldIs(net.wild, net.inputs[i].dtype, flats[i], ins[i]);
    }
    assert ins == filled;
  }

  lemma WrongSizeIs(net: Net, flats: seq<seq<real>>, e: Error)
    requires |flats| == |net.inputs| && WrongSize(net, flats, e)
    ensures FillAll(net, flats, |flats|) == Err(e)
  {
    FillFailsFirst(net, flats, e.index);
    FillFailsFirst(net, flats, |flats|);
  }

  lemma LastPlace(names: seq<string>, name: string) returns (i: nat)
    requires name in names
    ensures i < |names| && names[i] == name && name !in names[i + 1..]
  {
    if names[|names| - 1] == name {
      i := |names| - 1;
    } else {
      var init := names[..|names| - 1];
      assert names == init + [names[|names| - 1]];
      i := LastPlace(init, name);
      assert names[i + 1..] == init[i + 1..] + [names[|names| - 1]];
    }
  }

  lemma SameEntries(net: Net, outs: seq<seq<real>>, a: map<string, Value>, b: map<string, Value>)
    requires net.Valid() && |outs| == |net.outputs|
    requires ReportsByName(net, outs, |outs|, a) && ReportsByName(net, outs, |outs|, b)
    ensures a == b
  {
    var names := net.outputNames;
    assert names[..|outs|] == names;
    forall name | name in names
      ensures name in a && name in b && a[name] == b[name]
    {
      var i := LastPlace(names, name);
      assert names[i + 1..|outs|] == names[i + 1..];
      assert EntryStands(net, outs, |outs|, a, i) && EntryStands(net, outs, |outs|, b, i);
    }
  }

  lemma ReportIs(net: Net, modelId: string, outs: seq<seq<real>>, output: Value)
    requires net.Valid() && Shaped(net, outs) && Reports(net, modelId, outs, output)
    ensures output == Output(net, modelId, outs)
  {
    OutputSays(net, modelId, outs);
    var f, g := output.fields, Output(net, modelId, outs).fields;
    if |outs| > 1 {
      SameEntries(net, outs, f["outputs"].fields, g["outputs"].fields);
    }
    assert f.Keys == g.Keys && forall name :: name in f ==> f[name] == g[name];
  }

  lemma FlatOutcomeIs(net: Net, modelId: string, flats: seq<seq<real>>, r: Result<Prediction>)
    requires net.Valid() && |flats| == |net.inputs| && FlatOutcome(net, modelId, flats, r)
    ensures r == RunFlat(net, modelId, flats)
  {
    if r.Ok? {
      var ins, outs :| RanAndReports(net, modelId, flats, ins, outs, r.value);
      FilledIs(net, flats, ins);
      ReportIs(net, modelId, outs, r.value.output);
    } else if WrongSize(net, flats, r.error) {
      WrongSizeIs(net, flats, r.error);
    } else {
      var ins :| FailedToRun(net, flats, ins);
      FilledIs(net, flats, ins);
    }
  }

  /** The plain terms say everything: they hold of exactly one answer, the one that is computed. */
  lemma OutcomeIs(net: Net, modelId: string, input: Value, r: Result<Prediction>)
    requires net.Valid()
    ensures Outcome(net, modelId, input, r) <==> r == Predict(net, modelId, input)
  {
    PredictSays(net, modelId, input);
    if Outcome(net, modelId, input, r) {
      if r.Err? && InputRefused(net, input, r.error) {
        RefusedIs(net, input, r.error);
      } else {
        var flats :| ResolvedTo(net, input, flats) && |flats| == |net.inputs| && FlatOutcome(net, modelId, flats, r);
        ResolvedIs(net, input, flats);
        FlatOutcomeIs(net, modelId, flats, r);
      }
    }
  }
}
