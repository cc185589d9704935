/** What one prediction is: the meaning of Predict in internal/inference/onnx_runtime.go as a
    function of the model and the request alone.  session.Run is an uninterpreted function of the
    input tensors. */
module Inference {
  import opened Values

  datatype TensorMeta = TensorMeta(dtype: DType, shape: seq<real>, size: nat)

  datatype RunResult = Crashed | Wrote(outs: seq<seq<real>>)

  /** A loaded model.  wild is what converting an out-of-range number to an integer type gives, which
      Go leaves to the implementation. */
  datatype Net = Net(
    inputNames: seq<string>, inputs: seq<TensorMeta>,
    outputNames: seq<string>, outputs: seq<TensorMeta>,
    run: seq<seq<real>> -> RunResult,
    wild: (DType, real) -> real)
  {
    predicate Valid() {
      |inputNames| == |inputs| > 0 && |outputNames| == |outputs| > 0
    }
  }

  /** The outputs live in tensors allocated at load, so their sizes are fixed. */
  predicate Shaped(net: Net, outs: seq<seq<real>>) {
    |outs| == |net.outputs| && forall i :: 0 <= i < |outs| ==> |outs[i]| == net.outputs[i].size
  }

  function RunNet(net: Net, ins: seq<seq<real>>): (r: RunResult)
    ensures r.Wrote? ==> Shaped(net, r.outs)
  {
    var r := net.run(ins);
    if r.Wrote? && Shaped(net, r.outs) then r else Crashed
  }

  // ---- Requests to flat numbers ----

  predicate FlatType(d: DType) {
    d in {Float32, Float64, Int8, UInt8, Int32, Int64, Bool}
  }

  function Concat(rows: seq<seq<real>>): seq<real> {
    if rows == [] then [] else Concat(rows[..|rows| - 1]) + rows[|rows| - 1]
  }

  function Bits(xs: seq<real>): (ys: seq<real>)
    ensures |ys| == |xs| && forall i :: 0 <= i < |xs| ==> ys[i] == if xs[i] != 0.0 then 1.0 else 0.0
  {
    if xs == [] then [] else Bits(xs[..|xs| - 1]) + [if xs[|xs| - 1] != 0.0 then 1.0 else 0.0]
  }

  function Flatten(v: Value): Result<seq<real>> {
    match v
    case Slice(d, xs) => if !FlatType(d) then Err(UnsupportedInput) else Ok(if d == Bool then Bits(xs) else xs)
    case Rows(d, rows) => if d == Float32 || d == Float64 then Ok(Concat(rows)) else Err(UnsupportedInput)
    case _ => Err(UnsupportedInput)
  }

  /** The named inputs in the model's order, up to the first that is missing or unusable. */
  function ResolveNamed(names: seq<string>, fields: map<string, Value>): (r: Result<seq<seq<real>>>)
    ensures r.Ok? ==> |r.value| == |names|
  {
    if names == [] then Ok([])
    else
      var before := ResolveNamed(names[..|names| - 1], fields);
      var name := names[|names| - 1];
      if before.Err? then before
      else if name !in fields then Err(MissingInput(name))
      else match Flatten(fields[name])
        case Err(e) => Err(e)
        case Ok(flat) => Ok(before.value + [flat])
  }

  function Resolve(net: Net, v: Value): (r: Result<seq<seq<real>>>)
    requires net.Valid()
    ensures r.Ok? ==> |r.value| == |net.inputs|
  {
    if v.Named? then ResolveNamed(net.inputNames, v.fields)
    else if |net.inputNames| != 1 then Err(NotSingleInput)
    else match Flatten(v)
      case Err(e) => Err(e)
      case Ok(flat) => Ok([flat])
  }

  // ---- Filling tensors ----

  function Lowest(d: DType): int {
    match d
    case Int8 => -0x80
    case Int16 => -0x8000
    case Int32 => -0x8000_0000
    case Int64 => -0x8000_0000_0000_0000
    case _ => 0
  }

  function Highest(d: DType): int {
    match d
    case Int8 => 0x7F
    case UInt8 => 0xFF
    case Int16 => 0x7FFF
    case UInt16 => 0xFFFF
    case Int32 => 0x7FFF_FFFF
    case UInt32 => 0xFFFF_FFFF
    case Int64 => 0x7FFF_FFFF_FFFF_FFFF
    case _ => 0xFFFF_FFFF_FFFF_FFFF
  }

  /** Go's conversion truncates towards zero. */
  function Truncate(x: real): int {
    if x >= 0.0 then x.Floor else -(-x).Floor
  }

  function Cast(wild: (DType, real) -> real, d: DType, x: real): real {
    match d
    case Float32 => x
    case Float64 => x
    case Bool => if x != 0.0 then 1.0 else 0.0
    case _ => if Lowest(d) <= Truncate(x) <= Highest(d) then Truncate(x) as real else wild(d, x)
  }

  function CastAll(wild: (DType, real) -> real, d: DType, xs: seq<real>): (ys: seq<real>)
    ensures |ys| == |xs| && forall i :: 0 <= i < |xs| ==> ys[i] == Cast(wild, d, xs[i])
  {
    if xs == [] then [] else CastAll(wild, d, xs[..|xs| - 1]) + [Cast(wild, d, xs[|xs| - 1])]
  }

  /** The input tensors a request fills, or the first input whose size is wrong. */
  function FillAll(net: Net, flats: seq<seq<real>>, n: nat): (r: Result<seq<seq<real>>>)
    requires n <= |flats| == |net.inputs|
    ensures r.Ok? ==> |r.value| == n
  {
    if n == 0 then Ok([])
    else
      var before := FillAll(net, flats, n - 1);
      if before.Err? then before
      else if |flats[n - 1]| != net.inputs[n - 1].size then Err(SizeMismatch(n - 1))
      else Ok(before.value + [CastAll(net.wild, net.inputs[n - 1].dtype, flats[n - 1])])
  }

  // ---- The prediction ----

  datatype Prediction = Prediction(modelId: string, output: Value)

  function OutputEntry(meta: TensorMeta, data: seq<real>): map<string, Value> {
    map["data" := Slice(meta.dtype, data), "shape" := Slice(Int64, meta.shape)]
  }

  function NamedOutputs(net: Net, outs: seq<seq<real>>, n: nat): map<string, Value>
    requires net.Valid() && Shaped(net, outs) && n <= |outs|
  {
    if n == 0 then map[]
    else NamedOutputs(net, outs, n - 1)[net.outputNames[n - 1] := Named(OutputEntry(net.outputs[n - 1], outs[n - 1]))]
  }

  /** The output map of runSlot: the first output, and all of them by name when there are several. */
  function Output(net: Net, modelId: string, outs: seq<seq<real>>): Value
    requires net.Valid() && Shaped(net, outs)
  {
    var first := OutputEntry(net.outputs[0], outs[0])["model_id" := Text(modelId)];
    Named(if |outs| > 1 then first["outputs" := Named(NamedOutputs(net, outs, |outs|))] else first)
  }

  function RunFilled(net: Net, modelId: string, ins: seq<seq<real>>): Result<Prediction>
    requires net.Valid()
  {
    match RunNet(net, ins)
    case Crashed => Err(RunFailed)
    case Wrote(outs) => Ok(Prediction(modelId, Output(net, modelId, outs)))
  }

  function RunFlat(net: Net, modelId: string, flats: seq<seq<real>>): Result<Prediction>
    requires net.Valid() && |flats| == |net.inputs|
  {
    match FillAll(net, flats, |flats|)
    case Err(e) => Err(e)
    case Ok(ins) => RunFilled(net, modelId, ins)
  }

  /** The model function that every Predict is meant to compute. */
  function Predict(net: Net, modelId: string, input: Value): Result<Prediction>
    requires net.Valid()
  {
    match Resolve(net, input)
    case Err(e) => Err(e)
    case Ok(flats) => RunFlat(net, modelId, flats)
  }

  /** Filling fails at the first input of the wrong size and nowhere else. */
  lemma {:induction false} FillFailsFirst(net: Net, flats: seq<seq<real>>, n: nat)
    requires n <= |flats| == |net.inputs|
    ensures FillAll(net, flats, n).Ok? <==> forall i :: 0 <= i < n ==> |flats[i]| == net.inputs[i].size
    ensures FillAll(net, flats, n).Ok? ==> forall i :: 0 <= i < n ==>
              FillAll(net, flats, n).value[i] == CastAll(net.wild, net.inputs[i].dtype, flats[i])
    ensures forall i :: 0 <= i < n && FillAll(net, flats, i).Ok? && |flats[i]| != net.inputs[i].size ==>
              FillAll(net, flats, n) == Err(SizeMismatch(i))
  {
    if n > 0 {
      FillFailsFirst(net, flats, n - 1);
    }
  }

  predicate WholeWithin(d: DType, x: real) {
    x == x.Floor as real && Lowest(d) <= x.Floor <= Highest(d)
  }

  /** Whole numbers in range survive the conversion to their integer type, so what is filled in is what
      was asked. */
  lemma WholeNumbersAreExact(wild: (DType, real) -> real, d: DType, xs: seq<real>)
    requires d !in {Float32, Float64, Bool} && forall i :: 0 <= i < |xs| ==> WholeWithin(d, xs[i])
    ensures CastAll(wild, d, xs) == xs
  {
    forall i | 0 <= i < |xs|
      ensures Cast(wild, d, xs[i]) == xs[i]
    {
      assert WholeWithin(d, xs[i]);
      var n := xs[i].Floor;
      if n < 0 {
        assert -xs[i] == (-n) as real;
      }
    }
  }
}
