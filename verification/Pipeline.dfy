/** The pre/post-processing pipeline of internal/processing/pipeline.go, over reals.  math.Exp is a
    parameter of which only three facts are used. */
module Pipeline {
  import opened Values

  /** A step parameter: a float64, a []interface{} whose non-strings are None, or anything else. */
  datatype Param = Number(value: real) | Labels(names: seq<Option<string>>) | OtherParam

  datatype Step = Step(kind: string, params: map<string, Param>)

  /** What a step, or a run of steps, does: hand a value on, leave Run at once with a value, or fail. */
  datatype Outcome = Next(value: Value) | Cut(value: Value) | Fail(error: Error)

  /** All that running a pipeline needs of exp: the weights of a softmax do not sum to 0. */
  ghost predicate Positive(exp: real -> real) {
    forall x :: exp(x) > 0.0
  }

  ghost predicate SumRule(exp: real -> real, x: real, y: real) {
    exp(x + y) == exp(x) * exp(y)
  }

  ghost predicate Increasing(exp: real -> real, x: real, y: real) {
    x < y ==> exp(x) < exp(y)
  }

  ghost predicate IsExp(exp: real -> real) {
    && Positive(exp)
    && (forall x, y :: Increasing(exp, x, y))
    && (forall x, y :: SumRule(exp, x, y))
  }

  /** The running maximum of both float steps, which starts at 0. */
  function Peak(xs: seq<real>): (m: real)
    ensures m >= 0.0
    ensures forall i :: 0 <= i < |xs| ==> xs[i] <= m
    ensures m == 0.0 || m in xs
  {
    if xs == [] then 0.0
    else
      var m, x := Peak(xs[..|xs| - 1]), xs[|xs| - 1];
      if x > m then x else m
  }

  function Scale(xs: seq<real>, d: real): (ys: seq<real>)
    requires d != 0.0
    ensures |ys| == |xs| && forall i :: 0 <= i < |xs| ==> ys[i] == xs[i] / d
  {
    if xs == [] then [] else Scale(xs[..|xs| - 1], d) + [xs[|xs| - 1] / d]
  }

  function Normalize(xs: seq<real>): seq<real> {
    if Peak(xs) == 0.0 then xs else Scale(xs, Peak(xs))
  }

  /** ys is xs divided by its greatest element m, which is positive. */
  predicate DividedBy(xs: seq<real>, ys: seq<real>, m: real) {
    m > 0.0 && m in xs && |ys| == |xs| && forall i :: 0 <= i < |xs| ==> xs[i] <= m && ys[i] == xs[i] / m
  }

  /** exp of every element shifted down by p. */
  function Weights(exp: real -> real, xs: seq<real>, p: real): (ws: seq<real>)
    ensures |ws| == |xs| && forall i :: 0 <= i < |xs| ==> ws[i] == exp(xs[i] - p)
  {
    if xs == [] then [] else Weights(exp, xs[..|xs| - 1], p) + [exp(xs[|xs| - 1] - p)]
  }

  function Sum(xs: seq<real>): real {
    if xs == [] then 0.0 else Sum(xs[..|xs| - 1]) + xs[|xs| - 1]
  }

  lemma SumSnoc(xs: seq<real>, x: real)
    ensures Sum(xs + [x]) == Sum(xs) + x
  {
    assert (xs + [x])[..|xs|] == xs;
  }

  lemma {:induction false} SumPositive(xs: seq<real>)
    requires forall i :: 0 <= i < |xs| ==> xs[i] > 0.0
    ensures Sum(xs) >= 0.0 && (xs != [] ==> Sum(xs) > 0.0)
  {
    if xs != [] {
      SumPositive(xs[..|xs| - 1]);
    }
  }

  function Softmax(exp: real -> real, xs: seq<real>): (ys: seq<real>)
    requires Positive(exp)
    ensures |ys| == |xs|
  {
    var ws := Weights(exp, xs, Peak(xs));
    SumPositive(ws);
    if xs == [] then [] else Scale(ws, Sum(ws))
  }

  function Threshold(xs: seq<real>, t: real): (bits: seq<int>)
    ensures |bits| == |xs| && forall i :: 0 <= i < |xs| ==> bits[i] == if xs[i] >= t then 1 else 0
  {
    if xs == [] then [] else Threshold(xs[..|xs| - 1], t) + [if xs[|xs| - 1] >= t then 1 else 0]
  }

  /** text is the label of this index; a label that is not a string counts as "", and so does an index out
      of range. */
  predicate IsLabel(names: seq<Option<string>>, idx: int, text: string) {
    if 0 <= idx < |names| then (if names[idx].Some? then text == names[idx].value else text == "") else text == ""
  }

  function LabelAt(names: seq<Option<string>>, idx: int): string {
    if 0 <= idx < |names| && names[idx].Some? then names[idx].value else ""
  }

  function MapLabels(ints: seq<int>, names: seq<Option<string>>): (labels: seq<string>)
    ensures |labels| == |ints| && forall i :: 0 <= i < |ints| ==> labels[i] == LabelAt(names, ints[i])
  {
    if ints == [] then [] else MapLabels(ints[..|ints| - 1], names) + [LabelAt(names, ints[|ints| - 1])]
  }

  function ThresholdOf(params: map<string, Param>): real {
    if "threshold" in params && params["threshold"].Number? then params["threshold"].value else 0.5
  }

  function LabelsOf(params: map<string, Param>): Option<seq<Option<string>>> {
    if "labels" in params && params["labels"].Labels? then Some(params["labels"].names) else None
  }

  predicate IsFloats(v: Value) {
    v.Slice? && v.dtype == Float32
  }

  function Apply(exp: real -> real, step: Step, v: Value): Outcome
    requires Positive(exp)
  {
    if step.kind == "normalize" then
      if !IsFloats(v) then Fail(ExpectsFloats(step.kind))
      else if Peak(v.elems) == 0.0 then Cut(v)
      else Next(Slice(Float32, Normalize(v.elems)))
    else if step.kind == "softmax" then
      if !IsFloats(v) then Fail(ExpectsFloats(step.kind)) else Next(Slice(Float32, Softmax(exp, v.elems)))
    else if step.kind == "apply_threshold" then
      if !IsFloats(v) then Fail(ExpectsFloats(step.kind)) else Next(Ints(Threshold(v.elems, ThresholdOf(step.params))))
    else if step.kind == "map_to_labels" then
      if !v.Ints? then Fail(ExpectsInts)
      else if LabelsOf(step.params).None? then Fail(LabelsRequired)
      else Next(Strings(MapLabels(v.ints, LabelsOf(step.params).value)))
    else Fail(UnsupportedStep(step.kind))
  }

  function RunAll(exp: real -> real, steps: seq<Step>, v: Value): Outcome
    requires Positive(exp)
  {
    if steps == [] then Next(v)
    else
      var first := Apply(exp, steps[0], v);
      if first.Next? then RunAll(exp, steps[1..], first.value) else first
  }

  function Returned(o: Outcome): Result<Value> {
    match o
    case Next(v) => Ok(v)
    case Cut(v) => Ok(v)
    case Fail(e) => Err(e)
  }

  // ---- The code: a loop reassigning data, with normalize working in place ----

  /** data as the loop holds it: a []float32 by reference, everything else by value. */
  datatype Data = Floats(arr: array<real>) | Plain(v: Value)

  ghost predicate Proper(d: Data) {
    d.Plain? ==> !IsFloats(d.v)
  }

  ghost function View(d: Data): Value
    reads if d.Floats? then {d.arr} else {}
  {
    match d
    case Floats(arr) => Slice(Float32, arr[..])
    case Plain(v) => v
  }

  method FindPeak(arr: array<real>) returns (max: real)
    ensures max == Peak(arr[..])
  {
    max := 0.0;
    for i := 0 to arr.Length
      invariant max == Peak(arr[..i])
    {
      assert arr[..i + 1][..i] == arr[..i];
      if arr[i] > max {
        max := arr[i];
      }
    }
    assert arr[..arr.Length] == arr[..];
  }

  method NormalizeInPlace(arr: array<real>) returns (cut: bool)
    modifies arr
    ensures cut <==> Peak(old(arr[..])) == 0.0
    ensures arr[..] == Normalize(old(arr[..]))
    ensures cut ==> arr[..] == old(arr[..]) && forall i :: 0 <= i < arr.Length ==> old(arr[i]) <= 0.0
    ensures !cut ==> exists m :: DividedBy(old(arr[..]), arr[..], m)
  {
    var max := FindPeak(arr);
    if max == 0.0 {
      return true;
    }
    for i := 0 to arr.Length
      invariant forall j :: 0 <= j < i ==> arr[j] == old(arr[j]) / max
      invariant forall j :: i <= j < arr.Length ==> arr[j] == old(arr[j])
    {
      arr[i] := arr[i] / max;
    }
    assert arr[..] == Normalize(old(arr[..]));
    assert DividedBy(old(arr[..]), arr[..], max);
    return false;
  }

  method Weigh(arr: array<real>, exp: real -> real, max: real) returns (expArr: array<real>, sum: real)
    ensures fresh(expArr) && expArr[..] == Weights(exp, arr[..], max) && sum == Sum(expArr[..])
  {
    sum := 0.0;
    ghost var ws := Weights(exp, arr[..], max);
    expArr := new real[arr.Length];
    for i := 0 to arr.Length
      invariant expArr[..i] == ws[..i]
      invariant sum == Sum(ws[..i])
    {
      expArr[i] := exp(arr[i] - max);
      sum := sum + expArr[i];
      SumSnoc(ws[..i], ws[i]);
      assert ws[..i + 1] == ws[..i] + [ws[i]];
    }
    assert ws[..arr.Length] == ws;
  }

  method SoftmaxStep(arr: array<real>, exp: real -> real) returns (expArr: array<real>)
    requires Positive(exp)
    ensures fresh(expArr) && expArr[..] == Softmax(exp, arr[..])
  {
    var max := FindPeak(arr);
    var sum;
    expArr, sum := Weigh(arr, exp, max);
    ghost var ws := expArr[..];
    SumPositive(ws);
    for i := 0 to expArr.Length
      invariant forall j :: 0 <= j < i ==> expArr[j] == ws[j] / sum
      invariant forall j :: i <= j < expArr.Length ==> expArr[j] == ws[j]
    {
      expArr[i] := expArr[i] / sum;
    }
    assert expArr[..] == Softmax(exp, arr[..]);
  }

  method ThresholdStep(arr: array<real>, thresh: real) returns (binArr: seq<int>)
    ensures binArr == Threshold(arr[..], thresh)
    ensures |binArr| == arr.Length && forall i :: 0 <= i < arr.Length ==> binArr[i] == if arr[i] >= thresh then 1 else 0
  {
    binArr := [];
    for i := 0 to arr.Length
      invariant binArr == Threshold(arr[..i], thresh)
    {
      assert arr[..i + 1][..i] == arr[..i];
      binArr := binArr + [if arr[i] >= thresh then 1 else 0];
    }
    assert arr[..arr.Length] == arr[..];
  }

  method MapLabelsStep(ints: seq<int>, names: seq<Option<string>>) returns (mapped: seq<string>)
    ensures mapped == MapLabels(ints, names)
    ensures |mapped| == |ints| && forall i :: 0 <= i < |ints| ==> IsLabel(names, ints[i], mapped[i])
  {
    mapped := [];
    for i := 0 to |ints|
      invariant mapped == MapLabels(ints[..i], names)
    {
      assert ints[..i + 1][..i] == ints[..i];
      mapped := mapped + [LabelAt(names, ints[i])];
    }
    assert ints[..|ints|] == ints;
  }

  /** One turn of the switch. */
  method RunStep(step: Step, data: Data, exp: real -> real) returns (out: Result<Data>, cut: bool)
    requires Positive(exp) && Proper(data)
    modifies if data.Floats? then {data.arr} else {}
    ensures out.Ok? ==> Proper(out.value)
    ensures match Apply(exp, step, old(View(data)))
            case Next(v) => out.Ok? && !cut && View(out.value) == v
            case Cut(v) => out.Ok? && cut && View(out.value) == v
            case Fail(e) => out == Err(e)
    ensures out.Ok? && out.value.Floats? ==> (out.value == data && step.kind == "normalize") || fresh(out.value.arr)
    ensures data.Floats? ==>
              data.arr[..] == if step.kind == "normalize" then Normalize(old(data.arr[..])) else old(data.arr[..])
  {
    cut := false;
    if step.kind == "normalize" || step.kind == "softmax" || step.kind == "apply_threshold" {
      if !data.Floats? {
        return Err(ExpectsFloats(step.kind)), false;
      }
      if step.kind == "normalize" {
        cut := NormalizeInPlace(data.arr);
        out := Ok(data);
      } else if step.kind == "softmax" {
        var expArr := SoftmaxStep(data.arr, exp);
        out := Ok(Floats(expArr));
      } else {
        var binArr := ThresholdStep(data.arr, ThresholdOf(step.params));
        out := Ok(Plain(Ints(binArr)));
      }
    } else if step.kind == "map_to_labels" {
      if !(data.Plain? && data.v.Ints?) {
        return Err(ExpectsInts), false;
      }
      match LabelsOf(step.params) {
        case None => out := Err(LabelsRequired);
        case Some(names) =>
          var mapped := MapLabelsStep(data.v.ints, names);
          out := Ok(Plain(Strings(mapped)));
      }
    } else {
      out := Err(UnsupportedStep(step.kind));
    }
  }

  lemma {:induction false} NormalizeIdempotent(xs: seq<real>)
    ensures Normalize(Normalize(xs)) == Normalize(xs)
    ensures (exists i :: 0 <= i < |xs| && xs[i] > 0.0) <==> Peak(Normalize(xs)) == 1.0
    ensures (forall i :: 0 <= i < |xs| ==> xs[i] <= 0.0) ==> Normalize(xs) == xs
  {
    var m := Peak(xs);
    if m > 0.0 {
      var ys := Normalize(xs);
      forall i | 0 <= i < |xs|
        ensures ys[i] <= 1.0 && (xs[i] == m ==> ys[i] == 1.0)
      {
        DivideOrder(xs[i], m, m);
      }
      var k :| 0 <= k < |xs| && xs[k] == m;
      assert ys[k] == 1.0;
      assert Peak(ys) == 1.0;
      assert Scale(ys, 1.0) == ys;
    }
  }

  lemma DivideOrder(x: real, y: real, d: real)
    requires d > 0.0
    ensures x <= y <==> x / d <= y / d
    ensures d / d == 1.0
  {
    var a, b := x / d, y / d;
    assert x == a * d && y == b * d;
    if a <= b {
      assert (b - a) * d >= 0.0;
    } else {
      assert (a - b) * d > 0.0;
    }
  }

  /** What a run leaves in the caller's array. */
  function LeftInPlace(steps: seq<Step>, xs: seq<real>): seq<real> {
    if steps != [] && steps[0].kind == "normalize" then Normalize(xs) else xs
  }

  lemma LeftStep(steps: seq<Step>, i: nat, xs0: seq<real>, xs: seq<real>, shared: bool)
    requires i < |steps| && xs == LeftInPlace(steps[..i], xs0)
    requires i == 0 ==> shared
    requires i > 0 && shared ==> steps[0].kind == "normalize"
    ensures var after := if shared && steps[i].kind == "normalize" then Normalize(xs) else xs;
            after == LeftInPlace(steps[..i + 1], xs0) == LeftInPlace(steps, xs0)
  {
    assert steps[..i + 1][0] == steps[0];
    if i > 0 {
      assert steps[..i][0] == steps[0];
      NormalizeIdempotent(xs0);
    }
  }

  lemma FirstStep(exp: real -> real, steps: seq<Step>, i: nat, v: Value)
    requires Positive(exp) && i < |steps|
    ensures var first := Apply(exp, steps[i], v);
            RunAll(exp, steps[i..], v) == if first.Next? then RunAll(exp, steps[i + 1..], first.value) else first
  {
    assert steps[i..][1..] == steps[i + 1..];
  }

  ghost function Viewed(out: Result<Data>): Result<Value>
    reads if out.Ok? && out.value.Floats? then {out.value.arr} else {}
  {
    match out
    case Ok(d) => Ok(View(d))
    case Err(e) => Err(e)
  }

  /** Run refines the fold of step meanings with its cut.  The caller's array is changed only by a
      leading normalize, and by no more than one. */
  method Run(steps: seq<Step>, input: Data, exp: real -> real) returns (out: Result<Data>)
    requires Positive(exp) && Proper(input)
    modifies if input.Floats? then {input.arr} else {}
    ensures Viewed(out) == Returned(RunAll(exp, steps, old(View(input))))
    ensures input.Floats? ==> input.arr[..] == LeftInPlace(steps, old(input.arr[..]))
  {
    ghost var all, xs0 := RunAll(exp, steps, View(input)), if input.Floats? then input.arr[..] else [];
    ghost var xs, shared := xs0, true;
    var data := input;
    for i := 0 to |steps|
      invariant Proper(data)
      invariant RunAll(exp, steps[i..], View(data)) == all
      invariant if shared then data == input else data.Floats? ==> fresh(data.arr)
      invariant i == 0 ==> shared
      invariant xs == LeftInPlace(steps[..i], xs0) && (input.Floats? ==> input.arr[..] == xs)
      invariant i > 0 && shared ==> steps[0].kind == "normalize"
    {
      LeftStep(steps, i, xs0, xs, shared);
      xs := if shared && steps[i].kind == "normalize" then Normalize(xs) else xs;
      FirstStep(exp, steps, i, View(data));
      var next, cut := RunStep(steps[i], data, exp);
      assert input.Floats? ==> input.arr[..] == xs;
      if next.Err? || cut {
        return next;
      }
      shared := shared && next.value == data && steps[i].kind == "normalize";
      data := next.value;
    }
    assert steps[..|steps|] == steps;
    return Ok(data);
  }

  // ---- Construction from configuration ----

  /** A configuration entry: its "type" when that is a string, its "params" when that is a map. */
  datatype Entry = Entry(kind: Option<string>, params: Option<map<string, Param>>)

  function StepOf(e: Entry): Step
    requires e.kind.Some?
  {
    Step(e.kind.value, if e.params.Some? then e.params.value else map[])
  }

  /** The step has the entry's type and its params, or none. */
  predicate IsStepOf(e: Entry, step: Step) {
    && e.kind == Some(step.kind)
    && if e.params.Some? then step.params == e.params.value else step.params == map[]
  }

  method NewPipelineFromConfig(cfg: seq<Entry>) returns (r: Result<seq<Step>>)
    ensures r == Err(MissingType) <==> exists i :: 0 <= i < |cfg| && cfg[i].kind.None?
    ensures r.Err? ==> r == Err(MissingType)
    ensures r.Ok? ==> |r.value| == |cfg| && forall i :: 0 <= i < |cfg| ==> IsStepOf(cfg[i], r.value[i])
  {
    var steps := [];
    for i := 0 to |cfg|
      invariant |steps| == i
      invariant forall j :: 0 <= j < i ==> cfg[j].kind.Some? && steps[j] == StepOf(cfg[j])
    {
      if cfg[i].kind.None? {
        return Err(MissingType);
      }
      steps := steps + [StepOf(cfg[i])];
    }
    return Ok(steps);
  }
}
