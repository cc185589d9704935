/** What each step of a pipeline and a whole run do, in plain terms: none of the statements uses the
    functions of module Pipeline that compute it, and each holds of exactly one outcome. */
module PipelineMeaning {
  import opened Values
  import opened Pipeline

  // ---- Softmax ----

  /** The greatest element, or 0 when none is positive. */
  predicate IsPeak(xs: seq<real>, p: real) {
    && (forall i :: 0 <= i < |xs| ==> xs[i] <= p)
    && if p > 0.0 then p in xs else p == 0.0
  }

  predicate NextSum(ws: seq<real>, parts: seq<real>, i: nat)
    requires |parts| == |ws| + 1 && i < |ws|
  {
    parts[i + 1] == parts[i] + ws[i]
  }

  /** total is what adding the elements one by one comes to. */
  ghost predicate IsTotal(ws: seq<real>, total: real) {
    exists parts: seq<real> :: AddsUp(ws, parts) && parts[|ws|] == total
  }

  ghost predicate AddsUp(ws: seq<real>, parts: seq<real>) {
    |parts| == |ws| + 1 && parts[0] == 0.0 && forall i :: 0 <= i < |ws| ==> NextSum(ws, parts, i)
  }

  ghost predicate SoftmaxVia(exp: real -> real, xs: seq<real>, ys: seq<real>, p: real, ws: seq<real>, total: real) {
    && IsPeak(xs, p) && |ws| == |xs| == |ys| && IsTotal(ws, total) && (xs != [] ==> total > 0.0)
    && (forall i :: 0 <= i < |xs| ==> ws[i] == exp(xs[i] - p))
    && forall i :: 0 <= i < |xs| && total > 0.0 ==> ys[i] == ws[i] / total
  }

  ghost predicate IsSoftmax(exp: real -> real, xs: seq<real>, ys: seq<real>) {
    exists p, ws, total :: SoftmaxVia(exp, xs, ys, p, ws, total)
  }

  lemma {:induction false} SumIsTotal(ws: seq<real>) returns (parts: seq<real>)
    ensures AddsUp(ws, parts) && parts[|ws|] == Sum(ws)
  {
    if ws == [] {
      parts := [0.0];
    } else {
      var before := SumIsTotal(ws[..|ws| - 1]);
      parts := before + [Sum(ws)];
      forall i | 0 <= i < |ws|
        ensures NextSum(ws, parts, i)
      {
        assert i < |ws| - 1 ==> NextSum(ws[..|ws| - 1], before, i);
      }
    }
  }

  lemma {:induction false} TotalIsSum(ws: seq<real>, parts: seq<real>, n: nat)
    requires AddsUp(ws, parts) && n <= |ws|
    ensures parts[n] == Sum(ws[..n])
  {
    if n > 0 {
      TotalIsSum(ws, parts, n - 1);
      assert NextSum(ws, parts, n - 1);
      assert ws[..n][..n - 1] == ws[..n - 1];
    }
  }

  lemma PeakIs(xs: seq<real>, p: real)
    ensures IsPeak(xs, p) <==> p == Peak(xs)
  {
    if IsPeak(xs, p) && p > 0.0 {
      var i :| 0 <= i < |xs| && xs[i] == p;
    }
    if Peak(xs) > 0.0 {
      var i :| 0 <= i < |xs| && xs[i] == Peak(xs);
    }
  }

  lemma SoftmaxSays(exp: real -> real, xs: seq<real>)
    requires Positive(exp)
    ensures IsSoftmax(exp, xs, Softmax(exp, xs))
  {
    var ws := Weights(exp, xs, Peak(xs));
    PeakIs(xs, Peak(xs));
    SumPositive(ws);
    var parts := SumIsTotal(ws);
    assert IsTotal(ws, Sum(ws));
    assert SoftmaxVia(exp, xs, Softmax(exp, xs), Peak(xs), ws, Sum(ws));
  }

  lemma TotalIs(ws: seq<real>, total: real)
    requires IsTotal(ws, total)
    ensures total == Sum(ws)
  {
    var parts: seq<real> :| AddsUp(ws, parts) && parts[|ws|] == total;
    TotalIsSum(ws, parts, |ws|);
    assert ws[..|ws|] == ws;
  }

  lemma WeightsAre(exp: real -> real, xs: seq<real>, p: real, ws: seq<real>)
    requires |ws| == |xs| && forall i :: 0 <= i < |xs| ==> ws[i] == exp(xs[i] - p)
    ensures ws == Weights(exp, xs, p)
  {
  }

  lemma ScaledIs(ws: seq<real>, total: real, ys: seq<real>)
    requires total > 0.0 && |ys| == |ws| && forall i :: 0 <= i < |ws| ==> ys[i] == ws[i] / total
    ensures ys == Scale(ws, total)
  {
  }

  lemma SoftmaxIs(exp: real -> real, xs: seq<real>, ys: seq<real>)
    requires Positive(exp)
    ensures IsSoftmax(exp, xs, ys) <==> ys == Softmax(exp, xs)
  {
    SoftmaxSays(exp, xs);
    if IsSoftmax(exp, xs, ys) {
      var p, ws, total :| SoftmaxVia(exp, xs, ys, p, ws, total);
      PeakIs(xs, p);
      TotalIs(ws, total);
      WeightsAre(exp, xs, p, ws);
      if xs != [] {
        ScaledIs(ws, total, ys);
      }
    }
  }

  // ---- One step ----

  /** A step that wants []float32 and gets floats. */
  ghost predicate NormalizeMeans(xs: seq<real>, o: Outcome) {
    if forall i :: 0 <= i < |xs| ==> xs[i] <= 0.0 then o == Cut(Slice(Float32, xs))
    else o.Next? && IsFloats(o.value) && exists m :: DividedBy(xs, o.value.elems, m)
  }

  ghost predicate SoftmaxMeans(exp: real -> real, xs: seq<real>, o: Outcome) {
    o.Next? && IsFloats(o.value) && IsSoftmax(exp, xs, o.value.elems)
  }

  /** Bits against the number under "threshold", or against a half. */
  ghost predicate ThresholdMeans(params: map<string, Param>, xs: seq<real>, o: Outcome) {
    var t := if "threshold" in params && params["threshold"].Number? then params["threshold"].value else 0.5;
    o.Next? && o.value.Ints? && |o.value.ints| == |xs|
    && forall i :: 0 <= i < |xs| ==> o.value.ints[i] == if xs[i] >= t then 1 else 0
  }

  /** The labels under "labels", which must be there. */
  ghost predicate LabelsMean(params: map<string, Param>, ints: seq<int>, o: Outcome) {
    if "labels" in params && params["labels"].Labels? then
      o.Next? && o.value.Strings? && |o.value.strings| == |ints|
      && forall i :: 0 <= i < |ints| ==> IsLabel(params["labels"].names, ints[i], o.value.strings[i])
    else o == Fail(LabelsRequired)
  }

  ghost predicate StepMeans(exp: real -> real, step: Step, v: Value, o: Outcome) {
    match step.kind
    case "normalize" => if IsFloats(v) then NormalizeMeans(v.elems, o) else o == Fail(ExpectsFloats("normalize"))
    case "softmax" => if IsFloats(v) then SoftmaxMeans(exp, v.elems, o) else o == Fail(ExpectsFloats("softmax"))
    case "apply_threshold" =>
      if IsFloats(v) then ThresholdMeans(step.params, v.elems, o) else o == Fail(ExpectsFloats("apply_threshold"))
    case "map_to_labels" => if v.Ints? then LabelsMean(step.params, v.ints, o) else o == Fail(ExpectsInts)
    case other => o == Fail(UnsupportedStep(other))
  }

  lemma DividedIs(xs: seq<real>, ys: seq<real>)
    requires Peak(xs) > 0.0
    ensures (exists m :: DividedBy(xs, ys, m)) <==> ys == Normalize(xs)
  {
    if m :| DividedBy(xs, ys, m) {
      PeakIs(xs, m);
      assert ys == Normalize(xs);
    }
    if ys == Normalize(xs) {
      assert DividedBy(xs, ys, Peak(xs));
    }
  }

  lemma NormalizeIs(exp: real -> real, step: Step, xs: seq<real>, o: Outcome)
    requires Positive(exp) && step.kind == "normalize"
    ensures NormalizeMeans(xs, o) <==> o == Apply(exp, step, Slice(Float32, xs))
  {
    if forall i :: 0 <= i < |xs| ==> xs[i] <= 0.0 {
      PeakIs(xs, 0.0);
    } else {
      var i :| 0 <= i < |xs| && xs[i] > 0.0;
      assert Peak(xs) > 0.0;
      if o.Next? && IsFloats(o.value) {
        DividedIs(xs, o.value.elems);
      }
    }
  }

  lemma SoftmaxStepIs(exp: real -> real, step: Step, xs: seq<real>, o: Outcome)
    requires Positive(exp) && step.kind == "softmax"
    ensures SoftmaxMeans(exp, xs, o) <==> o == Apply(exp, step, Slice(Float32, xs))
  {
    if o.Next? && IsFloats(o.value) {
      SoftmaxIs(exp, xs, o.value.elems);
    }
  }

  lemma ThresholdIs(exp: real -> real, step: Step, xs: seq<real>, o: Outcome)
    requires Positive(exp) && step.kind == "apply_threshold"
    ensures ThresholdMeans(step.params, xs, o) <==> o == Apply(exp, step, Slice(Float32, xs))
  {
    if ThresholdMeans(step.params, xs, o) {
      assert o.value.ints == Threshold(xs, ThresholdOf(step.params));
    }
  }

  lemma LabelsAre(exp: real -> real, step: Step, ints: seq<int>, o: Outcome)
    requires Positive(exp) && step.kind == "map_to_labels"
    ensures LabelsMean(step.params, ints, o) <==> o == Apply(exp, step, Ints(ints))
  {
    if LabelsMean(step.params, ints, o) && o.Next? {
      assert o.value.strings == MapLabels(ints, step.params["labels"].names);
    }
  }

  /** Every step means what is said here and nothing else. */
  lemma StepIs(exp: real -> real, step: Step, v: Value, o: Outcome)
    requires Positive(exp)
    ensures StepMeans(exp, step, v, o) <==> o == Apply(exp, step, v)
  {
    if IsFloats(v) && step.kind == "normalize" {
      NormalizeIs(exp, step, v.elems, o);
    } else if IsFloats(v) && step.kind == "softmax" {
      SoftmaxStepIs(exp, step, v.elems, o);
    } else if IsFloats(v) && step.kind == "apply_threshold" {
      ThresholdIs(exp, step, v.elems, o);
    } else if v.Ints? && step.kind == "map_to_labels" {
      LabelsAre(exp, step, v.ints, o);
    }
  }

  // ---- Whole runs ----

  /** Step i takes the value of its place to the value of the next. */
  ghost predicate Passes(exp: real -> real, steps: seq<Step>, vals: seq<Value>, i: nat) {
    i < |steps| && i + 1 < |vals| && StepMeans(exp, steps[i], vals[i], Next(vals[i + 1]))
  }

  /** The values that the steps hand on in order, up to a last one. */
  ghost predicate Chain(exp: real -> real, steps: seq<Step>, v: Value, vals: seq<Value>) {
    && 0 < |vals| <= |steps| + 1 && vals[0] == v
    && forall i :: 0 <= i < |vals| - 1 ==> Passes(exp, steps, vals, i)
  }

  /** The run hands values on through all its steps, or up to one that cuts it or fails. */
  ghost predicate EndsWith(exp: real -> real, steps: seq<Step>, v: Value, vals: seq<Value>, o: Outcome) {
    && Chain(exp, steps, v, vals)
    && var k := |vals| - 1;
       if k == |steps| then o == Next(vals[k]) else !o.Next? && StepMeans(exp, steps[k], vals[k], o)
  }

  /** One more step in front of a chain. */
  lemma ChainFront(exp: real -> real, steps: seq<Step>, v: Value, rest: seq<Value>)
    requires steps != [] && rest != [] && Chain(exp, steps[1..], rest[0], rest)
    requires StepMeans(exp, steps[0], v, Next(rest[0]))
    ensures Chain(exp, steps, v, [v] + rest)
  {
    var vals := [v] + rest;
    forall i | 0 <= i < |vals| - 1
      ensures Passes(exp, steps, vals, i)
    {
      if i > 0 {
        assert Passes(exp, steps[1..], rest, i - 1);
      }
    }
  }

  lemma {:induction false} RunSays(exp: real -> real, steps: seq<Step>, v: Value) returns (vals: seq<Value>)
    requires Positive(exp)
    ensures EndsWith(exp, steps, v, vals, RunAll(exp, steps, v))
    decreases |steps|
  {
    if steps == [] {
      vals := [v];
    } else {
      var first := Apply(exp, steps[0], v);
      StepIs(exp, steps[0], v, first);
      if first.Next? {
        var rest := RunSays(exp, steps[1..], first.value);
        vals := [v] + rest;
        ChainFront(exp, steps, v, rest);
      } else {
        vals := [v];
      }
    }
  }

  lemma {:induction false} EndIs(exp: real -> real, steps: seq<Step>, v: Value, vals: seq<Value>, o: Outcome)
    requires Positive(exp) && EndsWith(exp, steps, v, vals, o)
    ensures o == RunAll(exp, steps, v)
    decreases |steps|
  {
    if steps != [] {
      if |vals| == 1 {
        StepIs(exp, steps[0], v, o);
      } else {
        assert Passes(exp, steps, vals, 0);
        StepIs(exp, steps[0], v, Next(vals[1]));
        var rest := vals[1..];
        forall i | 0 <= i < |rest| - 1
          ensures Passes(exp, steps[1..], rest, i)
        {
          assert Passes(exp, steps, vals, i + 1);
        }
        EndIs(exp, steps[1..], vals[1], rest, o);
      }
    }
  }

  /** What Run returns: the steps in order, each as above, and the last value, a cut's value or the error. */
  lemma RunIs(exp: real -> real, steps: seq<Step>, v: Value, o: Outcome)
    requires Positive(exp)
    ensures (exists vals :: EndsWith(exp, steps, v, vals, o)) <==> o == RunAll(exp, steps, v)
    ensures o == RunAll(exp, steps, v) ==>
              Returned(RunAll(exp, steps, v)) == if o.Fail? then Err(o.error) else Ok(o.value)
  {
    var vals := RunSays(exp, steps, v);
    if others :| EndsWith(exp, steps, v, others, o) {
      EndIs(exp, steps, v, others, o);
    }
  }

  /** A single normalize on floats, as Run returns it. */
  lemma OnlyNormalize(exp: real -> real, step: Step, xs: seq<real>)
    requires Positive(exp) && step.kind == "normalize"
    ensures var r := Returned(RunAll(exp, [step], Slice(Float32, xs)));
            && r.Ok? && IsFloats(r.value)
            && if forall i :: 0 <= i < |xs| ==> xs[i] <= 0.0 then r.value.elems == xs
               else exists m :: DividedBy(xs, r.value.elems, m)
  {
    assert [step][1..] == [];
    NormalizeIs(exp, step, xs, Apply(exp, step, Slice(Float32, xs)));
  }
}
