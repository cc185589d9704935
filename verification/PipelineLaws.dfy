/** What pipelines mean: composition with its cut, static checking, and the numeric laws of
    normalize and softmax. */
module PipelineLaws {
  import opened Values
  import opened Pipeline

  // ---- Composition ----

  /** Running p then q is running q on what p returned, except that a cut in p skips q. */
  lemma {:induction false} Compose(exp: real -> real, p: seq<Step>, q: seq<Step>, v: Value)
    requires Positive(exp)
    ensures RunAll(exp, p + q, v)
         == var first := RunAll(exp, p, v); if first.Next? then RunAll(exp, q, first.value) else first
    decreases |p|
  {
    if p == [] {
      assert p + q == q;
    } else {
      assert (p + q)[1..] == p[1..] + q;
      var first := Apply(exp, p[0], v);
      if first.Next? {
        Compose(exp, p[1..], q, first.value);
      }
    }
  }

  /** A run is cut exactly when some normalize is reached with a running maximum of 0. */
  ghost predicate CutAt(exp: real -> real, steps: seq<Step>, v: Value, k: nat)
    requires Positive(exp)
  {
    && k < |steps| && steps[k].kind == "normalize"
    && var before := RunAll(exp, steps[..k], v);
       before.Next? && IsFloats(before.value) && Peak(before.value.elems) == 0.0
  }

  /** The last step can only add a cut of its own. */
  lemma CutAtLast(exp: real -> real, init: seq<Step>, last: Step, v: Value, k: nat)
    requires Positive(exp)
    ensures k < |init| ==> (CutAt(exp, init + [last], v, k) <==> CutAt(exp, init, v, k))
    ensures CutAt(exp, init + [last], v, |init|)
       <==> var before := RunAll(exp, init, v); before.Next? && Apply(exp, last, before.value).Cut?
  {
    var steps := init + [last];
    assert k < |init| ==> steps[..k] == init[..k] && steps[k] == init[k];
    assert steps[..|init|] == init;
  }

  lemma {:induction false} CutIff(exp: real -> real, steps: seq<Step>, v: Value)
    requires Positive(exp)
    ensures RunAll(exp, steps, v).Cut? <==> exists k: nat :: CutAt(exp, steps, v, k)
    decreases |steps|
  {
    if steps != [] {
      var init, last := steps[..|steps| - 1], steps[|steps| - 1];
      assert steps == init + [last];
      Compose(exp, init, [last], v);
      CutIff(exp, init, v);
      forall k: nat
        ensures CutAt(exp, steps, v, k)
           <==> CutAt(exp, init, v, k) || (k == |init| && RunAll(exp, init, v).Next? && RunAll(exp, steps, v).Cut?)
      {
        CutAtLast(exp, init, last, v, k);
        if RunAll(exp, init, v).Next? {
          Single(exp, last, RunAll(exp, init, v).value);
        }
      }
      assert RunAll(exp, init, v).Next? && RunAll(exp, steps, v).Cut? ==> CutAt(exp, steps, v, |init|);
    }
  }

  // ---- Static checking ----

  datatype Type = FloatsType | IntsType | StringsType | OtherType

  function TypeOf(v: Value): Type {
    if IsFloats(v) then FloatsType
    else match v
      case Ints(_) => IntsType
      case Strings(_) => StringsType
      case _ => OtherType
  }

  function StepType(step: Step, t: Type): Option<Type> {
    match step.kind
    case "normalize" => if t.FloatsType? then Some(FloatsType) else None
    case "softmax" => if t.FloatsType? then Some(FloatsType) else None
    case "apply_threshold" => if t.FloatsType? then Some(IntsType) else None
    case "map_to_labels" => if t.IntsType? && LabelsOf(step.params).Some? then Some(StringsType) else None
    case _ => None
  }

  /** A pass over the steps that looks at types and parameters only. */
  function Check(steps: seq<Step>, t: Type): Option<Type> {
    if steps == [] then Some(t)
    else match StepType(steps[0], t)
      case None => None
      case Some(t1) => Check(steps[1..], t1)
  }

  /** The checker predicts every uncut run: it fails exactly when the checker rejects it, and
      otherwise returns a value of the predicted type.  A pipeline that checks never fails. */
  lemma {:induction false} CheckPredicts(exp: real -> real, steps: seq<Step>, v: Value)
    requires Positive(exp)
    ensures var o := RunAll(exp, steps, v);
            && (!o.Cut? ==> (o.Next? <==> Check(steps, TypeOf(v)).Some?))
            && (o.Next? ==> Check(steps, TypeOf(v)) == Some(TypeOf(o.value)))
            && (Check(steps, TypeOf(v)).Some? ==> !o.Fail?)
    decreases |steps|
  {
    if steps != [] {
      var first := Apply(exp, steps[0], v);
      assert first.Fail? <==> StepType(steps[0], TypeOf(v)).None?;
      if first.Next? {
        assert StepType(steps[0], TypeOf(v)) == Some(TypeOf(first.value));
        CheckPredicts(exp, steps[1..], first.value);
      }
    }
  }

  /** An engine's output map passes only through the empty pipeline, so a configured pipeline
      cannot post-process it. */
  lemma MapsPassOnlyTheEmptyPipeline(exp: real -> real, steps: seq<Step>, fields: map<string, Value>)
    requires Positive(exp)
    ensures RunAll(exp, steps, Named(fields)).Fail? <==> steps != []
  {
  }

  lemma NormalizeAgain(exp: real -> real, step: Step, xs: seq<real>)
    requires Positive(exp) && step.kind == "normalize"
    ensures Apply(exp, step, Slice(Float32, Normalize(xs))) == Apply(exp, step, Slice(Float32, xs))
  {
    NormalizeIdempotent(xs);
  }

  /** normalize changes its caller's array, but running the same pipeline on what it left there gives
      the same result: tasks that share an input and run one after the other do not disturb each other. */
  lemma {:induction false} RerunIsTheSame(exp: real -> real, steps: seq<Step>, xs: seq<real>)
    requires Positive(exp)
    ensures RunAll(exp, steps, Slice(Float32, LeftInPlace(steps, xs))) == RunAll(exp, steps, Slice(Float32, xs))
  {
    if steps != [] && steps[0].kind == "normalize" {
      NormalizeAgain(exp, steps[0], xs);
    }
  }

  // ---- Ranking ----

  /** ys orders its places as xs does. */
  ghost predicate SameRanking(xs: seq<real>, ys: seq<real>) {
    |xs| == |ys| && forall i, j :: 0 <= i < |xs| && 0 <= j < |xs| ==> (xs[i] <= xs[j] <==> ys[i] <= ys[j])
  }

  lemma ScaleKeepsRanking(xs: seq<real>, d: real)
    requires d > 0.0
    ensures SameRanking(xs, Scale(xs, d))
  {
    forall i, j | 0 <= i < |xs| && 0 <= j < |xs|
      ensures xs[i] <= xs[j] <==> Scale(xs, d)[i] <= Scale(xs, d)[j]
    {
      DivideOrder(xs[i], xs[j], d);
    }
  }

  lemma WeightsKeepRanking(exp: real -> real, xs: seq<real>, p: real)
    requires IsExp(exp)
    ensures SameRanking(xs, Weights(exp, xs, p))
  {
    var ws := Weights(exp, xs, p);
    forall i, j | 0 <= i < |xs| && 0 <= j < |xs|
      ensures xs[i] <= xs[j] <==> ws[i] <= ws[j]
    {
      assert Increasing(exp, xs[i] - p, xs[j] - p) && Increasing(exp, xs[j] - p, xs[i] - p);
    }
  }

  lemma {:induction false} SoftmaxKeepsRanking(exp: real -> real, xs: seq<real>)
    requires IsExp(exp)
    ensures SameRanking(xs, Softmax(exp, xs))
  {
    if xs != [] {
      var ws := Weights(exp, xs, Peak(xs));
      WeightsKeepRanking(exp, xs, Peak(xs));
      SumPositive(ws);
      ScaleKeepsRanking(ws, Sum(ws));
    }
  }

  /** Any chain of normalize and softmax steps keeps the ranking, cut or not. */
  lemma {:induction false} ChainKeepsRanking(exp: real -> real, steps: seq<Step>, xs: seq<real>)
    requires IsExp(exp)
    requires forall i :: 0 <= i < |steps| ==> steps[i].kind in ["normalize", "softmax"]
    ensures var o := RunAll(exp, steps, Slice(Float32, xs));
            !o.Fail? && IsFloats(o.value) && SameRanking(xs, o.value.elems)
    decreases |steps|
  {
    if steps != [] {
      var first := Apply(exp, steps[0], Slice(Float32, xs));
      var ys := first.value.elems;
      assert SameRanking(xs, ys) by {
        if steps[0].kind == "softmax" {
          SoftmaxKeepsRanking(exp, xs);
        } else if Peak(xs) != 0.0 {
          ScaleKeepsRanking(xs, Peak(xs));
        }
      }
      if first.Next? {
        ChainKeepsRanking(exp, steps[1..], ys);
      }
    }
  }

  // ---- Softmax ----

  lemma {:induction false} SumOfScaled(xs: seq<real>, d: real)
    requires d != 0.0
    ensures Sum(Scale(xs, d)) == Sum(xs) / d
  {
    if xs != [] {
      SumOfScaled(xs[..|xs| - 1], d);
      assert Scale(xs, d)[..|xs| - 1] == Scale(xs[..|xs| - 1], d);
      AddQuotients(Sum(xs[..|xs| - 1]), xs[|xs| - 1], d);
    }
  }

  lemma AddQuotients(x: real, y: real, d: real)
    requires d != 0.0
    ensures x / d + y / d == (x + y) / d
  {
    assert (x / d + y / d) * d == x + y;
  }

  lemma QuotientPositive(x: real, d: real)
    requires x > 0.0 && d > 0.0
    ensures x / d > 0.0
  {
    DivideOrder(x, 0.0, d);
  }

  /** Softmax yields a distribution: positive, and summing to 1. */
  lemma SoftmaxIsDistribution(exp: real -> real, xs: seq<real>)
    requires Positive(exp) && xs != []
    ensures Sum(Softmax(exp, xs)) == 1.0
    ensures forall i :: 0 <= i < |xs| ==> Softmax(exp, xs)[i] > 0.0
  {
    var ws := Weights(exp, xs, Peak(xs));
    SumPositive(ws);
    SumOfScaled(ws, Sum(ws));
    DivideOrder(0.0, 0.0, Sum(ws));
    forall i | 0 <= i < |xs|
      ensures Softmax(exp, xs)[i] > 0.0
    {
      QuotientPositive(ws[i], Sum(ws));
    }
  }

  lemma ShiftOne(exp: real -> real, x: real, p: real)
    requires IsExp(exp)
    ensures exp(x - p) == exp(x) * exp(-p)
  {
    assert SumRule(exp, x, -p);
    assert x - p == x + -p;
  }

  lemma Distribute(a: real, b: real, c: real)
    ensures (a + b) * c == a * c + b * c
  {
  }

  ghost predicate IsProduct(u: real, v: real, f: real) {
    u == v * f
  }

  ghost predicate Multiples(us: seq<real>, vs: seq<real>, f: real) {
    |us| == |vs| && forall j {:trigger IsProduct(us[j], vs[j], f)} :: 0 <= j < |us| ==> IsProduct(us[j], vs[j], f)
  }

  lemma {:induction false} SumOfProducts(us: seq<real>, vs: seq<real>, f: real)
    requires Multiples(us, vs, f)
    ensures IsProduct(Sum(us), Sum(vs), f)
  {
    if us != [] {
      var n := |us| - 1;
      forall j | 0 <= j < n
        ensures IsProduct(us[..n][j], vs[..n][j], f)
      {
        assert IsProduct(us[j], vs[j], f);
      }
      SumOfProducts(us[..n], vs[..n], f);
      assert IsProduct(us[n], vs[n], f);
      Distribute(Sum(vs[..n]), vs[n], f);
    }
  }

  lemma CancelFactor(a: real, b: real, x: real, s: real, f: real)
    requires IsProduct(a, x, f) && IsProduct(b, s, f) && s > 0.0 && f > 0.0
    ensures b > 0.0 && a / b == x / s
  {
    var q := x / s;
    assert q * s == x;
    assert q * b == (q * s) * f;
    IsQuotient(a, b, q);
  }

  lemma IsQuotient(a: real, b: real, q: real)
    requires b != 0.0 && q * b == a
    ensures a / b == q
  {
  }

  /** A common factor of all weights disappears in the quotient. */
  lemma ScaledByFactor(us: seq<real>, vs: seq<real>, f: real, i: nat)
    requires Multiples(us, vs, f)
    requires Sum(vs) > 0.0 && f > 0.0 && i < |us|
    ensures Sum(us) > 0.0 && us[i] / Sum(us) == vs[i] / Sum(vs)
  {
    SumOfProducts(us, vs, f);
    assert IsProduct(us[i], vs[i], f);
    CancelFactor(us[i], Sum(us), vs[i], Sum(vs), f);
  }

  lemma ShiftMultiplies(exp: real -> real, xs: seq<real>, p: real)
    requires IsExp(exp)
    ensures Multiples(Weights(exp, xs, p), Weights(exp, xs, 0.0), exp(-p))
  {
    forall j | 0 <= j < |xs|
      ensures IsProduct(Weights(exp, xs, p)[j], Weights(exp, xs, 0.0)[j], exp(-p))
    {
      ShiftOne(exp, xs[j], p);
      assert xs[j] - 0.0 == xs[j];
    }
  }

  lemma ShiftCancels(exp: real -> real, xs: seq<real>, p: real, i: nat)
    requires IsExp(exp) && i < |xs|
    ensures var us, vs := Weights(exp, xs, p), Weights(exp, xs, 0.0);
            Sum(us) > 0.0 && Sum(vs) > 0.0 && us[i] / Sum(us) == vs[i] / Sum(vs)
  {
    SumPositive(Weights(exp, xs, 0.0));
    ShiftMultiplies(exp, xs, p);
    ScaledByFactor(Weights(exp, xs, p), Weights(exp, xs, 0.0), exp(-p), i);
  }

  /** The textbook softmax, exp(x_i) / sum_j exp(x_j). */
  function Textbook(exp: real -> real, xs: seq<real>): (ys: seq<real>)
    requires Positive(exp)
    ensures |ys| == |xs|
  {
    var ws := Weights(exp, xs, 0.0);
    SumPositive(ws);
    if xs == [] then [] else Scale(ws, Sum(ws))
  }

  lemma TextbookAt(exp: real -> real, xs: seq<real>, i: nat)
    requires Positive(exp) && i < |xs|
    ensures Sum(Weights(exp, xs, 0.0)) > 0.0 && Weights(exp, xs, 0.0)[i] == exp(xs[i])
    ensures Textbook(exp, xs)[i] == exp(xs[i]) / Sum(Weights(exp, xs, 0.0))
  {
    assert xs[i] - 0.0 == xs[i];
    SumPositive(Weights(exp, xs, 0.0));
  }

  /** The shift by the running maximum does not show, though that maximum starts at 0 and need
      not be an element: softmax is the textbook one. */
  lemma {:induction false} SoftmaxIsUnshifted(exp: real -> real, xs: seq<real>)
    requires IsExp(exp)
    ensures Softmax(exp, xs) == Textbook(exp, xs)
  {
    forall i | 0 <= i < |xs|
      ensures Softmax(exp, xs)[i] == Textbook(exp, xs)[i]
    {
      ShiftCancels(exp, xs, Peak(xs), i);
    }
  }

  // ---- Softmax, then threshold ----

  function Ones(bits: seq<int>): nat {
    if bits == [] then 0 else Ones(bits[..|bits| - 1]) + if bits[|bits| - 1] == 1 then 1 else 0
  }

  /** k * t by repeated addition. */
  ghost function Times(k: nat, t: real): real {
    if k == 0 then 0.0 else Times(k - 1, t) + t
  }

  lemma {:induction false} TimesIsProduct(k: nat, t: real)
    ensures Times(k, t) == k as real * t
  {
    if k > 0 {
      TimesIsProduct(k - 1, t);
      Distribute((k - 1) as real, 1.0, t);
    }
  }

  lemma {:induction false} OnesWeigh(xs: seq<real>, t: real)
    requires forall i :: 0 <= i < |xs| ==> xs[i] >= 0.0
    ensures Times(Ones(Threshold(xs, t)), t) <= Sum(xs)
  {
    if xs != [] {
      var init, x := xs[..|xs| - 1], xs[|xs| - 1];
      var bits := Threshold(init, t);
      OnesWeigh(init, t);
      OnesSnoc(bits, if x >= t then 1 else 0);
      assert Threshold(xs, t) == bits + [if x >= t then 1 else 0];
      assert x >= t ==> Times(Ones(bits) + 1, t) == Times(Ones(bits), t) + t;
    }
  }

  lemma OnesSnoc(bits: seq<int>, b: int)
    ensures Ones(bits + [b]) == Ones(bits) + if b == 1 then 1 else 0
  {
    assert (bits + [b])[..|bits|] == bits;
  }

  lemma {:induction false} TimesGrows(k: nat, t: real)
    requires k >= 2 && t > 0.0
    ensures Times(k, t) >= t + t
  {
    assert Times(1, t) == t;
    if k > 2 {
      TimesGrows(k - 1, t);
    }
  }

  lemma {:induction false} FewOnes(exp: real -> real, xs: seq<real>, t: real)
    requires Positive(exp) && xs != []
    ensures Times(Ones(Threshold(Softmax(exp, xs), t)), t) <= 1.0
    ensures t > 0.5 ==> Ones(Threshold(Softmax(exp, xs), t)) <= 1
  {
    var ys := Softmax(exp, xs);
    var k := Ones(Threshold(ys, t));
    SoftmaxIsDistribution(exp, xs);
    OnesWeigh(ys, t);
    if t > 0.5 && k >= 2 {
      TimesGrows(k, t);
    }
  }

  /** softmax followed by apply_threshold with any threshold t selects k places with k*t <= 1,
      hence at most one when t exceeds a half. */
  lemma {:induction false} ThresholdedSoftmax(exp: real -> real, xs: seq<real>, softmax: Step, threshold: Step)
    requires Positive(exp) && xs != []
    requires softmax.kind == "softmax" && threshold.kind == "apply_threshold"
    ensures var o, t := RunAll(exp, [softmax] + [threshold], Slice(Float32, xs)), ThresholdOf(threshold.params);
            && o.Next? && o.value.Ints? && |o.value.ints| == |xs|
            && Times(Ones(o.value.ints), t) <= 1.0
            && (t > 0.5 ==> Ones(o.value.ints) <= 1)
  {
    var ys, t := Softmax(exp, xs), ThresholdOf(threshold.params);
    Single(exp, softmax, Slice(Float32, xs));
    Single(exp, threshold, Slice(Float32, ys));
    Compose(exp, [softmax], [threshold], Slice(Float32, xs));
    FewOnes(exp, xs, t);
  }

  lemma Single(exp: real -> real, step: Step, v: Value)
    requires Positive(exp)
    ensures RunAll(exp, [step], v) == Apply(exp, step, v)
  {
    assert [step][1..] == [];
  }
}
