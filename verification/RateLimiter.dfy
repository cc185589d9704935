/** The token bucket of internal/middleware/rate_limit.go, over real time.

    A trace lists the creation time followed by the time of every call.  A policy
    is one verdict per entry; entry 0 is the creation and admits nothing.  The
    limiter is one policy; the theorems compare it with every other one. */
module RateLimit {

  datatype Bucket = Bucket(rate: real, capacity: real)

  /** A level that overflows the bucket is cut to its capacity. */
  function Capped(b: Bucket, level: real): real {
    if level > b.capacity then b.capacity else level
  }

  function One(b: bool): nat {
    if b then 1 else 0
  }

  /** Tokens earned from time s to time t.  Written as a difference so that gains over
      adjacent spans add up without distributing a product each time. */
  ghost function Gain(b: Bucket, s: real, t: real): real {
    b.rate * t - b.rate * s
  }

  lemma GainIsRateTimesDuration(b: Bucket, s: real, t: real)
    ensures Gain(b, s, t) == b.rate * (t - s) == (t - s) * b.rate
  {
  }

  ghost predicate Trace(ts: seq<real>, d: seq<bool>) {
    |ts| == |d| > 0 && !d[0]
  }

  /** Tokens in the bucket when call k looks at it, after refill and cap. */
  ghost function Refilled(b: Bucket, ts: seq<real>, d: seq<bool>, k: nat): real
    requires Trace(ts, d) && k < |ts|
    decreases k, 0
  {
    if k == 0 then b.capacity
    else Capped(b, Level(b, ts, d, k - 1) + Gain(b, ts[k - 1], ts[k]))
  }

  /** Tokens left once verdict k has been paid for. */
  ghost function Level(b: Bucket, ts: seq<real>, d: seq<bool>, k: nat): real
    requires Trace(ts, d) && k < |ts|
    decreases k, 1
  {
    Refilled(b, ts, d, k) - One(d[k]) as real
  }

  /** Number of admissions among entries i, ..., j-1. */
  ghost function Count(d: seq<bool>, i: nat, j: nat): nat
    requires i <= j <= |d|
  {
    if i == j then 0 else Count(d, i, j - 1) + One(d[j - 1])
  }

  /** The policy never admits on less than one token. */
  ghost predicate Legal(b: Bucket, ts: seq<real>, d: seq<bool>)
    requires Trace(ts, d)
  {
    forall k :: 1 <= k < |ts| && d[k] ==> Refilled(b, ts, d, k) >= 1.0
  }

  /** The policy admits exactly when a token is there. */
  ghost predicate Greedy(b: Bucket, ts: seq<real>, d: seq<bool>)
    requires Trace(ts, d)
  {
    forall k :: 1 <= k < |ts| ==> (d[k] <==> Refilled(b, ts, d, k) >= 1.0)
  }

  /** What a window from entry i up to call k still leaves: capacity plus the
      refill over its duration, minus the admissions before call k. */
  ghost function Slack(b: Bucket, ts: seq<real>, d: seq<bool>, i: nat, k: nat): real
    requires Trace(ts, d) && i <= k < |ts|
  {
    b.capacity + Gain(b, ts[i], ts[k]) - Count(d, i, k) as real
  }

  lemma SlackStep(b: Bucket, ts: seq<real>, d: seq<bool>, i: nat, k: nat)
    requires Trace(ts, d) && i < k < |ts|
    ensures Slack(b, ts, d, i, k)
         == Slack(b, ts, d, i, k - 1) - One(d[k - 1]) as real + Gain(b, ts[k - 1], ts[k])
  {
  }

  /** Closed form: the refilled level is the minimum of the slacks of all windows ending here. */
  lemma {:induction false} ClosedForm(b: Bucket, ts: seq<real>, d: seq<bool>, k: nat)
    requires Trace(ts, d) && k < |ts|
    ensures forall i :: 0 <= i <= k ==> Refilled(b, ts, d, k) <= Slack(b, ts, d, i, k)
    ensures exists i :: 0 <= i <= k && Refilled(b, ts, d, k) == Slack(b, ts, d, i, k)
  {
    if k == 0 {
      assert Slack(b, ts, d, 0, 0) == b.capacity;
    } else {
      ClosedForm(b, ts, d, k - 1);
      assert Slack(b, ts, d, k, k) == b.capacity;
      forall i | 0 <= i < k
        ensures Refilled(b, ts, d, k) <= Slack(b, ts, d, i, k)
      {
        SlackStep(b, ts, d, i, k);
        assert Refilled(b, ts, d, k - 1) <= Slack(b, ts, d, i, k - 1);
      }
      var j :| 0 <= j <= k - 1 && Refilled(b, ts, d, k - 1) == Slack(b, ts, d, j, k - 1);
      SlackStep(b, ts, d, j, k);
    }
  }

  /** A call may be admitted exactly when every window ending at it, itself included,
      stays within capacity + rate * duration. */
  lemma AdmissionIsWindowTest(b: Bucket, ts: seq<real>, d: seq<bool>, k: nat)
    requires Trace(ts, d) && k < |ts|
    ensures Refilled(b, ts, d, k) >= 1.0
       <==> forall i :: 0 <= i <= k ==> Count(d, i, k) as real + 1.0 <= b.capacity + Gain(b, ts[i], ts[k])
  {
    ClosedForm(b, ts, d, k);
    if Refilled(b, ts, d, k) >= 1.0 {
      forall i | 0 <= i <= k
        ensures Count(d, i, k) as real + 1.0 <= b.capacity + Gain(b, ts[i], ts[k])
      {
        assert Refilled(b, ts, d, k) <= Slack(b, ts, d, i, k);
      }
    } else {
      var i :| 0 <= i <= k && Refilled(b, ts, d, k) == Slack(b, ts, d, i, k);
      assert Slack(b, ts, d, i, k) < 1.0;
    }
  }

  /** Legality is exactly the window bound at every admission: no window that ends with an
      admitted call holds more than capacity + rate * duration admissions. */
  lemma LegalIffWindowsBounded(b: Bucket, ts: seq<real>, d: seq<bool>)
    requires Trace(ts, d)
    ensures Legal(b, ts, d)
       <==> forall i, k :: 0 <= i <= k < |ts| && d[k] ==>
                Count(d, i, k + 1) as real <= b.capacity + Gain(b, ts[i], ts[k])
  {
    forall k: nat | k < |ts| {
      AdmissionIsWindowTest(b, ts, d, k);
    }
    if !Legal(b, ts, d) {
      var k :| 1 <= k < |ts| && d[k] && Refilled(b, ts, d, k) < 1.0;
      var i :| 0 <= i <= k && Count(d, i, k) as real + 1.0 > b.capacity + Gain(b, ts[i], ts[k]);
      assert Count(d, i, k + 1) == Count(d, i, k) + 1;
    }
  }

  /** When time does not run backwards and the rate is not negative, every window with an
      admission in it is bounded, wherever it ends. */
  lemma {:induction false} WindowBound(b: Bucket, ts: seq<real>, d: seq<bool>, i: nat, k: nat)
    requires Trace(ts, d) && Legal(b, ts, d) && i <= k < |ts|
    requires b.rate >= 0.0
    requires forall x, y :: 0 <= x <= y < |ts| ==> ts[x] <= ts[y]
    ensures Count(d, i, k + 1) > 0 ==> Count(d, i, k + 1) as real <= b.capacity + Gain(b, ts[i], ts[k])
  {
    if d[k] {
      LegalIffWindowsBounded(b, ts, d);
    } else if i < k {
      WindowBound(b, ts, d, i, k - 1);
      GainIsRateTimesDuration(b, ts[k - 1], ts[k]);
    } else {
      assert Count(d, i, k) == 0;
    }
  }

  /** Greedy optimality, with the invariant that carries it: another policy can hold more
      tokens only by as much as it has admitted less. */
  lemma {:induction false} GreedyIsOptimal(b: Bucket, ts: seq<real>, g: seq<bool>, d: seq<bool>, k: nat)
    requires Trace(ts, g) && Trace(ts, d) && k < |ts|
    requires Greedy(b, ts, g) && Legal(b, ts, d)
    ensures Count(g, 0, k + 1) >= Count(d, 0, k + 1)
    ensures Level(b, ts, d, k) - Level(b, ts, g, k) <= (Count(g, 0, k + 1) - Count(d, 0, k + 1)) as real
  {
    if k == 0 {
      assert Count(g, 0, 1) == Count(g, 0, 0) == 0;
      assert Count(d, 0, 1) == Count(d, 0, 0) == 0;
    } else {
      GreedyIsOptimal(b, ts, g, d, k - 1);
      var lead := Count(g, 0, k) - Count(d, 0, k);
      assert Refilled(b, ts, d, k) - Refilled(b, ts, g, k) <= lead as real;
    }
  }

  /** All greedy policies coincide: the admission rule determines every verdict. */
  lemma {:induction false} GreedyIsUnique(b: Bucket, ts: seq<real>, g: seq<bool>, h: seq<bool>, k: nat)
    requires Trace(ts, g) && Trace(ts, h) && k <= |ts|
    requires Greedy(b, ts, g) && Greedy(b, ts, h)
    ensures g[..k] == h[..k]
    ensures forall j :: 0 <= j < k ==> Level(b, ts, g, j) == Level(b, ts, h, j)
  {
    if k > 0 {
      GreedyIsUnique(b, ts, g, h, k - 1);
      assert k > 1 ==> Level(b, ts, g, k - 2) == Level(b, ts, h, k - 2);
      assert g[k - 1] == h[k - 1];
      assert g[..k] == g[..k - 1] + [g[k - 1]];
      assert h[..k] == h[..k - 1] + [h[k - 1]];
    }
  }

  lemma {:induction false} ExtendAt(b: Bucket, ts: seq<real>, d: seq<bool>, t: real, v: bool, k: nat)
    requires Trace(ts, d) && k < |ts|
    ensures Refilled(b, ts + [t], d + [v], k) == Refilled(b, ts, d, k)
    ensures Level(b, ts + [t], d + [v], k) == Level(b, ts, d, k)
  {
    if k > 0 {
      ExtendAt(b, ts, d, t, v, k - 1);
      assert (ts + [t])[k - 1] == ts[k - 1] && (ts + [t])[k] == ts[k];
    }
    assert (d + [v])[k] == d[k];
  }

  /** One more call leaves the past as it was; greed extends when the new verdict is greedy. */
  lemma Extend(b: Bucket, ts: seq<real>, d: seq<bool>, t: real, v: bool)
    requires Trace(ts, d) && Greedy(b, ts, d)
    requires v <==> Capped(b, Level(b, ts, d, |ts| - 1) + Gain(b, ts[|ts| - 1], t)) >= 1.0
    ensures Trace(ts + [t], d + [v]) && Greedy(b, ts + [t], d + [v])
    ensures Level(b, ts + [t], d + [v], |ts|) + One(v) as real
         == Capped(b, Level(b, ts, d, |ts| - 1) + Gain(b, ts[|ts| - 1], t))
  {
    var ts', d' := ts + [t], d + [v];
    ExtendAt(b, ts, d, t, v, |ts| - 1);
    forall k | 1 <= k < |ts'|
      ensures d'[k] <==> Refilled(b, ts', d', k) >= 1.0
    {
      if k < |ts| {
        ExtendAt(b, ts, d, t, v, k);
        assert d'[k] == d[k];
      }
    }
  }

  /** No window that ends with call k, that call included, exceeds capacity + rate * duration. */
  ghost predicate FitsEveryWindow(b: Bucket, ts: seq<real>, d: seq<bool>, k: nat)
    requires Trace(ts, d) && k < |ts|
  {
    forall i :: 0 <= i <= k ==> Count(d, i, k) as real + 1.0 <= b.capacity + b.rate * (ts[k] - ts[i])
  }

  lemma AdmissionIsDurationTest(b: Bucket, ts: seq<real>, d: seq<bool>, k: nat)
    requires Trace(ts, d) && k < |ts|
    ensures Refilled(b, ts, d, k) >= 1.0 <==> FitsEveryWindow(b, ts, d, k)
  {
    AdmissionIsWindowTest(b, ts, d, k);
    forall i | 0 <= i <= k
      ensures Gain(b, ts[i], ts[k]) == b.rate * (ts[k] - ts[i])
    {
      GainIsRateTimesDuration(b, ts[i], ts[k]);
    }
  }

  /** What one call makes of the history: level is the refilled level, left what remains of it. */
  lemma AfterCall(b: Bucket, ts: seq<real>, d: seq<bool>, t: real, level: real, left: real, v: bool)
    requires Trace(ts, d) && Greedy(b, ts, d)
    requires level == Capped(b, Level(b, ts, d, |ts| - 1) + Gain(b, ts[|ts| - 1], t))
    requires (v <==> level >= 1.0) && left == level - One(v) as real
    ensures Trace(ts + [t], d + [v]) && Greedy(b, ts + [t], d + [v])
    ensures left == Level(b, ts + [t], d + [v], |ts|)
    ensures v <==> FitsEveryWindow(b, ts + [t], d + [v], |ts|)
  {
    Extend(b, ts, d, t, v);
    AdmissionIsDurationTest(b, ts + [t], d + [v], |ts|);
  }

  /** The limiter.  The history is ghost: the code keeps only the last time and the tokens. */
  class RateLimiter {
    var lastCheck: real
    const rate: real
    const capacity: real
    var tokens: real
    ghost var Calls: seq<real>
    ghost var Verdicts: seq<bool>

    ghost function Shape(): Bucket {
      Bucket(rate, capacity)
    }

    ghost predicate Valid()
      reads this
    {
      && Trace(Calls, Verdicts)
      && Greedy(Shape(), Calls, Verdicts)
      && lastCheck == Calls[|Calls| - 1]
      && tokens == Level(Shape(), Calls, Verdicts, |Calls| - 1)
    }

    constructor (ratePerSecond: real, capacity: int, now: real)
      ensures Valid() && rate == ratePerSecond && this.capacity == capacity as real
      ensures Calls == [now] && Verdicts == [false]
    {
      lastCheck := now;
      rate := ratePerSecond;
      this.capacity := capacity as real;
      tokens := capacity as real;
      Calls := [now];
      Verdicts := [false];
    }

    /** The tokens earned since the last call. */
    method Earned(now: real) returns (earned: real)
      ensures earned == Gain(Shape(), lastCheck, now)
    {
      var elapsed := now - lastCheck;
      earned := elapsed * rate;
      GainIsRateTimesDuration(Shape(), lastCheck, now);
    }

    /** The verdict is the window test on the whole history, though only two fields are kept. */
    method Allow(now: real) returns (allowed: bool)
      requires Valid()
      modifies this
      ensures Valid() && Calls == old(Calls) + [now] && Verdicts == old(Verdicts) + [allowed]
      ensures allowed <==> FitsEveryWindow(Shape(), Calls, Verdicts, |Calls| - 1)
    {
      var earned := Earned(now);
      lastCheck := now;
      tokens := tokens + earned;
      if tokens > capacity {
        tokens := capacity;
      }
      ghost var level := tokens;
      allowed := tokens >= 1.0;
      if allowed {
        tokens := tokens - 1.0;
      }
      AfterCall(Shape(), Calls, Verdicts, now, level, tokens, allowed);
      Calls, Verdicts := Calls + [now], Verdicts + [allowed];
    }
  }
}
