/** The adaptive moving average kept in one Redis hash per chute (api/metrics/aema.py). */
module AdaptiveEma {
  import opened Base

  // Limits of the constructor: the window and the lower alpha limit are positive and alpha is a weight.
  datatype Params = Params(targetWindow: real, minAlpha: real, maxAlpha: real, minCount: int) {
    predicate Sane() {
      0.0 < targetWindow && 0.0 < minAlpha <= maxAlpha <= 1.0
    }
  }

  // The stored hash. Each field may be missing; `lastAlpha` is written and never read.
  datatype Hash = Hash(
    ema: Option<real>, count: Option<int>, lastTime: Option<real>,
    recentRate: Option<real>, lastAlpha: Option<real>)

  const EMPTY := Hash(None, None, None, None, None)

  datatype Sample = Sample(value: real, time: real)

  function Mix(alpha: real, newer: real, older: real): real {
    Times(alpha, newer) + Times(1.0 - alpha, older)
  }

  function Smooth(instant: real, recent: real): real {
    Times(0.1, instant) + Times(0.9, recent)
  }

  function NextRate(h: Hash, time: real): real {
    if h.lastTime.None? then 1.0
    else
      var diff := time - h.lastTime.value;
      if diff > 0.0 then
        if h.recentRate.Some? then Smooth(Over(1.0, diff), h.recentRate.value) else Over(1.0, diff)
      else h.recentRate.GetOr(1.0)
  }

  function Clamp(x: real, low: real, high: real): real {
    if x < low then low else if x > high then high else x
  }

  // One evaluation of the script. A zero rate would divide by zero, which the run theorem rules out.
  function Next(p: Params, h: Hash, s: Sample): Hash
    requires p.Sane()
    requires h.ema.Some? ==> h.count.Some? && Times(NextRate(h, s.time), p.targetWindow) != 0.0
  {
    if h.ema.None? then
      Hash(Some(s.value), Some(1), Some(s.time), Some(1.0), Some(p.maxAlpha))
    else
      var rate := NextRate(h, s.time);
      var alpha := Clamp(Over(1.0, Times(rate, p.targetWindow)), p.minAlpha, p.maxAlpha);
      Hash(Some(Mix(alpha, s.value, h.ema.value)), Some(h.count.value + 1),
           Some(s.time), Some(rate), Some(alpha))
  }

  // What the script relies on: it either finds an empty hash or one written by itself.
  predicate Written(p: Params, h: Hash) {
    || h == EMPTY
    || (&& h.ema.Some? && h.count.Some? && h.lastTime.Some? && h.recentRate.Some? && h.lastAlpha.Some?
        && h.count.value >= 1 && h.recentRate.value > 0.0
        && p.minAlpha <= h.lastAlpha.value <= p.maxAlpha)
  }

  lemma RatePositive(p: Params, h: Hash, time: real)
    requires Written(p, h)
    ensures NextRate(h, time) > 0.0
  {
    if h != EMPTY && time - h.lastTime.value > 0.0 {
      assert Over(1.0, time - h.lastTime.value) > 0.0;
    }
  }

  // No sequence of timestamps, in any order, leads the script to a division by zero.
  lemma NextIsWritten(p: Params, h: Hash, s: Sample)
    requires p.Sane() && Written(p, h)
    ensures NextRate(h, s.time) > 0.0
    ensures h.ema.Some? ==> Times(NextRate(h, s.time), p.targetWindow) > 0.0
    ensures Written(p, Next(p, h, s)) && Next(p, h, s) != EMPTY
  {
    RatePositive(p, h, s.time);
    assert Times(NextRate(h, s.time), p.targetWindow) > 0.0;
  }

  // The hash after a history of updates, oldest first.
  function After(p: Params, history: seq<Sample>): (h: Hash)
    requires p.Sane()
    ensures Written(p, h)
  {
    if history == [] then EMPTY
    else
      var before := After(p, history[..|history| - 1]);
      NextIsWritten(p, before, history[|history| - 1]);
      Next(p, before, history[|history| - 1])
  }

  // The alphas recorded along a history, and its values.
  function Alphas(p: Params, history: seq<Sample>): (a: seq<real>)
    requires p.Sane()
    ensures |a| == |history|
    ensures forall i :: 0 <= i < |a| ==> p.minAlpha <= a[i] <= p.maxAlpha
  {
    if history == [] then []
    else Alphas(p, history[..|history| - 1]) + [After(p, history).lastAlpha.GetOr(p.maxAlpha)]
  }

  function Values(history: seq<Sample>): (v: seq<real>)
    ensures |v| == |history|
  {
    seq(|history|, i requires 0 <= i < |history| => history[i].value)
  }

  // The average as a recursion over alphas and values alone.
  function Blend(alphas: seq<real>, values: seq<real>): real
    requires |alphas| == |values| > 0
  {
    var n := |alphas| - 1;
    if n == 0 then values[0]
    else Mix(alphas[n], values[n], Blend(alphas[..n], values[..n]))
  }

  // The share each value has in the average: the newest has its alpha, the older ones divide the rest.
  function Weights(alphas: seq<real>): (w: seq<real>)
    ensures |w| == |alphas|
  {
    var n := |alphas| - 1;
    if n < 0 then []
    else if n == 0 then [1.0]
    else Scale(Weights(alphas[..n]), 1.0 - alphas[n]) + [alphas[n]]
  }

  function Scale(w: seq<real>, k: real): (r: seq<real>)
    ensures |r| == |w| && forall i :: 0 <= i < |w| ==> r[i] == Times(w[i], k)
  {
    seq(|w|, i requires 0 <= i < |w| => Times(w[i], k))
  }

  function Total(w: seq<real>): real {
    if w == [] then 0.0 else Total(w[..|w| - 1]) + w[|w| - 1]
  }

  function Weighted(w: seq<real>, values: seq<real>): real
    requires |w| == |values|
  {
    if w == [] then 0.0
    else Weighted(w[..|w| - 1], values[..|w| - 1]) + Times(w[|w| - 1], values[|w| - 1])
  }

  lemma {:induction false} ScaleTotals(w: seq<real>, values: seq<real>, k: real)
    requires |w| == |values|
    ensures Total(Scale(w, k)) == Times(k, Total(w))
    ensures Weighted(Scale(w, k), values) == Times(k, Weighted(w, values))
  {
    hide Times;
    Zero(k);
    if w != [] {
      var n := |w| - 1;
      ScaleTotals(w[..n], values[..n], k);
      var scaled := Scale(w, k);
      assert scaled[..n] == Scale(w[..n], k) by {
        assert forall i :: 0 <= i < n ==> scaled[..n][i] == Times(w[i], k) == Scale(w[..n], k)[i];
      }
      Distribute(k, Weighted(w[..n], values[..n]), w[n], values[n]);
      Spread(k, Total(w[..n]), w[n]);
    }
  }

  lemma Spread(k: real, x: real, y: real)
    ensures Times(k, x) + Times(y, k) == Times(k, x + y)
  {
  }

  lemma Distribute(k: real, sum: real, weight: real, value: real)
    ensures Times(k, sum) + Times(Times(weight, k), value) == Times(k, sum + Times(weight, value))
  {
    assert (weight * k) * value == k * (weight * value);
  }

  lemma Product(x: real, y: real)
    requires 0.0 <= x && 0.0 <= y
    ensures 0.0 <= Times(x, y)
  {
  }

  lemma Zero(x: real)
    ensures Times(x, 0.0) == 0.0 == Times(0.0, x)
  {
  }

  lemma Unit(x: real)
    ensures Times(x, 1.0) == x == Times(1.0, x)
  {
  }

  lemma SharesStayNonNegative(w: seq<real>, k: real)
    requires 0.0 <= k && forall i :: 0 <= i < |w| ==> 0.0 <= w[i]
    ensures forall i :: 0 <= i < |w| ==> 0.0 <= Scale(w, k)[i]
  {
    forall i | 0 <= i < |w| ensures 0.0 <= Scale(w, k)[i] {
      Product(w[i], k);
    }
  }

  lemma TotalAppend(w: seq<real>, x: real)
    ensures Total(w + [x]) == Total(w) + x
  {
    assert (w + [x])[..|w|] == w;
  }

  // The weights are shares: none negative, and together exactly one.
  lemma {:induction false} WeightsAreShares(alphas: seq<real>)
    requires forall i :: 0 <= i < |alphas| ==> 0.0 <= alphas[i] <= 1.0
    ensures forall i :: 0 <= i < |alphas| ==> 0.0 <= Weights(alphas)[i]
    ensures alphas != [] ==> Total(Weights(alphas)) == 1.0
  {
    hide Times, Total, Weights, Scale;
    var n := |alphas| - 1;
    WeightsUnfold(alphas);
    if n == 0 {
      TotalOfOne(1.0);
    } else if n > 0 {
      WeightsAreShares(alphas[..n]);
      var earlier := Weights(alphas[..n]);
      SharesStayNonNegative(earlier, 1.0 - alphas[n]);
      ScaleTotals(earlier, earlier, 1.0 - alphas[n]);
      Unit(1.0 - alphas[n]);
      TotalAppend(Scale(earlier, 1.0 - alphas[n]), alphas[n]);
    }
  }

  lemma WeightsUnfold(alphas: seq<real>)
    ensures var n := |alphas| - 1;
            n >= 0 ==> Weights(alphas) == if n == 0 then [1.0] else Scale(Weights(alphas[..n]), 1.0 - alphas[n]) + [alphas[n]]
  {
    hide Scale;
  }

  lemma TotalOfOne(x: real)
    ensures Total([x]) == x
  {
    TotalAppend([], x);
    assert [] + [x] == [x] && Total([]) == 0.0;
  }

  lemma WeightedAppend(w: seq<real>, values: seq<real>, x: real, value: real)
    requires |w| == |values|
    ensures Weighted(w + [x], values + [value]) == Weighted(w, values) + Times(x, value)
  {
    assert (w + [x])[..|w|] == w && (values + [value])[..|w|] == values;
    hide Times;
  }

  lemma {:induction false} BlendIsWeighted(alphas: seq<real>, values: seq<real>)
    requires |alphas| == |values| > 0
    ensures Blend(alphas, values) == Weighted(Weights(alphas), values)
  {
    hide Times, Weights, Scale, Weighted;
    var n := |alphas| - 1;
    WeightsUnfold(alphas);
    assert values == values[..n] + [values[n]];
    if n == 0 {
      WeightedAppend([], [], 1.0, values[0]);
      assert [] + [1.0] == [1.0] && Weighted([], []) == 0.0 by { NoWeight(); }
      Unit(values[0]);
    } else {
      var earlier := Weights(alphas[..n]);
      BlendIsWeighted(alphas[..n], values[..n]);
      ScaleTotals(earlier, values[..n], 1.0 - alphas[n]);
      WeightedAppend(Scale(earlier, 1.0 - alphas[n]), values[..n], alphas[n], values[n]);
    }
  }

  lemma NoWeight()
    ensures Weighted([], []) == 0.0
  {
  }

  lemma {:induction false} WeightedWithin(w: seq<real>, values: seq<real>, low: real, high: real)
    requires |w| == |values|
    requires forall i :: 0 <= i < |w| ==> 0.0 <= w[i]
    requires forall i :: 0 <= i < |values| ==> low <= values[i] <= high
    ensures Times(low, Total(w)) <= Weighted(w, values) <= Times(high, Total(w))
  {
    hide Times;
    Zero(low);
    Zero(high);
    if w != [] {
      var n := |w| - 1;
      WeightedWithin(w[..n], values[..n], low, high);
      StepWithin(low, high, Total(w[..n]), Weighted(w[..n], values[..n]), w[n], values[n]);
    }
  }

  lemma StepWithin(low: real, high: real, total: real, sum: real, weight: real, value: real)
    requires Times(low, total) <= sum <= Times(high, total)
    requires 0.0 <= weight && low <= value <= high
    ensures Times(low, total + weight) <= sum + Times(weight, value) <= Times(high, total + weight)
  {
    assert low * weight <= weight * value <= high * weight;
  }

  lemma {:induction false} StoredIsBlend(p: Params, history: seq<Sample>)
    requires p.Sane() && history != []
    ensures After(p, history).ema == Some(Blend(Alphas(p, history), Values(history)))
    ensures After(p, history).count == Some(|history|)
    ensures After(p, history).lastTime == Some(history[|history| - 1].time)
  {
    var n := |history| - 1;
    if n > 0 {
      StoredIsBlend(p, history[..n]);
      assert Values(history)[..n] == Values(history[..n]);
      assert Alphas(p, history)[..n] == Alphas(p, history[..n]);
    }
  }

  /** The stored average is a convex combination of every value ever recorded: the shares are
      non-negative, add up to one and follow from the recorded alphas alone. */
  lemma AverageIsConvex(p: Params, history: seq<Sample>)
    requires p.Sane() && history != []
    ensures var w := Weights(Alphas(p, history));
            && (forall i :: 0 <= i < |history| ==> 0.0 <= w[i])
            && Total(w) == 1.0
            && After(p, history).ema == Some(Weighted(w, Values(history)))
  {
    StoredIsBlend(p, history);
    WeightsAreShares(Alphas(p, history));
    BlendIsWeighted(Alphas(p, history), Values(history));
  }

  /** Whatever the timestamps: the average stays between any bounds on the values seen, the
      count is the number of updates, and rate and alpha are in range. */
  lemma RunBounds(p: Params, history: seq<Sample>, low: real, high: real)
    requires p.Sane() && history != []
    requires forall i :: 0 <= i < |history| ==> low <= history[i].value <= high
    ensures var h := After(p, history);
            && h.ema.Some? && low <= h.ema.value <= high
            && h.count == Some(|history|)
            && h.lastTime == Some(history[|history| - 1].time)
            && h.recentRate.Some? && h.recentRate.value > 0.0
            && h.lastAlpha.Some? && p.minAlpha <= h.lastAlpha.value <= p.maxAlpha
  {
    hide Times;
    AverageIsConvex(p, history);
    Unit(low);
    Unit(high);
    WeightedWithin(Weights(Alphas(p, history)), Values(history), low, high);
    StoredIsBlend(p, history);
  }

  /** The first update stores its value with the greatest weight and a rate of one. */
  lemma FirstUpdate(p: Params, s: Sample)
    requires p.Sane()
    ensures After(p, [s]) == Hash(Some(s.value), Some(1), Some(s.time), Some(1.0), Some(p.maxAlpha))
  {
    assert [s][..0] == [] && After(p, []) == EMPTY;
  }

  /** Each update after the first moves the rate a tenth of the way to one per elapsed second, or not at all if no time has
      passed; and weighs the new value by one over the updates expected in the window, as far as the limits of alpha allow:
      above the lower limit alpha is at most that, below the upper one at least. */
  lemma AlphaFollowsRate(p: Params, history: seq<Sample>)
    requires p.Sane() && |history| >= 2
    ensures var n := |history| - 1;
            var before, now, elapsed := After(p, history[..n]), After(p, history), history[n].time - history[n - 1].time;
            && before.recentRate.Some? && now.recentRate.Some? && now.lastAlpha.Some?
            && (elapsed <= 0.0 ==> now.recentRate == before.recentRate)
            && (elapsed > 0.0 ==>
                  Times(elapsed, now.recentRate.value) == 0.1 + Times(elapsed, Times(0.9, before.recentRate.value)))
            && p.minAlpha <= now.lastAlpha.value <= p.maxAlpha
            && (now.lastAlpha.value > p.minAlpha ==>
                  Times(now.lastAlpha.value, Times(now.recentRate.value, p.targetWindow)) <= 1.0)
            && (now.lastAlpha.value < p.maxAlpha ==>
                  Times(now.lastAlpha.value, Times(now.recentRate.value, p.targetWindow)) >= 1.0)
  {
    var n := |history| - 1;
    StoredIsBlend(p, history[..n]);
    var before := After(p, history[..n]);
    NextIsWritten(p, before, history[n]);
    assert After(p, history) == Next(p, before, history[n]);
    hide After, Times, Next, Written;
    NextFollowsRate(p, before, history[n]);
  }

  lemma NextFollowsRate(p: Params, h: Hash, s: Sample)
    requires p.Sane() && Written(p, h) && h.ema.Some? && Times(NextRate(h, s.time), p.targetWindow) > 0.0
    ensures var next, elapsed := Next(p, h, s), s.time - h.lastTime.value;
            && next.recentRate == Some(NextRate(h, s.time)) && next.lastAlpha.Some?
            && (elapsed <= 0.0 ==> next.recentRate == h.recentRate)
            && (elapsed > 0.0 ==>
                  Times(elapsed, next.recentRate.value) == 0.1 + Times(elapsed, Times(0.9, h.recentRate.value)))
            && p.minAlpha <= next.lastAlpha.value <= p.maxAlpha
            && (next.lastAlpha.value > p.minAlpha ==>
                  Times(next.lastAlpha.value, Times(next.recentRate.value, p.targetWindow)) <= 1.0)
            && (next.lastAlpha.value < p.maxAlpha ==>
                  Times(next.lastAlpha.value, Times(next.recentRate.value, p.targetWindow)) >= 1.0)
  {
    hide Times, Over, Smooth;
    var expected := Times(NextRate(h, s.time), p.targetWindow);
    Inverse(expected, Next(p, h, s).lastAlpha.value);
    if s.time - h.lastTime.value > 0.0 {
      SmoothInFull(s.time - h.lastTime.value, h.recentRate.value);
    }
  }

  // A share below or above one over x.
  lemma Inverse(x: real, share: real)
    requires x > 0.0
    ensures share <= Over(1.0, x) ==> Times(share, x) <= 1.0
    ensures share >= Over(1.0, x) ==> Times(share, x) >= 1.0
  {
    var q := 1.0 / x;
    assert q * x == 1.0;
    assert (q - share) * x == 1.0 - share * x;
  }

  lemma SmoothInFull(elapsed: real, recent: real)
    requires elapsed > 0.0
    ensures Times(elapsed, Smooth(Over(1.0, elapsed), recent)) == 0.1 + Times(elapsed, Times(0.9, recent))
  {
    var q := 1.0 / elapsed;
    assert elapsed * q == 1.0;
    assert elapsed * (0.1 * q + 0.9 * recent) == 0.1 * (elapsed * q) + elapsed * (0.9 * recent);
  }

  function Decay(n: nat): real {
    if n == 0 then 1.0 else Times(0.9, Decay(n - 1))
  }

  /** Under steady arrivals the error of the rate against one per gap shrinks by a tenth with
      every update. */
  lemma {:induction false} SteadyRate(p: Params, history: seq<Sample>, gap: real)
    requires p.Sane() && history != [] && gap > 0.0
    requires forall i :: 0 < i < |history| ==> history[i].time == history[i - 1].time + gap
    ensures After(p, history).recentRate.GetOr(0.0) - Over(1.0, gap)
            == Times(Decay(|history| - 1), 1.0 - Over(1.0, gap))
  {
    var n := |history| - 1;
    if n > 0 {
      SteadyRate(p, history[..n], gap);
      StoredIsBlend(p, history[..n]);
      var before := After(p, history[..n]);
      assert history[n].time - before.lastTime.value == gap;
      ShrinkError(before.recentRate.value, Over(1.0, gap), Decay(n - 1));
    }
  }

  lemma ShrinkError(recent: real, steady: real, decay: real)
    requires recent - steady == Times(decay, 1.0 - steady)
    ensures Smooth(steady, recent) - steady == Times(Times(0.9, decay), 1.0 - steady)
  {
    assert Smooth(steady, recent) - steady == 0.9 * (recent - steady);
  }

  predicate Ready(p: Params, h: Hash) {
    h.count.GetOr(0) >= p.minCount
  }

  // Readiness is reached exactly at the configured count and is never lost afterwards.
  lemma ReadyForever(p: Params, history: seq<Sample>, more: seq<Sample>)
    requires p.Sane() && history != []
    ensures Ready(p, After(p, history)) <==> |history| >= p.minCount
    ensures Ready(p, After(p, history)) ==> Ready(p, After(p, history + more))
  {
    var low, high := Bounds(history + more);
    assert forall i :: 0 <= i < |history| ==> (history + more)[i] == history[i];
    RunBounds(p, history, low, high);
    RunBounds(p, history + more, low, high);
  }

  lemma {:induction false} Bounds(history: seq<Sample>) returns (low: real, high: real)
    ensures forall i :: 0 <= i < |history| ==> low <= history[i].value <= high
  {
    if history == [] {
      low, high := 0.0, 0.0;
    } else {
      var n := |history| - 1;
      low, high := Bounds(history[..n]);
      var v := history[n].value;
      low, high := if v < low then v else low, if v > high then v else high;
      assert forall i :: 0 <= i < n ==> history[i] == history[..n][i];
    }
  }

  /** The tracker of one key. `Update` is the script, branch by branch. */
  class Tracker {
    const p: Params
    var ema: Option<real>
    var count: Option<int>
    var lastTime: Option<real>
    var recentRate: Option<real>
    var lastAlpha: Option<real>

    function Stored(): Hash
      reads this
    {
      Hash(ema, count, lastTime, recentRate, lastAlpha)
    }

    constructor (p: Params)
      ensures this.p == p && Stored() == EMPTY
    {
      this.p := p;
      ema, count, lastTime, recentRate, lastAlpha := None, None, None, None, None;
    }

    method Update(newValue: real, currentTime: real) returns (ready: bool)
      requires p.Sane() && Written(p, Stored())
      modifies this
      ensures Written(p, Stored())
      ensures old(ema.Some? ==> Times(NextRate(Stored(), currentTime), p.targetWindow) != 0.0)
      ensures Stored() == Next(p, old(Stored()), Sample(newValue, currentTime))
      ensures ready == Ready(p, Stored())
    {
      NextIsWritten(p, Stored(), Sample(newValue, currentTime));
      var newEma, newCount, newRate, alpha;
      if ema.None? {
        newEma, newCount, newRate, alpha := newValue, 1, 1.0, p.maxAlpha;
      } else {
        newCount := count.value + 1;
        if lastTime.Some? {
          var timeDiff := currentTime - lastTime.value;
          if timeDiff > 0.0 {
            var instantRate := Over(1.0, timeDiff);
            if recentRate.Some? {
              newRate := Smooth(instantRate, recentRate.value);
            } else {
              newRate := instantRate;
            }
          } else {
            newRate := recentRate.GetOr(1.0);
          }
        } else {
          newRate := 1.0;
        }
        alpha := Over(1.0, Times(newRate, p.targetWindow));
        if alpha < p.minAlpha {
          alpha := p.minAlpha;
        } else if alpha > p.maxAlpha {
          alpha := p.maxAlpha;
        }
        newEma := Mix(alpha, newValue, ema.value);
      }
      ema, count, lastTime, recentRate, lastAlpha :=
        Some(newEma), Some(newCount), Some(currentTime), Some(newRate), Some(alpha);
      ready := newCount >= p.minCount;
    }
  }
}
