/** The autoscaler's pass: a decision per chute, then the removals it queued (chute_autoscaler.py). */
module Autoscaler {
  import opened Base

  const UNDERUTILIZED_CAP := 5
  const UTILIZATION_SCALE_UP := 0.35
  const RATE_LIMIT_SCALE_UP := 0.02

  const LIMIT_OVERRIDES: map<string, nat> := map[
    "1a0d9245-582a-5cde-8f5b-2da5b9542339" := 30,
    "b5326e54-8d9e-590e-bed4-f3db35d9d4cd" := 60
  ]

  const FAILSAFE: map<string, nat> := map[
    "154ad01c-a431-5744-83c8-651215124360" := 30,
    "14a91d88-d6d6-5046-aaf4-eb3ad96b7247" := 20,
    "de510462-c319-543b-9c67-00bcf807d2a7" := 15,
    "561e4875-254d-588f-a36f-57c9cdef8961" := 15,
    "07cb1b3a-ec4d-594a-96c2-b547fddcadb0" := 15
  ]

  function FailsafeOr(chute: string, default: nat): nat {
    if chute in FAILSAFE then FAILSAFE[chute] else default
  }

  // One row of the chute query. `ownerBilled` is a private chute without legacy billing.
  datatype Info = Info(
    ownerBilled: bool, maxInstances: nat, scalingThreshold: real, newChute: bool,
    instanceCount: nat, hasRollingUpdate: bool, affineName: bool)

  datatype Metrics = Metrics(
    util5m: real, util15m: real, util1h: real,
    limited5m: real, limited15m: real, limited1h: real)

  datatype Action = ScaleUp | ScaledDown | NoAction | SkippedRollingUpdate

  // What the pass records for one chute: its action and target, the scale key it writes, and what it queues.
  datatype Decision = Decision(action: Action, target: nat, key: Option<nat>, removals: nat, additions: nat)

  function MaxReal(x: real, y: real): real {
    if x >= y then x else y
  }

  function MaxNat(x: nat, y: nat): nat {
    if x >= y then x else y
  }

  // int(n * percent / 100)
  function Percent(n: nat, percent: nat): nat {
    n * percent / 100
  }

  function DecidePrivate(info: Info, m: Metrics, bounty: bool): Decision {
    var count := info.instanceCount;
    if count > 0 then
      var basis := MaxReal(m.util5m, m.util15m);
      if basis >= info.scalingThreshold && count < info.maxInstances then
        Decision(ScaleUp, count + 1, Some(count + 1), 0, 0)
      else if basis < info.scalingThreshold && count > 1 then
        Decision(ScaledDown, count - 1, Some(count - 1), 1, 0)
      else Decision(NoAction, count, Some(count), 0, 0)
    else if bounty then Decision(ScaleUp, 1, Some(1), 0, 0)
    else Decision(NoAction, 0, Some(0), 0, 0)
  }

  function AddFor(basis: real, count: nat): nat {
    if basis >= UTILIZATION_SCALE_UP * 1.5 then MaxNat(3, Percent(count, 50))
    else if basis >= UTILIZATION_SCALE_UP * 1.25 then MaxNat(2, Percent(count, 25))
    else 1
  }

  function AddForLimits(basis: real, count: nat): nat {
    if basis >= 0.2 then MaxNat(3, Percent(count, 30))
    else if basis >= 0.1 then MaxNat(2, Percent(count, 15))
    else MaxNat(1, Percent(count, 5))
  }

  function RemoveFor(basis: real, count: nat): nat
    requires count >= UNDERUTILIZED_CAP
  {
    if count == UNDERUTILIZED_CAP then 1
    else if basis < 0.1 then MaxNat(1, Percent(count - UNDERUTILIZED_CAP, 20))
    else if basis < 0.2 then MaxNat(1, Percent(count - UNDERUTILIZED_CAP, 10))
    else 1
  }

  function Idle(chute: string, count: nat): Decision {
    var target := MaxNat(FailsafeOr(chute, UNDERUTILIZED_CAP), count);
    Decision(NoAction, target, Some(target), 0, 0)
  }

  function DecideShrink(chute: string, count: nat, basis: real): Decision
    requires count >= UNDERUTILIZED_CAP
  {
    var failsafe := FailsafeOr(chute, UNDERUTILIZED_CAP);
    var target := count - RemoveFor(basis, count);
    if target >= failsafe then Decision(ScaledDown, target, Some(target), count - target, 0)
    else if count > failsafe then Decision(ScaledDown, failsafe, Some(failsafe), count - failsafe, 0)
    else Idle(chute, count)
  }

  function NewChuteTarget(chute: string, info: Info): nat {
    var failsafe := FailsafeOr(chute, UNDERUTILIZED_CAP);
    if info.affineName then failsafe else MaxNat(10, failsafe)
  }

  function DecideNew(chute: string, info: Info): Decision {
    var target, count := NewChuteTarget(chute, info), info.instanceCount;
    if target > count then Decision(ScaleUp, target, Some(target), 0, target - count)
    else if count > target then Decision(ScaledDown, target, Some(target), count - target, 0)
    else Decision(NoAction, target, Some(target), 0, 0)
  }

  // Public chute with instances, no rolling update and not pinned away from its current size.
  function DecideByLoad(chute: string, info: Info, m: Metrics): Decision {
    var count := info.instanceCount;
    var limited, used := MaxReal(m.limited1h, m.limited15m), MaxReal(m.util1h, m.util15m);
    if used >= UTILIZATION_SCALE_UP then
      var target := MaxNat(FailsafeOr(chute, 0), count + AddFor(used, count));
      Decision(ScaleUp, target, Some(target), 0, AddFor(used, count))
    else if limited >= RATE_LIMIT_SCALE_UP then
      var target := MaxNat(FailsafeOr(chute, 0), count + AddForLimits(limited, count));
      Decision(ScaleUp, target, Some(target), 0, AddForLimits(limited, count))
    else if && count >= UNDERUTILIZED_CAP
            && m.limited5m == 0.0 && m.limited15m == 0.0 && m.limited1h == 0.0
            && !info.newChute && chute !in LIMIT_OVERRIDES then
      DecideShrink(chute, count, used)
    else if info.newChute then DecideNew(chute, info)
    else Idle(chute, count)
  }

  function Decide(chute: string, info: Info, m: Metrics, bounty: bool): Decision {
    var count := info.instanceCount;
    if info.ownerBilled then DecidePrivate(info, m, bounty)
    else if count == 0 then
      var target := MaxNat(UNDERUTILIZED_CAP, FailsafeOr(chute, UNDERUTILIZED_CAP));
      Decision(ScaleUp, target, Some(target), 0, target)
    else if info.hasRollingUpdate then Decision(SkippedRollingUpdate, count, None, 0, 0)
    else if chute in LIMIT_OVERRIDES && count < LIMIT_OVERRIDES[chute] then
      Decision(ScaleUp, LIMIT_OVERRIDES[chute], Some(LIMIT_OVERRIDES[chute]), 0, LIMIT_OVERRIDES[chute] - count)
    else if chute in LIMIT_OVERRIDES && count > LIMIT_OVERRIDES[chute] then
      Decision(ScaledDown, LIMIT_OVERRIDES[chute], Some(LIMIT_OVERRIDES[chute]), count - LIMIT_OVERRIDES[chute], 0)
    else DecideByLoad(chute, info, m)
  }

  // The recorded action tells which way the recorded target lies, and the queued removals bridge the gap.
  predicate Consistent(count: nat, d: Decision) {
    && (d.action.ScaleUp? ==> d.target > count)
    && (d.action.ScaledDown? ==> d.target < count)
    && (d.action.NoAction? ==> d.target >= count)
    && (d.action.SkippedRollingUpdate? ==> d.target == count)
    && d.removals == (if d.action.ScaledDown? then count - d.target else 0)
    && (d.key.Some? ==> d.key.value == d.target)
    && (d.key.None? <==> d.action.SkippedRollingUpdate?)
  }

  /** For every chute of the query: action, target, scale key and removals agree; and outside manual
      overrides no public chute is ever sized down below its failsafe minimum. */
  lemma DecisionsAreConsistent(chute: string, info: Info, m: Metrics, bounty: bool)
    ensures Consistent(info.instanceCount, Decide(chute, info, m, bounty))
    ensures var d := Decide(chute, info, m, bounty);
            d.action.ScaledDown? && !info.ownerBilled && chute !in LIMIT_OVERRIDES ==>
              d.target >= FailsafeOr(chute, UNDERUTILIZED_CAP)
  {
    hide Percent, DecideByLoad;
    LoadDecisionsAreConsistent(chute, info, m);
  }

  lemma LoadDecisionsAreConsistent(chute: string, info: Info, m: Metrics)
    ensures Consistent(info.instanceCount, DecideByLoad(chute, info, m))
    ensures DecideByLoad(chute, info, m).action.ScaledDown? ==>
              DecideByLoad(chute, info, m).target >= FailsafeOr(chute, UNDERUTILIZED_CAP)
  {
    hide Percent;
  }

  /** The target of a private chute respects its cap exactly when the queried count did, or when a
      count one too high is being shrunk. */
  lemma PrivateTargetsRespectCap(info: Info, m: Metrics, bounty: bool)
    requires 1 <= info.maxInstances
    ensures DecidePrivate(info, m, bounty).target <= info.maxInstances <==>
            || info.instanceCount <= info.maxInstances
            || (info.instanceCount == info.maxInstances + 1
                && MaxReal(m.util5m, m.util15m) < info.scalingThreshold)
  {
  }

  /** A private chute grows by one exactly if it is loaded and below its cap, shrinks by one exactly if it is not loaded and
      has more than one instance, and otherwise stays; an empty one is started exactly for a bounty. */
  lemma PrivateSteps(info: Info, m: Metrics, bounty: bool)
    ensures var target := DecidePrivate(info, m, bounty).target;
            var loaded := m.util5m >= info.scalingThreshold || m.util15m >= info.scalingThreshold;
            && (info.instanceCount == 0 ==> target == if bounty then 1 else 0)
            && (info.instanceCount > 0 ==>
                  && info.instanceCount - 1 <= target <= info.instanceCount + 1
                  && (target == info.instanceCount + 1 <==> loaded && info.instanceCount < info.maxInstances)
                  && (target == info.instanceCount - 1 <==> !loaded && info.instanceCount > 1))
  {
  }

  // The whole part of p percent of n, but no less than `least`.
  predicate IsShare(w: nat, n: nat, p: nat, least: nat) {
    && w >= least && n * p < 100 * (w + 1)
    && (w > least ==> 100 * w <= n * p)
  }

  lemma PercentIsShare(n: nat, p: nat, least: nat)
    ensures IsShare(MaxNat(least, Percent(n, p)), n, p, least)
  {
  }

  // A public chute that is not being updated, is not pinned, and is not new.
  predicate IsOrdinary(chute: string, info: Info) {
    && !info.ownerBilled && info.instanceCount > 0 && !info.hasRollingUpdate && !info.newChute
    && chute !in LIMIT_OVERRIDES
  }

  predicate IsIdle(m: Metrics) {
    m.util15m < 0.35 && m.util1h < 0.35 && m.limited5m == 0.0 && m.limited15m == 0.0 && m.limited1h == 0.0
  }

  /** By how much an ordinary chute grows: for its utilisation by a half but at least three, by a quarter but at least two,
      or by one; else for its rate limits by thirty, fifteen or five percent, but at least three, two or one. Its target is
      the greater of that and its failsafe. */
  lemma GrowthSteps(chute: string, info: Info, m: Metrics, bounty: bool)
    requires IsOrdinary(chute, info)
    ensures var d, count := Decide(chute, info, m, bounty), info.instanceCount;
            var used := if m.util1h >= m.util15m then m.util1h else m.util15m;
            var limited := if m.limited1h >= m.limited15m then m.limited1h else m.limited15m;
            && (d.action.ScaleUp? <==> used >= 0.35 || limited >= 0.02)
            && (d.action.ScaleUp? ==>
                  && d.target == MaxNat(FailsafeOr(chute, 0), count + d.additions)
                  && (if used >= 0.525 then IsShare(d.additions, count, 50, 3)
                      else if used >= 0.4375 then IsShare(d.additions, count, 25, 2)
                      else if used >= 0.35 then d.additions == 1
                      else if limited >= 0.2 then IsShare(d.additions, count, 30, 3)
                      else if limited >= 0.1 then IsShare(d.additions, count, 15, 2)
                      else IsShare(d.additions, count, 5, 1)))
  {
    hide Percent, IsShare;
    var count := info.instanceCount;
    PercentIsShare(count, 50, 3);
    PercentIsShare(count, 25, 2);
    PercentIsShare(count, 30, 3);
    PercentIsShare(count, 15, 2);
    PercentIsShare(count, 5, 1);
  }

  /** By how much an ordinary chute shrinks: exactly an idle one above its failsafe does, by a fifth or a tenth of what it
      has above five instances, but at least one, and never below the failsafe. */
  lemma ShrinkSteps(chute: string, info: Info, m: Metrics, bounty: bool) returns (wanted: nat)
    requires IsOrdinary(chute, info)
    ensures var d, count := Decide(chute, info, m, bounty), info.instanceCount;
            var used := if m.util1h >= m.util15m then m.util1h else m.util15m;
            var least := FailsafeOr(chute, 5);
            && (d.action.ScaledDown? <==> IsIdle(m) && count > least)
            && (d.action.ScaledDown? ==>
                  && d.target == (if count - wanted >= least then count - wanted else least)
                  && (if used < 0.1 then IsShare(wanted, count - 5, 20, 1)
                      else if used < 0.2 then IsShare(wanted, count - 5, 10, 1)
                      else wanted == 1))
  {
    hide Percent, IsShare;
    var count := info.instanceCount;
    FailsafeIsFive(chute);
    wanted := 1;
    if count > 5 {
      var used := MaxReal(m.util1h, m.util15m);
      PercentIsShare(count - 5, 20, 1);
      PercentIsShare(count - 5, 10, 1);
      PercentGrows(count - 5, 20, 100);
      PercentGrows(count - 5, 10, 100);
      wanted := RemoveFor(used, count);
      hide FailsafeOr;
    }
  }

  lemma FailsafeIsFive(chute: string)
    ensures FailsafeOr(chute, 5) >= 5 && (chute in FAILSAFE ==> FailsafeOr(chute, 5) == FailsafeOr(chute, 0) >= 15)
  {
  }

  /** What an empty or a pinned public chute is given: its failsafe minimum, or its manual number. */
  lemma FixedTargets(chute: string, info: Info, m: Metrics, bounty: bool)
    requires !info.ownerBilled
    ensures var d := Decide(chute, info, m, bounty);
            && (info.instanceCount == 0 ==> d.action.ScaleUp? && d.target == d.additions == FailsafeOr(chute, 5))
            && (info.instanceCount > 0 && info.hasRollingUpdate <==> d.action.SkippedRollingUpdate?)
            && (info.instanceCount > 0 && !info.hasRollingUpdate && chute in LIMIT_OVERRIDES ==>
                  info.instanceCount != LIMIT_OVERRIDES[chute] ==> d.target == LIMIT_OVERRIDES[chute])
  {
    FailsafeIsFive(chute);
    hide DecideByLoad;
    LoadDecisionsAreConsistent(chute, info, m);
    LoadNeverSkips(chute, info, m);
  }

  /** A new public chute without a reason to grow is sized to ten instances, or to its failsafe if that is more or the
      chute is an affine one. */
  lemma NewChuteTargets(chute: string, info: Info, m: Metrics, bounty: bool)
    requires IsOrdinary(chute, info.(newChute := false)) && info.newChute
    requires m.util1h < 0.35 && m.util15m < 0.35 && m.limited1h < 0.02 && m.limited15m < 0.02
    ensures var d, least := Decide(chute, info, m, bounty), FailsafeOr(chute, 5);
            && d.target == (if info.affineName || least > 10 then least else 10)
            && (d.action.ScaleUp? <==> d.target > info.instanceCount)
            && (d.action.ScaledDown? <==> d.target < info.instanceCount)
            && d.additions == (if d.target > info.instanceCount then d.target - info.instanceCount else 0)
  {
    hide Percent;
  }

  lemma LoadNeverSkips(chute: string, info: Info, m: Metrics)
    ensures !DecideByLoad(chute, info, m).action.SkippedRollingUpdate?
  {
  }

  // The size of an idle chute after n passes, when each time its target is met.
  function Settling(chute: string, info: Info, m: Metrics, n: nat): nat {
    if n == 0 then info.instanceCount
    else Decide(chute, info.(instanceCount := Settling(chute, info, m, n - 1)), m, false).target
  }

  /** An idle ordinary chute comes to its failsafe minimum from any size, never falls below it on the way, and stays
      there. */
  lemma {:induction false} IdleSettles(chute: string, info: Info, m: Metrics, n: nat)
    requires IsOrdinary(chute, info) && IsIdle(m)
    ensures var least, size := FailsafeOr(chute, 5), Settling(chute, info, m, n);
            && size >= 1 && (n > 0 || info.instanceCount >= least ==> size >= least)
            && (n > 0 ==> size <= least || size + n <= info.instanceCount)
            && (n >= info.instanceCount && n > 0 ==> size == least)
  {
    if n > 0 {
      IdleSettles(chute, info, m, n - 1);
      var before := info.(instanceCount := Settling(chute, info, m, n - 1));
      hide Settling;
      IdleStep(chute, before, m);
      assert Settling(chute, info, m, n) == Decide(chute, before, m, false).target by { SettlingUnfolds(chute, info, m, n); }
      hide Decide;
      FailsafeIsFive(chute);
    } else {
      FailsafeIsFive(chute);
    }
  }

  lemma SettlingUnfolds(chute: string, info: Info, m: Metrics, n: nat)
    requires n > 0
    ensures Settling(chute, info, m, n)
            == Decide(chute, info.(instanceCount := Settling(chute, info, m, n - 1)), m, false).target
  {
  }

  lemma IdleStep(chute: string, info: Info, m: Metrics)
    requires IsOrdinary(chute, info) && IsIdle(m)
    ensures var least, target := FailsafeOr(chute, 5), Decide(chute, info, m, false).target;
            least <= target && (target == least || target < info.instanceCount)
  {
    var _ := ShrinkSteps(chute, info, m, false);
    DecisionsAreConsistent(chute, info, m, false);
    FailsafeIsFive(chute);
    hide Percent;
  }

  // The utilisation a decision looks at.
  function Load(info: Info, m: Metrics): real {
    if info.ownerBilled then MaxReal(m.util5m, m.util15m) else MaxReal(m.util1h, m.util15m)
  }

  function Limited(m: Metrics): real {
    MaxReal(m.limited1h, m.limited15m)
  }

  predicate SameLimits(m: Metrics, n: Metrics) {
    m.limited5m == n.limited5m && m.limited15m == n.limited15m && m.limited1h == n.limited1h
  }

  lemma PercentGrows(n: nat, p: nat, q: nat)
    requires p <= q
    ensures Percent(n, p) <= Percent(n, q) && (q <= 100 ==> Percent(n, q) <= n)
  {
    assert n * p <= n * q;
    if q <= 100 {
      assert n * q <= n * 100;
    }
  }

  // A decision that looks at the load: not private, not empty, not updating, not pinned away from its size.
  predicate ByLoad(chute: string, info: Info) {
    && !info.ownerBilled && info.instanceCount > 0 && !info.hasRollingUpdate
    && (chute in LIMIT_OVERRIDES ==> info.instanceCount == LIMIT_OVERRIDES[chute])
  }

  // The target of the first step of scaling up for utilisation.
  function FirstStep(chute: string, count: nat): nat {
    MaxNat(FailsafeOr(chute, 0), count + 1)
  }

  // Under the rate limits of m, a chute below the utilisation threshold is given no more than the first step above it.
  predicate FirstStepIsUp(chute: string, info: Info, m: Metrics) {
    var count := info.instanceCount;
    if Limited(m) >= RATE_LIMIT_SCALE_UP then count + AddForLimits(Limited(m), count) <= FirstStep(chute, count)
    else if info.newChute then NewChuteTarget(chute, info) <= FirstStep(chute, count)
    else chute in FAILSAFE || count + 1 >= UNDERUTILIZED_CAP
  }

  // On the same side of the threshold a higher load never lowers the target.
  lemma TargetsGrow(chute: string, info: Info, m: Metrics, n: Metrics)
    requires ByLoad(chute, info) && SameLimits(m, n) && Load(info, m) <= Load(info, n)
    requires Load(info, m) >= UTILIZATION_SCALE_UP || Load(info, n) < UTILIZATION_SCALE_UP
    ensures DecideByLoad(chute, info, m).target <= DecideByLoad(chute, info, n).target
  {
    var count := info.instanceCount;
    PercentGrows(count, 25, 50);
    if count >= UNDERUTILIZED_CAP {
      PercentGrows(count - UNDERUTILIZED_CAP, 10, 20);
    }
    hide Percent, AddForLimits, NewChuteTarget;
  }

  // Below the threshold the target is within the first step exactly if it is so at every such load.
  lemma BelowFirstStep(chute: string, info: Info, m: Metrics)
    requires ByLoad(chute, info) && Load(info, m) < UTILIZATION_SCALE_UP
    ensures FirstStepIsUp(chute, info, m) <==> DecideByLoad(chute, info, m).target <= FirstStep(chute, info.instanceCount)
  {
    hide Percent, AddForLimits, NewChuteTarget;
  }

  lemma AboveFirstStep(chute: string, info: Info, m: Metrics)
    requires ByLoad(chute, info) && Load(info, m) >= UTILIZATION_SCALE_UP
    ensures DecideByLoad(chute, info, m).target >= FirstStep(chute, info.instanceCount)
    ensures Load(info, m) == UTILIZATION_SCALE_UP ==>
              DecideByLoad(chute, info, m).target == FirstStep(chute, info.instanceCount)
  {
    hide Percent, AddForLimits, NewChuteTarget;
  }

  ghost predicate FollowsLoad(chute: string, info: Info, limits: Metrics, bounty: bool) {
    forall m: Metrics, n: Metrics ::
      SameLimits(m, limits) && SameLimits(n, limits) && Load(info, m) <= Load(info, n) ==>
        Decide(chute, info, m, bounty).target <= Decide(chute, info, n, bounty).target
  }

  lemma DecidedByLoad(chute: string, info: Info, m: Metrics, bounty: bool)
    requires ByLoad(chute, info)
    ensures Decide(chute, info, m, bounty) == DecideByLoad(chute, info, m)
  {
  }

  lemma OthersFollowLoad(chute: string, info: Info, m: Metrics, n: Metrics, bounty: bool)
    requires !ByLoad(chute, info) && Load(info, m) <= Load(info, n)
    ensures Decide(chute, info, m, bounty).target <= Decide(chute, info, n, bounty).target
  {
  }

  /** For any rate limit ratios, a higher utilisation never lowers a chute's target - exactly when the target is not
      decided by the load, or what the chute is given below the threshold is within the first step above it. */
  lemma TargetsFollowLoad(chute: string, info: Info, limits: Metrics, bounty: bool)
    ensures FollowsLoad(chute, info, limits, bounty) <==> (ByLoad(chute, info) ==> FirstStepIsUp(chute, info, limits))
  {
    hide DecideByLoad, FirstStepIsUp, Decide, ByLoad;
    if !ByLoad(chute, info) {
      forall m: Metrics, n: Metrics | Load(info, m) <= Load(info, n)
        ensures Decide(chute, info, m, bounty).target <= Decide(chute, info, n, bounty).target
      {
        OthersFollowLoad(chute, info, m, n, bounty);
      }
    } else if FirstStepIsUp(chute, info, limits) {
      forall m: Metrics, n: Metrics | SameLimits(m, limits) && SameLimits(n, limits) && Load(info, m) <= Load(info, n)
        ensures Decide(chute, info, m, bounty).target <= Decide(chute, info, n, bounty).target
      {
        DecidedByLoad(chute, info, m, bounty);
        DecidedByLoad(chute, info, n, bounty);
        if Load(info, m) >= UTILIZATION_SCALE_UP || Load(info, n) < UTILIZATION_SCALE_UP {
          TargetsGrow(chute, info, m, n);
        } else {
          SameFirstStep(chute, info, m, limits);
          BelowFirstStep(chute, info, m);
          AboveFirstStep(chute, info, n);
        }
      }
    } else {
      FirstStepCanBeDown(chute, info, limits, bounty);
    }
  }

  lemma SameFirstStep(chute: string, info: Info, m: Metrics, n: Metrics)
    requires SameLimits(m, n)
    ensures FirstStepIsUp(chute, info, m) <==> FirstStepIsUp(chute, info, n)
  {
  }

  // Crossing the threshold from an idle chute.
  lemma FirstStepCanBeDown(chute: string, info: Info, limits: Metrics, bounty: bool)
    requires ByLoad(chute, info) && !FirstStepIsUp(chute, info, limits)
    ensures !FollowsLoad(chute, info, limits, bounty)
  {
    var rest := limits.(util5m := 0.0, util15m := 0.0, util1h := 0.0);
    var busy := limits.(util5m := 0.35, util15m := 0.35, util1h := 0.35);
    assert SameLimits(rest, limits) && SameLimits(busy, limits) && Load(info, rest) <= Load(info, busy);
    assert Load(info, busy) == UTILIZATION_SCALE_UP;
    hide DecideByLoad, FirstStepIsUp, Decide, ByLoad;
    SameFirstStep(chute, info, rest, limits);
    BelowFirstStep(chute, info, rest);
    AboveFirstStep(chute, info, busy);
    DecidedByLoad(chute, info, rest, bounty);
    DecidedByLoad(chute, info, busy, bounty);
  }

  // What one pass sees: the rows of its query, the metrics and the bounties.
  datatype World = World(info: map<string, Info>, metrics: map<string, Metrics>, bounties: set<string>) {
    function For(chute: string): Decision
      requires chute in info && chute in metrics
    {
      Decide(chute, info[chute], metrics[chute], chute in bounties)
    }

    // The tables after the decisions for the chutes of `order`, one after the other.
    function Fill(start: Books, order: seq<string>): Books
      requires forall c :: c in order ==> c in metrics
    {
      if order == [] then start
      else
        var chute := order[|order| - 1];
        var b := Fill(start, order[..|order| - 1]);
        if chute in info then Record(b, chute, For(chute))
        else b.(targets := b.targets[chute := UNDERUTILIZED_CAP])
    }
  }

  // The tables a pass fills. `keys` are the Redis scale keys.
  datatype Books = Books(
    actions: map<string, Action>, targets: map<string, nat>, keys: map<string, nat>,
    toDownsize: seq<(string, nat)>, candidates: seq<(string, nat)>)

  function Record(b: Books, chute: string, d: Decision): Books {
    Books(b.actions[chute := d.action],
          b.targets[chute := d.target],
          if d.key.Some? then b.keys[chute := d.key.value] else b.keys,
          b.toDownsize + (if d.removals > 0 then [(chute, d.removals)] else []),
          b.candidates + (if d.additions > 0 then [(chute, d.additions)] else []))
  }

  /** A pass over distinct chutes leaves exactly their decisions in its tables: a chute found has its
      action and target, and its scale key is the recorded target unless an update kept it out; a
      chute not found only gets the default target; everything else is untouched. */
  lemma {:induction false} PassRecordsDecisions(w: World, keys: map<string, nat>, order: seq<string>, c: string)
    requires NoDuplicates(order) && forall c :: c in order ==> c in w.metrics
    ensures var b := w.Fill(Books(map[], map[], keys, [], []), order);
            if c in order && c in w.info then
              && c in b.actions && b.actions[c] == w.For(c).action
              && c in b.targets && b.targets[c] == w.For(c).target
              && Consistent(w.info[c].instanceCount, w.For(c))
              && (if b.actions[c].SkippedRollingUpdate? then SameKey(b.keys, keys, c)
                  else c in b.keys && b.keys[c] == b.targets[c])
            else
              && c !in b.actions && SameKey(b.keys, keys, c)
              && (c in order <==> c in b.targets) && (c in order ==> b.targets[c] == UNDERUTILIZED_CAP)
  {
    hide Decide;
    if order != [] {
      var chute := order[|order| - 1];
      PassRecordsDecisions(w, keys, order[..|order| - 1], c);
      if chute in w.info {
        DecisionsAreConsistent(chute, w.info[chute], w.metrics[chute], chute in w.bounties);
      }
    }
  }

  predicate SameKey(m: map<string, nat>, n: map<string, nat>, key: string) {
    (key in m <==> key in n) && (key in m ==> m[key] == n[key])
  }

  /** Exactly the chutes that ask for instances are candidates, each once, with what they ask for. */
  lemma {:induction false} CandidatesAsk(w: World, keys: map<string, nat>, order: seq<string>)
    requires NoDuplicates(order) && forall c :: c in order ==> c in w.metrics
    ensures var candidates := w.Fill(Books(map[], map[], keys, [], []), order).candidates;
      && (forall c, n :: (c, n) in candidates <==> c in order && c in w.info && n > 0 && n == w.For(c).additions)
      && (forall i, j :: 0 <= i < j < |candidates| ==> candidates[i].0 != candidates[j].0)
  {
    hide Decide;
    if order != [] {
      CandidatesAsk(w, keys, order[..|order| - 1]);
    }
  }

  /** Exactly the sized-down chutes are queued, each once, for the difference to their target. */
  lemma {:induction false} QueueBridgesTheGap(w: World, keys: map<string, nat>, order: seq<string>)
    requires NoDuplicates(order) && forall c :: c in order ==> c in w.metrics
    ensures var queue := w.Fill(Books(map[], map[], keys, [], []), order).toDownsize;
      && (forall c, n :: (c, n) in queue <==>
            c in order && c in w.info && w.For(c).action.ScaledDown? && n == w.info[c].instanceCount - w.For(c).target)
      && (forall i, j :: 0 <= i < j < |queue| ==> queue[i].0 != queue[j].0)
  {
    hide Decide;
    if order != [] {
      var chute := order[|order| - 1];
      QueueBridgesTheGap(w, keys, order[..|order| - 1]);
      if chute in w.info {
        DecisionsAreConsistent(chute, w.info[chute], w.metrics[chute], chute in w.bounties);
      }
    }
  }

  /** One pass of the autoscaler. */
  class Pass {
    var chuteActions: map<string, Action>
    var chuteTargetCounts: map<string, nat>
    var scaleKeys: map<string, nat>
    var toDownsize: seq<(string, nat)>
    var scaleUpCandidates: seq<(string, nat)>

    function Tables(): Books
      reads this
    {
      Books(chuteActions, chuteTargetCounts, scaleKeys, toDownsize, scaleUpCandidates)
    }

    constructor (scaleKeys: map<string, nat>)
      ensures Tables() == Books(map[], map[], scaleKeys, [], [])
    {
      chuteActions, chuteTargetCounts, this.scaleKeys := map[], map[], scaleKeys;
      toDownsize, scaleUpCandidates := [], [];
    }

    method AnalyzePrivate(chute: string, info: Info, m: Metrics, bounty: bool)
      requires info.ownerBilled
      modifies this
      ensures Tables() == Record(old(Tables()), chute, Decide(chute, info, m, bounty))
    {
      if info.instanceCount > 0 {
        var utilizationBasis := MaxReal(m.util5m, m.util15m);
        if utilizationBasis >= info.scalingThreshold && info.instanceCount < info.maxInstances {
          scaleKeys := scaleKeys[chute := info.instanceCount + 1];
          chuteTargetCounts := chuteTargetCounts[chute := info.instanceCount + 1];
          chuteActions := chuteActions[chute := ScaleUp];
          return;
        } else if utilizationBasis < info.scalingThreshold && info.instanceCount > 1 {
          scaleKeys := scaleKeys[chute := info.instanceCount - 1];
          chuteTargetCounts := chuteTargetCounts[chute := info.instanceCount - 1];
          chuteActions := chuteActions[chute := ScaledDown];
          toDownsize := toDownsize + [(chute, 1)];
          return;
        }
      } else if bounty {
        scaleKeys := scaleKeys[chute := 1];
        chuteTargetCounts := chuteTargetCounts[chute := 1];
        chuteActions := chuteActions[chute := ScaleUp];
        return;
      } else {
        scaleKeys := scaleKeys[chute := 0];
        chuteTargetCounts := chuteTargetCounts[chute := 0];
        chuteActions := chuteActions[chute := NoAction];
        return;
      }
      scaleKeys := scaleKeys[chute := info.instanceCount];
      chuteTargetCounts := chuteTargetCounts[chute := info.instanceCount];
      chuteActions := chuteActions[chute := NoAction];
    }

    method AnalyzeShrink(chute: string, count: nat, utilizationBasis: real)
      requires count >= UNDERUTILIZED_CAP
      modifies this
      ensures Tables() == Record(old(Tables()), chute, DecideShrink(chute, count, utilizationBasis))
    {
      var numToRemove := 1;
      if count > UNDERUTILIZED_CAP {
        if utilizationBasis < 0.1 {
          numToRemove := MaxNat(1, Percent(count - UNDERUTILIZED_CAP, 20));
        } else if utilizationBasis < 0.2 {
          numToRemove := MaxNat(1, Percent(count - UNDERUTILIZED_CAP, 10));
        }
        PercentGrows(count - UNDERUTILIZED_CAP, 10, 20);
      }
      var failsafeMin := FailsafeOr(chute, UNDERUTILIZED_CAP);
      var targetCount := count - numToRemove;
      if targetCount < failsafeMin {
        if count > failsafeMin {
          numToRemove := count - failsafeMin;
          targetCount := failsafeMin;
        } else {
          numToRemove := 0;
          targetCount := count;
        }
      }
      if numToRemove > 0 {
        scaleKeys := scaleKeys[chute := targetCount];
        toDownsize := toDownsize + [(chute, numToRemove)];
        chuteActions := chuteActions[chute := ScaledDown];
        chuteTargetCounts := chuteTargetCounts[chute := targetCount];
      } else {
        chuteActions := chuteActions[chute := NoAction];
        targetCount := MaxNat(failsafeMin, count);
        chuteTargetCounts := chuteTargetCounts[chute := targetCount];
        scaleKeys := scaleKeys[chute := targetCount];
      }
    }

    method AnalyzeNew(chute: string, info: Info)
      modifies this
      ensures Tables() == Record(old(Tables()), chute, DecideNew(chute, info))
    {
      var failsafeMin := FailsafeOr(chute, UNDERUTILIZED_CAP);
      var targetCount := failsafeMin;
      if !info.affineName {
        targetCount := MaxNat(10, failsafeMin);
      }
      var numToAdd := if targetCount > info.instanceCount then targetCount - info.instanceCount else 0;
      scaleKeys := scaleKeys[chute := targetCount];
      chuteTargetCounts := chuteTargetCounts[chute := targetCount];
      if numToAdd >= 1 {
        scaleUpCandidates := scaleUpCandidates + [(chute, numToAdd)];
        chuteActions := chuteActions[chute := ScaleUp];
      } else if info.instanceCount > targetCount {
        toDownsize := toDownsize + [(chute, info.instanceCount - targetCount)];
        chuteActions := chuteActions[chute := ScaledDown];
      } else {
        chuteActions := chuteActions[chute := NoAction];
      }
    }

    method ScaleUpBy(chute: string, count: nat, numToAdd: nat)
      requires numToAdd > 0
      modifies this
      ensures var target := MaxNat(FailsafeOr(chute, 0), count + numToAdd);
              Tables() == Record(old(Tables()), chute, Decision(ScaleUp, target, Some(target), 0, numToAdd))
    {
      var targetCount := MaxNat(FailsafeOr(chute, 0), count + numToAdd);
      scaleUpCandidates := scaleUpCandidates + [(chute, numToAdd)];
      scaleKeys := scaleKeys[chute := targetCount];
      chuteActions := chuteActions[chute := ScaleUp];
      chuteTargetCounts := chuteTargetCounts[chute := targetCount];
    }

    method AnalyzeByLoad(chute: string, info: Info, m: Metrics)
      requires info.instanceCount > 0
      modifies this
      ensures Tables() == Record(old(Tables()), chute, DecideByLoad(chute, info, m))
    {
      var rateLimitBasis := MaxReal(m.limited1h, m.limited15m);
      var utilizationBasis := MaxReal(m.util1h, m.util15m);
      if utilizationBasis >= UTILIZATION_SCALE_UP {
        var numToAdd := 1;
        if utilizationBasis >= UTILIZATION_SCALE_UP * 1.5 {
          numToAdd := MaxNat(3, Percent(info.instanceCount, 50));
        } else if utilizationBasis >= UTILIZATION_SCALE_UP * 1.25 {
          numToAdd := MaxNat(2, Percent(info.instanceCount, 25));
        }
        ScaleUpBy(chute, info.instanceCount, numToAdd);
      } else if rateLimitBasis >= RATE_LIMIT_SCALE_UP {
        var numToAdd := 1;
        if rateLimitBasis >= 0.2 {
          numToAdd := MaxNat(3, Percent(info.instanceCount, 30));
        } else if rateLimitBasis >= 0.1 {
          numToAdd := MaxNat(2, Percent(info.instanceCount, 15));
        } else {
          numToAdd := MaxNat(1, Percent(info.instanceCount, 5));
        }
        ScaleUpBy(chute, info.instanceCount, numToAdd);
      } else if && info.instanceCount >= UNDERUTILIZED_CAP && utilizationBasis < UTILIZATION_SCALE_UP
                && m.limited5m == 0.0 && m.limited15m == 0.0 && m.limited1h == 0.0
                && !info.newChute && chute !in LIMIT_OVERRIDES {
        AnalyzeShrink(chute, info.instanceCount, utilizationBasis);
      } else if info.newChute {
        AnalyzeNew(chute, info);
      } else {
        var targetCount := MaxNat(FailsafeOr(chute, UNDERUTILIZED_CAP), info.instanceCount);
        scaleKeys := scaleKeys[chute := targetCount];
        chuteActions := chuteActions[chute := NoAction];
        chuteTargetCounts := chuteTargetCounts[chute := targetCount];
      }
    }

    method AnalyzeChute(chute: string, info: Info, m: Metrics, bounty: bool)
      modifies this
      ensures Tables() == Record(old(Tables()), chute, Decide(chute, info, m, bounty))
    {
      if info.ownerBilled {
        AnalyzePrivate(chute, info, m, bounty);
        return;
      }
      if info.instanceCount == 0 {
        var failsafeMin := FailsafeOr(chute, UNDERUTILIZED_CAP);
        var targetCount := MaxNat(UNDERUTILIZED_CAP, failsafeMin);
        scaleKeys := scaleKeys[chute := targetCount];
        chuteActions := chuteActions[chute := ScaleUp];
        chuteTargetCounts := chuteTargetCounts[chute := targetCount];
        scaleUpCandidates := scaleUpCandidates + [(chute, targetCount)];
        return;
      }
      if info.hasRollingUpdate {
        chuteActions := chuteActions[chute := SkippedRollingUpdate];
        chuteTargetCounts := chuteTargetCounts[chute := info.instanceCount];
        return;
      }
      if chute in LIMIT_OVERRIDES {
        var limit := LIMIT_OVERRIDES[chute];
        ghost var keys, targets := scaleKeys, chuteTargetCounts;
        scaleKeys := scaleKeys[chute := limit];
        chuteTargetCounts := chuteTargetCounts[chute := limit];
        if info.instanceCount < limit {
          scaleUpCandidates := scaleUpCandidates + [(chute, limit - info.instanceCount)];
          chuteActions := chuteActions[chute := ScaleUp];
          return;
        } else if info.instanceCount > limit {
          toDownsize := toDownsize + [(chute, info.instanceCount - limit)];
          chuteActions := chuteActions[chute := ScaledDown];
          return;
        }
        AnalyzeByLoad(chute, info, m);
        Overwritten(keys, chute, limit, scaleKeys[chute]);
        Overwritten(targets, chute, limit, chuteTargetCounts[chute]);
        return;
      }
      AnalyzeByLoad(chute, info, m);
    }

    /** The decision loop. Chutes the query did not return get a default target and no action. */
    method Analyze(order: seq<string>, w: World)
      requires forall c :: c in order ==> c in w.metrics
      modifies this
      ensures Tables() == w.Fill(old(Tables()), order)
    {
      hide Decide;
      for i := 0 to |order|
        invariant Tables() == w.Fill(old(Tables()), order[..i])
      {
        var chute := order[i];
        assert order[..i + 1][..i] == order[..i];
        if chute !in w.info {
          chuteTargetCounts := chuteTargetCounts[chute := UNDERUTILIZED_CAP];
          continue;
        }
        AnalyzeChute(chute, w.info[chute], w.metrics[chute], chute in w.bounties);
      }
      assert order[..|order|] == order;
    }
  }

  lemma Overwritten(m: map<string, nat>, key: string, first: nat, second: nat)
    ensures m[key := first][key := second] == m[key := second]
  {
  }
}
