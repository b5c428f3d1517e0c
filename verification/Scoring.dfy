/** Miner scores from the metrics of a scoring interval (metasync/shared.py, weights from metasync/constants.py). */
module Scoring {
  import opened Base

  // Raw or normalised features of one hotkey.
  datatype Features = Features(compute: real, invocations: real, unique: real, bounties: real)

  const COMPUTE_WEIGHT := 0.52
  const INVOCATION_WEIGHT := 0.20
  const UNIQUE_WEIGHT := 0.20
  const BOUNTY_WEIGHT := 0.08

  // Rows of the three queries.
  datatype ComputeRow = ComputeRow(hotkey: string, invocations: real, bounties: real, compute: real)
  datatype UniqueRow = UniqueRow(hotkey: string, chutes: real)
  datatype PrivateRow = PrivateRow(hotkey: string, instances: real, seconds: real, compute: real)

  function Sum(s: seq<real>): real {
    if s == [] then 0.0 else Sum(s[..|s| - 1]) + s[|s| - 1]
  }

  lemma {:induction false} SumNonNegative(s: seq<real>)
    requires forall i :: 0 <= i < |s| ==> s[i] >= 0.0
    ensures forall i :: 0 <= i < |s| ==> s[i] <= Sum(s)
    ensures Sum(s) >= 0.0
  {
    if s != [] {
      SumNonNegative(s[..|s| - 1]);
    }
  }

  lemma {:induction false} SumOver(s: seq<real>, d: real, r: seq<real>)
    requires d != 0.0 && |r| == |s| && forall i :: 0 <= i < |s| ==> r[i] == Over(s[i], d)
    ensures Sum(r) == Over(Sum(s), d)
  {
    if s != [] {
      SumOver(s[..|s| - 1], d, r[..|s| - 1]);
    }
  }

  lemma {:induction false} SumAtMost(s: seq<real>, r: seq<real>)
    requires |r| == |s| && forall i :: 0 <= i < |s| ==> s[i] <= r[i]
    ensures Sum(s) <= Sum(r)
  {
    if s != [] {
      SumAtMost(s[..|s| - 1], r[..|s| - 1]);
    }
  }

  // ---- Normalisation ----

  // The two powers are given as functions: only what is known of x^1.3 and x^2.2 on [0, 1] is used.
  ghost predicate Powers(p13: real -> real, p22: real -> real) {
    && (forall x, y :: 0.0 <= x <= y <= 1.0 ==> p13(x) <= p13(y))
    && (forall x, y :: 0.0 <= x <= y <= 1.0 ==> p22(x) <= p22(y))
    && p13(0.0) == 0.0 && p13(1.0) == 1.0 && p22(0.0) == 0.0 && p22(1.0) == 1.0
    && forall x :: 0.0 <= x <= 1.0 ==> p22(x) <= p13(x)
  }

  predicate NoneNegative(f: Features) {
    f.compute >= 0.0 && f.invocations >= 0.0 && f.unique >= 0.0 && f.bounties >= 0.0
  }

  predicate NonNegative(raw: seq<Features>) {
    forall i :: 0 <= i < |raw| ==> NoneNegative(raw[i])
  }

  // `highest` is the greatest unique count, and it is positive.
  predicate IsHighest(raw: seq<Features>, highest: real) {
    && highest > 0.0
    && (forall i :: 0 <= i < |raw| ==> raw[i].unique <= highest)
    && exists i :: 0 <= i < |raw| && raw[i].unique == highest
  }

  function ComputeOf(raw: seq<Features>): (c: seq<real>)
    ensures |c| == |raw| && forall i :: 0 <= i < |raw| ==> c[i] == raw[i].compute
  {
    seq(|raw|, i requires 0 <= i < |raw| => raw[i].compute)
  }

  function InvocationsOf(raw: seq<Features>): (c: seq<real>)
    ensures |c| == |raw| && forall i :: 0 <= i < |raw| ==> c[i] == raw[i].invocations
  {
    seq(|raw|, i requires 0 <= i < |raw| => raw[i].invocations)
  }

  function UniqueOf(raw: seq<Features>): (c: seq<real>)
    ensures |c| == |raw| && forall i :: 0 <= i < |raw| ==> c[i] == raw[i].unique
  {
    seq(|raw|, i requires 0 <= i < |raw| => raw[i].unique)
  }

  function BountiesOf(raw: seq<Features>): (c: seq<real>)
    ensures |c| == |raw| && forall i :: 0 <= i < |raw| ==> c[i] == raw[i].bounties
  {
    seq(|raw|, i requires 0 <= i < |raw| => raw[i].bounties)
  }

  // A column that sums to zero is divided by one.
  function Divisor(column: seq<real>): (d: real)
    ensures d != 0.0 && (Sum(column) != 0.0 ==> d == Sum(column)) && (Sum(column) == 0.0 ==> d == 1.0)
  {
    if Sum(column) == 0.0 then 1.0 else Sum(column)
  }

  function Curve(unique: real, highest: real, median: real, p13: real -> real, p22: real -> real): real
    requires highest != 0.0
  {
    if unique >= median then p13(Over(unique, highest)) else p22(Over(unique, highest))
  }

  function Curves(raw: seq<Features>, highest: real, median: real, p13: real -> real, p22: real -> real): (c: seq<real>)
    requires highest != 0.0
    ensures |c| == |raw| && forall i :: 0 <= i < |raw| ==> c[i] == Curve(raw[i].unique, highest, median, p13, p22)
  {
    seq(|raw|, i requires 0 <= i < |raw| => Curve(raw[i].unique, highest, median, p13, p22))
  }

  // The normalised features: shares of the total, and for the unique counts shares of the curved values.
  predicate IsNormalized(raw: seq<Features>, curves: seq<real>, norm: seq<Features>) {
    && |norm| == |curves| == |raw| && Sum(curves) != 0.0
    && forall i :: 0 <= i < |raw| ==>
         norm[i] == Features(Over(raw[i].compute, Divisor(ComputeOf(raw))),
                             Over(raw[i].invocations, Divisor(InvocationsOf(raw))),
                             Over(curves[i], Sum(curves)),
                             Over(raw[i].bounties, Divisor(BountiesOf(raw))))
  }

  function Weighted(f: Features): real {
    f.compute * COMPUTE_WEIGHT + f.invocations * INVOCATION_WEIGHT + f.unique * UNIQUE_WEIGHT + f.bounties * BOUNTY_WEIGHT
  }

  lemma OverMonotone(x: real, y: real, d: real)
    requires d > 0.0
    ensures x <= y ==> Over(x, d) <= Over(y, d)
    ensures x >= 0.0 ==> Over(x, d) >= 0.0
    ensures x > 0.0 ==> Over(x, d) > 0.0
    ensures Over(d, d) == 1.0 && Over(0.0, d) == 0.0
  {
  }

  // A curved unique count lies in [0, 1]; the highest is curved to 1, whatever the median.
  lemma CurveRange(unique: real, highest: real, median: real, p13: real -> real, p22: real -> real)
    requires Powers(p13, p22) && 0.0 <= unique <= highest && highest > 0.0
    ensures 0.0 <= Curve(unique, highest, median, p13, p22) <= 1.0
    ensures Curve(highest, highest, median, p13, p22) == 1.0
  {
    OverMonotone(unique, highest, highest);
    OverMonotone(highest, highest, highest);
    hide Over;
    var x := Over(unique, highest);
    assert p13(0.0) <= p13(x) <= p13(1.0) && p22(0.0) <= p22(x) <= p22(1.0);
  }

  lemma CurvesPositive(raw: seq<Features>, highest: real, median: real, p13: real -> real, p22: real -> real)
    requires Powers(p13, p22) && NonNegative(raw) && IsHighest(raw, highest)
    ensures var c := Curves(raw, highest, median, p13, p22);
            && Sum(c) >= 1.0 && forall i :: 0 <= i < |raw| ==> 0.0 <= c[i] <= 1.0
  {
    hide Powers, Curve;
    var c := Curves(raw, highest, median, p13, p22);
    forall i | 0 <= i < |raw| ensures 0.0 <= c[i] <= 1.0 && (raw[i].unique == highest ==> c[i] == 1.0) {
      CurveRange(raw[i].unique, highest, median, p13, p22);
    }
    SumNonNegative(c);
  }

  // More unique chutes never curve to less, also when the median falls between the two counts.
  lemma CurveMonotone(a: real, b: real, highest: real, median: real, p13: real -> real, p22: real -> real)
    requires Powers(p13, p22) && 0.0 <= b <= a <= highest && highest > 0.0
    ensures Curve(b, highest, median, p13, p22) <= Curve(a, highest, median, p13, p22)
  {
    OverMonotone(b, a, highest);
    OverMonotone(a, highest, highest);
    hide Over;
    var x, y := Over(b, highest), Over(a, highest);
    assert p13(x) <= p13(y) && p22(x) <= p22(y) && p22(y) <= p13(y) && p22(x) <= p13(x);
  }

  predicate Dominates(f: Features, g: Features) {
    f.compute >= g.compute && f.invocations >= g.invocations && f.unique >= g.unique && f.bounties >= g.bounties
  }

  /** A hotkey whose four raw features are each at least another's gets at least its pre-penalty score. */
  lemma DominanceIsRewarded(raw: seq<Features>, highest: real, median: real, p13: real -> real, p22: real -> real,
                            norm: seq<Features>, i: nat, j: nat)
    requires Powers(p13, p22) && NonNegative(raw) && IsHighest(raw, highest)
    requires IsNormalized(raw, Curves(raw, highest, median, p13, p22), norm)
    requires i < |raw| && j < |raw| && Dominates(raw[i], raw[j])
    ensures Weighted(norm[i]) >= Weighted(norm[j])
  {
    var curves := Curves(raw, highest, median, p13, p22);
    CurveMonotone(raw[i].unique, raw[j].unique, highest, median, p13, p22);
    CurvesPositive(raw, highest, median, p13, p22);
    DivisorPositive(ComputeOf(raw));
    DivisorPositive(InvocationsOf(raw));
    DivisorPositive(BountiesOf(raw));
    hide Over, Sum, Divisor, Powers, Curve, Curves;
    OverMonotone(raw[j].compute, raw[i].compute, Divisor(ComputeOf(raw)));
    OverMonotone(raw[j].invocations, raw[i].invocations, Divisor(InvocationsOf(raw)));
    OverMonotone(curves[j], curves[i], Sum(curves));
    OverMonotone(raw[j].bounties, raw[i].bounties, Divisor(BountiesOf(raw)));
    WeightedMonotone(norm[j], norm[i]);
  }

  lemma WeightedMonotone(f: Features, g: Features)
    requires Dominates(g, f)
    ensures Weighted(f) <= Weighted(g)
  {
  }

  lemma DivisorPositive(column: seq<real>)
    requires forall i :: 0 <= i < |column| ==> column[i] >= 0.0
    ensures Divisor(column) > 0.0 && Sum(column) <= Divisor(column)
  {
    SumNonNegative(column);
  }

  // ---- Pre-penalty scores ----

  function PreScores(norm: seq<Features>): (pre: seq<real>)
    ensures |pre| == |norm| && forall i :: 0 <= i < |norm| ==> pre[i] == Weighted(norm[i])
  {
    seq(|norm|, i requires 0 <= i < |norm| => Weighted(norm[i]))
  }

  // The weights are applied column by column.
  lemma {:induction false} WeightedSum(norm: seq<Features>)
    ensures Sum(PreScores(norm))
            == Sum(ComputeOf(norm)) * COMPUTE_WEIGHT + Sum(InvocationsOf(norm)) * INVOCATION_WEIGHT
               + Sum(UniqueOf(norm)) * UNIQUE_WEIGHT + Sum(BountiesOf(norm)) * BOUNTY_WEIGHT
  {
    if norm != [] {
      var n := |norm| - 1;
      var init := norm[..n];
      WeightedSum(init);
      assert PreScores(norm)[..n] == PreScores(init) && ComputeOf(norm)[..n] == ComputeOf(init);
      assert InvocationsOf(norm)[..n] == InvocationsOf(init) && UniqueOf(norm)[..n] == UniqueOf(init);
      assert BountiesOf(norm)[..n] == BountiesOf(init);
    }
  }

  lemma ShareAtMostOne(column: seq<real>, shares: seq<real>, d: real)
    requires forall i :: 0 <= i < |column| ==> column[i] >= 0.0
    requires d > 0.0 && Sum(column) <= d
    requires |shares| == |column| && forall i :: 0 <= i < |column| ==> shares[i] == Over(column[i], d)
    ensures Sum(shares) <= 1.0
    ensures forall i :: 0 <= i < |shares| ==> shares[i] >= 0.0
  {
    SumOver(column, d, shares);
    OverMonotone(Sum(column), d, d);
    forall i | 0 <= i < |shares| ensures shares[i] >= 0.0 {
      OverMonotone(column[i], column[i], d);
    }
  }

  // Every normalised feature sums to at most one, so the pre-penalty scores do too; none is negative, some is positive.
  lemma PreScoresBounded(raw: seq<Features>, highest: real, median: real, p13: real -> real, p22: real -> real,
                         norm: seq<Features>)
    requires Powers(p13, p22) && NonNegative(raw) && IsHighest(raw, highest)
    requires IsNormalized(raw, Curves(raw, highest, median, p13, p22), norm)
    ensures Sum(PreScores(norm)) <= 1.0
    ensures forall i :: 0 <= i < |raw| ==> PreScores(norm)[i] >= 0.0
    ensures exists i :: 0 <= i < |raw| && PreScores(norm)[i] > 0.0
  {
    var curves := Curves(raw, highest, median, p13, p22);
    CurvesPositive(raw, highest, median, p13, p22);
    var top :| 0 <= top < |raw| && raw[top].unique == highest;
    CurveRange(highest, highest, median, p13, p22);
    assert curves[top] == 1.0;
    ColumnsBounded(raw, curves, norm);
    TotalBounded(norm);
    hide Powers, Curve, Curves, Over, Sum, Divisor, IsHighest, NonNegative, PreScores;
    OverMonotone(1.0, 1.0, Sum(curves));
    WeightedPositive(norm, top);
  }

  lemma ColumnTotal(column: seq<real>, shares: seq<real>)
    requires |shares| == |column| && forall i :: 0 <= i < |column| ==> shares[i] == Over(column[i], Divisor(column))
    ensures Sum(shares) == if Sum(column) == 0.0 then 0.0 else 1.0
  {
    SumOver(column, Divisor(column), shares);
    if Sum(column) != 0.0 {
      OneOverItself(Sum(column));
    }
  }

  /** All pre-penalty scores together are the weights of the features that anyone has: 0.52 for compute, 0.2 for
      invocations, 0.2 for unique chutes, which someone always has, and 0.08 for bounties. */
  lemma PreScoresTotal(raw: seq<Features>, highest: real, median: real, p13: real -> real, p22: real -> real,
                       norm: seq<Features>)
    requires Powers(p13, p22) && NonNegative(raw) && IsHighest(raw, highest)
    requires IsNormalized(raw, Curves(raw, highest, median, p13, p22), norm)
    ensures Sum(PreScores(norm))
            == (if Sum(ComputeOf(raw)) > 0.0 then 0.52 else 0.0) + (if Sum(InvocationsOf(raw)) > 0.0 then 0.2 else 0.0)
               + 0.2 + (if Sum(BountiesOf(raw)) > 0.0 then 0.08 else 0.0)
  {
    hide Powers, Curve, Curves, Over, Sum, Divisor, PreScores;
    var curves := Curves(raw, highest, median, p13, p22);
    WeightedSum(norm);
    ColumnTotal(ComputeOf(raw), ComputeOf(norm));
    ColumnTotal(InvocationsOf(raw), InvocationsOf(norm));
    ColumnTotal(BountiesOf(raw), BountiesOf(norm));
    SumNonNegative(ComputeOf(raw));
    SumNonNegative(InvocationsOf(raw));
    SumNonNegative(BountiesOf(raw));
    SumOver(curves, Sum(curves), UniqueOf(norm));
    OneOverItself(Sum(curves));
  }

  lemma OneOverItself(x: real)
    requires x != 0.0
    ensures Over(x, x) == 1.0
  {
  }

  /** The unique shares of two hotkeys are as their counts over the highest one, raised to 1.3 from the median on and to 2.2
      below it. */
  lemma UniqueSharesFollowCurve(raw: seq<Features>, highest: real, median: real, p13: real -> real, p22: real -> real,
                                norm: seq<Features>, i: nat, j: nat)
    requires highest > 0.0 && i < |raw| && j < |raw|
    requires IsNormalized(raw, Curves(raw, highest, median, p13, p22), norm)
    ensures var x, y := Over(raw[i].unique, highest), Over(raw[j].unique, highest);
            Times(norm[i].unique, if raw[j].unique < median then p22(y) else p13(y))
            == Times(norm[j].unique, if raw[i].unique < median then p22(x) else p13(x))
  {
    var curves := Curves(raw, highest, median, p13, p22);
    CrossShares(curves[i], curves[j], Sum(curves));
    hide Over, Times, Sum, Divisor;
  }

  lemma CrossShares(x: real, y: real, d: real)
    requires d != 0.0
    ensures Times(Over(x, d), y) == Times(Over(y, d), x)
  {
    assert x / d * y == x * y / d;
  }

  lemma ColumnsBounded(raw: seq<Features>, curves: seq<real>, norm: seq<Features>)
    requires NonNegative(raw) && IsNormalized(raw, curves, norm)
    requires Sum(curves) > 0.0 && forall i :: 0 <= i < |curves| ==> curves[i] >= 0.0
    ensures Sum(ComputeOf(norm)) <= 1.0 && Sum(InvocationsOf(norm)) <= 1.0
    ensures Sum(UniqueOf(norm)) <= 1.0 && Sum(BountiesOf(norm)) <= 1.0
    ensures NonNegative(norm)
  {
    hide Over, Sum, Divisor;
    DivisorPositive(ComputeOf(raw));
    DivisorPositive(InvocationsOf(raw));
    DivisorPositive(BountiesOf(raw));
    ShareAtMostOne(ComputeOf(raw), ComputeOf(norm), Divisor(ComputeOf(raw)));
    ShareAtMostOne(InvocationsOf(raw), InvocationsOf(norm), Divisor(InvocationsOf(raw)));
    ShareAtMostOne(curves, UniqueOf(norm), Sum(curves));
    ShareAtMostOne(BountiesOf(raw), BountiesOf(norm), Divisor(BountiesOf(raw)));
    forall i | 0 <= i < |norm| ensures NoneNegative(norm[i]) {
      assert ComputeOf(norm)[i] >= 0.0 && InvocationsOf(norm)[i] >= 0.0;
      assert UniqueOf(norm)[i] >= 0.0 && BountiesOf(norm)[i] >= 0.0;
    }
  }

  lemma TotalBounded(norm: seq<Features>)
    requires Sum(ComputeOf(norm)) <= 1.0 && Sum(InvocationsOf(norm)) <= 1.0
    requires Sum(UniqueOf(norm)) <= 1.0 && Sum(BountiesOf(norm)) <= 1.0
    ensures Sum(PreScores(norm)) <= 1.0
  {
    WeightedSum(norm);
    hide Sum;
  }

  lemma WeightedPositive(norm: seq<Features>, top: nat)
    requires top < |norm| && NonNegative(norm) && norm[top].unique > 0.0
    ensures forall i :: 0 <= i < |norm| ==> Weighted(norm[i]) >= 0.0
    ensures Weighted(norm[top]) > 0.0
  {
  }

  // ---- One hotkey per coldkey ----

  // The hotkey that comes first among those of its coldkey: greatest score, and the earliest of equals.
  predicate IsBest(pre: seq<real>, coldkeys: seq<string>, i: nat)
    requires i < |pre| == |coldkeys|
  {
    forall j :: 0 <= j < |pre| && coldkeys[j] == coldkeys[i] && j != i ==> pre[j] < pre[i] || (pre[j] == pre[i] && i < j)
  }

  function Penalized(pre: seq<real>, coldkeys: seq<string>): (r: seq<real>)
    requires |pre| == |coldkeys|
    ensures |r| == |pre|
    ensures forall i :: 0 <= i < |pre| ==> r[i] == if IsBest(pre, coldkeys, i) then pre[i] else 0.0
  {
    seq(|pre|, i requires 0 <= i < |pre| => if IsBest(pre, coldkeys, i) then pre[i] else 0.0)
  }

  predicate IsFinal(penalized: seq<real>, final: seq<Option<real>>) {
    && Sum(penalized) != 0.0 && |final| == |penalized|
    && forall i :: 0 <= i < |final| ==>
         final[i] == if penalized[i] > 0.0 then Some(Over(penalized[i], Sum(penalized))) else None
  }

  function ScoreOf(final: seq<Option<real>>): (r: seq<real>)
    ensures |r| == |final| && forall i :: 0 <= i < |r| ==> r[i] == final[i].GetOr(0.0)
  {
    seq(|final|, i requires 0 <= i < |final| => final[i].GetOr(0.0))
  }

  // The best of a coldkey is found below any of its hotkeys.
  lemma {:induction false} BestAmong(pre: seq<real>, coldkeys: seq<string>, coldkey: string, n: nat) returns (b: nat)
    requires |pre| == |coldkeys| && n <= |pre| && coldkey in coldkeys[..n]
    ensures b < n && coldkeys[b] == coldkey
    ensures forall j :: 0 <= j < n && coldkeys[j] == coldkey && j != b ==> pre[j] < pre[b] || (pre[j] == pre[b] && b < j)
  {
    assert coldkeys[..n] == coldkeys[..n - 1] + [coldkeys[n - 1]];
    if coldkey in coldkeys[..n - 1] {
      b := BestAmong(pre, coldkeys, coldkey, n - 1);
      if coldkeys[n - 1] == coldkey && pre[n - 1] > pre[b] {
        b := n - 1;
      }
    } else {
      b := n - 1;
    }
  }

  // What the final scores promise.
  ghost predicate IsFair(pre: seq<real>, coldkeys: seq<string>, final: seq<Option<real>>) {
    && |final| == |pre| == |coldkeys| && Sum(ScoreOf(final)) == 1.0
    && (forall i :: 0 <= i < |final| && final[i].Some? ==> final[i].value > 0.0 && final[i].value >= pre[i])
    && (forall i, j :: 0 <= i < |final| && 0 <= j < |final| && final[i].Some? && coldkeys[j] == coldkeys[i] ==>
          pre[j] <= pre[i] && (final[j].Some? ==> j == i))
    && forall j :: 0 <= j < |pre| && pre[j] > 0.0 ==>
         exists i :: 0 <= i < |final| && coldkeys[i] == coldkeys[j] && final[i].Some?
  }

  /**
    * What the scores promise, from the pre-penalty scores on: the final scores are positive and sum to one; a coldkey
    * keeps at most one scoring hotkey, exactly one if any of its hotkeys had a positive score, and no hotkey of that
    * coldkey had a greater pre-penalty score; and no survivor's score fell.
    */
  lemma FinalScores(pre: seq<real>, coldkeys: seq<string>, final: seq<Option<real>>)
    requires |pre| == |coldkeys| && Sum(pre) <= 1.0
    requires forall i :: 0 <= i < |pre| ==> pre[i] >= 0.0
    requires exists i :: 0 <= i < |pre| && pre[i] > 0.0
    requires IsFinal(Penalized(pre, coldkeys), final)
    ensures IsFair(pre, coldkeys, final)
  {
    PenaltyTotal(pre, coldkeys);
    SharesOfTotal(Penalized(pre, coldkeys), final);
    FinalIffBest(pre, coldkeys, final);
    OnePerColdkey(pre, coldkeys, final);
    hide Sum, IsBest, IsFinal, Penalized, ScoreOf;
  }

  lemma FinalIffBest(pre: seq<real>, coldkeys: seq<string>, final: seq<Option<real>>)
    requires |pre| == |coldkeys| && IsFinal(Penalized(pre, coldkeys), final)
    ensures forall i :: 0 <= i < |final| ==> (final[i].Some? <==> IsBest(pre, coldkeys, i) && pre[i] > 0.0)
    ensures forall i :: 0 <= i < |final| && final[i].Some? ==> Penalized(pre, coldkeys)[i] == pre[i]
  {
    hide IsBest, Sum, Over;
  }

  lemma OnePerColdkey(pre: seq<real>, coldkeys: seq<string>, final: seq<Option<real>>)
    requires |final| == |pre| == |coldkeys|
    requires forall i :: 0 <= i < |final| ==> (final[i].Some? <==> IsBest(pre, coldkeys, i) && pre[i] > 0.0)
    ensures forall j :: 0 <= j < |pre| && pre[j] > 0.0 ==>
              exists i :: 0 <= i < |final| && coldkeys[i] == coldkeys[j] && final[i].Some?
    ensures forall i, j :: 0 <= i < |final| && 0 <= j < |final| && final[i].Some? && coldkeys[j] == coldkeys[i] ==>
              pre[j] <= pre[i] && (final[j].Some? ==> j == i)
  {
    hide IsBest;
    forall j | 0 <= j < |pre| && pre[j] > 0.0
      ensures exists i :: 0 <= i < |final| && coldkeys[i] == coldkeys[j] && final[i].Some?
    {
      var i := KeptOf(pre, coldkeys, j);
      assert final[i].Some?;
    }
    forall i, j | 0 <= i < |final| && 0 <= j < |final| && final[i].Some? && coldkeys[j] == coldkeys[i]
      ensures pre[j] <= pre[i] && (final[j].Some? ==> j == i)
    {
      BestIsGreatest(pre, coldkeys, i, j);
    }
  }

  lemma SharesOfTotal(penalized: seq<real>, final: seq<Option<real>>)
    requires IsFinal(penalized, final) && 0.0 < Sum(penalized) <= 1.0
    requires forall i :: 0 <= i < |penalized| ==> penalized[i] >= 0.0
    ensures Sum(ScoreOf(final)) == 1.0
    ensures forall i :: 0 <= i < |final| && final[i].Some? ==> final[i].value > 0.0 && final[i].value >= penalized[i]
  {
    var total := Sum(penalized);
    hide Sum, Over;
    forall i | 0 <= i < |final|
      ensures ScoreOf(final)[i] == Over(penalized[i], total)
      ensures final[i].Some? ==> final[i].value > 0.0 && final[i].value >= penalized[i]
    {
      OverMonotone(penalized[i], penalized[i], total);
      OverGrows(penalized[i], total);
    }
    SumOver(penalized, total, ScoreOf(final));
    OverMonotone(0.0, 0.0, total);
  }

  lemma BestIsGreatest(pre: seq<real>, coldkeys: seq<string>, i: nat, j: nat)
    requires i < |pre| == |coldkeys| && j < |pre| && coldkeys[j] == coldkeys[i] && IsBest(pre, coldkeys, i)
    ensures pre[j] <= pre[i] && (IsBest(pre, coldkeys, j) ==> j == i)
  {
  }

  lemma OverGrows(x: real, d: real)
    requires x >= 0.0 && 0.0 < d <= 1.0
    ensures Over(x, d) >= x
  {
    var q := x / d;
    assert q * d == x && (q < x ==> q * d < x * d) && x * d <= x;
  }

  lemma KeptOf(pre: seq<real>, coldkeys: seq<string>, j: nat) returns (i: nat)
    requires j < |pre| == |coldkeys|
    ensures i < |pre| && coldkeys[i] == coldkeys[j] && IsBest(pre, coldkeys, i) && pre[i] >= pre[j]
  {
    assert coldkeys[..|pre|] == coldkeys && coldkeys[j] in coldkeys;
    i := BestAmong(pre, coldkeys, coldkeys[j], |pre|);
  }

  lemma PenaltyTotal(pre: seq<real>, coldkeys: seq<string>)
    requires |pre| == |coldkeys| && Sum(pre) <= 1.0
    requires forall i :: 0 <= i < |pre| ==> pre[i] >= 0.0
    requires exists i :: 0 <= i < |pre| && pre[i] > 0.0
    ensures 0.0 < Sum(Penalized(pre, coldkeys)) <= 1.0
  {
    var j :| 0 <= j < |pre| && pre[j] > 0.0;
    var i := KeptOf(pre, coldkeys, j);
    SumAtMost(Penalized(pre, coldkeys), pre);
    SumNonNegative(Penalized(pre, coldkeys));
  }

  // ---- The raw features, from the rows of the three queries ----

  // Truncation toward zero.
  function Truncate(x: real): (r: int)
    ensures x >= 0.0 ==> r as real <= x < (r + 1) as real
    ensures x < 0.0 ==> (r - 1) as real < x <= r as real
  {
    if x >= 0.0 then x.Floor else -((-x).Floor)
  }

  // Features of a hotkey: its last rows in the first two queries and the sum of its rows in the third.
  function RawOf(c: seq<ComputeRow>, u: seq<UniqueRow>, p: seq<PrivateRow>, h: string): Features {
    if p != [] then
      var last := p[|p| - 1];
      var f := RawOf(c, u, p[..|p| - 1], h);
      if last.hotkey == h then
        f.(bounties := f.bounties + last.instances, compute := f.compute + last.compute,
           invocations := f.invocations + Truncate(last.seconds) as real)
      else f
    else if u != [] then
      var last := u[|u| - 1];
      if last.hotkey == h then RawOf(c, u[..|u| - 1], [], h).(unique := last.chutes) else RawOf(c, u[..|u| - 1], [], h)
    else if c != [] then
      var last := c[|c| - 1];
      if last.hotkey == h then Features(last.compute, last.invocations, 0.0, last.bounties) else RawOf(c[..|c| - 1], [], [], h)
    else Features(0.0, 0.0, 0.0, 0.0)
  }

  method ReadCompute(c: seq<ComputeRow>) returns (hotkeys: seq<string>, raw: map<string, Features>)
    ensures NoDuplicates(hotkeys) && forall h :: h in raw <==> h in hotkeys
    ensures forall h :: h in hotkeys <==> h != "" && exists i :: 0 <= i < |c| && c[i].hotkey == h
    ensures forall h :: h in hotkeys ==> raw[h] == RawOf(c, [], [], h)
  {
    hotkeys, raw := [], map[];
    for n := 0 to |c|
      invariant NoDuplicates(hotkeys) && forall h :: h in raw <==> h in hotkeys
      invariant forall h :: h in hotkeys <==> h != "" && exists i :: 0 <= i < n && c[i].hotkey == h
      invariant forall h :: h in hotkeys ==> raw[h] == RawOf(c[..n], [], [], h)
    {
      var row := c[n];
      assert c[..n + 1][..n] == c[..n];
      if row.hotkey != "" {
        if row.hotkey !in hotkeys {
          hotkeys := hotkeys + [row.hotkey];
        }
        raw := raw[row.hotkey := Features(row.compute, row.invocations, 0.0, row.bounties)];
      }
    }
    assert c[..|c|] == c;
  }

  method ReadUnique(c: seq<ComputeRow>, u: seq<UniqueRow>, given: map<string, Features>)
    returns (raw: map<string, Features>, highest: real)
    requires "" !in given && forall h :: h in given ==> given[h] == RawOf(c, [], [], h)
    ensures raw.Keys == given.Keys && forall h :: h in raw ==> raw[h] == RawOf(c, u, [], h)
    ensures highest >= 0.0 && forall i :: 0 <= i < |u| && u[i].hotkey in given ==> u[i].chutes <= highest
    ensures highest > 0.0 ==> exists i :: 0 <= i < |u| && u[i].hotkey in given && u[i].chutes == highest
  {
    raw, highest := given, 0.0;
    for n := 0 to |u|
      invariant raw.Keys == given.Keys && forall h :: h in raw ==> raw[h] == RawOf(c, u[..n], [], h)
      invariant highest >= 0.0 && forall i :: 0 <= i < n && u[i].hotkey in given ==> u[i].chutes <= highest
      invariant highest > 0.0 ==> exists i :: 0 <= i < n && u[i].hotkey in given && u[i].chutes == highest
    {
      var row := u[n];
      assert u[..n + 1][..n] == u[..n];
      if row.hotkey != "" && row.hotkey in raw {
        raw := raw[row.hotkey := raw[row.hotkey].(unique := row.chutes)];
        if row.chutes > highest {
          highest := row.chutes;
        }
      }
    }
    assert u[..|u|] == u;
  }

  method ReadPrivate(c: seq<ComputeRow>, u: seq<UniqueRow>, p: seq<PrivateRow>, given: map<string, Features>)
    returns (raw: map<string, Features>)
    requires forall h :: h in given ==> given[h] == RawOf(c, u, [], h)
    ensures raw.Keys == given.Keys && forall h :: h in raw ==> raw[h] == RawOf(c, u, p, h)
  {
    raw := given;
    for n := 0 to |p|
      invariant raw.Keys == given.Keys && forall h :: h in raw ==> raw[h] == RawOf(c, u, p[..n], h)
    {
      var row := p[n];
      assert p[..n + 1][..n] == p[..n];
      if row.hotkey in raw {
        var f := raw[row.hotkey];
        raw := raw[row.hotkey := f.(bounties := f.bounties + row.instances, compute := f.compute + row.compute)];
        f := raw[row.hotkey];
        raw := raw[row.hotkey := f.(invocations := f.invocations + Truncate(row.seconds) as real)];
      }
    }
    assert p[..|p|] == p;
  }

  predicate RowsNonNegative(c: seq<ComputeRow>, u: seq<UniqueRow>, p: seq<PrivateRow>) {
    && (forall i :: 0 <= i < |c| ==> c[i].invocations >= 0.0 && c[i].bounties >= 0.0 && c[i].compute >= 0.0)
    && (forall i :: 0 <= i < |u| ==> u[i].chutes >= 0.0)
    && forall i :: 0 <= i < |p| ==> p[i].instances >= 0.0 && p[i].seconds >= 0.0 && p[i].compute >= 0.0
  }

  lemma {:induction false} RawNonNegative(c: seq<ComputeRow>, u: seq<UniqueRow>, p: seq<PrivateRow>, h: string)
    requires RowsNonNegative(c, u, p)
    ensures NoneNegative(RawOf(c, u, p, h))
  {
    if p != [] {
      RawNonNegative(c, u, p[..|p| - 1], h);
    } else if u != [] {
      RawNonNegative(c, u[..|u| - 1], [], h);
    } else if c != [] {
      RawNonNegative(c[..|c| - 1], [], [], h);
    }
  }

  // The sum of a column over the rows of a hotkey.
  function SumBy(p: seq<PrivateRow>, h: string, column: PrivateRow -> real): real {
    if p == [] then 0.0
    else
      var last := p[|p| - 1];
      SumBy(p[..|p| - 1], h, column) + if last.hotkey == h then column(last) else 0.0
  }

  /** What a hotkey's private instances add to the last of its rows in the first query: their compute to its compute, their
      number to its bounties, and their whole seconds to its invocations. */
  lemma {:induction false} PrivateWorkCounts(c: seq<ComputeRow>, u: seq<UniqueRow>, p: seq<PrivateRow>, h: string, i: nat)
    requires i < |c| && c[i].hotkey == h && forall j :: i < j < |c| ==> c[j].hotkey != h
    ensures var f := RawOf(c, u, p, h);
            && f.compute == c[i].compute + SumBy(p, h, (r: PrivateRow) => r.compute)
            && f.bounties == c[i].bounties + SumBy(p, h, (r: PrivateRow) => r.instances)
            && f.invocations == c[i].invocations + SumBy(p, h, (r: PrivateRow) => Truncate(r.seconds) as real)
    decreases |p|, |u|, |c|
  {
    if p != [] {
      PrivateWorkCounts(c, u, p[..|p| - 1], h, i);
    } else if u != [] {
      PrivateWorkCounts(c, u[..|u| - 1], [], h, i);
    } else if i < |c| - 1 {
      PrivateWorkCounts(c[..|c| - 1], [], [], h, i);
    }
  }

  // The unique count of a hotkey is that of its row, when the query returns a hotkey once.
  lemma {:induction false} RawUnique(c: seq<ComputeRow>, u: seq<UniqueRow>, p: seq<PrivateRow>, h: string)
    requires forall i, j :: 0 <= i < j < |u| ==> u[i].hotkey != u[j].hotkey
    ensures forall i :: 0 <= i < |u| && u[i].hotkey == h ==> RawOf(c, u, p, h).unique == u[i].chutes
    ensures (forall i :: 0 <= i < |u| ==> u[i].hotkey != h) ==> RawOf(c, u, p, h).unique == 0.0
  {
    if p != [] {
      RawUnique(c, u, p[..|p| - 1], h);
    } else if u != [] {
      RawUnique(c, u[..|u| - 1], [], h);
    } else if c != [] {
      RawUnique(c[..|c| - 1], [], [], h);
    }
  }

  /** The raw features in order of first appearance, and the greatest unique count among them. */
  method Collect(c: seq<ComputeRow>, u: seq<UniqueRow>, p: seq<PrivateRow>)
    returns (hotkeys: seq<string>, raw: seq<Features>, highest: real)
    requires RowsNonNegative(c, u, p) && forall i, j :: 0 <= i < j < |u| ==> u[i].hotkey != u[j].hotkey
    ensures NoDuplicates(hotkeys) && |raw| == |hotkeys|
    ensures forall h :: h in hotkeys <==> h != "" && exists i :: 0 <= i < |c| && c[i].hotkey == h
    ensures forall i :: 0 <= i < |raw| ==> raw[i] == RawOf(c, u, p, hotkeys[i])
    ensures NonNegative(raw)
    ensures IsHighest(raw, highest) <==> exists i :: 0 <= i < |raw| && raw[i].unique > 0.0
    ensures IsHighest(raw, highest) <==> highest > 0.0
    ensures highest >= 0.0
  {
    var rows: map<string, Features>;
    hotkeys, rows := ReadCompute(c);
    rows, highest := ReadUnique(c, u, rows);
    rows := ReadPrivate(c, u, p, rows);
    hide RawOf;
    raw := seq(|hotkeys|, i requires 0 <= i < |hotkeys| && hotkeys[i] in rows => rows[hotkeys[i]]);
    CollectedHighest(c, u, p, hotkeys, raw, highest);
  }

  lemma CollectedHighest(c: seq<ComputeRow>, u: seq<UniqueRow>, p: seq<PrivateRow>,
                         hotkeys: seq<string>, raw: seq<Features>, highest: real)
    requires RowsNonNegative(c, u, p) && forall i, j :: 0 <= i < j < |u| ==> u[i].hotkey != u[j].hotkey
    requires |raw| == |hotkeys| && forall i :: 0 <= i < |raw| ==> raw[i] == RawOf(c, u, p, hotkeys[i])
    requires highest >= 0.0 && forall i :: 0 <= i < |u| && u[i].hotkey in hotkeys ==> u[i].chutes <= highest
    requires highest > 0.0 ==> exists i :: 0 <= i < |u| && u[i].hotkey in hotkeys && u[i].chutes == highest
    ensures NonNegative(raw)
    ensures IsHighest(raw, highest) <==> exists i :: 0 <= i < |raw| && raw[i].unique > 0.0
    ensures IsHighest(raw, highest) <==> highest > 0.0
    ensures highest >= 0.0
  {
    hide RawOf;
    forall i | 0 <= i < |raw| ensures NoneNegative(raw[i]) && raw[i].unique <= highest {
      RawNonNegative(c, u, p, hotkeys[i]);
      RawUnique(c, u, p, hotkeys[i]);
      assert hotkeys[i] in hotkeys;
    }
    if highest > 0.0 {
      var k :| 0 <= k < |u| && u[k].hotkey in hotkeys && u[k].chutes == highest;
      var i :| 0 <= i < |hotkeys| && hotkeys[i] == u[k].hotkey;
      RawUnique(c, u, p, hotkeys[i]);
      assert raw[i].unique == highest;
    }
  }

  // ---- The computation, in the order of the source ----

  predicate Ascending(s: seq<real>) {
    forall i, j :: 0 <= i < j < |s| ==> s[i] <= s[j]
  }

  function InsertAt<T>(s: seq<T>, at: nat, x: T): (r: seq<T>)
    requires at <= |s|
    ensures |r| == |s| + 1 && r[at] == x
    ensures forall q :: 0 <= q < |s| ==> (q < at ==> r[q] == s[q]) && (at <= q ==> r[q + 1] == s[q])
  {
    s[..at] + [x] + s[at..]
  }

  lemma InsertKeepsAscending(s: seq<real>, at: nat, x: real)
    requires Ascending(s) && at <= |s|
    requires forall q :: 0 <= q < at ==> s[q] <= x
    requires forall q :: at <= q < |s| ==> x <= s[q]
    ensures Ascending(InsertAt(s, at, x)) && multiset(InsertAt(s, at, x)) == multiset(s) + multiset{x}
  {
    var r := InsertAt(s, at, x);
    assert multiset(r) == multiset(s) + multiset{x} by {
      assert s == s[..at] + s[at..];
    }
    forall i, j | 0 <= i < j < |r| ensures r[i] <= r[j] {
      assert i < at ==> r[i] == s[i];
      assert i > at ==> r[i] == s[i - 1];
      assert j < at ==> r[j] == s[j];
      assert j > at ==> r[j] == s[j - 1];
    }
  }

  // The non-zero unique counts.
  function Uniques(raw: seq<Features>): seq<real> {
    if raw == [] then []
    else
      var last := raw[|raw| - 1].unique;
      if last != 0.0 then Uniques(raw[..|raw| - 1]) + [last] else Uniques(raw[..|raw| - 1])
  }

  // Each count but zero is listed as often as it occurs.
  lemma {:induction false} UniquesListCounts(raw: seq<Features>, x: real)
    ensures multiset(Uniques(raw))[x] == if x == 0.0 then 0 else multiset(UniqueOf(raw))[x]
  {
    if raw != [] {
      var n := |raw| - 1;
      UniquesListCounts(raw[..n], x);
      assert UniqueOf(raw) == UniqueOf(raw[..n]) + [raw[n].unique];
    }
  }

  lemma UniquesGrow(raw: seq<Features>, n: nat)
    requires n < |raw|
    ensures Uniques(raw[..n + 1]) == Uniques(raw[..n]) + if raw[n].unique != 0.0 then [raw[n].unique] else []
  {
    assert raw[..n + 1][..n] == raw[..n];
  }

  method SortUniques(raw: seq<Features>) returns (sorted: seq<real>)
    ensures Ascending(sorted) && multiset(sorted) == multiset(Uniques(raw))
  {
    sorted := [];
    for i := 0 to |raw|
      invariant Ascending(sorted) && multiset(sorted) == multiset(Uniques(raw[..i]))
    {
      UniquesGrow(raw, i);
      hide Ascending, Uniques;
      if raw[i].unique != 0.0 {
        sorted := InsertSorted(sorted, raw[i].unique);
      }
    }
    assert raw[..|raw|] == raw;
  }

  method InsertSorted(s: seq<real>, x: real) returns (r: seq<real>)
    requires Ascending(s)
    ensures Ascending(r) && multiset(r) == multiset(s) + multiset{x}
  {
    var at := |s|;
    while at > 0 && x < s[at - 1]
      invariant 0 <= at <= |s| && forall q :: at <= q < |s| ==> x <= s[q]
    {
      at := at - 1;
    }
    InsertKeepsAscending(s, at, x);
    r := InsertAt(s, at, x);
  }

  // At least half of the counts are on either side, both included; the mean of the middle two if there are two.
  predicate IsMedian(sorted: seq<real>, median: real) {
    && (sorted == [] ==> median == 0.0)
    && (forall i :: 0 <= i < |sorted| && 2 * i < |sorted| ==> sorted[i] <= median)
    && (forall i :: 0 <= i < |sorted| && 2 * i >= |sorted| ==> median <= sorted[i])
    && (|sorted| % 2 == 1 ==> median == sorted[|sorted| / 2])
    && (|sorted| % 2 == 0 && sorted != [] ==> median + median == sorted[|sorted| / 2 - 1] + sorted[|sorted| / 2])
  }

  method Median(sorted: seq<real>) returns (median: real)
    requires Ascending(sorted)
    ensures IsMedian(sorted, median)
    ensures |sorted| % 2 == 1 ==> median == sorted[|sorted| / 2]
  {
    var n := |sorted|;
    if n > 0 {
      if n % 2 == 0 {
        median := (sorted[n / 2 - 1] + sorted[n / 2]) / 2.0;
      } else {
        median := sorted[n / 2];
      }
    } else {
      median := 0.0;
    }
  }

  method SumOf(s: seq<real>) returns (total: real)
    ensures total == Sum(s)
  {
    total := 0.0;
    for i := 0 to |s|
      invariant total == Sum(s[..i])
    {
      assert s[..i + 1][..i] == s[..i];
      total := total + s[i];
    }
    assert s[..|s|] == s;
  }

  method TotalOrOne(s: seq<real>) returns (total: real)
    ensures total == Divisor(s)
  {
    total := SumOf(s);
    if total == 0.0 {
      total := 1.0;
    }
  }

  method Normalize(raw: seq<Features>, highest: real, median: real, p13: real -> real, p22: real -> real)
    returns (norm: seq<Features>)
    requires Powers(p13, p22) && NonNegative(raw) && IsHighest(raw, highest)
    ensures IsNormalized(raw, Curves(raw, highest, median, p13, p22), norm)
  {
    var computes := TotalOrOne(ComputeOf(raw));
    var invocations := TotalOrOne(InvocationsOf(raw));
    var bounties := TotalOrOne(BountiesOf(raw));
    ghost var curves := Curves(raw, highest, median, p13, p22);
    CurvesPositive(raw, highest, median, p13, p22);
    hide Powers, NonNegative, Sum, Divisor, Over, Curve, Curves;
    norm := [];
    for i := 0 to |raw|
      invariant |norm| == i
      invariant forall j :: 0 <= j < i ==> norm[j] == Features(Over(raw[j].compute, computes), Over(raw[j].invocations, invocations),
                                                              curves[j], Over(raw[j].bounties, bounties))
    {
      norm := norm + [Features(Over(raw[i].compute, computes), Over(raw[i].invocations, invocations),
                               Curve(raw[i].unique, highest, median, p13, p22), Over(raw[i].bounties, bounties))];
    }
    assert UniqueOf(norm) == curves;
    var uniqueSum := SumOf(UniqueOf(norm));
    for i := 0 to |norm|
      invariant |norm| == |raw|
      invariant forall j :: 0 <= j < |raw| ==> norm[j] == Features(
                  Over(raw[j].compute, computes), Over(raw[j].invocations, invocations),
                  if j < i then Over(curves[j], uniqueSum) else curves[j], Over(raw[j].bounties, bounties))
    {
      norm := norm[i := norm[i].(unique := Over(norm[i].unique, uniqueSum))];
    }
  }

  predicate Precedes(pre: seq<real>, i: nat, j: nat)
    requires i < |pre| && j < |pre|
  {
    pre[i] > pre[j] || (pre[i] == pre[j] && i < j)
  }

  predicate IsOrder(order: seq<nat>, pre: seq<real>) {
    && |order| <= |pre| && (forall q :: 0 <= q < |order| ==> order[q] < |order|)
    && forall q, r :: 0 <= q < r < |order| ==> Precedes(pre, order[q], order[r])
  }

  // Positions by descending score; equal scores keep their order.
  method SortDescending(pre: seq<real>) returns (order: seq<nat>)
    ensures IsOrder(order, pre) && |order| == |pre|
    ensures forall i: nat :: i < |pre| ==> i in order
  {
    order := [];
    for n := 0 to |pre|
      invariant IsOrder(order, pre) && |order| == n
      invariant forall i: nat :: i < n ==> i in order
    {
      var at := n;
      while at > 0 && pre[order[at - 1]] < pre[n]
        invariant 0 <= at <= n
        invariant forall q :: at <= q < n ==> pre[order[q]] < pre[n]
      {
        at := at - 1;
      }
      InsertKeepsOrder(order, pre, at);
      order := InsertAt(order, at, n);
    }
  }

  lemma InsertKeepsOrder(order: seq<nat>, pre: seq<real>, at: nat)
    requires IsOrder(order, pre) && at <= |order| < |pre|
    requires at > 0 ==> pre[order[at - 1]] >= pre[|order|]
    requires forall q :: at <= q < |order| ==> pre[order[q]] < pre[|order|]
    requires forall i: nat :: i < |order| ==> i in order
    ensures IsOrder(InsertAt(order, at, |order|), pre)
    ensures forall i: nat :: i < |order| + 1 ==> i in InsertAt(order, at, |order|)
  {
    var n := |order|;
    var r := InsertAt(order, at, n);
    forall i: nat | i < n + 1 ensures i in r {
      if i < n {
        assert i in order;
        var q :| 0 <= q < n && order[q] == i;
        assert r[if q < at then q else q + 1] == i;
      } else {
        assert r[at] == i;
      }
    }
    forall q | 0 <= q < at ensures Precedes(pre, order[q], n) {
      assert q < at - 1 ==> Precedes(pre, order[q], order[at - 1]);
    }
    forall i, j | 0 <= i < j < |r| ensures Precedes(pre, r[i], r[j]) {
      assert i < at ==> r[i] == order[i];
      assert i > at ==> r[i] == order[i - 1];
      assert j < at ==> r[j] == order[j];
      assert j > at ==> r[j] == order[j - 1];
    }
  }

  // Some hotkey among the first p has the coldkey.
  predicate IsSeen(coldkeys: seq<string>, order: seq<nat>, p: nat, coldkey: string)
    requires p <= |order| && forall q :: 0 <= q < |order| ==> order[q] < |coldkeys|
  {
    exists q :: 0 <= q < p && coldkeys[order[q]] == coldkey
  }

  lemma SeenGrows(coldkeys: seq<string>, order: seq<nat>, p: nat)
    requires p < |order| && forall q :: 0 <= q < |order| ==> order[q] < |coldkeys|
    ensures forall k :: IsSeen(coldkeys, order, p + 1, k) <==> IsSeen(coldkeys, order, p, k) || k == coldkeys[order[p]]
  {
    forall k | IsSeen(coldkeys, order, p, k) || k == coldkeys[order[p]] ensures IsSeen(coldkeys, order, p + 1, k) {
      if k == coldkeys[order[p]] {
        assert coldkeys[order[p]] == k;
      }
    }
  }

  // Only the first hotkey of a coldkey, in order of score, keeps its score.
  method Penalize(pre: seq<real>, coldkeys: seq<string>) returns (penalized: seq<real>)
    requires |pre| == |coldkeys|
    ensures penalized == Penalized(pre, coldkeys)
  {
    var order := SortDescending(pre);
    OrderIsDistinct(order, pre);
    hide IsOrder, IsSeen, Penalized;
    penalized := seq(|pre|, _ => 0.0);
    var used: set<string> := {};
    assert forall k :: !IsSeen(coldkeys, order, 0, k) by { NoneSeen(coldkeys, order); }
    for p := 0 to |order|
      invariant |penalized| == |pre|
      invariant forall k :: k in used <==> IsSeen(coldkeys, order, p, k)
      invariant forall q :: 0 <= q < p ==> penalized[order[q]] == Kept(pre, coldkeys, order, q)
    {
      var i := order[p];
      SeenGrows(coldkeys, order, p);
      penalized := penalized[i := if coldkeys[i] in used then 0.0 else pre[i]];
      used := used + {coldkeys[i]};
    }
    KeptIsPenalized(pre, coldkeys, order, penalized);
  }

  lemma NoneSeen(coldkeys: seq<string>, order: seq<nat>)
    requires forall q :: 0 <= q < |order| ==> order[q] < |coldkeys|
    ensures forall k :: !IsSeen(coldkeys, order, 0, k)
  {
  }

  function Kept(pre: seq<real>, coldkeys: seq<string>, order: seq<nat>, p: nat): real
    requires |pre| == |coldkeys| && p < |order| && forall q :: 0 <= q < |order| ==> order[q] < |coldkeys|
  {
    if IsSeen(coldkeys, order, p, coldkeys[order[p]]) then 0.0 else pre[order[p]]
  }

  lemma KeptIsPenalized(pre: seq<real>, coldkeys: seq<string>, order: seq<nat>, penalized: seq<real>)
    requires |pre| == |coldkeys| == |order| == |penalized| && IsOrder(order, pre)
    requires forall i: nat :: i < |pre| ==> i in order
    requires forall q :: 0 <= q < |order| ==> penalized[order[q]] == Kept(pre, coldkeys, order, q)
    ensures penalized == Penalized(pre, coldkeys)
  {
    hide IsBest, IsSeen;
    forall i: nat | i < |pre| ensures penalized[i] == Penalized(pre, coldkeys)[i] {
      assert i in order;
      var q :| 0 <= q < |order| && order[q] == i;
      FirstIsBest(pre, coldkeys, order, q);
    }
  }

  lemma OrderIsDistinct(order: seq<nat>, pre: seq<real>)
    requires IsOrder(order, pre)
    ensures NoDuplicates(order)
  {
  }

  lemma FirstIsBest(pre: seq<real>, coldkeys: seq<string>, order: seq<nat>, p: nat)
    requires |pre| == |coldkeys| == |order| && IsOrder(order, pre) && p < |order|
    requires forall i: nat :: i < |pre| ==> i in order
    ensures IsBest(pre, coldkeys, order[p]) <==> !IsSeen(coldkeys, order, p, coldkeys[order[p]])
  {
    var i := order[p];
    if q :| 0 <= q < p && coldkeys[order[q]] == coldkeys[i] {
      assert Precedes(pre, order[q], i);
    } else {
      forall j: nat | j < |pre| && coldkeys[j] == coldkeys[i] && j != i ensures Precedes(pre, i, j) {
        assert j in order;
        var q :| 0 <= q < |order| && order[q] == j;
      }
    }
  }

  method Finalize(penalized: seq<real>) returns (final: seq<Option<real>>)
    requires Sum(penalized) != 0.0
    ensures IsFinal(penalized, final)
  {
    var total := SumOf(penalized);
    final := [];
    for i := 0 to |penalized|
      invariant |final| == i
      invariant forall j :: 0 <= j < i ==> final[j] == if penalized[j] > 0.0 then Some(Over(penalized[j], total)) else None
    {
      final := final + [if penalized[i] > 0.0 then Some(Over(penalized[i], total)) else None];
    }
  }

  // The pre-penalty scores belong to these raw features, with the curve split at the median of the unique counts.
  ghost predicate ArePreScores(raw: seq<Features>, highest: real, p13: real -> real, p22: real -> real, pre: seq<real>)
    requires highest != 0.0
  {
    exists sorted, median, norm ::
      && Ascending(sorted) && multiset(sorted) == multiset(Uniques(raw)) && IsMedian(sorted, median)
      && IsNormalized(raw, Curves(raw, highest, median, p13, p22), norm) && pre == PreScores(norm)
  }

  // The scores of these features: computed as specified, fair, and rewarding dominance.
  ghost predicate AreScores(raw: seq<Features>, coldkeys: seq<string>, p13: real -> real, p22: real -> real,
                            pre: seq<real>, final: seq<Option<real>>) {
    && |pre| == |raw| == |coldkeys|
    && (exists highest: real :: IsHighest(raw, highest) && ArePreScores(raw, highest, p13, p22, pre))
    && IsFinal(Penalized(pre, coldkeys), final) && IsFair(pre, coldkeys, final)
    && forall i, j :: 0 <= i < |raw| && 0 <= j < |raw| && Dominates(raw[i], raw[j]) ==> pre[j] <= pre[i]
  }

  method PreScore(raw: seq<Features>, highest: real, p13: real -> real, p22: real -> real) returns (pre: seq<real>)
    requires Powers(p13, p22) && NonNegative(raw) && IsHighest(raw, highest)
    ensures |pre| == |raw| && ArePreScores(raw, highest, p13, p22, pre)
    ensures Sum(pre) <= 1.0
    ensures forall i :: 0 <= i < |pre| ==> pre[i] >= 0.0
    ensures exists i :: 0 <= i < |pre| && pre[i] > 0.0
    ensures forall i, j :: 0 <= i < |raw| && 0 <= j < |raw| && Dominates(raw[i], raw[j]) ==> pre[j] <= pre[i]
  {
    var sorted := SortUniques(raw);
    var median := Median(sorted);
    var norm := Normalize(raw, highest, median, p13, p22);
    PreScoresBounded(raw, highest, median, p13, p22, norm);
    forall i, j | 0 <= i < |raw| && 0 <= j < |raw| && Dominates(raw[i], raw[j]) ensures Weighted(norm[j]) <= Weighted(norm[i]) {
      DominanceIsRewarded(raw, highest, median, p13, p22, norm, i, j);
    }
    hide Weighted, Uniques, IsHighest, Powers, NonNegative, Sum, Curves, Divisor, Over, Dominates, Ascending, IsMedian;
    pre := PreScores(norm);
    assert ArePreScores(raw, highest, p13, p22, pre);
  }

  method ScoreRaw(raw: seq<Features>, highest: real, coldkeys: seq<string>, p13: real -> real, p22: real -> real)
    returns (pre: seq<real>, final: seq<Option<real>>)
    requires Powers(p13, p22) && NonNegative(raw) && IsHighest(raw, highest) && |coldkeys| == |raw|
    ensures AreScores(raw, coldkeys, p13, p22, pre, final)
  {
    hide IsHighest, Powers, NonNegative, Sum, IsBest, Dominates, ArePreScores, Penalized, IsFair, IsFinal;
    pre := PreScore(raw, highest, p13, p22);
    PenaltyTotal(pre, coldkeys);
    var penalized := Penalize(pre, coldkeys);
    final := Finalize(penalized);
    FinalScores(pre, coldkeys, final);
  }

  // No hotkey at all gives no scores; otherwise a missing positive unique count divides by zero, and after that a hotkey
  // without a coldkey is an unknown key. A score is absent for a hotkey that is not among the final ones.
  datatype Outcome = DivisionByZero | UnknownHotkey | Scored(coldkeys: seq<string>, pre: seq<real>, final: seq<Option<real>>)

  predicate HasUnique(raw: seq<Features>) {
    exists i :: 0 <= i < |raw| && raw[i].unique > 0.0
  }

  predicate AllKnown(hotkeys: seq<string>, coldkeyOf: map<string, string>) {
    forall i :: 0 <= i < |hotkeys| ==> hotkeys[i] in coldkeyOf
  }

  function ColdkeysOf(hotkeys: seq<string>, coldkeyOf: map<string, string>): (r: seq<string>)
    requires AllKnown(hotkeys, coldkeyOf)
    ensures |r| == |hotkeys| && forall i :: 0 <= i < |hotkeys| ==> r[i] == coldkeyOf[hotkeys[i]]
  {
    seq(|hotkeys|, i requires 0 <= i < |hotkeys| => coldkeyOf[hotkeys[i]])
  }

  /** The scores of the hotkeys with any traffic, from the rows of the three queries. */
  method GetScores(c: seq<ComputeRow>, u: seq<UniqueRow>, p: seq<PrivateRow>, coldkeyOf: map<string, string>,
                   p13: real -> real, p22: real -> real)
    returns (hotkeys: seq<string>, raw: seq<Features>, outcome: Outcome)
    requires Powers(p13, p22) && RowsNonNegative(c, u, p)
    requires forall i, j :: 0 <= i < j < |u| ==> u[i].hotkey != u[j].hotkey
    ensures NoDuplicates(hotkeys) && |raw| == |hotkeys|
    ensures forall h :: h in hotkeys <==> h != "" && exists i :: 0 <= i < |c| && c[i].hotkey == h
    ensures forall i :: 0 <= i < |hotkeys| ==> raw[i] == RawOf(c, u, p, hotkeys[i])
    ensures outcome.DivisionByZero? <==> raw != [] && !HasUnique(raw)
    ensures outcome.UnknownHotkey? <==> HasUnique(raw) && !AllKnown(hotkeys, coldkeyOf)
    ensures outcome.Scored? && raw == [] ==> outcome == Scored([], [], [])
    ensures outcome.Scored? && raw != [] ==>
              && AllKnown(hotkeys, coldkeyOf) && outcome.coldkeys == ColdkeysOf(hotkeys, coldkeyOf)
              && AreScores(raw, outcome.coldkeys, p13, p22, outcome.pre, outcome.final)
  {
    var highest;
    hotkeys, raw, highest := Collect(c, u, p);
    hide RawOf, Powers, RowsNonNegative, NonNegative, AreScores;
    if raw == [] {
      outcome := Scored([], [], []);
    } else if highest == 0.0 {
      outcome := DivisionByZero;
    } else if !AllKnown(hotkeys, coldkeyOf) {
      outcome := UnknownHotkey;
    } else {
      var coldkeys := ColdkeysOf(hotkeys, coldkeyOf);
      var pre, final := ScoreRaw(raw, highest, coldkeys, p13, p22);
      outcome := Scored(coldkeys, pre, final);
    }
  }
}
