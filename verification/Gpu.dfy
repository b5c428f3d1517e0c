/** GPU price list, node selectors and the hourly rate charged for them
    (api/gpu.py, api/chute/schemas.py, api/node/schemas.py). */
module Gpu {
  import opened Base

  datatype Spec = Spec(memory: nat, hourlyRate: real)

  type Catalogue = map<string, Spec>

  const SUPPORTED_GPUS: Catalogue := map[
    "3090" := Spec(24, 0.12),
    "4090" := Spec(24, 0.25),
    "5090" := Spec(32, 0.35),
    "a4000" := Spec(16, 0.1),
    "a4000_ada" := Spec(20, 0.11),
    "a5000" := Spec(24, 0.18),
    "a6000" := Spec(48, 0.33),
    "a6000_ada" := Spec(48, 0.36),
    "pro_6000" := Spec(96, 1.1),
    "l4" := Spec(24, 0.17),
    "a10" := Spec(24, 0.25),
    "a40" := Spec(48, 0.35),
    "l40" := Spec(48, 0.35),
    "l40s" := Spec(48, 0.41),
    "a100_40gb" := Spec(40, 0.55),
    "a100_40gb_sxm" := Spec(40, 0.57),
    "a100" := Spec(80, 0.6),
    "a100_sxm" := Spec(80, 0.62),
    "h100" := Spec(80, 1.5),
    "h100_nvl" := Spec(96, 1.55),
    "h100_sxm" := Spec(80, 1.7),
    "h800" := Spec(80, 1.3),
    "h20" := Spec(96, 0.6),
    "h200" := Spec(140, 2.3),
    "mi300x" := Spec(192, 2.1),
    "b200" := Spec(192, 3.5)
  ]

  predicate Priced(c: Catalogue) {
    c.Keys != {} && forall g :: g in c ==> c[g].hourlyRate > 0.0
  }

  lemma SupportedGpusArePriced()
    ensures Priced(SUPPORTED_GPUS)
    ensures forall g :: g in SUPPORTED_GPUS ==> 0.1 <= SUPPORTED_GPUS[g].hourlyRate <= 3.5
  {
    assert "3090" in SUPPORTED_GPUS.Keys;
  }

  // Minimum and maximum hourly rate over a set of models.
  ghost function MinRate(c: Catalogue, models: set<string>): (r: real)
    requires models != {} && models <= c.Keys
    ensures forall g :: g in models ==> r <= c[g].hourlyRate
    ensures exists g :: g in models && c[g].hourlyRate == r
  {
    var g :| g in models;
    if models == {g} then c[g].hourlyRate
    else
      var rest := MinRate(c, models - {g});
      if c[g].hourlyRate <= rest then c[g].hourlyRate else rest
  }

  ghost function MaxRate(c: Catalogue, models: set<string>): (r: real)
    requires models != {} && models <= c.Keys
    ensures forall g :: g in models ==> c[g].hourlyRate <= r
    ensures exists g :: g in models && c[g].hourlyRate == r
  {
    var g :| g in models;
    if models == {g} then c[g].hourlyRate
    else
      var rest := MaxRate(c, models - {g});
      if c[g].hourlyRate >= rest then c[g].hourlyRate else rest
  }

  // COMPUTE_UNIT_PRICE_BASIS: the dearest rate on the list.
  ghost function PriceBasis(c: Catalogue): real
    requires Priced(c)
  {
    MaxRate(c, c.Keys)
  }

  // The first loop of normalize_scores with the maximum that follows it.
  method CollectScores(c: Catalogue) returns (scores: map<string, real>, maxScore: real)
    requires Priced(c)
    ensures scores.Keys == c.Keys
    ensures forall g :: g in c ==> scores[g] == c[g].hourlyRate
    ensures maxScore == PriceBasis(c)
  {
    scores, maxScore := map[], 0.0;
    var todo := c.Keys;
    ghost var top: string :| top in c;
    while todo != {}
      invariant todo <= c.Keys && scores.Keys == c.Keys - todo
      invariant forall g :: g in scores ==> scores[g] == c[g].hourlyRate <= maxScore
      invariant top in c && ((scores.Keys == {} && maxScore == 0.0) || c[top].hourlyRate == maxScore)
      decreases |todo|
    {
      var model :| model in todo;
      todo := todo - {model};
      scores := scores[model := c[model].hourlyRate];
      if scores[model] > maxScore {
        maxScore, top := scores[model], model;
      }
    }
  }

  /** Scores of all models on a scale where the dearest one has score 1. */
  method NormalizeScores(c: Catalogue) returns (normalized: map<string, real>)
    requires Priced(c)
    ensures normalized.Keys == c.Keys
    ensures forall g :: g in c ==> Times(normalized[g], PriceBasis(c)) == c[g].hourlyRate
    ensures forall g :: g in c ==> 0.0 < normalized[g] <= 1.0
    ensures exists g :: g in c && normalized[g] == 1.0
  {
    var scores, maxScore := CollectScores(c);
    normalized := map[];
    var todo := c.Keys;
    while todo != {}
      invariant todo <= c.Keys && normalized.Keys == c.Keys - todo
      invariant forall g :: g in normalized ==> IsShare(normalized[g], c[g].hourlyRate, maxScore)
      decreases |todo|
    {
      var model :| model in todo;
      todo := todo - {model};
      normalized := normalized[model := Over(scores[model], maxScore)];
      Ratio(scores[model], maxScore);
    }
    ghost var top :| top in c && c[top].hourlyRate == maxScore;
    assert normalized[top] == 1.0;
  }

  ghost predicate IsShare(share: real, rate: real, top: real) {
    Times(share, top) == rate && 0.0 < share <= 1.0 && (rate == top ==> share == 1.0)
  }

  lemma Ratio(rate: real, top: real)
    requires 0.0 < rate <= top
    ensures IsShare(Over(rate, top), rate, top)
  {
    var share := rate / top;
    assert share * top == rate;
    assert (share - 1.0) * top == rate - top;
    Sign(share - 1.0, top);
  }

  lemma Sign(x: real, y: real)
    requires y > 0.0
    ensures x > 0.0 <==> x * y > 0.0
    ensures x == 0.0 <==> x * y == 0.0
  {
  }

  // Optional fields of the request; a list that is empty counts as absent.
  datatype Selector = Selector(
    gpuCount: Option<nat>, minVram: Option<nat>,
    included: Option<seq<string>>, excluded: Option<seq<string>>)

  // The models a selector admits. Looking up the memory of an unknown model raises.
  function SupportedGpus(c: Catalogue, sel: Selector): Option<set<string>> {
    var base := if sel.included.GetOr([]) != [] then ToSet(sel.included.value) else c.Keys;
    var allowed := base - ToSet(sel.excluded.GetOr([]));
    if sel.minVram.GetOr(0) == 0 then Some(allowed)
    else if allowed <= c.Keys then Some(set g | g in allowed && c[g].memory >= sel.minVram.value)
    else None
  }

  // gpu_count times the least multiplier admitted; raises when no model matches or one is unknown.
  ghost function ComputeMultiplier(c: Catalogue, sel: Selector): Option<real>
    requires Priced(c)
  {
    var supported := SupportedGpus(c, sel);
    if supported.None? || supported.value == {} || !(supported.value <= c.Keys) || sel.gpuCount.None? then None
    else Some(Times(sel.gpuCount.value as real, Over(MinRate(c, supported.value), PriceBasis(c))))
  }

  // current_estimated_price()["usd"]["hour"]
  ghost function HourlyPrice(c: Catalogue, sel: Selector): Option<real>
    requires Priced(c)
  {
    var multiplier := ComputeMultiplier(c, sel);
    if multiplier.None? then None else Some(Times(PriceBasis(c), multiplier.value))
  }

  // Node.is_suitable
  predicate IsSuitable(c: Catalogue, sel: Selector, gpu: string, verified: bool) {
    && verified
    && var supported := SupportedGpus(c, sel);
       supported.Some? && gpu in supported.value
  }

  // The memory of a model the selector would admit is looked up in vain.
  predicate LooksUpUnknown(c: Catalogue, sel: Selector) {
    && sel.minVram.Some? && sel.minVram.value > 0 && sel.included.Some?
    && exists g :: g in sel.included.value && g !in c && (sel.excluded.Some? ==> g !in sel.excluded.value)
  }

  /** Which GPUs a selector admits: verified ones of an included model, or of any on the list if none is named, that is not
      excluded and has the memory asked for; unless a model it names is not on the list and has its memory looked up. */
  lemma AdmittedExactly(c: Catalogue, sel: Selector, gpu: string, verified: bool)
    ensures IsSuitable(c, sel, gpu, verified) <==>
            && verified && !LooksUpUnknown(c, sel)
            && (if sel.included.Some? && sel.included.value != [] then gpu in sel.included.value else gpu in c)
            && (sel.excluded.Some? ==> gpu !in sel.excluded.value)
            && (sel.minVram.Some? && sel.minVram.value > 0 ==> gpu in c && c[gpu].memory >= sel.minVram.value)
  {
    var base := if sel.included.GetOr([]) != [] then ToSet(sel.included.value) else c.Keys;
    var allowed := base - ToSet(sel.excluded.GetOr([]));
    assert allowed <= c.Keys || sel.minVram.GetOr(0) == 0 <==> !LooksUpUnknown(c, sel) by {
      if !(allowed <= c.Keys) {
        var g :| g in allowed && g !in c;
        assert g in sel.included.value;
      }
      if g :| sel.included.Some? && g in sel.included.value && g !in c && (sel.excluded.Some? ==> g !in sel.excluded.value) {
        assert g in allowed;
      }
    }
  }

  function TotalRate(c: Catalogue, gpus: seq<string>): real
    requires forall g :: g in gpus ==> g in c
  {
    if gpus == [] then 0.0 else TotalRate(c, gpus[1..]) + c[gpus[0]].hourlyRate
  }

  // Selling the cheapest fit: the multiplier's scale cancels out of the price.
  lemma PriceIsCheapestFit(c: Catalogue, sel: Selector)
    requires Priced(c) && HourlyPrice(c, sel).Some?
    ensures SupportedGpus(c, sel).Some? && sel.gpuCount.Some?
    ensures var fits := SupportedGpus(c, sel).value;
            && fits != {} && fits <= c.Keys
            && HourlyPrice(c, sel).value == Times(sel.gpuCount.value as real, MinRate(c, fits))
  {
    var rate := MinRate(c, SupportedGpus(c, sel).value);
    Cancel(PriceBasis(c), sel.gpuCount.value as real, rate);
  }

  lemma Cancel(basis: real, n: real, rate: real)
    requires basis > 0.0
    ensures Times(basis, Times(n, Over(rate, basis))) == Times(n, rate)
  {
    var share := rate / basis;
    assert basis * share == rate;
    assert basis * (n * share) == n * (basis * share);
  }

  lemma {:induction false} TotalAtLeast(c: Catalogue, gpus: seq<string>, low: real)
    requires forall g :: g in gpus ==> g in c && low <= c[g].hourlyRate
    ensures TotalRate(c, gpus) >= Times(|gpus| as real, low)
  {
    if gpus != [] {
      TotalAtLeast(c, gpus[1..], low);
      assert Times(|gpus| as real, low) == Times(|gpus[1..]| as real, low) + low;
    }
  }

  /** Whatever suitable GPUs a miner brings, the customer's rate is at most the sum of their rates,
      and some choice of suitable GPUs makes the two equal. */
  lemma PriceIsAFloor(c: Catalogue, sel: Selector, gpus: seq<string>)
    requires Priced(c) && HourlyPrice(c, sel).Some?
    requires |gpus| == sel.gpuCount.GetOr(0)
    requires forall i :: 0 <= i < |gpus| ==> IsSuitable(c, sel, gpus[i], true)
    ensures forall i :: 0 <= i < |gpus| ==> gpus[i] in c
    ensures HourlyPrice(c, sel).value <= TotalRate(c, gpus)
    ensures exists cheapest :: IsSuitable(c, sel, cheapest, true) && cheapest in c
              && HourlyPrice(c, sel).value == Times(sel.gpuCount.value as real, c[cheapest].hourlyRate)
  {
    PriceIsCheapestFit(c, sel);
    var fits := SupportedGpus(c, sel).value;
    TotalAtLeast(c, gpus, MinRate(c, fits));
    var cheapest :| cheapest in fits && c[cheapest].hourlyRate == MinRate(c, fits);
    assert IsSuitable(c, sel, cheapest, true);
  }

  lemma {:induction false} TotalOfEqual(c: Catalogue, gpu: string, n: nat)
    requires gpu in c
    ensures TotalRate(c, seq(n, _ => gpu)) == Times(n as real, c[gpu].hourlyRate)
  {
    if n > 0 {
      TotalOfEqual(c, gpu, n - 1);
      assert seq(n, _ => gpu)[1..] == seq(n - 1, _ => gpu);
    }
  }

  /** That many of the cheapest suitable GPU cost exactly the price. */
  lemma FloorIsReached(c: Catalogue, sel: Selector) returns (cheapest: string)
    requires Priced(c) && HourlyPrice(c, sel).Some?
    ensures IsSuitable(c, sel, cheapest, true) && cheapest in c && sel.gpuCount.Some?
    ensures TotalRate(c, seq(sel.gpuCount.value, _ => cheapest)) == HourlyPrice(c, sel).value
  {
    PriceIsCheapestFit(c, sel);
    var fits := SupportedGpus(c, sel).value;
    cheapest :| cheapest in fits && c[cheapest].hourlyRate == MinRate(c, fits);
    TotalOfEqual(c, cheapest, sel.gpuCount.value);
  }

  ghost function SupportedPrice(sel: Selector): Option<real> {
    SupportedGpusArePriced();
    HourlyPrice(SUPPORTED_GPUS, sel)
  }

  /** On the list as it stands: an hour of n GPUs is sold for 0.1 to 3.5 dollars each, and for no more than the rates of
      whatever suitable GPUs a miner brings. */
  lemma SupportedPriceRange(sel: Selector, gpus: seq<string>)
    requires SupportedPrice(sel).Some? && |gpus| == sel.gpuCount.GetOr(0)
    requires forall i :: 0 <= i < |gpus| ==> IsSuitable(SUPPORTED_GPUS, sel, gpus[i], true)
    ensures forall i :: 0 <= i < |gpus| ==> gpus[i] in SUPPORTED_GPUS
    ensures SupportedPrice(sel).value <= TotalRate(SUPPORTED_GPUS, gpus)
    ensures Times(|gpus| as real, 0.1) <= SupportedPrice(sel).value <= Times(|gpus| as real, 3.5)
  {
    SupportedGpusArePriced();
    hide SUPPORTED_GPUS, IsSuitable, SupportedGpus, TotalRate, HourlyPrice;
    PriceIsAFloor(SUPPORTED_GPUS, sel, gpus);
    PriceIsCheapestFit(SUPPORTED_GPUS, sel);
    var cheapest :| IsSuitable(SUPPORTED_GPUS, sel, cheapest, true) && cheapest in SUPPORTED_GPUS
                    && SupportedPrice(sel).value == Times(sel.gpuCount.value as real, SUPPORTED_GPUS[cheapest].hourlyRate);
    TimesGrows(|gpus| as real, 0.1, SUPPORTED_GPUS[cheapest].hourlyRate);
    TimesGrows(|gpus| as real, SUPPORTED_GPUS[cheapest].hourlyRate, 3.5);
  }

  lemma TimesGrows(n: real, x: real, y: real)
    requires n >= 0.0 && x <= y
    ensures Times(n, x) <= Times(n, y)
  {
  }
}
