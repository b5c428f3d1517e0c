/** What one invocation costs and which ledger entries it leaves (api/chute/util.py). */
module Pricing {
  import opened Base

  const PER_MILLION_IN := 0.01358695
  const PER_MILLION_OUT := 0.05434782
  const MIN_PRICE_IN := 0.01
  const MIN_PRICE_OUT := 0.01
  const PER_STEP := 0.005
  const MILLION := 1000000.0

  datatype Template = Vllm | Diffusion | OtherTemplate

  // `ownerBilled`: private, without legacy billing and not owned by the platform account.
  datatype Chute = Chute(
    template: Template, concurrency: Option<nat>, discount: Option<real>,
    owner: string, ownerBilled: bool)

  datatype Metrics = Metrics(inputTokens: nat, outputTokens: nat, steps: nat)

  datatype PriceOverride = PriceOverride(
    perMillionIn: Option<real>, perMillionOut: Option<real>,
    perStep: Option<real>, perRequest: Option<real>)

  datatype Call = Call(
    chute: Chute, caller: string, hourly: real, priceBasis: real,
    computeUnits: Option<real>, free: bool, metrics: Option<Metrics>,
    override: Option<PriceOverride>, reroll: bool, rerollMultiplier: real,
    userDiscount: Option<real>)

  function Max(x: real, y: real): real {
    if x >= y then x else y
  }

  // `concurrency or 1`
  function Slots(concurrency: Option<nat>): nat {
    if concurrency.GetOr(0) == 0 then 1 else concurrency.value
  }

  // Chutes with fewer than sixteen slots are dearer per token.
  function SlotFactor(concurrency: Option<nat>): real {
    if Slots(concurrency) < 16 then Over(16.0, Slots(concurrency) as real) else 1.0
  }

  function FloorIn(hourly: real): real {
    Max(Times(hourly, PER_MILLION_IN), MIN_PRICE_IN)
  }

  function FloorOut(hourly: real): real {
    Max(Times(hourly, PER_MILLION_OUT), MIN_PRICE_OUT)
  }

  // A price less a discount.
  function Less(price: real, discount: real): real {
    price - Times(price, discount)
  }

  function TokenCost(inputTokens: nat, outputTokens: nat, perMillionIn: real, perMillionOut: real): real {
    Times(Over(inputTokens as real, MILLION), perMillionIn) + Times(Over(outputTokens as real, MILLION), perMillionOut)
  }

  // The discount honoured when billing; any other value counts as none.
  function BilledDiscount(discount: Option<real>): real {
    if -3.0 < discount.GetOr(0.0) <= 1.0 then discount.GetOr(0.0) else 0.0
  }

  // Token part of the standard charge: floor, then slots, then tokens, then discount.
  function TokenCharge(c: Chute, hourly: real, m: Metrics): real {
    Less(TokenCost(m.inputTokens, m.outputTokens,
                   Times(FloorIn(hourly), SlotFactor(c.concurrency)),
                   Times(FloorOut(hourly), SlotFactor(c.concurrency))),
         BilledDiscount(c.discount))
  }

  // Prices shown to users: floor, then discount, then slots.
  function AdvertisedIn(c: Chute, hourly: real): real {
    Times(Less(FloorIn(hourly), c.discount.GetOr(0.0)), SlotFactor(c.concurrency))
  }

  function AdvertisedOut(c: Chute, hourly: real): real {
    Times(Less(FloorOut(hourly), c.discount.GetOr(0.0)), SlotFactor(c.concurrency))
  }

  function AdvertisedCost(c: Chute, hourly: real, m: Metrics): real {
    TokenCost(m.inputTokens, m.outputTokens, AdvertisedIn(c, hourly), AdvertisedOut(c, hourly))
  }

  lemma LessScales(x: real, y: real, f: real, d: real, a: real, b: real)
    ensures Less(Times(a, Times(x, f)) + Times(b, Times(y, f)), d)
            == Times(a, Times(Less(x, d), f)) + Times(b, Times(Less(y, d), f))
  {
    Reorder(a, x, f, d);
    Reorder(b, y, f, d);
    assert Times(Times(a, Times(x, f)) + Times(b, Times(y, f)), d)
           == Times(Times(a, Times(x, f)), d) + Times(Times(b, Times(y, f)), d);
  }

  lemma Reorder(a: real, x: real, f: real, d: real)
    ensures Times(a, Times(x, f)) - Times(Times(a, Times(x, f)), d) == Times(a, Times(Less(x, d), f))
  {
    var p, q := x * f, x * d;
    assert (x - q) * f == p - q * f;
    assert q * f == p * d;
    assert a * (p - p * d) == a * p - a * (p * d);
    assert a * (p * d) == (a * p) * d;
  }

  lemma FactorsPositive(c: Chute, hourly: real)
    ensures FloorIn(hourly) > 0.0 && FloorOut(hourly) > 0.0 && SlotFactor(c.concurrency) > 0.0
  {
  }

  lemma PositiveTimes(x: real, y: real)
    requires y > 0.0
    ensures Times(x, y) == 0.0 <==> x == 0.0
    ensures x > 0.0 <==> Times(x, y) > 0.0
  {
    if x > 0.0 {
      assert x * y > 0.0;
    } else if x < 0.0 {
      assert (-x) * y > 0.0;
    }
  }

  lemma UndiscountedPositive(c: Chute, hourly: real, m: Metrics)
    requires m.inputTokens > 0 || m.outputTokens > 0
    ensures TokenCost(m.inputTokens, m.outputTokens,
                      Times(FloorIn(hourly), SlotFactor(c.concurrency)),
                      Times(FloorOut(hourly), SlotFactor(c.concurrency))) > 0.0
  {
    FactorsPositive(c, hourly);
    PositiveTimes(FloorIn(hourly), SlotFactor(c.concurrency));
    PositiveTimes(FloorOut(hourly), SlotFactor(c.concurrency));
    PositiveTimes(Over(m.inputTokens as real, MILLION), Times(FloorIn(hourly), SlotFactor(c.concurrency)));
    PositiveTimes(Over(m.outputTokens as real, MILLION), Times(FloorOut(hourly), SlotFactor(c.concurrency)));
    assert Over(m.inputTokens as real, MILLION) > 0.0 <==> m.inputTokens > 0;
    assert Over(m.outputTokens as real, MILLION) > 0.0 <==> m.outputTokens > 0;
  }

  /** Billing multiplies by the slot factor before it discounts and the price list does it the
      other way round, yet both give one number; and they agree on a call with tokens exactly
      when billing honours the chute's discount. */
  lemma BilledAsAdvertised(c: Chute, hourly: real, m: Metrics)
    ensures (m.inputTokens == 0 && m.outputTokens == 0) || -3.0 < c.discount.GetOr(0.0) <= 1.0
            <==> TokenCharge(c, hourly, m) == AdvertisedCost(c, hourly, m)
  {
    var f, d := SlotFactor(c.concurrency), c.discount.GetOr(0.0);
    var a, b := Over(m.inputTokens as real, MILLION), Over(m.outputTokens as real, MILLION);
    LessScales(FloorIn(hourly), FloorOut(hourly), f, d, a, b);
    var full := TokenCost(m.inputTokens, m.outputTokens, Times(FloorIn(hourly), f), Times(FloorOut(hourly), f));
    assert AdvertisedCost(c, hourly, m) == Less(full, d);
    if m.inputTokens == 0 && m.outputTokens == 0 {
      assert a == 0.0 && b == 0.0;
      assert full == 0.0;
      assert Less(full, d) == 0.0 == Less(full, BilledDiscount(c.discount));
    } else if !(-3.0 < d <= 1.0) {
      UndiscountedPositive(c, hourly, m);
      PositiveTimes(d, full);
      assert Times(full, d) == Times(d, full) && Times(full, 0.0) == 0.0;
    }
  }

  function OverrideCharge(call: Call): Option<real> {
    if call.override.None? then None
    else
      var o := call.override.value;
      if call.chute.template.Vllm? && call.metrics.Some? && (o.perMillionIn.Some? || o.perMillionOut.Some?) then
        Some(TokenCost(call.metrics.value.inputTokens, call.metrics.value.outputTokens,
                       o.perMillionIn.GetOr(FloorIn(call.hourly)), o.perMillionOut.GetOr(FloorOut(call.hourly))))
      else if call.chute.template.Diffusion? && o.perStep.Some? then
        Some(Times(Steps(call.metrics) as real, o.perStep.value))
      else o.perRequest
  }

  function Steps(m: Option<Metrics>): nat {
    if m.Some? then m.value.steps else 0
  }

  // Standard price of a billable call: tokens or steps, and compute time when that comes to nothing.
  function StandardCharge(call: Call): real
    requires call.computeUnits.Some?
  {
    var discount := BilledDiscount(call.chute.discount);
    if discount >= 1.0 then 0.0
    else
      var byUse :=
        if call.chute.template.Vllm? && call.metrics.Some? then
          TokenCharge(call.chute, call.hourly, call.metrics.value)
        else if call.chute.template.Diffusion? then
          Less(Times(Times(Steps(call.metrics) as real, call.hourly), PER_STEP), discount)
        else 0.0;
      if byUse != 0.0 then byUse
      else Less(Over(Times(call.computeUnits.value, call.priceBasis), 3600.0), discount)
  }

  predicate Billable(call: Call) {
    call.computeUnits.GetOr(0.0) != 0.0 && !call.free
  }

  // Balance used by the call before it is settled between caller and owner.
  function Charge(call: Call): real {
    if !Billable(call) then 0.0
    else if OverrideCharge(call).Some? then OverrideCharge(call).value
    else
      var rerolled := if call.reroll then Times(StandardCharge(call), call.rerollMultiplier) else StandardCharge(call);
      Less(rerolled, call.userDiscount.GetOr(0.0))
  }

  // An increment of one pending ledger hash.
  datatype Increment = Increment(user: string, amount: real, count: nat, inputTokens: nat, outputTokens: nat)

  function Entries(call: Call): seq<Increment> {
    var tokens := if call.chute.template.Vllm? then call.metrics else None;
    var own := call.chute.ownerBilled && call.caller == call.chute.owner;
    var used := if own then 0.0 else Charge(call);
    var first := Increment(call.caller, used, 1,
                           if tokens.Some? then tokens.value.inputTokens else 0,
                           if tokens.Some? then tokens.value.outputTokens else 0);
    if used != 0.0 && call.chute.ownerBilled then
      [first, Increment(call.chute.owner, 0.0 - used, 0, 0, 0)]
    else [first]
  }

  function Net(entries: seq<Increment>): real {
    if entries == [] then 0.0 else entries[0].amount + Net(entries[1..])
  }

  /** A call to a shared private chute moves money from caller to owner and creates none; the owner
      calls it for free, and on any other chute the caller pays the whole charge. */
  lemma SharedCallNetsToZero(call: Call)
    ensures Net(Entries(call)) == if call.chute.ownerBilled then 0.0 else Charge(call)
    ensures call.chute.ownerBilled && call.caller != call.chute.owner ==>
              && Entries(call)[0].amount == Charge(call)
              && (Charge(call) != 0.0 ==>
                    |Entries(call)| == 2 && Entries(call)[1].user == call.chute.owner
                    && Entries(call)[1].amount == -Charge(call))
    ensures call.chute.ownerBilled && call.caller == call.chute.owner ==> Entries(call)[0].amount == 0.0
    ensures var tokens := call.chute.template.Vllm? && call.metrics.Some?;
            && Entries(call)[0].user == call.caller && Entries(call)[0].count == 1
            && Entries(call)[0].inputTokens == (if tokens then call.metrics.value.inputTokens else 0)
            && Entries(call)[0].outputTokens == (if tokens then call.metrics.value.outputTokens else 0)
            && forall k :: 0 < k < |Entries(call)| ==>
                 Entries(call)[k].count == 0 && Entries(call)[k].inputTokens == 0 && Entries(call)[k].outputTokens == 0
  {
    var e := Entries(call);
    assert Net(e) == e[0].amount + Net(e[1..]);
    if |e| == 2 {
      assert Net(e[1..]) == e[1].amount + Net(e[1..][1..]);
    }
  }

  /** Without override, reroll or user discount, a call that used tokens is billed at exactly the
      advertised prices. */
  lemma TokensAtAdvertisedPrice(call: Call)
    requires Billable(call) && call.override.None? && !call.reroll && call.userDiscount.GetOr(0.0) == 0.0
    requires call.chute.template.Vllm? && call.metrics.Some?
    requires call.metrics.value.inputTokens > 0 || call.metrics.value.outputTokens > 0
    requires -3.0 < call.chute.discount.GetOr(0.0) < 1.0
    ensures Charge(call) != 0.0
    ensures Charge(call) == AdvertisedCost(call.chute, call.hourly, call.metrics.value)
    ensures Times(Charge(call), 1000000.0)
            == Times(call.metrics.value.inputTokens as real, AdvertisedIn(call.chute, call.hourly))
               + Times(call.metrics.value.outputTokens as real, AdvertisedOut(call.chute, call.hourly))
  {
    PerMillion(call.metrics.value.inputTokens, call.metrics.value.outputTokens,
               AdvertisedIn(call.chute, call.hourly), AdvertisedOut(call.chute, call.hourly));
    var c, m, d := call.chute, call.metrics.value, call.chute.discount.GetOr(0.0);
    BilledAsAdvertised(c, call.hourly, m);
    UndiscountedPositive(c, call.hourly, m);
    var f := SlotFactor(c.concurrency);
    var full := TokenCost(m.inputTokens, m.outputTokens, Times(FloorIn(call.hourly), f), Times(FloorOut(call.hourly), f));
    PositiveTimes(1.0 - d, full);
    assert Times(1.0 - d, full) == Less(full, d);
    assert Less(Charge(call), 0.0) == Charge(call);
  }

  lemma PerMillion(inputTokens: nat, outputTokens: nat, perMillionIn: real, perMillionOut: real)
    ensures Times(TokenCost(inputTokens, outputTokens, perMillionIn, perMillionOut), 1000000.0)
            == Times(inputTokens as real, perMillionIn) + Times(outputTokens as real, perMillionOut)
  {
    PartPerMillion(inputTokens as real, perMillionIn);
    PartPerMillion(outputTokens as real, perMillionOut);
  }

  lemma PartPerMillion(tokens: real, price: real)
    ensures Times(Times(Over(tokens, MILLION), price), 1000000.0) == Times(tokens, price)
  {
    assert tokens / 1000000.0 * price * 1000000.0 == tokens * price;
  }

  // A call priced by the standard rules alone: no override applies, nothing is adjusted, and the chute's discount counts.
  predicate IsPlain(call: Call) {
    Billable(call) && OverrideCharge(call).None? && !call.reroll && call.userDiscount.GetOr(0.0) == 0.0
    && -3.0 < call.chute.discount.GetOr(0.0) < 1.0
  }

  /** What a call that used tokens costs, in one formula: the tokens at the hourly price times the two factors per million,
      at least a cent per million each, less the chute's discount, and times sixteen over the slots below sixteen slots. A
      chute without a number of slots has one. */
  lemma BillForTokens(call: Call)
    requires IsPlain(call) && call.chute.template.Vllm? && call.metrics.Some?
    requires call.metrics.value.inputTokens > 0 || call.metrics.value.outputTokens > 0
    ensures var perIn := if call.hourly * 0.01358695 > 0.01 then call.hourly * 0.01358695 else 0.01;
            var perOut := if call.hourly * 0.05434782 > 0.01 then call.hourly * 0.05434782 else 0.01;
            var slots := if call.chute.concurrency.GetOr(0) > 0 then call.chute.concurrency.value else 1;
            Times(Times(Charge(call), 1000000.0), slots as real)
            == Times(Times(if slots < 16 then 16.0 else slots as real, 1.0 - call.chute.discount.GetOr(0.0)),
                     Times(call.metrics.value.inputTokens as real, perIn)
                     + Times(call.metrics.value.outputTokens as real, perOut))
  {
    var c, m, d := call.chute, call.metrics.value, call.chute.discount.GetOr(0.0);
    var n, f := Slots(c.concurrency) as real, SlotFactor(c.concurrency);
    var perIn, perOut := FloorIn(call.hourly), FloorOut(call.hourly);
    NoOverride(call);
    TokensAtAdvertisedPrice(call.(override := None));
    SlotScale(c.concurrency);
    hide Charge, SlotFactor, FloorIn, FloorOut;
    TermInFull(m.inputTokens as real, perIn, d, f, n);
    TermInFull(m.outputTokens as real, perOut, d, f, n);
    Together(AdvertisedIn(c, call.hourly), AdvertisedOut(c, call.hourly), m, perIn, perOut, Times(Times(f, n), 1.0 - d), n);
  }

  lemma NoOverride(call: Call)
    requires OverrideCharge(call).None?
    ensures Charge(call.(override := None)) == Charge(call)
    ensures IsPlain(call) ==> IsPlain(call.(override := None))
  {
  }

  lemma SlotScale(concurrency: Option<nat>)
    ensures Times(SlotFactor(concurrency), Slots(concurrency) as real)
            == if Slots(concurrency) < 16 then 16.0 else Slots(concurrency) as real
  {
  }

  lemma TermInFull(tokens: real, price: real, d: real, f: real, n: real)
    ensures Times(Times(tokens, Times(Less(price, d), f)), n) == Times(Times(Times(f, n), 1.0 - d), Times(tokens, price))
  {
    var p := price - price * d;
    assert p == price * (1.0 - d);
    assert tokens * (p * f) * n == (f * n) * (tokens * p);
    assert tokens * p == (1.0 - d) * (tokens * price);
  }

  lemma Together(advertisedIn: real, advertisedOut: real, m: Metrics, perIn: real, perOut: real, factor: real, n: real)
    requires Times(Times(m.inputTokens as real, advertisedIn), n) == Times(factor, Times(m.inputTokens as real, perIn))
    requires Times(Times(m.outputTokens as real, advertisedOut), n) == Times(factor, Times(m.outputTokens as real, perOut))
    ensures Times(Times(m.inputTokens as real, advertisedIn) + Times(m.outputTokens as real, advertisedOut), n)
            == Times(factor, Times(m.inputTokens as real, perIn) + Times(m.outputTokens as real, perOut))
  {
    AddProducts(Times(m.inputTokens as real, advertisedIn), Times(m.outputTokens as real, advertisedOut), n);
    AddProducts(Times(m.inputTokens as real, perIn), Times(m.outputTokens as real, perOut), factor);
  }

  lemma AddProducts(x: real, y: real, n: real)
    ensures Times(x + y, n) == Times(x, n) + Times(y, n) && Times(n, x + y) == Times(n, x) + Times(n, y)
  {
  }

  /** What an image costs: half a cent of the hourly price per step, less the chute's discount. */
  lemma BillForSteps(call: Call)
    requires IsPlain(call) && call.chute.template.Diffusion? && call.hourly > 0.0
    requires call.metrics.Some? && call.metrics.value.steps > 0
    ensures Charge(call) == Times(Times(Times(call.metrics.value.steps as real, call.hourly), 0.005),
                                  1.0 - call.chute.discount.GetOr(0.0))
  {
    var d := call.chute.discount.GetOr(0.0);
    var steps := Times(Times(Steps(call.metrics) as real, call.hourly), PER_STEP);
    Undiscounted(call);
    PositiveTimes(Steps(call.metrics) as real, call.hourly);
    PositiveTimes(Times(Steps(call.metrics) as real, call.hourly), PER_STEP);
    PositiveTimes(steps, 1.0 - d);
    LessIsTimes(steps, d);
    hide Times, Over, Less, OverrideCharge, Charge;
  }

  // A call without tokens or steps.
  predicate NothingToCount(call: Call) {
    || call.chute.template.OtherTemplate?
    || (call.chute.template.Diffusion? && (call.metrics.Some? ==> call.metrics.value.steps == 0))
    || (call.chute.template.Vllm?
        && (call.metrics.Some? ==> call.metrics.value.inputTokens == 0 && call.metrics.value.outputTokens == 0))
  }

  /** What a call without tokens or steps costs: its compute units at the price basis per hour, less the chute's discount. */
  lemma BillForTime(call: Call)
    requires IsPlain(call) && NothingToCount(call)
    ensures Times(Charge(call), 3600.0)
            == Times(Times(call.computeUnits.value, call.priceBasis), 1.0 - call.chute.discount.GetOr(0.0))
  {
    hide Times, Over, Less, OverrideCharge, TokenCharge, Charge, StandardCharge;
    var d := call.chute.discount.GetOr(0.0);
    var time := Times(call.computeUnits.value, call.priceBasis);
    Undiscounted(call);
    TimeOnly(call);
    LessIsTimes(Over(time, 3600.0), d);
    Hourly(time, d);
  }

  lemma TimeOnly(call: Call)
    requires IsPlain(call) && NothingToCount(call)
    ensures StandardCharge(call)
            == Less(Over(Times(call.computeUnits.value, call.priceBasis), 3600.0), call.chute.discount.GetOr(0.0))
  {
    NothingUsed(call.chute, call.hourly, call.metrics);
    hide Times, Over, Less, OverrideCharge, TokenCharge;
  }

  lemma Undiscounted(call: Call)
    requires IsPlain(call)
    ensures Charge(call) == StandardCharge(call)
  {
    ZeroOperands(StandardCharge(call), 1.0);
    hide StandardCharge;
  }

  lemma LessIsTimes(x: real, d: real)
    ensures Less(x, d) == Times(x, 1.0 - d)
  {
  }

  lemma Hourly(x: real, d: real)
    ensures Times(Times(Over(x, 3600.0), 1.0 - d), 3600.0) == Times(x, 1.0 - d)
  {
    assert x / 3600.0 * (1.0 - d) * 3600.0 == x * (1.0 - d);
  }

  lemma NothingUsed(c: Chute, hourly: real, m: Option<Metrics>)
    ensures m.Some? && m.value.inputTokens == 0 && m.value.outputTokens == 0 ==> TokenCharge(c, hourly, m.value) == 0.0
    ensures Steps(m) == 0 ==>
              Less(Times(Times(Steps(m) as real, hourly), PER_STEP), BilledDiscount(c.discount)) == 0.0
  {
    if m.Some? && m.value.inputTokens == 0 && m.value.outputTokens == 0 {
      assert Over(0.0, MILLION) == 0.0;
      assert TokenCost(0, 0, Times(FloorIn(hourly), SlotFactor(c.concurrency)),
                       Times(FloorOut(hourly), SlotFactor(c.concurrency))) == 0.0;
    }
  }

  /** A call that is not billable costs nothing, nor does one on a chute discounted in full; and where no override applies,
      a reroll and the caller's own discount scale whatever the call would cost. */
  lemma AdjustmentsScale(call: Call)
    ensures call.free || call.computeUnits.GetOr(0.0) == 0.0 ==> Charge(call) == 0.0
    ensures OverrideCharge(call).None? && call.chute.discount == Some(1.0) ==> Charge(call) == 0.0
    ensures OverrideCharge(call).None? ==>
              Charge(call) == Times(Times(Charge(call.(reroll := false, userDiscount := None)),
                                          if call.reroll then call.rerollMultiplier else 1.0),
                                    1.0 - call.userDiscount.GetOr(0.0))
  {
    hide Times, Over, Less, StandardCharge, OverrideCharge;
    var bare := call.(reroll := false, userDiscount := None);
    ZeroOperands(0.0, if call.reroll then call.rerollMultiplier else 1.0);
    ZeroOperands(0.0, 1.0 - call.userDiscount.GetOr(0.0));
    SameOverride(call, bare);
    if Billable(call) && OverrideCharge(call).None? {
      var x := StandardCharge(call);
      Adjusted(call, x);
      ZeroOperands(x, 0.0);
      if call.chute.discount == Some(1.0) {
        DiscountedInFull(call);
      }
      ZeroOperands(0.0, call.rerollMultiplier);
      ZeroOperands(0.0, call.userDiscount.GetOr(0.0));
      assert Charge(bare) == x;
    }
  }

  lemma SameOverride(a: Call, b: Call)
    requires b == a.(reroll := false, userDiscount := None)
    ensures OverrideCharge(a) == OverrideCharge(b) && (Billable(a) ==> StandardCharge(a) == StandardCharge(b))
  {
  }

  lemma Adjusted(call: Call, x: real)
    ensures Less(if call.reroll then Times(x, call.rerollMultiplier) else x, call.userDiscount.GetOr(0.0))
            == Times(Times(x, if call.reroll then call.rerollMultiplier else 1.0), 1.0 - call.userDiscount.GetOr(0.0))
  {
    NoFactor(x, x);
    LessIsTimes(if call.reroll then Times(x, call.rerollMultiplier) else x, call.userDiscount.GetOr(0.0));
    hide Times, Less;
  }

  lemma DiscountedInFull(call: Call)
    requires Billable(call) && call.chute.discount == Some(1.0)
    ensures StandardCharge(call) == 0.0
  {
  }

  /** What an override makes of a call: its own token prices per million, with the undiscounted hourly one for a price it
      leaves out; or its price per step; or else its price per request. */
  lemma OverrideBill(call: Call)
    requires Billable(call) && call.override.Some?
    ensures var o := call.override.value;
            if PricesTokens(call) then
              Times(Charge(call), 1000000.0)
              == Times(call.metrics.value.inputTokens as real,
                       if o.perMillionIn.Some? then o.perMillionIn.value else FloorIn(call.hourly))
                 + Times(call.metrics.value.outputTokens as real,
                         if o.perMillionOut.Some? then o.perMillionOut.value else FloorOut(call.hourly))
            else if call.chute.template.Diffusion? && o.perStep.Some? then
              Charge(call) == Times(if call.metrics.Some? then call.metrics.value.steps as real else 0.0, o.perStep.value)
            else if o.perRequest.Some? then Charge(call) == o.perRequest.value
            else OverrideCharge(call).None?
  {
    if PricesTokens(call) {
      var o := call.override.value;
      PerMillion(call.metrics.value.inputTokens, call.metrics.value.outputTokens,
                 o.perMillionIn.GetOr(FloorIn(call.hourly)), o.perMillionOut.GetOr(FloorOut(call.hourly)));
    }
    hide Times, Over, Less, StandardCharge, TokenCost;
  }

  // An override that prices the tokens of a call, or leaves one of the two prices to the standard floor.
  predicate PricesTokens(call: Call) {
    call.chute.template.Vllm? && call.metrics.Some? && call.override.Some?
    && (call.override.value.perMillionIn.Some? || call.override.value.perMillionOut.Some?)
  }

  predicate SamePricing(a: Call, b: Call) {
    && Billable(a) && Billable(b)
    && a.override == b.override && a.metrics == b.metrics && a.chute.template == b.chute.template
    && (PricesTokens(a) && (a.override.value.perMillionIn.None? || a.override.value.perMillionOut.None?) ==>
          a.hourly == b.hourly)
  }

  /** Where an override applies, the charge follows from it and the use alone: two billable calls under the same override,
      template and metrics cost the same, whatever their discounts, reroll, concurrency and compute time; only a token
      price the override leaves open ties the charge to the hourly price of the hardware. */
  lemma OverrideFixesPrice(a: Call, b: Call)
    requires OverrideCharge(a).Some? && SamePricing(a, b)
    ensures OverrideCharge(b).Some? && Charge(a) == Charge(b)
  {
    hide StandardCharge, Times, Less, Over;
  }

  // Truthiness of a Python float.
  predicate NonZero(x: Option<real>) {
    x.GetOr(0.0) != 0.0
  }

  // The manual price of this user on this chute, where one applies.
  method PriceByOverride(call: Call) returns (balanceUsed: real, overrideApplied: bool)
    ensures overrideApplied == OverrideCharge(call).Some?
    ensures balanceUsed == OverrideCharge(call).GetOr(0.0)
  {
    balanceUsed, overrideApplied := 0.0, false;
    if call.override.Some? {
      var o := call.override.value;
      if call.chute.template.Vllm? && call.metrics.Some? && (o.perMillionIn.Some? || o.perMillionOut.Some?) {
        var perMillionIn := o.perMillionIn.GetOr(FloorIn(call.hourly));
        var perMillionOut := o.perMillionOut.GetOr(FloorOut(call.hourly));
        balanceUsed := TokenCost(call.metrics.value.inputTokens, call.metrics.value.outputTokens,
                                 perMillionIn, perMillionOut);
        overrideApplied := true;
      } else if call.chute.template.Diffusion? && o.perStep.Some? {
        balanceUsed := Times(Steps(call.metrics) as real, o.perStep.value);
        overrideApplied := true;
      } else if o.perRequest.Some? {
        balanceUsed := o.perRequest.value;
        overrideApplied := true;
      }
    }
  }

  method StandardPrice(call: Call) returns (balanceUsed: real)
    requires call.computeUnits.Some?
    ensures balanceUsed == StandardCharge(call)
  {
    hide Times, Over;
    balanceUsed := 0.0;
    var discount := 0.0;
    if NonZero(call.chute.discount) && -3.0 < call.chute.discount.value <= 1.0 {
      discount := call.chute.discount.value;
    }
    if discount < 1.0 {
      if call.chute.template.Vllm? && call.metrics.Some? {
        var perMillionIn := FloorIn(call.hourly);
        var perMillionOut := FloorOut(call.hourly);
        if Slots(call.chute.concurrency) < 16 {
          perMillionIn := Times(perMillionIn, Over(16.0, Slots(call.chute.concurrency) as real));
          perMillionOut := Times(perMillionOut, Over(16.0, Slots(call.chute.concurrency) as real));
        }
        NoFactor(FloorIn(call.hourly), FloorOut(call.hourly));
        balanceUsed := TokenCost(call.metrics.value.inputTokens, call.metrics.value.outputTokens,
                                 perMillionIn, perMillionOut);
        balanceUsed := Less(balanceUsed, discount);
      } else if call.chute.template.Diffusion? {
        balanceUsed := Times(Times(Steps(call.metrics) as real, call.hourly), PER_STEP);
        balanceUsed := Less(balanceUsed, discount);
      }
      var defaultBalanceUsed := Over(Times(call.computeUnits.value, call.priceBasis), 3600.0);
      defaultBalanceUsed := Less(defaultBalanceUsed, discount);
      if balanceUsed == 0.0 {
        balanceUsed := defaultBalanceUsed;
      }
    }
  }

  lemma NoFactor(x: real, y: real)
    ensures Times(x, 1.0) == x && Times(y, 1.0) == y
  {
  }

  lemma ZeroOperands(x: real, factor: real)
    ensures Times(0.0, factor) == 0.0 && Less(0.0, factor) == 0.0 && Less(x, 0.0) == x
  {
  }

  // Price of the call before it is settled between caller and owner.
  method PriceCall(call: Call) returns (balanceUsed: real)
    ensures balanceUsed == Charge(call)
  {
    hide Times, Over, Less, StandardCharge, OverrideCharge;
    balanceUsed := 0.0;
    var overrideApplied := false;
    if NonZero(call.computeUnits) && !call.free {
      balanceUsed, overrideApplied := PriceByOverride(call);
      if !overrideApplied {
        balanceUsed := StandardPrice(call);
      }
    }
    ZeroOperands(balanceUsed, call.rerollMultiplier);
    if balanceUsed != 0.0 && call.reroll && !overrideApplied {
      balanceUsed := Times(balanceUsed, call.rerollMultiplier);
    }
    ZeroOperands(balanceUsed, call.userDiscount.GetOr(0.0));
    if balanceUsed != 0.0 && !overrideApplied {
      if NonZero(call.userDiscount) {
        balanceUsed := Less(balanceUsed, call.userDiscount.value);
      }
    }
  }

  /** The billing part of `invoke`, step by step. */
  method BillInvocation(call: Call) returns (balanceUsed: real, entries: seq<Increment>)
    ensures call.chute.ownerBilled && call.caller == call.chute.owner ==> balanceUsed == 0.0
    ensures !(call.chute.ownerBilled && call.caller == call.chute.owner) ==> balanceUsed == Charge(call)
    ensures entries == Entries(call)
  {
    hide Charge;
    balanceUsed := PriceCall(call);
    var addBalanceTo := None;
    if call.chute.ownerBilled {
      if call.caller == call.chute.owner {
        balanceUsed := 0.0;
      } else {
        addBalanceTo := Some(call.chute.owner);
      }
    }
    var inputTokens, outputTokens := 0, 0;
    if call.chute.template.Vllm? && call.metrics.Some? {
      inputTokens, outputTokens := call.metrics.value.inputTokens, call.metrics.value.outputTokens;
    }
    entries := [Increment(call.caller, balanceUsed, 1, inputTokens, outputTokens)];
    if balanceUsed != 0.0 && addBalanceTo.Some? {
      entries := entries + [Increment(addBalanceTo.value, 0.0 - balanceUsed, 0, 0, 0)];
    }
  }

  /** The price computation of `get_and_store_llm_details`, step by step. */
  method AdvertisePrices(c: Chute, hourly: real) returns (perMillionIn: real, perMillionOut: real)
    ensures perMillionIn == AdvertisedIn(c, hourly) && perMillionOut == AdvertisedOut(c, hourly)
  {
    perMillionIn := FloorIn(hourly);
    perMillionOut := FloorOut(hourly);
    if NonZero(c.discount) {
      perMillionIn := perMillionIn - Times(perMillionIn, c.discount.value);
      perMillionOut := perMillionOut - Times(perMillionOut, c.discount.value);
    }
    assert Less(FloorIn(hourly), 0.0) == FloorIn(hourly) && Less(FloorOut(hourly), 0.0) == FloorOut(hourly);
    if Slots(c.concurrency) < 16 {
      perMillionIn := Times(perMillionIn, Over(16.0, Slots(c.concurrency) as real));
      perMillionOut := Times(perMillionOut, Over(16.0, Slots(c.concurrency) as real));
    }
  }
}
