/**
 * The strategy model of strategy_analyzer.py: a strategy is a small leg table
 * (key, strike, option type, position +1/-1, premium) sharing one set of
 * market parameters, built by one of seven recipes. It aggregates the legs'
 * Greeks, labels its risk, evaluates its payoff over a grid and combines all
 * of these in `Analyze`.
 *
 * The four dictionaries of the source (premiums, strikes, option types,
 * positions, all keyed by leg name) are one sequence of `Leg` records, in
 * insertion order. The seven subclasses are the cases of `Variant`. Nothing
 * is assigned after construction, so the fields are constants.
 */
module Strategies {

  import opened Reals
  import opened Wrappers
  import opened Pricing
  import Payoffs

  /** The market parameters every leg of a strategy shares. */
  datatype Market = Market(spot: real, time: real, rate: real, vol: real)

  /** One leg: its entry in each of the four dictionaries keyed by `key`. */
  datatype Leg = Leg(key: string, strike: real, optionType: string, position: int, premium: real)

  /** A leg without its premium: what a recipe fixes before pricing. */
  datatype Role = Role(key: string, strike: real, optionType: string, position: int)

  /** The seven strategies, with the strikes (and entry price) each subclass stores. */
  datatype Variant =
    | LongCall(strike: real)
    | LongPut(strike: real)
    | CoveredCall(strike: real, initialSpot: real)
    | BullCallSpread(lowerStrike: real, higherStrike: real)
    | BearPutSpread(higherStrike: real, lowerStrike: real)
    | LongStraddle(strike: real)
    | LongStrangle(callStrike: real, putStrike: real)

  function StrategyName(v: Variant): string {
    match v
    case LongCall(_) => "Long Call"
    case LongPut(_) => "Long Put"
    case CoveredCall(_, _) => "Covered Call"
    case BullCallSpread(_, _) => "Bull Call Spread"
    case BearPutSpread(_, _) => "Bear Put Spread"
    case LongStraddle(_) => "Long Straddle"
    case LongStrangle(_, _) => "Long Strangle"
  }

  function RoleOf(leg: Leg): Role {
    Role(leg.key, leg.strike, leg.optionType, leg.position)
  }

  /** The legs each constructor creates, in the order it inserts them. */
  function Recipe(v: Variant): seq<Role> {
    match v
    case LongCall(k) => [Role("call", k, "call", 1)]
    case LongPut(k) => [Role("put", k, "put", 1)]
    case CoveredCall(k, _) => [Role("call", k, "call", -1)]
    case BullCallSpread(lo, hi) => [Role("lower", lo, "call", 1), Role("higher", hi, "call", -1)]
    case BearPutSpread(hi, lo) => [Role("higher", hi, "put", 1), Role("lower", lo, "put", -1)]
    case LongStraddle(k) => [Role("call", k, "call", 1), Role("put", k, "put", 1)]
    case LongStrangle(ck, pk) => [Role("call", ck, "call", 1), Role("put", pk, "put", 1)]
  }

  ghost predicate FollowsRecipe(v: Variant, legs: seq<Leg>) {
    |legs| == |Recipe(v)| && forall i :: 0 <= i < |legs| ==> RoleOf(legs[i]) == Recipe(v)[i]
  }

  /** The leg table invariant: keys are unique and every position is long (+1) or short (-1). */
  predicate LegTable(legs: seq<Leg>) {
    && (forall i, j :: 0 <= i < j < |legs| ==> legs[i].key != legs[j].key)
    && (forall i :: 0 <= i < |legs| ==> legs[i].position == 1 || legs[i].position == -1)
  }

  /** Every recipe yields a proper leg table. */
  lemma RecipeIsLegTable(v: Variant, legs: seq<Leg>)
    requires FollowsRecipe(v, legs)
    ensures LegTable(legs)
  {
    forall i | 0 <= i < |legs| ensures legs[i].key == Recipe(v)[i].key && legs[i].position == Recipe(v)[i].position {
      assert RoleOf(legs[i]) == Recipe(v)[i];
    }
  }

  function KeysOf(legs: seq<Leg>): set<string> {
    set i | 0 <= i < |legs| :: legs[i].key
  }

  /** The keys of a leg table are those of all but its last leg, plus the last one's. */
  lemma KeysOfSnoc(legs: seq<Leg>)
    requires |legs| > 0
    ensures KeysOf(legs) == KeysOf(legs[..|legs| - 1]) + {legs[|legs| - 1].key}
  {
    var init := legs[..|legs| - 1];
    forall k | k in KeysOf(legs) ensures k in KeysOf(init) + {legs[|legs| - 1].key} {
      var i :| 0 <= i < |legs| && legs[i].key == k;
      if i < |legs| - 1 { assert init[i].key == k; }
    }
  }

  /** The premiums dictionary: leg key to stored premium. */
  function PremiumTable(legs: seq<Leg>): (p: map<string, real>)
    requires LegTable(legs)
    ensures p.Keys == KeysOf(legs)
    ensures forall i :: 0 <= i < |legs| ==> p[legs[i].key] == legs[i].premium
  {
    if |legs| == 0 then map[]
    else
      var init := legs[..|legs| - 1];
      var last := legs[|legs| - 1];
      assert LegTable(init);
      var p := PremiumTable(init)[last.key := last.premium];
      KeysOfSnoc(legs);
      p
  }

  /** Premium of one leg: the caller's override for its key when given, else `default`. */
  function Select(overrides: map<string, real>, key: string, default: real): (p: real)
    ensures key in overrides ==> p == overrides[key]
    ensures key !in overrides ==> p == default
  {
    if key in overrides then overrides[key] else default
  }

  /** `_price_option`: the override when one is given, else the pricer at the shared market parameters. */
  function PriceOption(a: Analytics, m: Market, strike: real, optionType: string,
                       override: Option<real>): (p: real)
    requires WellFormed(a)
    requires override.None? ==> ClosedFormDomain(m.spot, strike, m.time, m.vol)
    ensures override.Some? ==> p == override.value
    ensures override.None? ==> p == Price(a, m.spot, strike, m.time, m.rate, m.vol, optionType) && 0.0 <= p
  {
    if override.Some? then override.value
    else Price(a, m.spot, strike, m.time, m.rate, m.vol, optionType)
  }

  /** `premium_overrides.get(key)` of a dictionary that may be absent (an absent one is empty). */
  function Lookup(overrides: map<string, real>, key: string): (o: Option<real>)
    ensures o.Some? <==> key in overrides
    ensures o.Some? ==> o.value == overrides[key]
  {
    if key in overrides then Some(overrides[key]) else None
  }

  // ---------------------------------------------------------------------------
  // Net Greeks
  // ---------------------------------------------------------------------------

  /** Every leg's strike is in the closed form's domain. */
  predicate Priceable(m: Market, legs: seq<Leg>) {
    forall i :: 0 <= i < |legs| ==> ClosedFormDomain(m.spot, legs[i].strike, m.time, m.vol)
  }

  function LegDelta(a: Analytics, m: Market, leg: Leg): real
    requires WellFormed(a) && ClosedFormDomain(m.spot, leg.strike, m.time, m.vol)
  {
    Delta(a, m.spot, leg.strike, m.time, m.rate, m.vol, leg.optionType)
  }

  function LegVega(a: Analytics, m: Market, leg: Leg): real
    requires WellFormed(a) && ClosedFormDomain(m.spot, leg.strike, m.time, m.vol)
  {
    Vega(a, m.spot, leg.strike, m.time, m.rate, m.vol, leg.optionType)
  }

  /** Position-weighted sum of the deltas of the first `n` legs. */
  function NetDeltaUpTo(a: Analytics, m: Market, legs: seq<Leg>, n: nat): real
    requires WellFormed(a) && Priceable(m, legs) && n <= |legs|
  {
    if n == 0 then 0.0
    else NetDeltaUpTo(a, m, legs, n - 1) + legs[n - 1].position as real * LegDelta(a, m, legs[n - 1])
  }

  /** Position-weighted sum of the vegas of the first `n` legs. */
  function NetVegaUpTo(a: Analytics, m: Market, legs: seq<Leg>, n: nat): real
    requires WellFormed(a) && Priceable(m, legs) && n <= |legs|
  {
    if n == 0 then 0.0
    else NetVegaUpTo(a, m, legs, n - 1) + legs[n - 1].position as real * LegVega(a, m, legs[n - 1])
  }

  /** Position-weighted sum of all the legs' deltas. */
  function NetDelta(a: Analytics, m: Market, legs: seq<Leg>): real
    requires WellFormed(a) && Priceable(m, legs)
  {
    NetDeltaUpTo(a, m, legs, |legs|)
  }

  /** Position-weighted sum of all the legs' vegas. */
  function NetVega(a: Analytics, m: Market, legs: seq<Leg>): real
    requires WellFormed(a) && Priceable(m, legs)
  {
    NetVegaUpTo(a, m, legs, |legs|)
  }

  /** At or after expiry no leg has vega, so no prefix of the legs has either. */
  lemma {:induction false} NetVegaAtExpiry(a: Analytics, m: Market, legs: seq<Leg>, n: nat)
    requires WellFormed(a) && Priceable(m, legs) && n <= |legs| && m.time <= 0.0
    ensures NetVegaUpTo(a, m, legs, n) == 0.0
  {
    if n > 0 {
      NetVegaAtExpiry(a, m, legs, n - 1);
    }
  }

  /** With unit positions, the net delta of the first `n` legs is at most `n` in size. */
  lemma {:induction false} NetDeltaBounded(a: Analytics, m: Market, legs: seq<Leg>, n: nat)
    requires WellFormed(a) && Priceable(m, legs) && LegTable(legs) && n <= |legs|
    ensures -(n as real) <= NetDeltaUpTo(a, m, legs, n) <= n as real
  {
    if n > 0 {
      NetDeltaBounded(a, m, legs, n - 1);
      var last := legs[n - 1];
      var d := LegDelta(a, m, last);
      assert -1.0 <= d <= 1.0;
      assert -1.0 <= last.position as real * d <= 1.0;
    }
  }

  /** When all of the first `n` legs are long, their net vega is non-negative. */
  lemma {:induction false} LongLegsVegaNonNegative(a: Analytics, m: Market, legs: seq<Leg>, n: nat)
    requires WellFormed(a) && Priceable(m, legs) && n <= |legs|
    requires forall i :: 0 <= i < n ==> legs[i].position == 1
    ensures 0.0 <= NetVegaUpTo(a, m, legs, n)
  {
    if n > 0 {
      LongLegsVegaNonNegative(a, m, legs, n - 1);
    }
  }

  /** The stock held beside the options: one share for a covered call. */
  function StockDelta(v: Variant): real {
    if v.CoveredCall? then 1.0 else 0.0
  }

  // ---------------------------------------------------------------------------
  // Risk interpretation
  // ---------------------------------------------------------------------------

  datatype Tier = High | Moderate | Low

  /** A tier and the sign of the exposure; the sign is reported only outside the low tier. */
  datatype Exposure = Exposure(tier: Tier, positive: bool)

  /** Directional tier of a net delta: strict thresholds 0.5 and 0.2 on its size. */
  function DirectionOf(delta: real): (e: Exposure)
    ensures e.tier == High <==> Abs(delta) > 0.5
    ensures e.tier == Moderate <==> 0.2 < Abs(delta) <= 0.5
    ensures e.tier == Low <==> Abs(delta) <= 0.2
    ensures e.positive <==> delta > 0.0
  {
    Exposure(if Abs(delta) > 0.5 then High else if Abs(delta) > 0.2 then Moderate else Low, delta > 0.0)
  }

  /** Volatility tier of a net vega: strict thresholds 0.1 and 0.05 on its size. */
  function VolatilityOf(vega: real): (e: Exposure)
    ensures e.tier == High <==> Abs(vega) > 0.1
    ensures e.tier == Moderate <==> 0.05 < Abs(vega) <= 0.1
    ensures e.tier == Low <==> Abs(vega) <= 0.05
    ensures e.positive <==> vega > 0.0
  {
    Exposure(if Abs(vega) > 0.1 then High else if Abs(vega) > 0.05 then Moderate else Low, vega > 0.0)
  }

  /** What the label says of an exposure: its tier and, outside the low tier, its sign. */
  function Reported(e: Exposure): Exposure {
    if e.tier == Low then Exposure(Low, false) else e
  }

  function DirectionPhrase(t: Tier): string {
    match t
    case High => "Strongly directional"
    case Moderate => "Moderately directional"
    case Low => "Direction-neutral"
  }

  /** The bias word of a direction, empty in the low tier. */
  function DirectionBias(e: Exposure): string {
    if e.tier == Low then "" else if e.positive then "bullish" else "bearish"
  }

  /** The direction phrase, followed by its bias in parentheses when there is one. */
  function DirectionText(e: Exposure): string {
    DirectionPhrase(e.tier) + (if DirectionBias(e) != "" then " (" + DirectionBias(e) + ")" else "")
  }

  function VolatilityPhrase(t: Tier): string {
    match t
    case High => "High volatility sensitivity"
    case Moderate => "Moderate volatility sensitivity"
    case Low => "Low volatility sensitivity"
  }

  /** The bias words of a volatility exposure, empty in the low tier. */
  function VolatilityBias(e: Exposure): string {
    if e.tier == Low then "" else if e.positive then "benefits from" else "hurt by"
  }

  /** The volatility phrase, followed by its bias in parentheses when there is one. */
  function VolatilityText(e: Exposure): string {
    VolatilityPhrase(e.tier)
      + (if VolatilityBias(e) != "" then " (" + VolatilityBias(e) + " volatility increases)" else "")
  }

  /**
   * `_interpret_risk`: the direction phrase, with its bias in parentheses
   * outside the low tier, then ". " and the volatility phrase, with its bias
   * outside the low tier.
   */
  function InterpretRisk(g: Greeks): (r: string)
    ensures |r| > 0
    ensures r[0] == 'S' <==> Abs(g.delta) > 0.5
    ensures r[0] == 'M' <==> 0.2 < Abs(g.delta) <= 0.5
    ensures r[0] == 'D' <==> Abs(g.delta) <= 0.2
    ensures var k := |DirectionText(DirectionOf(g.delta))|;
      k + 2 < |r| && r[k..k + 2] == ". "
      && (r[k + 2] == 'H' <==> Abs(g.vega) > 0.1)
      && (r[k + 2] == 'M' <==> 0.05 < Abs(g.vega) <= 0.1)
      && (r[k + 2] == 'L' <==> Abs(g.vega) <= 0.05)
  {
    var d := DirectionOf(g.delta);
    var v := VolatilityOf(g.vega);
    DirectionTextShape(d);
    VolatilityTextShape(v);
    var k := |DirectionText(d)|;
    var r := DirectionText(d) + ". " + VolatilityText(v);
    assert r[0] == DirectionText(d)[0];
    assert r[k..k + 2] == ". " && r[k + 2] == VolatilityText(v)[0];
    r
  }

  /** The length and first character of a direction text give its tier; one character gives its sign. */
  lemma DirectionTextShape(e: Exposure)
    ensures e.tier == High ==>
      |DirectionText(e)| == 30 && DirectionText(e)[0] == 'S' && (DirectionText(e)[23] == 'u' <==> e.positive)
    ensures e.tier == Moderate ==>
      |DirectionText(e)| == 32 && DirectionText(e)[0] == 'M' && (DirectionText(e)[25] == 'u' <==> e.positive)
    ensures e.tier == Low ==> DirectionText(e) == "Direction-neutral"
  {
  }

  /** The first character of a volatility text gives its tier; one character gives its sign. */
  lemma VolatilityTextShape(e: Exposure)
    ensures e.tier == High ==>
      |VolatilityText(e)| > 29 && VolatilityText(e)[0] == 'H' && (VolatilityText(e)[29] == 'b' <==> e.positive)
    ensures e.tier == Moderate ==>
      |VolatilityText(e)| > 33 && VolatilityText(e)[0] == 'M' && (VolatilityText(e)[33] == 'b' <==> e.positive)
    ensures e.tier == Low ==> VolatilityText(e) == "Low volatility sensitivity"
  {
  }

  /** The direction text names exactly the reported direction tier and sign. */
  lemma DirectionTextInjective(d1: Exposure, d2: Exposure)
    ensures DirectionText(d1) == DirectionText(d2) <==> Reported(d1) == Reported(d2)
  {
    DirectionTextShape(d1);
    DirectionTextShape(d2);
  }

  /** The volatility text names exactly the reported volatility tier and sign. */
  lemma VolatilityTextInjective(v1: Exposure, v2: Exposure)
    ensures VolatilityText(v1) == VolatilityText(v2) <==> Reported(v1) == Reported(v2)
  {
    VolatilityTextShape(v1);
    VolatilityTextShape(v2);
  }

  /** Two joins with a separator, whose first parts have the same length, are equal only part by part. */
  lemma JoinCancels(a1: string, a2: string, sep: string, b1: string, b2: string)
    requires |a1| == |a2|
    ensures a1 + sep + b1 == a2 + sep + b2 <==> a1 == a2 && b1 == b2
  {
    if a1 + sep + b1 == a2 + sep + b2 {
      var l1, l2 := a1 + sep + b1, a2 + sep + b2;
      assert a1 == l1[..|a1|] && a2 == l2[..|a2|];
      assert b1 == l1[|a1| + |sep|..] && b2 == l2[|a2| + |sep|..];
    }
  }

  /** The length of a direction text depends on its tier alone. */
  lemma DirectionTextLength(e1: Exposure, e2: Exposure)
    requires e1.tier == e2.tier
    ensures |DirectionText(e1)| == |DirectionText(e2)|
  {
    DirectionTextShape(e1);
    DirectionTextShape(e2);
  }

  /** Two risk labels are equal exactly when they report the same tiers with the same signs. */
  lemma InterpretRiskDistinguishes(g1: Greeks, g2: Greeks)
    ensures InterpretRisk(g1) == InterpretRisk(g2) <==>
      Reported(DirectionOf(g1.delta)) == Reported(DirectionOf(g2.delta))
      && Reported(VolatilityOf(g1.vega)) == Reported(VolatilityOf(g2.vega))
  {
    var e1, e2 := DirectionOf(g1.delta), DirectionOf(g2.delta);
    var d1, d2 := DirectionText(e1), DirectionText(e2);
    var v1, v2 := VolatilityText(VolatilityOf(g1.vega)), VolatilityText(VolatilityOf(g2.vega));
    DirectionTextInjective(e1, e2);
    VolatilityTextInjective(VolatilityOf(g1.vega), VolatilityOf(g2.vega));
    DirectionTextShape(e1);
    DirectionTextShape(e2);
    assert (d1 + ". " + v1)[0] == d1[0] && (d2 + ". " + v2)[0] == d2[0];
    if e1.tier == e2.tier {
      DirectionTextLength(e1, e2);
      JoinCancels(d1, d2, ". ", v1, v2);
    } else {
      assert d1[0] != d2[0];
    }
  }

  // ---------------------------------------------------------------------------
  // The position's payoff, leg by leg
  // ---------------------------------------------------------------------------

  /** Premium a leg is charged at in a payoff call: the override for its key, else its stored premium. */
  function EffectivePremium(leg: Leg, overrides: map<string, real>): real {
    Select(overrides, leg.key, leg.premium)
  }

  /** Expiry profit of the legs at price `s`: each leg's position times (intrinsic value minus premium). */
  function LegsPayoff(legs: seq<Leg>, overrides: map<string, real>, s: real): real
    decreases |legs|
  {
    if |legs| == 0 then 0.0
    else
      var last := legs[|legs| - 1];
      LegsPayoff(legs[..|legs| - 1], overrides, s) + LegPayoff(last, overrides, s)
  }

  /** One leg's share of the expiry profit. */
  function LegPayoff(leg: Leg, overrides: map<string, real>, s: real): real {
    leg.position as real * (Intrinsic(s, leg.strike, leg.optionType) - EffectivePremium(leg, overrides))
  }

  lemma LegsPayoffOfOne(legs: seq<Leg>, overrides: map<string, real>, s: real)
    requires |legs| == 1
    ensures LegsPayoff(legs, overrides, s) == LegPayoff(legs[0], overrides, s)
  {
    assert legs[..0] == [];
  }

  lemma LegsPayoffOfTwo(legs: seq<Leg>, overrides: map<string, real>, s: real)
    requires |legs| == 2
    ensures LegsPayoff(legs, overrides, s) == LegPayoff(legs[0], overrides, s) + LegPayoff(legs[1], overrides, s)
  {
    LegsPayoffOfOne(legs[..1], overrides, s);
  }

  /** A long leg earns its intrinsic value less its premium, a short leg the reverse; calls and puts differ in the intrinsic value. */
  lemma LegPayoffForm(leg: Leg, overrides: map<string, real>, s: real)
    ensures leg.position == 1 ==>
      LegPayoff(leg, overrides, s) == Intrinsic(s, leg.strike, leg.optionType) - EffectivePremium(leg, overrides)
    ensures leg.position == -1 ==>
      LegPayoff(leg, overrides, s) == EffectivePremium(leg, overrides) - Intrinsic(s, leg.strike, leg.optionType)
    ensures leg.optionType == "call" ==> Intrinsic(s, leg.strike, leg.optionType) == Max(s - leg.strike, 0.0)
    ensures leg.optionType == "put" ==> Intrinsic(s, leg.strike, leg.optionType) == Max(leg.strike - s, 0.0)
  {
    assert "put" != "call" by { assert "put"[0] != "call"[0]; }
  }

  /** Expiry profit of the stock held beside the options, bought at the entry spot. */
  function StockPayoff(v: Variant, s: real): real {
    if v.CoveredCall? then s - v.initialSpot else 0.0
  }

  // ---------------------------------------------------------------------------
  // The strategy object
  // ---------------------------------------------------------------------------

  datatype Analysis = Analysis(
    strategyName: string,
    spotRange: seq<real>,
    payoffs: seq<real>,
    greeks: Greeks,
    breakevens: seq<real>,
    maxProfit: real,
    maxLoss: real,
    riskInterpretation: string,
    premiums: map<string, real>,
    initialSpot: real)

  /** `analyze` on an empty grid: NumPy's max and min raise. */
  datatype AnalysisError = EmptyGrid

  class Strategy {
    /** The library the pricer calls (log, exp, sqrt, normal CDF and PDF). */
    const lib: Analytics
    const market: Market
    const name: string
    const variant: Variant
    const legs: seq<Leg>

    ghost predicate Valid() {
      && WellFormed(lib)
      && name == StrategyName(variant)
      && FollowsRecipe(variant, legs)
      && LegTable(legs)
      && (variant.CoveredCall? ==> variant.initialSpot == market.spot)
    }

    constructor LongCall(lib: Analytics, spot: real, strike: real, time: real, rate: real, vol: real,
                         premiumOverride: Option<real>)
      requires WellFormed(lib)
      requires premiumOverride.None? ==> ClosedFormDomain(spot, strike, time, vol)
      ensures Valid() && this.lib == lib
      ensures market == Market(spot, time, rate, vol) && variant == Variant.LongCall(strike)
      ensures legs == [Leg("call", strike, "call", 1, PriceOption(lib, market, strike, "call", premiumOverride))]
    {
      this.lib := lib;
      market := Market(spot, time, rate, vol);
      name := "Long Call";
      variant := Variant.LongCall(strike);
      var premium := PriceOption(lib, Market(spot, time, rate, vol), strike, "call", premiumOverride);
      legs := [Leg("call", strike, "call", 1, premium)];
    }

    constructor LongPut(lib: Analytics, spot: real, strike: real, time: real, rate: real, vol: real,
                        premiumOverride: Option<real>)
      requires WellFormed(lib)
      requires premiumOverride.None? ==> ClosedFormDomain(spot, strike, time, vol)
      ensures Valid() && this.lib == lib
      ensures market == Market(spot, time, rate, vol) && variant == Variant.LongPut(strike)
      ensures legs == [Leg("put", strike, "put", 1, PriceOption(lib, market, strike, "put", premiumOverride))]
    {
      this.lib := lib;
      market := Market(spot, time, rate, vol);
      name := "Long Put";
      variant := Variant.LongPut(strike);
      var premium := PriceOption(lib, Market(spot, time, rate, vol), strike, "put", premiumOverride);
      legs := [Leg("put", strike, "put", 1, premium)];
    }

    constructor CoveredCall(lib: Analytics, spot: real, strike: real, time: real, rate: real, vol: real,
                            callPremiumOverride: Option<real>)
      requires WellFormed(lib)
      requires callPremiumOverride.None? ==> ClosedFormDomain(spot, strike, time, vol)
      ensures Valid() && this.lib == lib
      ensures market == Market(spot, time, rate, vol) && variant == Variant.CoveredCall(strike, spot)
      ensures legs == [Leg("call", strike, "call", -1, PriceOption(lib, market, strike, "call", callPremiumOverride))]
    {
      this.lib := lib;
      market := Market(spot, time, rate, vol);
      name := "Covered Call";
      variant := Variant.CoveredCall(strike, spot);
      var premium := PriceOption(lib, Market(spot, time, rate, vol), strike, "call", callPremiumOverride);
      legs := [Leg("call", strike, "call", -1, premium)];
    }

    constructor BullCallSpread(lib: Analytics, spot: real, lowerStrike: real, higherStrike: real,
                               time: real, rate: real, vol: real, premiumOverrides: map<string, real>)
      requires WellFormed(lib)
      requires "lower" !in premiumOverrides ==> ClosedFormDomain(spot, lowerStrike, time, vol)
      requires "higher" !in premiumOverrides ==> ClosedFormDomain(spot, higherStrike, time, vol)
      ensures Valid() && this.lib == lib
      ensures market == Market(spot, time, rate, vol) && variant == Variant.BullCallSpread(lowerStrike, higherStrike)
      ensures legs == [
        Leg("lower", lowerStrike, "call", 1, PriceOption(lib, market, lowerStrike, "call", Lookup(premiumOverrides, "lower"))),
        Leg("higher", higherStrike, "call", -1, PriceOption(lib, market, higherStrike, "call", Lookup(premiumOverrides, "higher")))]
    {
      this.lib := lib;
      var m := Market(spot, time, rate, vol);
      market := m;
      name := "Bull Call Spread";
      variant := Variant.BullCallSpread(lowerStrike, higherStrike);
      var lowerPremium := PriceOption(lib, m, lowerStrike, "call", Lookup(premiumOverrides, "lower"));
      var higherPremium := PriceOption(lib, m, higherStrike, "call", Lookup(premiumOverrides, "higher"));
      legs := [Leg("lower", lowerStrike, "call", 1, lowerPremium), Leg("higher", higherStrike, "call", -1, higherPremium)];
    }

    constructor BearPutSpread(lib: Analytics, spot: real, higherStrike: real, lowerStrike: real,
                              time: real, rate: real, vol: real, premiumOverrides: map<string, real>)
      requires WellFormed(lib)
      requires "higher" !in premiumOverrides ==> ClosedFormDomain(spot, higherStrike, time, vol)
      requires "lower" !in premiumOverrides ==> ClosedFormDomain(spot, lowerStrike, time, vol)
      ensures Valid() && this.lib == lib
      ensures market == Market(spot, time, rate, vol) && variant == Variant.BearPutSpread(higherStrike, lowerStrike)
      ensures legs == [
        Leg("higher", higherStrike, "put", 1, PriceOption(lib, market, higherStrike, "put", Lookup(premiumOverrides, "higher"))),
        Leg("lower", lowerStrike, "put", -1, PriceOption(lib, market, lowerStrike, "put", Lookup(premiumOverrides, "lower")))]
    {
      this.lib := lib;
      var m := Market(spot, time, rate, vol);
      market := m;
      name := "Bear Put Spread";
      variant := Variant.BearPutSpread(higherStrike, lowerStrike);
      var higherPremium := PriceOption(lib, m, higherStrike, "put", Lookup(premiumOverrides, "higher"));
      var lowerPremium := PriceOption(lib, m, lowerStrike, "put", Lookup(premiumOverrides, "lower"));
      legs := [Leg("higher", higherStrike, "put", 1, higherPremium), Leg("lower", lowerStrike, "put", -1, lowerPremium)];
    }

    constructor LongStraddle(lib: Analytics, spot: real, strike: real, time: real, rate: real, vol: real,
                             premiumOverrides: map<string, real>)
      requires WellFormed(lib)
      requires ("call" !in premiumOverrides || "put" !in premiumOverrides) ==> ClosedFormDomain(spot, strike, time, vol)
      ensures Valid() && this.lib == lib
      ensures market == Market(spot, time, rate, vol) && variant == Variant.LongStraddle(strike)
      ensures legs == [
        Leg("call", strike, "call", 1, PriceOption(lib, market, strike, "call", Lookup(premiumOverrides, "call"))),
        Leg("put", strike, "put", 1, PriceOption(lib, market, strike, "put", Lookup(premiumOverrides, "put")))]
    {
      this.lib := lib;
      var m := Market(spot, time, rate, vol);
      market := m;
      name := "Long Straddle";
      variant := Variant.LongStraddle(strike);
      var callPremium := PriceOption(lib, m, strike, "call", Lookup(premiumOverrides, "call"));
      var putPremium := PriceOption(lib, m, strike, "put", Lookup(premiumOverrides, "put"));
      legs := [Leg("call", strike, "call", 1, callPremium), Leg("put", strike, "put", 1, putPremium)];
    }

    constructor LongStrangle(lib: Analytics, spot: real, callStrike: real, putStrike: real,
                             time: real, rate: real, vol: real, premiumOverrides: map<string, real>)
      requires WellFormed(lib)
      requires "call" !in premiumOverrides ==> ClosedFormDomain(spot, callStrike, time, vol)
      requires "put" !in premiumOverrides ==> ClosedFormDomain(spot, putStrike, time, vol)
      ensures Valid() && this.lib == lib
      ensures market == Market(spot, time, rate, vol) && variant == Variant.LongStrangle(callStrike, putStrike)
      ensures legs == [
        Leg("call", callStrike, "call", 1, PriceOption(lib, market, callStrike, "call", Lookup(premiumOverrides, "call"))),
        Leg("put", putStrike, "put", 1, PriceOption(lib, market, putStrike, "put", Lookup(premiumOverrides, "put")))]
    {
      this.lib := lib;
      var m := Market(spot, time, rate, vol);
      market := m;
      name := "Long Strangle";
      variant := Variant.LongStrangle(callStrike, putStrike);
      var callPremium := PriceOption(lib, m, callStrike, "call", Lookup(premiumOverrides, "call"));
      var putPremium := PriceOption(lib, m, putStrike, "put", Lookup(premiumOverrides, "put"));
      legs := [Leg("call", callStrike, "call", 1, callPremium), Leg("put", putStrike, "put", 1, putPremium)];
    }

    /** `OptionsStrategy._calculate_greeks`: accumulates position-weighted delta and vega over the legs. */
    method BaseGreeks() returns (g: Greeks)
      requires Valid() && Priceable(market, legs)
      ensures g == Greeks(NetDelta(lib, market, legs), NetVega(lib, market, legs))
    {
      var netDelta, netVega := 0.0, 0.0;
      var i := 0;
      while i < |legs|
        invariant 0 <= i <= |legs|
        invariant netDelta == NetDeltaUpTo(lib, market, legs, i)
        invariant netVega == NetVegaUpTo(lib, market, legs, i)
      {
        var leg := legs[i];
        var delta := LegDelta(lib, market, leg);
        var vega := LegVega(lib, market, leg);
        netDelta := netDelta + leg.position as real * delta;
        netVega := netVega + leg.position as real * vega;
        assert netDelta == NetDeltaUpTo(lib, market, legs, i + 1);
        assert netVega == NetVegaUpTo(lib, market, legs, i + 1);
        i := i + 1;
      }
      g := Greeks(netDelta, netVega);
    }

    /** `_calculate_greeks` as dispatched: a covered call adds the long stock's delta of exactly 1.0. */
    method CalculateGreeks() returns (g: Greeks)
      requires Valid() && Priceable(market, legs)
      ensures g.delta == NetDelta(lib, market, legs) + StockDelta(variant)
      ensures g.vega == NetVega(lib, market, legs)
    {
      g := BaseGreeks();
      if variant.CoveredCall? {
        g := g.(delta := g.delta + 1.0);
      }
    }

    /** The premiums dictionary of this strategy. */
    function Premiums(): (p: map<string, real>)
      requires Valid()
      ensures p.Keys == KeysOf(legs)
      ensures forall i :: 0 <= i < |legs| ==> p[legs[i].key] == legs[i].premium
    {
      PremiumTable(legs)
    }

    /** Each leg's key is in the premiums table, with that leg's premium. */
    lemma PremiumOfLeg(i: nat)
      requires Valid() && i < |legs|
      ensures Recipe(variant)[i].key in Premiums()
      ensures Premiums()[Recipe(variant)[i].key] == legs[i].premium
    {
      assert RoleOf(legs[i]) == Recipe(variant)[i];
    }

    /**
     * The payoff function and premiums `calculate_payoff` applies: each premium is
     * the override for its leg key when given, else the stored one.
     */
    function PayoffShape(overrides: map<string, real>): (sh: Payoffs.Shape)
      requires Valid()
      ensures variant.LongCall? ==> sh == Payoffs.LongCallShape(variant.strike, EffectivePremium(legs[0], overrides))
      ensures variant.LongPut? ==> sh == Payoffs.LongPutShape(variant.strike, EffectivePremium(legs[0], overrides))
      ensures variant.CoveredCall? ==>
        sh == Payoffs.CoveredCallShape(market.spot, variant.strike, EffectivePremium(legs[0], overrides))
      ensures variant.BullCallSpread? ==>
        sh == Payoffs.BullCallSpreadShape(variant.lowerStrike, variant.higherStrike,
                                          EffectivePremium(legs[0], overrides), EffectivePremium(legs[1], overrides))
      ensures variant.BearPutSpread? ==>
        sh == Payoffs.BearPutSpreadShape(variant.higherStrike, variant.lowerStrike,
                                         EffectivePremium(legs[0], overrides), EffectivePremium(legs[1], overrides))
      ensures variant.LongStraddle? ==>
        sh == Payoffs.StraddleShape(variant.strike, EffectivePremium(legs[0], overrides), EffectivePremium(legs[1], overrides))
      ensures variant.LongStrangle? ==>
        sh == Payoffs.StrangleShape(variant.callStrike, variant.putStrike,
                                    EffectivePremium(legs[0], overrides), EffectivePremium(legs[1], overrides))
    {
      var p := Premiums();
      PremiumOfLeg(0);
      match variant
      case LongCall(k) => Payoffs.LongCallShape(k, Select(overrides, "call", p["call"]))
      case LongPut(k) => Payoffs.LongPutShape(k, Select(overrides, "put", p["put"]))
      case CoveredCall(k, s0) => Payoffs.CoveredCallShape(s0, k, Select(overrides, "call", p["call"]))
      case BullCallSpread(lo, hi) =>
        PremiumOfLeg(1);
        Payoffs.BullCallSpreadShape(lo, hi, Select(overrides, "lower", p["lower"]), Select(overrides, "higher", p["higher"]))
      case BearPutSpread(hi, lo) =>
        PremiumOfLeg(1);
        Payoffs.BearPutSpreadShape(hi, lo, Select(overrides, "higher", p["higher"]), Select(overrides, "lower", p["lower"]))
      case LongStraddle(k) =>
        PremiumOfLeg(1);
        Payoffs.StraddleShape(k, Select(overrides, "call", p["call"]), Select(overrides, "put", p["put"]))
      case LongStrangle(ck, pk) =>
        PremiumOfLeg(1);
        Payoffs.StrangleShape(ck, pk, Select(overrides, "call", p["call"]), Select(overrides, "put", p["put"]))
    }

    /** `calculate_payoff`: the variant's payoff function over the grid, with premiums chosen per leg key. */
    function CalculatePayoff(spots: seq<real>, overrides: map<string, real>): (r: seq<real>)
      requires Valid()
      ensures |r| == |spots|
      ensures forall i :: 0 <= i < |spots| ==>
        r[i] == LegsPayoff(legs, overrides, spots[i]) + StockPayoff(variant, spots[i])
    {
      var r := Payoffs.Evaluate(PayoffShape(overrides), spots);
      forall i | 0 <= i < |spots|
        ensures r[i] == LegsPayoff(legs, overrides, spots[i]) + StockPayoff(variant, spots[i])
      {
        ShapeIsLegSum(overrides, spots[i]);
      }
      r
    }

    /** Each variant's payoff formula is the sum over its legs of position times (intrinsic minus premium), plus the stock. */
    lemma ShapeIsLegSum(overrides: map<string, real>, s: real)
      requires Valid()
      ensures Payoffs.PayoffAt(PayoffShape(overrides), s) == LegsPayoff(legs, overrides, s) + StockPayoff(variant, s)
    {
      match variant
      case LongCall(_) => SingleIsLegSum(overrides, s);
      case LongPut(_) => SingleIsLegSum(overrides, s);
      case CoveredCall(_, _) => SingleIsLegSum(overrides, s);
      case BullCallSpread(_, _) => BullCallSpreadIsLegSum(overrides, s);
      case BearPutSpread(_, _) => BearPutSpreadIsLegSum(overrides, s);
      case LongStraddle(_) => LongStraddleIsLegSum(overrides, s);
      case LongStrangle(_, _) => LongStrangleIsLegSum(overrides, s);
    }

    /** `ShapeIsLegSum` for the one-leg variants. */
    lemma SingleIsLegSum(overrides: map<string, real>, s: real)
      requires Valid() && |legs| == 1
      ensures Payoffs.PayoffAt(PayoffShape(overrides), s) == LegsPayoff(legs, overrides, s) + StockPayoff(variant, s)
    {
      PremiumOfLeg(0);
      assert RoleOf(legs[0]) == Recipe(variant)[0];
      LegPayoffForm(legs[0], overrides, s);
      LegsPayoffOfOne(legs, overrides, s);
    }

    /** `ShapeIsLegSum` for a BullCallSpread. */
    lemma BullCallSpreadIsLegSum(overrides: map<string, real>, s: real)
      requires Valid() && variant.BullCallSpread?
      ensures Payoffs.PayoffAt(PayoffShape(overrides), s) == LegsPayoff(legs, overrides, s) + StockPayoff(variant, s)
    {
      PremiumOfLeg(0);
      PremiumOfLeg(1);
      assert RoleOf(legs[0]) == Recipe(variant)[0];
      assert RoleOf(legs[1]) == Recipe(variant)[1];
      LegPayoffForm(legs[0], overrides, s);
      LegPayoffForm(legs[1], overrides, s);
      LegsPayoffOfTwo(legs, overrides, s);
    }

    /** `ShapeIsLegSum` for a BearPutSpread. */
    lemma BearPutSpreadIsLegSum(overrides: map<string, real>, s: real)
      requires Valid() && variant.BearPutSpread?
      ensures Payoffs.PayoffAt(PayoffShape(overrides), s) == LegsPayoff(legs, overrides, s) + StockPayoff(variant, s)
    {
      PremiumOfLeg(0);
      PremiumOfLeg(1);
      assert RoleOf(legs[0]) == Recipe(variant)[0];
      assert RoleOf(legs[1]) == Recipe(variant)[1];
      LegPayoffForm(legs[0], overrides, s);
      LegPayoffForm(legs[1], overrides, s);
      LegsPayoffOfTwo(legs, overrides, s);
    }

    /** `ShapeIsLegSum` for a LongStraddle. */
    lemma LongStraddleIsLegSum(overrides: map<string, real>, s: real)
      requires Valid() && variant.LongStraddle?
      ensures Payoffs.PayoffAt(PayoffShape(overrides), s) == LegsPayoff(legs, overrides, s) + StockPayoff(variant, s)
    {
      PremiumOfLeg(0);
      PremiumOfLeg(1);
      assert RoleOf(legs[0]) == Recipe(variant)[0];
      assert RoleOf(legs[1]) == Recipe(variant)[1];
      LegPayoffForm(legs[0], overrides, s);
      LegPayoffForm(legs[1], overrides, s);
      LegsPayoffOfTwo(legs, overrides, s);
    }

    /** `ShapeIsLegSum` for a LongStrangle. */
    lemma LongStrangleIsLegSum(overrides: map<string, real>, s: real)
      requires Valid() && variant.LongStrangle?
      ensures Payoffs.PayoffAt(PayoffShape(overrides), s) == LegsPayoff(legs, overrides, s) + StockPayoff(variant, s)
    {
      PremiumOfLeg(0);
      PremiumOfLeg(1);
      assert RoleOf(legs[0]) == Recipe(variant)[0];
      assert RoleOf(legs[1]) == Recipe(variant)[1];
      LegPayoffForm(legs[0], overrides, s);
      LegPayoffForm(legs[1], overrides, s);
      LegsPayoffOfTwo(legs, overrides, s);
    }

    /** `analyze`: payoffs, net Greeks, breakevens, extrema and risk label in one record; nothing is changed. */
    method Analyze(spots: seq<real>, overrides: map<string, real>) returns (r: Result<Analysis, AnalysisError>)
      requires Valid() && Priceable(market, legs)
      ensures r.Failure? <==> |spots| == 0
      ensures r.Failure? ==> r.error == EmptyGrid
      ensures r.Success? ==> r.value.strategyName == name && r.value.spotRange == spots
      ensures r.Success? ==> r.value.payoffs == CalculatePayoff(spots, overrides)
      ensures r.Success? ==> r.value.breakevens == Payoffs.Breakevens(spots, r.value.payoffs)
      ensures r.Success? ==> r.value.maxProfit in r.value.payoffs && r.value.maxLoss in r.value.payoffs
      ensures r.Success? ==> forall i :: 0 <= i < |spots| ==>
        r.value.maxLoss <= r.value.payoffs[i] <= r.value.maxProfit
      ensures r.Success? ==>
        r.value.greeks == Greeks(NetDelta(lib, market, legs) + StockDelta(variant), NetVega(lib, market, legs))
      ensures r.Success? ==> r.value.riskInterpretation == InterpretRisk(r.value.greeks)
      ensures r.Success? ==> r.value.premiums == Premiums() && r.value.initialSpot == market.spot
    {
      var payoffs := CalculatePayoff(spots, overrides);
      var greeks := CalculateGreeks();
      var breakevens := Payoffs.CalculateBreakevens(PayoffShape(overrides), spots);
      var profitLoss := Payoffs.CalculateMaxProfitLoss(payoffs);
      if profitLoss.None? {
        return Failure(EmptyGrid);
      }
      var riskInterpretation := InterpretRisk(greeks);
      r := Success(Analysis(
        name, spots, payoffs, greeks, breakevens,
        profitLoss.value.maxProfit, profitLoss.value.maxLoss,
        riskInterpretation, Premiums(), market.spot));
    }

    /** Two analyses of the same strategy with the same arguments give identical results. */
    method AnalyzeTwice(spots: seq<real>, overrides: map<string, real>)
      returns (first: Result<Analysis, AnalysisError>, second: Result<Analysis, AnalysisError>)
      requires Valid() && Priceable(market, legs)
      ensures first == second
    {
      first := Analyze(spots, overrides);
      second := Analyze(spots, overrides);
      if first.Success? {
        var a, b := first.value, second.value;
        assert a.payoffs == b.payoffs;
        var i :| 0 <= i < |spots| && a.payoffs[i] == a.maxProfit;
        var j :| 0 <= j < |spots| && b.payoffs[j] == b.maxProfit;
        assert a.maxProfit <= b.maxProfit by { assert b.payoffs[i] <= b.maxProfit; }
        assert b.maxProfit <= a.maxProfit by { assert a.payoffs[j] <= a.maxProfit; }
        var k :| 0 <= k < |spots| && a.payoffs[k] == a.maxLoss;
        var l :| 0 <= l < |spots| && b.payoffs[l] == b.maxLoss;
        assert b.maxLoss <= a.maxLoss by { assert b.maxLoss <= b.payoffs[k]; }
        assert a.maxLoss <= b.maxLoss by { assert a.maxLoss <= a.payoffs[l]; }
        assert a == b;
        assert first == Success(a) && second == Success(b);
      } else {
        assert first == Failure(EmptyGrid) && second == Failure(EmptyGrid);
      }
    }

    /** A covered call's net delta, long stock included, lies in [0, 1]. */
    lemma CoveredCallDeltaInUnitInterval()
      requires Valid() && Priceable(market, legs) && variant.CoveredCall?
      ensures 0.0 <= NetDelta(lib, market, legs) + StockDelta(variant) <= 1.0
    {
      assert RoleOf(legs[0]) == Recipe(variant)[0];
      var d := LegDelta(lib, market, legs[0]);
      assert 0.0 <= d <= 1.0;
      assert NetDelta(lib, market, legs) == NetDeltaUpTo(lib, market, legs, 0) - d;
    }

    /** A straddle's net vega is twice the vega of either of its legs. */
    lemma StraddleNetVega()
      requires Valid() && Priceable(market, legs) && variant.LongStraddle?
      ensures LegVega(lib, market, legs[1]) == LegVega(lib, market, legs[0])
      ensures NetVega(lib, market, legs) == 2.0 * LegVega(lib, market, legs[0])
    {
      assert RoleOf(legs[0]) == Recipe(variant)[0];
      assert RoleOf(legs[1]) == Recipe(variant)[1];
      assert legs[1].strike == legs[0].strike && legs[0].position == 1 && legs[1].position == 1;
      var m := market;
      VegaIgnoresOptionType(lib, m.spot, legs[0].strike, m.time, m.rate, m.vol, legs[0].optionType, legs[1].optionType);
      var v := LegVega(lib, m, legs[0]);
      assert LegVega(lib, m, legs[1]) == v;
      assert NetVegaUpTo(lib, m, legs, 1) == v;
      assert NetVega(lib, m, legs) == NetVegaUpTo(lib, m, legs, 1) + v;
    }
  }
}
