/**
 * The Black-Scholes pricer of options_pricing.py: price, delta and vega of one
 * European option leg, and the pair of Greeks returned together.
 *
 * The closed form calls log, exp, sqrt and the standard normal CDF and PDF of a
 * numerical library. They are not modelled: they are fields of an `Analytics`
 * value supplied by the caller, and all that is assumed about them is
 * `WellFormed` (CDF in [0, 1], PDF non-negative, square root positive on
 * positive arguments). The expiry branches and the clamps are modelled exactly.
 */
module Pricing {

  import opened Reals

  /** The library functions the closed form relies on. */
  datatype Analytics = Analytics(
    log: real -> real,
    exp: real -> real,
    sqrt: real -> real,
    cdf: real -> real,
    pdf: real -> real)

  /** The range facts about the library functions that the model relies on. */
  ghost predicate WellFormed(a: Analytics) {
    && (forall x :: 0.0 <= a.cdf(x) <= 1.0)
    && (forall x :: 0.0 <= a.pdf(x))
    && (forall x :: 0.0 < x ==> 0.0 < a.sqrt(x))
  }

  /**
   * Inputs for which the closed form is defined: with time left, spot, strike
   * and volatility are positive (the formula divides by strike and by
   * volatility times the square root of the time).
   */
  predicate ClosedFormDomain(spot: real, strike: real, time: real, vol: real) {
    time > 0.0 ==> spot > 0.0 && strike > 0.0 && vol > 0.0
  }

  /** Every option type other than "call" is treated as a put. */
  predicate IsCall(optionType: string) {
    optionType == "call"
  }

  /** Value of the option if exercised now. */
  function Intrinsic(spot: real, strike: real, optionType: string): real {
    if IsCall(optionType) then Max(spot - strike, 0.0) else Max(strike - spot, 0.0)
  }

  /** The standardised argument d1 of the closed form. */
  function D1(a: Analytics, spot: real, strike: real, time: real, rate: real, vol: real): real
    requires WellFormed(a) && time > 0.0 && strike > 0.0 && vol > 0.0
  {
    assert 0.0 < vol * a.sqrt(time);
    (a.log(spot / strike) + (rate + 0.5 * vol * vol) * time) / (vol * a.sqrt(time))
  }

  /** Option premium: intrinsic value at or after expiry, else the clamped closed form. */
  function Price(a: Analytics, spot: real, strike: real, time: real, rate: real, vol: real,
                 optionType: string): (p: real)
    requires WellFormed(a) && ClosedFormDomain(spot, strike, time, vol)
    ensures 0.0 <= p
    ensures time <= 0.0 && IsCall(optionType) ==> p == Max(spot - strike, 0.0)
    ensures time <= 0.0 && !IsCall(optionType) ==> p == Max(strike - spot, 0.0)
  {
    if time <= 0.0 then
      Intrinsic(spot, strike, optionType)
    else
      var d1 := D1(a, spot, strike, time, rate, vol);
      var d2 := d1 - vol * a.sqrt(time);
      var discount := a.exp(-rate * time);
      var price :=
        if IsCall(optionType) then spot * a.cdf(d1) - strike * discount * a.cdf(d2)
        else strike * discount * a.cdf(-d2) - spot * a.cdf(-d1);
      Max(price, 0.0)
  }

  /** Option delta: a step function at or after expiry, else N(d1) or -N(-d1). */
  function Delta(a: Analytics, spot: real, strike: real, time: real, rate: real, vol: real,
                 optionType: string): (d: real)
    requires WellFormed(a) && ClosedFormDomain(spot, strike, time, vol)
    ensures IsCall(optionType) ==> 0.0 <= d <= 1.0
    ensures !IsCall(optionType) ==> -1.0 <= d <= 0.0
    ensures time <= 0.0 && IsCall(optionType) ==> (d == 1.0 <==> spot > strike) && (d == 0.0 <==> spot <= strike)
    ensures time <= 0.0 && !IsCall(optionType) ==> (d == -1.0 <==> spot < strike) && (d == 0.0 <==> spot >= strike)
  {
    if time <= 0.0 then
      if IsCall(optionType) then (if spot > strike then 1.0 else 0.0)
      else (if spot < strike then -1.0 else 0.0)
    else
      var d1 := D1(a, spot, strike, time, rate, vol);
      if IsCall(optionType) then a.cdf(d1) else -a.cdf(-d1)
  }

  /** Option vega per one point of volatility; it never looks at the option type. */
  function Vega(a: Analytics, spot: real, strike: real, time: real, rate: real, vol: real,
                optionType: string): (v: real)
    requires WellFormed(a) && ClosedFormDomain(spot, strike, time, vol)
    ensures 0.0 <= v
    ensures time <= 0.0 ==> v == 0.0
  {
    if time <= 0.0 then
      0.0
    else
      var d1 := D1(a, spot, strike, time, rate, vol);
      var density := a.pdf(d1);
      var root := a.sqrt(time);
      assert 0.0 <= spot * density;
      assert 0.0 <= spot * density * root;
      spot * density * root * 0.01
  }

  /** Delta and vega of one position. */
  datatype Greeks = Greeks(delta: real, vega: real)

  /** Both Greeks of one option, from the same pricer inputs. */
  function CalculateGreeks(a: Analytics, spot: real, strike: real, time: real, rate: real, vol: real,
                           optionType: string): (g: Greeks)
    requires WellFormed(a) && ClosedFormDomain(spot, strike, time, vol)
    ensures g.delta == Delta(a, spot, strike, time, rate, vol, optionType)
    ensures g.vega == Vega(a, spot, strike, time, rate, vol, optionType)
  {
    Greeks(Delta(a, spot, strike, time, rate, vol, optionType),
           Vega(a, spot, strike, time, rate, vol, optionType))
  }

  /** Calls and puts with the same inputs have the same vega. */
  lemma VegaIgnoresOptionType(a: Analytics, spot: real, strike: real, time: real, rate: real, vol: real,
                              t1: string, t2: string)
    requires WellFormed(a) && ClosedFormDomain(spot, strike, time, vol)
    ensures Vega(a, spot, strike, time, rate, vol, t1) == Vega(a, spot, strike, time, rate, vol, t2)
  {
  }

  /** Any option type other than "call" is priced and differentiated exactly as "put". */
  lemma NonCallIsPut(a: Analytics, spot: real, strike: real, time: real, rate: real, vol: real,
                     optionType: string)
    requires WellFormed(a) && ClosedFormDomain(spot, strike, time, vol)
    requires optionType != "call"
    ensures Price(a, spot, strike, time, rate, vol, optionType) == Price(a, spot, strike, time, rate, vol, "put")
    ensures Delta(a, spot, strike, time, rate, vol, optionType) == Delta(a, spot, strike, time, rate, vol, "put")
  {
  }

  /**
   * With time left, put and call deltas differ by exactly one when the library
   * CDF is symmetric (N(-x) == 1 - N(x)): put-call parity of delta.
   */
  lemma DeltaParity(a: Analytics, spot: real, strike: real, time: real, rate: real, vol: real)
    requires WellFormed(a) && ClosedFormDomain(spot, strike, time, vol)
    requires time > 0.0
    requires forall x :: a.cdf(-x) == 1.0 - a.cdf(x)
    ensures Delta(a, spot, strike, time, rate, vol, "call") - Delta(a, spot, strike, time, rate, vol, "put") == 1.0
  {
    var d1 := D1(a, spot, strike, time, rate, vol);
    assert a.cdf(-d1) == 1.0 - a.cdf(d1);
  }
}
