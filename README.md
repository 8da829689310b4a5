# Options strategy simulator: expiry payoffs, net Greeks and risk labels

This project models the expiry-payoff and risk engine of the options strategy
simulator in Dafny and proves properties of the model.

- **Payoff engine** (`payoffs.dfy`, `sorting.dfy`).
  - The seven payoff shapes of `strategy_payoffs.py`: long call, long put, covered call, bull call spread, bear put spread, long straddle and long strangle.
  - Element-wise evaluation of a shape over a price grid.
  - The breakeven scan over adjacent grid pairs. It is a method with a loop, proved against the specification function `Breakevens`.
  - The max-profit / max-loss extrema.
- **Pricer boundary** (`pricing.dfy`).
  - The price, delta and vega of `options_pricing.py`: the expiry branches, the non-negativity clamp, treating every type other than `"call"` as a put, and `calculate_greeks`.
  - log, exp, sqrt and the normal CDF and PDF are fields of an `Analytics` value passed as a parameter. The model relies only on their range facts (`WellFormed`).
- **Strategy model** (`strategies.dfy`).
  - `OptionsStrategy` and its seven subclasses become the class `Strategy`, with one named constructor per subclass.
  - Its leg table (key, strike, option type, position ±1, premium) is a sequence of records. The subclass is a `Variant` datatype.
  - Premiums are taken from an override or priced at construction. Afterwards nothing is assigned, so the fields are constants.
  - The class provides net delta and net vega (a loop, proved against recursive sums), the covered call's stock delta, the risk label, `calculate_payoff` per variant, and `analyze`.
- **Support modules**: `reals.dfy` has `Max`, `Min` and `Abs` over reals; `wrappers.dfy` has `Option` and `Result`.

## Model

| member | source | states |
|---|---|---|
| Payoffs.LongCall | strategy_payoffs.py:18-34 | The payoff is never below -premium. It is exactly -premium at or below the strike and spot-strike-premium above it. |
| Payoffs.LongPut | strategy_payoffs.py:37-53 | The payoff is never below -premium. It is exactly -premium at or above the strike and strike-spot-premium below it; at spot 0 it is strike-premium. |
| Payoffs.CoveredCall | strategy_payoffs.py:56-79 | The payoff never exceeds (strike-initial spot)+call premium. It attains that cap at every spot at or above the strike; below the strike it is (spot-initial spot)+premium. |
| Payoffs.BullCallSpread | strategy_payoffs.py:82-107 | With lower ≤ higher strike, the payoff lies in [-net, (higher-lower)-net]. It is -net at or below the lower strike, the maximum at or above the higher strike, and linear between. |
| Payoffs.BearPutSpread | strategy_payoffs.py:110-135 | The mirror of the bull spread: in [-net, (higher-lower)-net]. It is -net at or above the higher strike, the maximum at or below the lower strike, and linear between. |
| Payoffs.Straddle | strategy_payoffs.py:138-162 | The payoff is \|spot-strike\| minus the total premium. The minimum -total is reached iff spot = strike. When total ≥ 0 the payoff is zero iff spot = strike ± total. |
| Payoffs.Strangle | strategy_payoffs.py:165-190 | The payoff is never below -total. It equals -total iff put strike ≤ spot ≤ call strike, and rises one-for-one outside the strikes. |
| Payoffs.Evaluate | strategy_payoffs.py:203-204 | The payoff array has one entry per grid point: entry i is the shape's payoff at grid point i. |
| Payoffs.CrossingsUpTo | strategy_payoffs.py:206-213 | After n pairs the scan has appended at most n breakevens. |
| Payoffs.CalculateBreakevens | strategy_payoffs.py:193-215 | The loop with its two nested tests and the interpolation returns exactly `Breakevens` of the grid and its payoffs. The result is sorted and has at most len(grid)-1 entries. |
| Payoffs.CrossingsUpToMembers | strategy_payoffs.py:206-213 | A value is in the unsorted list iff it is the interpolated zero of a scanned pair with y1·y2 ≤ 0 and y1 ≠ y2. |
| Payoffs.InterpolationBracketed | strategy_payoffs.py:210-212 | On an ordered pair that crosses, the interpolated point lies in [x1, x2] and the chord through the pair is zero there. |
| Payoffs.BreakevensShape | strategy_payoffs.py:206-215 | The reported list is sorted, no longer than the number of pairs, and a permutation of the scan's list. |
| Payoffs.BreakevensBracketed | strategy_payoffs.py:206-215 | On a strictly increasing grid, every reported breakeven comes from a crossing pair (i, i+1). It lies in [x_i, x_{i+1}] and zeroes the chord through that pair. |
| Payoffs.BreakevensComplete | strategy_payoffs.py:206-213 | Every crossing pair contributes its interpolated zero to the reported list. |
| Payoffs.FlatPairSkipped | strategy_payoffs.py:207-211 | A pair with equal payoffs (including a flat zero segment) never contributes. |
| Payoffs.ZeroAtGridPointReportedTwice | strategy_payoffs.py:206-215 | A payoff that is exactly zero at an interior grid point, with non-zero neighbours, appears at least twice in the result (no de-duplication). |
| Payoffs.MaxOf | strategy_payoffs.py:225 | The maximum is an element of the array and bounds every element from above. |
| Payoffs.MinOf | strategy_payoffs.py:226 | The minimum is an element of the array and bounds every element from below. |
| Payoffs.CalculateMaxProfitLoss | strategy_payoffs.py:218-227 | A result exists iff the array is non-empty. Max profit and max loss are elements of the array, and max loss ≤ every payoff ≤ max profit. |
| Payoffs.LongCallMaxLoss | strategy_payoffs.py:218-227 | On any non-empty grid a long call's max loss is ≥ -premium, and exactly -premium once a grid point is at or below the strike. |
| Payoffs.StraddleMaxLoss | strategy_payoffs.py:218-227 | On any non-empty grid a straddle's max loss is ≥ -total, and equals -total iff the strike is a grid point. |
| Payoffs.BullCallSpreadExtremaBounded | strategy_payoffs.py:218-227 | On any non-empty grid, with lower ≤ higher strike, the extrema lie within the spread's bounds. |
| Sorting.Insert | strategy_payoffs.py:215 | Inserting into a sorted list gives a sorted list with the element added: multiset plus one, length plus one. |
| Sorting.Sort | strategy_payoffs.py:215 | `sorted`: the result is ascending and a permutation of its input (same multiset and length). |
| Pricing.Price | options_pricing.py:20-66 | Never negative. At T ≤ 0 it is max(spot-strike, 0) for "call" and max(strike-spot, 0) for every other type. |
| Pricing.Delta | options_pricing.py:69-106 | A call's delta lies in [0,1] and a put's in [-1,0]. At T ≤ 0, a call's delta is 1 iff spot > strike (else 0), and a put's is -1 iff spot < strike (else 0). |
| Pricing.Vega | options_pricing.py:109-140 | Never negative, and exactly 0 at T ≤ 0. |
| Pricing.CalculateGreeks | options_pricing.py:143-160 | The pair holds exactly the delta and the vega of the same inputs. |
| Pricing.VegaIgnoresOptionType | options_pricing.py:109-140 | Vega is the same for any two option types with the same inputs. |
| Pricing.NonCallIsPut | options_pricing.py:48-106 | Any type other than "call" has the same price and delta as "put". |
| Pricing.DeltaParity | options_pricing.py:99-106 | With time left and a symmetric CDF, call delta minus put delta is exactly 1. |
| Strategies.RecipeIsLegTable | strategy_analyzer.py:219-481 | Every constructor's legs have distinct keys and positions ±1. |
| Strategies.PremiumTable | strategy_analyzer.py:64-67 | The premiums dictionary has exactly the legs' keys, each mapped to that leg's premium. |
| Strategies.Select | strategy_analyzer.py:239 | A leg's premium in a payoff call is the override for its key when present, else the stored premium. |
| Strategies.PriceOption | strategy_analyzer.py:69-81 | A given override is returned unchanged. Otherwise the result is the pricer's value at the shared spot, T, r and σ, and is non-negative. |
| Strategies.Lookup | strategy_analyzer.py:336-337 | `premium_overrides.get(key)` gives a value iff the key is present, and then that entry. |
| Strategies.NetVegaAtExpiry | strategy_analyzer.py:83-109 | At T ≤ 0 the net vega of any prefix of the legs is exactly 0. |
| Strategies.NetDeltaBounded | strategy_analyzer.py:83-109 | With positions ±1, the net delta of the first n legs lies in [-n, n]. |
| Strategies.LongLegsVegaNonNegative | strategy_analyzer.py:83-109 | When the first n legs are all long, their net vega is non-negative. |
| Strategies.DirectionOf | strategy_analyzer.py:123-132 | Tier High iff \|delta\| > 0.5, Moderate iff 0.2 < \|delta\| ≤ 0.5, else Low. The bias is bullish iff delta > 0. |
| Strategies.VolatilityOf | strategy_analyzer.py:134-143 | Tier High iff \|vega\| > 0.1, Moderate iff 0.05 < \|vega\| ≤ 0.1, else Low. The bias is "benefits from" iff vega > 0. |
| Strategies.DirectionTextShape | strategy_analyzer.py:123-149 | The direction text's first character and length identify its tier, and one character identifies its bias. The low tier is exactly "Direction-neutral", with no parentheses. |
| Strategies.VolatilityTextShape | strategy_analyzer.py:134-152 | The volatility text's first character identifies its tier and one character its bias. The low tier is exactly "Low volatility sensitivity". |
| Strategies.DirectionTextInjective | strategy_analyzer.py:123-149 | Two direction texts are equal iff they report the same tier and, outside the low tier, the same bias. |
| Strategies.VolatilityTextInjective | strategy_analyzer.py:134-152 | Two volatility texts are equal iff they report the same tier and, outside the low tier, the same bias. |
| Strategies.InterpretRisk | strategy_analyzer.py:111-152 | The label starts with the direction text, whose first character gives the direction tier from \|delta\|. Then comes ". ", and the next character gives the volatility tier from \|vega\|. Bias facts are in `InterpretRiskDistinguishes` and the text lemmas. |
| Strategies.InterpretRiskDistinguishes | strategy_analyzer.py:111-152 | Two risk labels are equal iff both the direction and the volatility parts report the same tier and bias. |
| Strategies.Strategy.LongCall | strategy_analyzer.py:222-236 | One long "call" leg at the strike, priced once (or overridden). The name is "Long Call" and the leg table invariant holds. The object keeps the pricing library that priced its legs, so its Greeks use the same one. |
| Strategies.Strategy.LongPut | strategy_analyzer.py:253-267 | One long "put" leg at the strike, priced once (or overridden). The object keeps the pricing library that priced its legs, so its Greeks use the same one. |
| Strategies.Strategy.CoveredCall | strategy_analyzer.py:284-299 | One short "call" leg at the strike; the entry spot is recorded as the initial spot. The object keeps the pricing library that priced its legs, so its Greeks use the same one. |
| Strategies.Strategy.BullCallSpread | strategy_analyzer.py:323-348 | A long "lower" call and a short "higher" call, in that order, each priced unless its key is overridden. The object keeps the pricing library that priced its legs, so its Greeks use the same one. |
| Strategies.Strategy.BearPutSpread | strategy_analyzer.py:368-393 | A long "higher" put and a short "lower" put, in that order, each priced unless its key is overridden. The object keeps the pricing library that priced its legs, so its Greeks use the same one. |
| Strategies.Strategy.LongStraddle | strategy_analyzer.py:413-436 | A long call and a long put at one strike. The object keeps the pricing library that priced its legs, so its Greeks use the same one. |
| Strategies.Strategy.LongStrangle | strategy_analyzer.py:456-481 | A long call at the call strike and a long put at the put strike. The object keeps the pricing library that priced its legs, so its Greeks use the same one. |
| Strategies.Strategy.BaseGreeks | strategy_analyzer.py:83-109 | The accumulation loop yields exactly the position-weighted sums of the legs' deltas and vegas, over every leg in table order. |
| Strategies.Strategy.CalculateGreeks | strategy_analyzer.py:306-310 | A covered call's delta is the base net delta plus exactly 1.0. Every other variant gets the base delta. Vega is always the base net vega. |
| Strategies.Strategy.CoveredCallDeltaInUnitInterval | strategy_analyzer.py:306-310 | A covered call's delta, stock included, lies in [0, 1]. |
| Strategies.Strategy.StraddleNetVega | strategy_analyzer.py:428-436 | A straddle's two legs have equal vega, and its net vega is twice that vega. |
| Strategies.Strategy.Premiums | strategy_analyzer.py:195 | The returned premiums have exactly the legs' keys and their stored premiums. |
| Strategies.Strategy.PremiumOfLeg | strategy_analyzer.py:233-236 | Each recipe key is present in the premiums with that leg's premium. |
| Strategies.Strategy.PayoffShape | strategy_analyzer.py:238-486 | Each variant dispatches to its own payoff function with its own strikes (a covered call also takes the entry spot). Each leg's premium is the override for its key when present, else that leg's stored premium. `ShapeIsLegSum` proves each formula equal to the leg sum. The seven variant methods are at lines 238-240, 269-271, 302-304, 350-353, 395-398, 438-441 and 483-486. |
| Strategies.Strategy.CalculatePayoff | strategy_analyzer.py:238-486 | Each entry is the sum over the legs of position × (intrinsic value - premium), plus the stock's spot - entry spot for a covered call. Each premium is the override for that leg's key when present; the stored premiums are untouched. The seven variant methods are at lines 238-240, 269-271, 302-304, 350-353, 395-398, 438-441 and 483-486. |
| Strategies.Strategy.ShapeIsLegSum | strategy_analyzer.py:238-486 | Every variant's payoff formula equals the leg-by-leg sum of its legs, plus the stock for a covered call. The seven variant methods are at lines 238-240, 269-271, 302-304, 350-353, 395-398, 438-441 and 483-486. |
| Strategies.Strategy.SingleIsLegSum | strategy_analyzer.py:302-304 | For the one-leg variants the payoff formula equals the leg sum. |
| Strategies.Strategy.BullCallSpreadIsLegSum | strategy_analyzer.py:350-353 | The bull call spread formula equals the long-lower plus short-higher leg sum. |
| Strategies.Strategy.BearPutSpreadIsLegSum | strategy_analyzer.py:395-398 | The bear put spread formula equals the long-higher plus short-lower leg sum. |
| Strategies.Strategy.LongStraddleIsLegSum | strategy_analyzer.py:438-441 | The straddle formula equals its two long legs' sum. |
| Strategies.Strategy.LongStrangleIsLegSum | strategy_analyzer.py:483-486 | The strangle formula equals its two long legs' sum. |
| Strategies.Strategy.Analyze | strategy_analyzer.py:154-198 | Fails (with `EmptyGrid`) iff the grid is empty. Otherwise the record holds the name and grid, and the payoffs of `CalculatePayoff`. |
| Strategies.Strategy.AnalyzeTwice | strategy_analyzer.py:170-198 | Two analyses with the same arguments return identical results. |

On success, `Analyze` also ensures the following. The breakevens are
`Breakevens` of that same grid and payoff array. Max profit and max loss
are elements of that array and bound it. The Greeks are the net sums (plus the
covered call's stock delta). The label is `InterpretRisk` of those Greeks, and
the premiums and initial spot are the strategy's.

## Left out

- The closed-form Black–Scholes arithmetic is not interpreted.
  - log, exp, sqrt and the normal CDF and PDF are supplied as functions.
  - Only CDF ∈ [0,1], PDF ≥ 0 and sqrt positive on positive arguments are assumed.
  - Numeric facts that depend on actual CDF values (deep in-the-money delta near 1, the size of a straddle's vega) are not stated.
- Pricing.Price, Pricing.Delta, Pricing.Vega: with time left they require spot, strike and volatility to be positive. This is the domain on which the Black–Scholes formula is meaningful.
  - Strike = 0 makes `spot / strike` divide by zero, which raises for Python floats.
  - Exactly one of spot and strike negative makes the logarithm NaN.
  - The model does not cover several inputs outside that domain for which the source returns finite values:
    - volatility < 0: the divisor σ·√T is non-zero, so all three results are finite;
    - volatility = 0: NumPy's division by the zero divisor gives d1 = d2 = ±inf. The results are a call price of max(S − K·e^(−rT), 0), a put price of max(K·e^(−rT) − S, 0), a call delta of 1 or 0, a put delta of −1 or 0, and a vega of 0. Only S = K·e^(−rT) exactly gives NaN;
    - spot = 0: `np.log` gives -inf and d1 is -inf. The results are a call price and delta of 0, a put price of strike·e^(−rT), a put delta of −1 and a vega of 0;
    - spot and strike both negative: the ratio is positive, so the logarithm and all three results are finite.
- Strategies.PriceOption: requires the same closed-form domain when no override is given, for the same reason.
- Strategies.Strategy.LongCall: requires the closed-form domain for each leg that is not overridden. So do the other six constructors. `BaseGreeks`, `CalculateGreeks` and `Analyze` require it for every leg, overridden or not (`Priceable`), because the Greeks of every leg are computed.
- Floating point and NumPy semantics are abstracted.
  - Arrays are sequences of exact reals, and `np.maximum` is an element-wise `Max`.
  - No rounding, no NaN, no infinities.
- The `payoff_func` argument of `calculate_breakevens` is a `Shape` value: the payoff function with its non-grid arguments.
  - In `analyze` it is the strategy's `calculate_payoff` with the same overrides (`PayoffShape`).
  - Arbitrary Python callables are not modelled.
- A grid with fewer than two points raises no error: the scan visits no pair and returns an empty list, as the code does.
- `premium_overrides` is a map from leg key to real, and an absent dictionary is the empty map.
  - Python's truthiness test on the dictionary gives the same premiums, since an empty dictionary falls back to the stored premium.
  - A `None` value stored inside the dictionary is not modelled.
- `get_description` in every variant and the `"description"` entry of `analyze` are left out. They are `:.2f` float-to-string formatting of amounts the payoff lemmas already cover.
- Left out entirely:
  - visualizer.py (plotting and file output);
  - example_usage.py (a demo script);
  - the numeric scenario checks in validate.py.
- Strategies.InterpretRisk, Strategies.InterpretRiskDistinguishes and the text lemmas: the full label is not stated as a literal for every tier and bias combination. Injectivity and the first-character, length and bias-character facts are stated instead.
- Vega's `option_type` parameter is kept in the signature but, as in the source, never read.
