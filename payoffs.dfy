/**
 * The payoff engine of strategy_payoffs.py: profit and loss at expiry of the
 * seven strategy shapes over a grid of underlying prices, the breakeven scan
 * over adjacent grid points, and the extrema of a payoff array.
 *
 * NumPy arrays are sequences of reals and an element-wise array expression is
 * the same expression applied at every index (`Evaluate`).
 */
module Payoffs {

  import opened Reals
  import opened Sorting
  import opened Wrappers

  // ---------------------------------------------------------------------------
  // The seven payoff shapes, at one underlying price `s`
  // ---------------------------------------------------------------------------

  /** Long call: limited loss of the premium, unlimited upside. */
  function LongCall(s: real, strike: real, premium: real): (r: real)
    ensures r >= -premium
    ensures s <= strike ==> r == -premium
    ensures s > strike ==> r == s - strike - premium
  {
    Max(s - strike, 0.0) - premium
  }

  /** Long put: limited loss of the premium, largest gain when the underlying is worthless. */
  function LongPut(s: real, strike: real, premium: real): (r: real)
    ensures r >= -premium
    ensures s >= strike ==> r == -premium
    ensures s < strike ==> r == strike - s - premium
    ensures s == 0.0 && strike >= 0.0 ==> r == strike - premium
  {
    Max(strike - s, 0.0) - premium
  }

  /** Covered call: stock bought at `initialSpot` plus a short call; the upside is capped at the strike. */
  function CoveredCall(s: real, initialSpot: real, strike: real, callPremium: real): (r: real)
    ensures r <= (strike - initialSpot) + callPremium
    ensures s >= strike ==> r == (strike - initialSpot) + callPremium
    ensures s < strike ==> r == (s - initialSpot) + callPremium
  {
    var stockPnl := s - initialSpot;
    var shortCallPnl := -Max(s - strike, 0.0) + callPremium;
    stockPnl + shortCallPnl
  }

  /** Bull call spread: long the lower-strike call, short the higher-strike call. */
  function BullCallSpread(s: real, lowerStrike: real, higherStrike: real,
                          lowerPremium: real, higherPremium: real): (r: real)
    ensures var net := lowerPremium - higherPremium;
      lowerStrike <= higherStrike ==> -net <= r <= (higherStrike - lowerStrike) - net
    ensures var net := lowerPremium - higherPremium;
      s <= lowerStrike <= higherStrike ==> r == -net
    ensures var net := lowerPremium - higherPremium;
      lowerStrike <= higherStrike <= s ==> r == (higherStrike - lowerStrike) - net
    ensures var net := lowerPremium - higherPremium;
      lowerStrike <= s <= higherStrike ==> r == s - lowerStrike - net
  {
    var netPremium := lowerPremium - higherPremium;
    var longCall := Max(s - lowerStrike, 0.0);
    var shortCall := -Max(s - higherStrike, 0.0);
    longCall + shortCall - netPremium
  }

  /** Bear put spread: long the higher-strike put, short the lower-strike put. */
  function BearPutSpread(s: real, higherStrike: real, lowerStrike: real,
                         higherPremium: real, lowerPremium: real): (r: real)
    ensures var net := higherPremium - lowerPremium;
      lowerStrike <= higherStrike ==> -net <= r <= (higherStrike - lowerStrike) - net
    ensures var net := higherPremium - lowerPremium;
      lowerStrike <= higherStrike <= s ==> r == -net
    ensures var net := higherPremium - lowerPremium;
      s <= lowerStrike <= higherStrike ==> r == (higherStrike - lowerStrike) - net
    ensures var net := higherPremium - lowerPremium;
      lowerStrike <= s <= higherStrike ==> r == higherStrike - s - net
  {
    var netPremium := higherPremium - lowerPremium;
    var longPut := Max(higherStrike - s, 0.0);
    var shortPut := -Max(lowerStrike - s, 0.0);
    longPut + shortPut - netPremium
  }

  /** Long straddle: a call and a put at one strike, both bought. */
  function Straddle(s: real, strike: real, callPremium: real, putPremium: real): (r: real)
    ensures r == Abs(s - strike) - (callPremium + putPremium)
    ensures r >= -(callPremium + putPremium)
    ensures r == -(callPremium + putPremium) <==> s == strike
    ensures var total := callPremium + putPremium;
      total >= 0.0 ==> (r == 0.0 <==> s == strike - total || s == strike + total)
  {
    var totalPremium := callPremium + putPremium;
    var callPayoff := Max(s - strike, 0.0);
    var putPayoff := Max(strike - s, 0.0);
    callPayoff + putPayoff - totalPremium
  }

  /** Long strangle: a call and a put at two strikes, both bought. */
  function Strangle(s: real, callStrike: real, putStrike: real,
                    callPremium: real, putPremium: real): (r: real)
    ensures r >= -(callPremium + putPremium)
    ensures r == -(callPremium + putPremium) <==> putStrike <= s <= callStrike
    ensures putStrike <= callStrike < s ==> r == s - callStrike - (callPremium + putPremium)
    ensures s < putStrike <= callStrike ==> r == putStrike - s - (callPremium + putPremium)
  {
    var totalPremium := callPremium + putPremium;
    var callPayoff := Max(s - callStrike, 0.0);
    var putPayoff := Max(putStrike - s, 0.0);
    callPayoff + putPayoff - totalPremium
  }

  // ---------------------------------------------------------------------------
  // A shape with its arguments, evaluated over a grid
  // ---------------------------------------------------------------------------

  /** One of the seven payoff functions together with its non-grid arguments. */
  datatype Shape =
    | LongCallShape(strike: real, premium: real)
    | LongPutShape(strike: real, premium: real)
    | CoveredCallShape(initialSpot: real, strike: real, callPremium: real)
    | BullCallSpreadShape(lowerStrike: real, higherStrike: real, lowerPremium: real, higherPremium: real)
    | BearPutSpreadShape(higherStrike: real, lowerStrike: real, higherPremium: real, lowerPremium: real)
    | StraddleShape(strike: real, callPremium: real, putPremium: real)
    | StrangleShape(callStrike: real, putStrike: real, callPremium: real, putPremium: real)

  function PayoffAt(sh: Shape, s: real): real {
    match sh
    case LongCallShape(k, p) => LongCall(s, k, p)
    case LongPutShape(k, p) => LongPut(s, k, p)
    case CoveredCallShape(s0, k, c) => CoveredCall(s, s0, k, c)
    case BullCallSpreadShape(lo, hi, pl, ph) => BullCallSpread(s, lo, hi, pl, ph)
    case BearPutSpreadShape(hi, lo, ph, pl) => BearPutSpread(s, hi, lo, ph, pl)
    case StraddleShape(k, c, p) => Straddle(s, k, c, p)
    case StrangleShape(ck, pk, c, p) => Strangle(s, ck, pk, c, p)
  }

  /** The payoff array of a shape over a grid: one entry per grid point, in grid order. */
  function Evaluate(sh: Shape, spots: seq<real>): (r: seq<real>)
    ensures |r| == |spots|
    ensures forall i :: 0 <= i < |spots| ==> r[i] == PayoffAt(sh, spots[i])
  {
    seq(|spots|, i requires 0 <= i < |spots| => PayoffAt(sh, spots[i]))
  }

  // ---------------------------------------------------------------------------
  // Breakevens
  // ---------------------------------------------------------------------------

  /** A grid pair contributes a breakeven: the product is not positive and the values differ. */
  predicate Crosses(y1: real, y2: real) {
    y1 * y2 <= 0.0 && y1 != y2
  }

  /** The zero of the line through (x1, y1) and (x2, y2). */
  function Interpolate(x1: real, x2: real, y1: real, y2: real): real
    requires y1 != y2
  {
    x1 - y1 * (x2 - x1) / (y2 - y1)
  }

  /** Number of adjacent pairs the scan visits: `range(len(spots) - 1)`. */
  function PairCount(xs: seq<real>): nat {
    if |xs| == 0 then 0 else |xs| - 1
  }

  /** `b` is the breakeven interpolated on the pair (i, i + 1). */
  predicate CrossingAt(xs: seq<real>, ys: seq<real>, i: int, b: real) {
    && 0 <= i && i + 1 < |xs| && i + 1 < |ys|
    && Crosses(ys[i], ys[i + 1])
    && b == Interpolate(xs[i], xs[i + 1], ys[i], ys[i + 1])
  }

  /** `b` is on the zero of the chord through (x1, y1) and (x2, y2), stated without division. */
  predicate OnZeroOfChord(x1: real, x2: real, y1: real, y2: real, b: real) {
    (b - x1) * (y2 - y1) == -y1 * (x2 - x1)
  }

  /** The breakevens the scan has appended after visiting the first `n` pairs, in scan order. */
  function CrossingsUpTo(xs: seq<real>, ys: seq<real>, n: nat): (r: seq<real>)
    requires |ys| == |xs| && n <= PairCount(xs)
    ensures |r| <= n
  {
    if n == 0 then []
    else
      var i := n - 1;
      CrossingsUpTo(xs, ys, i) +
        (if Crosses(ys[i], ys[i + 1]) then [Interpolate(xs[i], xs[i + 1], ys[i], ys[i + 1])] else [])
  }

  /** The unsorted breakeven list of a whole scan. */
  function Crossings(xs: seq<real>, ys: seq<real>): seq<real>
    requires |ys| == |xs|
  {
    CrossingsUpTo(xs, ys, PairCount(xs))
  }

  /** The breakevens reported for payoffs `ys` over grid `xs`. */
  function Breakevens(xs: seq<real>, ys: seq<real>): seq<real>
    requires |ys| == |xs|
  {
    Sort(Crossings(xs, ys))
  }

  /**
   * The breakeven scan: evaluates the shape over the grid, appends the
   * interpolated zero of every pair that crosses, and sorts the result.
   */
  method CalculateBreakevens(sh: Shape, spots: seq<real>) returns (breakevens: seq<real>)
    ensures breakevens == Breakevens(spots, Evaluate(sh, spots))
    ensures Sorted(breakevens)
    ensures |breakevens| <= PairCount(spots)
  {
    var payoffs := Evaluate(sh, spots);
    breakevens := [];
    var n := PairCount(spots);
    var i := 0;
    while i < n
      invariant 0 <= i <= n
      invariant breakevens == CrossingsUpTo(spots, payoffs, i)
    {
      ghost var step := CrossingsUpTo(spots, payoffs, i + 1);
      if payoffs[i] * payoffs[i + 1] <= 0.0 {
        var x1, x2 := spots[i], spots[i + 1];
        var y1, y2 := payoffs[i], payoffs[i + 1];
        if y1 != y2 {
          var breakeven := Interpolate(x1, x2, y1, y2);
          assert step == breakevens + [breakeven];
          breakevens := breakevens + [breakeven];
        } else {
          assert step == breakevens;
        }
      } else {
        assert step == breakevens;
      }
      i := i + 1;
    }
    breakevens := Sort(breakevens);
  }

  /** An element of the scan's list is exactly the interpolated zero of some crossing pair, and conversely. */
  lemma {:induction false} CrossingsUpToMembers(xs: seq<real>, ys: seq<real>, n: nat, b: real)
    requires |ys| == |xs| && n <= PairCount(xs)
    ensures b in CrossingsUpTo(xs, ys, n) <==> exists i :: 0 <= i < n && CrossingAt(xs, ys, i, b)
  {
    if n > 0 {
      CrossingsUpToMembers(xs, ys, n - 1, b);
      if CrossingAt(xs, ys, n - 1, b) {
        assert b in CrossingsUpTo(xs, ys, n);
      }
    }
  }

  /** The scan over a longer prefix holds every breakeven of a shorter one at least as often. */
  lemma {:induction false} CrossingsUpToGrow(xs: seq<real>, ys: seq<real>, m: nat, n: nat, b: real)
    requires |ys| == |xs| && m <= n <= PairCount(xs)
    ensures multiset(CrossingsUpTo(xs, ys, m))[b] <= multiset(CrossingsUpTo(xs, ys, n))[b]
  {
    if m < n {
      CrossingsUpToGrow(xs, ys, m, n - 1, b);
    }
  }

  /** A crossing pair's values lie on either side of zero, the first one below when the pair rises. */
  lemma CrossingSigns(y1: real, y2: real)
    requires Crosses(y1, y2)
    ensures y1 < y2 ==> y1 <= 0.0 <= y2
    ensures y2 < y1 ==> y2 <= 0.0 <= y1
  {
    assert y1 > 0.0 && y2 > 0.0 ==> y1 * y2 > 0.0;
    assert y1 < 0.0 && y2 < 0.0 ==> y1 * y2 > 0.0;
  }

  /** A crossing pair's interpolated zero lies between its two abscissas and is where the chord is zero. */
  lemma InterpolationBracketed(x1: real, x2: real, y1: real, y2: real)
    requires x1 <= x2 && Crosses(y1, y2)
    ensures x1 <= Interpolate(x1, x2, y1, y2) <= x2
    ensures OnZeroOfChord(x1, x2, y1, y2, Interpolate(x1, x2, y1, y2))
  {
    var w := x2 - x1;
    var d := y2 - y1;
    var t := y1 / d;
    CrossingSigns(y1, y2);
    assert y1 * w / d == t * w;
    assert -1.0 <= t <= 0.0;
    assert Interpolate(x1, x2, y1, y2) == x1 - t * w;
    assert 0.0 <= -t * w <= w;
    assert t * d == y1;
    assert (-t * w) * d == -y1 * w;
  }

  /** The reported list is sorted, no longer than the number of pairs, and holds exactly the scan's crossings. */
  lemma BreakevensShape(xs: seq<real>, ys: seq<real>)
    requires |ys| == |xs|
    ensures Sorted(Breakevens(xs, ys))
    ensures |Breakevens(xs, ys)| <= PairCount(xs)
    ensures multiset(Breakevens(xs, ys)) == multiset(Crossings(xs, ys))
  {
  }

  /**
   * On a strictly increasing grid every reported breakeven comes from a
   * crossing pair (i, i + 1), lies in [xs[i], xs[i + 1]], and is the zero of the
   * chord through that pair.
   */
  lemma BreakevensBracketed(xs: seq<real>, ys: seq<real>, b: real)
    requires |ys| == |xs|
    requires forall i :: 0 <= i < |xs| - 1 ==> xs[i] < xs[i + 1]
    requires b in Breakevens(xs, ys)
    ensures exists i :: CrossingAt(xs, ys, i, b) && xs[i] <= b <= xs[i + 1]
                        && OnZeroOfChord(xs[i], xs[i + 1], ys[i], ys[i + 1], b)
  {
    assert b in multiset(Crossings(xs, ys));
    CrossingsUpToMembers(xs, ys, PairCount(xs), b);
    var i :| 0 <= i < PairCount(xs) && CrossingAt(xs, ys, i, b);
    assert xs[i] < xs[i + 1];
    InterpolationBracketed(xs[i], xs[i + 1], ys[i], ys[i + 1]);
    assert CrossingAt(xs, ys, i, b) && xs[i] <= b <= xs[i + 1]
           && OnZeroOfChord(xs[i], xs[i + 1], ys[i], ys[i + 1], b);
  }

  /** Every crossing pair of the grid contributes its interpolated zero to the reported list. */
  lemma BreakevensComplete(xs: seq<real>, ys: seq<real>, i: nat)
    requires |ys| == |xs| && i + 1 < |xs|
    requires Crosses(ys[i], ys[i + 1])
    ensures Interpolate(xs[i], xs[i + 1], ys[i], ys[i + 1]) in Breakevens(xs, ys)
  {
    var b := Interpolate(xs[i], xs[i + 1], ys[i], ys[i + 1]);
    CrossingsUpToMembers(xs, ys, PairCount(xs), b);
    assert CrossingAt(xs, ys, i, b);
    assert b in multiset(Crossings(xs, ys));
  }

  /** A pair with equal payoffs (a flat segment, zero or not) never contributes a breakeven. */
  lemma FlatPairSkipped(xs: seq<real>, ys: seq<real>, i: int, b: real)
    requires |ys| == |xs| && 0 <= i && i + 1 < |xs| && ys[i] == ys[i + 1]
    ensures !CrossingAt(xs, ys, i, b)
  {
  }

  /**
   * The list is not de-duplicated: a payoff that is exactly zero at an interior
   * grid point, with non-zero neighbours, is reported twice, once from each
   * adjacent pair.
   */
  lemma ZeroAtGridPointReportedTwice(xs: seq<real>, ys: seq<real>, i: nat)
    requires |ys| == |xs| && 0 < i && i + 1 < |xs|
    requires ys[i] == 0.0 && ys[i - 1] != 0.0 && ys[i + 1] != 0.0
    ensures multiset(Breakevens(xs, ys))[xs[i]] >= 2
  {
    ZeroReachedFromBothSides(xs[i - 1], xs[i], xs[i + 1], ys[i - 1], ys[i + 1]);
    var b := xs[i];
    CrossingStep(xs, ys, i - 1, b);
    CrossingStep(xs, ys, i, b);
    TwiceAppended(CrossingsUpTo(xs, ys, i - 1), b);
    CrossingsUpToGrow(xs, ys, i + 1, PairCount(xs), b);
  }

  /** A crossing pair appends its breakeven `b` to the scan's list. */
  lemma CrossingStep(xs: seq<real>, ys: seq<real>, i: nat, b: real)
    requires |ys| == |xs| && i + 1 < |xs|
    requires Crosses(ys[i], ys[i + 1]) && Interpolate(xs[i], xs[i + 1], ys[i], ys[i + 1]) == b
    ensures CrossingsUpTo(xs, ys, i + 1) == CrossingsUpTo(xs, ys, i) + [b]
  {
  }

  lemma TwiceAppended(s: seq<real>, b: real)
    ensures multiset(s + [b] + [b])[b] == multiset(s)[b] + 2
  {
    assert multiset(s + [b] + [b]) == multiset(s) + multiset{b} + multiset{b};
  }

  /** Both pairs around a grid point whose payoff is zero cross there, at that very point. */
  lemma ZeroReachedFromBothSides(x0: real, x1: real, x2: real, y0: real, y2: real)
    requires y0 != 0.0 && y2 != 0.0
    ensures Crosses(y0, 0.0) && Interpolate(x0, x1, y0, 0.0) == x1
    ensures Crosses(0.0, y2) && Interpolate(x1, x2, 0.0, y2) == x1
  {
    assert y0 * (x1 - x0) / (0.0 - y0) == -(x1 - x0);
  }

  // ---------------------------------------------------------------------------
  // Extrema
  // ---------------------------------------------------------------------------

  /** Largest element of a non-empty array (`np.max`). */
  function MaxOf(s: seq<real>): (r: real)
    requires |s| > 0
    ensures r in s
    ensures forall i :: 0 <= i < |s| ==> s[i] <= r
  {
    if |s| == 1 then s[0] else Max(s[0], MaxOf(s[1..]))
  }

  /** Smallest element of a non-empty array (`np.min`). */
  function MinOf(s: seq<real>): (r: real)
    requires |s| > 0
    ensures r in s
    ensures forall i :: 0 <= i < |s| ==> r <= s[i]
  {
    if |s| == 1 then s[0] else Min(s[0], MinOf(s[1..]))
  }

  datatype ProfitLoss = ProfitLoss(maxProfit: real, maxLoss: real)

  /** Max profit and max loss of a payoff array; `None` where NumPy raises on an empty array. */
  function CalculateMaxProfitLoss(payoffs: seq<real>): (r: Option<ProfitLoss>)
    ensures r.Some? <==> |payoffs| > 0
    ensures r.Some? ==> r.value.maxProfit in payoffs && r.value.maxLoss in payoffs
    ensures r.Some? ==> forall i :: 0 <= i < |payoffs| ==> r.value.maxLoss <= payoffs[i] <= r.value.maxProfit
  {
    if |payoffs| == 0 then None else Some(ProfitLoss(MaxOf(payoffs), MinOf(payoffs)))
  }

  /**
   * Over any non-empty grid a long call never loses more than its premium, and
   * loses exactly the premium as soon as one grid point is at or below the strike.
   */
  lemma LongCallMaxLoss(spots: seq<real>, strike: real, premium: real)
    requires |spots| > 0
    ensures var pl := CalculateMaxProfitLoss(Evaluate(LongCallShape(strike, premium), spots));
      pl.Some? && pl.value.maxLoss >= -premium
      && ((exists i :: 0 <= i < |spots| && spots[i] <= strike) ==> pl.value.maxLoss == -premium)
  {
    var ys := Evaluate(LongCallShape(strike, premium), spots);
    var m := MinOf(ys);
    var j :| 0 <= j < |ys| && ys[j] == m;
    assert m >= -premium;
    if i :| 0 <= i < |spots| && spots[i] <= strike {
      assert ys[i] == -premium;
    }
  }

  /**
   * Over any non-empty grid a straddle's max loss is at most the total premium,
   * and equals it exactly when the strike is a grid point.
   */
  lemma StraddleMaxLoss(spots: seq<real>, strike: real, callPremium: real, putPremium: real)
    requires |spots| > 0
    ensures var pl := CalculateMaxProfitLoss(Evaluate(StraddleShape(strike, callPremium, putPremium), spots));
      pl.Some? && pl.value.maxLoss >= -(callPremium + putPremium)
      && (pl.value.maxLoss == -(callPremium + putPremium) <==> strike in spots)
  {
    var ys := Evaluate(StraddleShape(strike, callPremium, putPremium), spots);
    var m := MinOf(ys);
    var j :| 0 <= j < |ys| && ys[j] == m;
    assert ys[j] == Straddle(spots[j], strike, callPremium, putPremium);
    if strike in spots {
      var i :| 0 <= i < |spots| && spots[i] == strike;
      assert ys[i] == -(callPremium + putPremium);
    }
  }

  /**
   * With the lower strike at or below the higher, the extrema of a bull call
   * spread over any non-empty grid lie within the spread's bounds.
   */
  lemma BullCallSpreadExtremaBounded(spots: seq<real>, lowerStrike: real, higherStrike: real,
                                     lowerPremium: real, higherPremium: real)
    requires |spots| > 0 && lowerStrike <= higherStrike
    ensures var net := lowerPremium - higherPremium;
      var pl := CalculateMaxProfitLoss(
        Evaluate(BullCallSpreadShape(lowerStrike, higherStrike, lowerPremium, higherPremium), spots));
      pl.Some? && -net <= pl.value.maxLoss && pl.value.maxProfit <= (higherStrike - lowerStrike) - net
  {
    var ys := Evaluate(BullCallSpreadShape(lowerStrike, higherStrike, lowerPremium, higherPremium), spots);
    var hi := MaxOf(ys);
    var lo := MinOf(ys);
    var j :| 0 <= j < |ys| && ys[j] == hi;
    var k :| 0 <= k < |ys| && ys[k] == lo;
    assert ys[j] == BullCallSpread(spots[j], lowerStrike, higherStrike, lowerPremium, higherPremium);
    assert ys[k] == BullCallSpread(spots[k], lowerStrike, higherStrike, lowerPremium, higherPremium);
  }
}
