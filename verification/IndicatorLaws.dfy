/** What the indicator values mean: averages stay among their values, the strength index within its scale, deviations vanish on even moves. */
module IndicatorLaws {
  import opened Prelude
  import opened Candles
  import opened Indicators

  // ---- rounding -----------------------------------------------------------------------------------------------------

  /** Half-even rounding never moves a value by more than half a step, and a tie goes to the even step. */
  lemma HalfEvenIsNearest(x: real)
    ensures -0.5 <= HalfEven(x) as real - x <= 0.5
    ensures (HalfEven(x) as real - x == 0.5 || HalfEven(x) as real - x == -0.5) ==> HalfEven(x) % 2 == 0
  {
    var f := x.Floor;
    assert f as real <= x < f as real + 1.0;
  }

  lemma QuantizedWhole(n: int, steps: real)
    requires steps > 0.0
    ensures Quantized(n as real, 1.0) == n as real && Quantized(0.0, steps) == 0.0
  {
    assert (n as real).Floor == n;
    assert (0.0 * steps).Floor == 0 && 0.0 * steps == 0.0;
  }

  lemma QuantizedSign(x: real, steps: real)
    requires steps > 0.0
    ensures x >= 0.0 ==> Quantized(x, steps) >= 0.0
    ensures x <= 0.0 ==> Quantized(x, steps) <= 0.0
  {
    QuantizedWhole(0, steps);
    if x >= 0.0 { QuantizedMonotone(0.0, x, steps); } else { QuantizedMonotone(x, 0.0, steps); }
  }

  // ---- averages -----------------------------------------------------------------------------------------------------

  ghost predicate Within(values: seq<real>, lo: real, hi: real) { forall i :: 0 <= i < |values| ==> lo <= values[i] <= hi }

  /** A step that stays between the average so far and the new value. */
  ghost predicate Averaging(step: (real, real) -> real, lo: real, hi: real) {
    forall current, x :: lo <= current <= hi && lo <= x <= hi ==> lo <= step(current, x) <= hi
  }

  lemma {:induction false} SumWithin(values: seq<real>, lo: real, hi: real)
    requires Within(values, lo, hi)
    ensures lo * |values| as real <= Sum(values) <= hi * |values| as real
  {
    var n := |values| as real;
    if values == [] {
      NoneOf(lo);
      NoneOf(hi);
    } else {
      SumWithin(values[..|values| - 1], lo, hi);
      OneMore(lo, n, n - 1.0);
      OneMore(hi, n, n - 1.0);
    }
  }

  lemma NoneOf(x: real)
    ensures x * 0.0 == 0.0
  {
  }

  lemma MeanWithin(values: seq<real>, lo: real, hi: real)
    requires values != [] && Within(values, lo, hi)
    ensures lo <= Sum(values) / |values| as real <= hi
  {
    var n := |values| as real;
    SumWithin(values, lo, hi);
    Undone(lo, n);
    Undone(hi, n);
    DivideMonotone(lo * n, Sum(values), n);
    DivideMonotone(Sum(values), hi * n, n);
  }

  lemma Undone(x: real, n: real)
    requires n != 0.0
    ensures x * n / n == x
  {
  }

  lemma {:induction false} SmoothedWithin(past: seq<real>, period: nat, step: (real, real) -> real, lo: real, hi: real)
    requires 1 <= period <= |past| && Averaging(step, lo, hi) && Within(past, lo, hi)
    ensures lo <= Smoothed(past, period, step) <= hi
  {
    if |past| == period {
      MeanWithin(past, lo, hi);
    } else {
      SmoothedWithin(past[..|past| - 1], period, step, lo, hi);
    }
  }

  /** A product kept as one term. */
  function Times(x: real, k: real): real { x * k }

  lemma TimesBetween(d: real, k: real)
    requires 0.0 <= k <= 1.0
    ensures if d >= 0.0 then 0.0 <= Times(d, k) <= d else d <= Times(d, k) <= 0.0
  {
    var rest := 1.0 - k;
    assert d * k + d * rest == d;
    if d >= 0.0 {
      assert d * k >= 0.0 && d * rest >= 0.0;
    } else {
      var e := -d;
      assert e * k >= 0.0 && e * rest >= 0.0;
      assert d * k == -(e * k) && d * rest == -(e * rest);
    }
  }

  lemma Between(a: real, b: real, k: real, lo: real, hi: real)
    requires 0.0 <= k <= 1.0 && lo <= a <= hi && lo <= b <= hi
    ensures lo <= Times(b - a, k) + a <= hi
  {
    TimesBetween(b - a, k);
    hide Times;
  }

  lemma EmaAverages(period: nat, lo: real, hi: real)
    requires period >= 1
    ensures Averaging(EmaStep(period), lo, hi)
  {
    var k := 2.0 / (period + 1) as real;
    DivideMonotone(2.0, (period + 1) as real, (period + 1) as real);
    forall current, x | lo <= current <= hi && lo <= x <= hi ensures lo <= EmaStep(period)(current, x) <= hi {
      Between(current, x, k, lo, hi);
      assert EmaStep(period)(current, x) == Times(x - current, k) + current;
    }
  }

  lemma WilderAverages(period: nat, lo: real, hi: real)
    requires period >= 1
    ensures Averaging(WilderStep(period), lo, hi)
  {
    forall current, x | lo <= current <= hi && lo <= x <= hi ensures lo <= WilderStep(period)(current, x) <= hi {
      WilderBetween(current, x, period as real, lo, hi);
    }
  }

  lemma WilderBetween(current: real, x: real, n: real, lo: real, hi: real)
    requires n >= 1.0 && lo <= current <= hi && lo <= x <= hi
    ensures lo <= (current * (n - 1.0) + x) / n <= hi
  {
    var k := n - 1.0;
    Product(lo, current, k);
    Product(current, hi, k);
    OneMore(lo, n, k);
    OneMore(hi, n, k);
    Undone(lo, n);
    Undone(hi, n);
    DivideMonotone(lo * n, current * k + x, n);
    DivideMonotone(current * k + x, hi * n, n);
  }

  lemma OneMore(x: real, n: real, k: real)
    requires n == k + 1.0
    ensures x * n == x * k + x
  {
  }

  lemma Product(a: real, b: real, k: real)
    requires a <= b && k >= 0.0
    ensures a * k <= b * k
  {
  }

  lemma EmaStepMoves(period: nat, current: real, x: real)
    requires period >= 1
    ensures (EmaStep(period)(current, x) - current) * (period + 1) as real == 2.0 * (x - current)
  {
    var n := (period + 1) as real;
    assert 2.0 / n * n == 2.0;
  }

  lemma WilderStepMoves(period: nat, current: real, x: real)
    requires period >= 1
    ensures (WilderStep(period)(current, x) - current) * period as real == x - current
  {
    var n := period as real;
    assert (current * (n - 1.0) + x) / n * n == current * (n - 1.0) + x;
  }

  lemma SmoothedParts(past: seq<real>, period: nat, step: (real, real) -> real)
    requires 1 <= period <= |past|
    ensures |past| == period ==> Smoothed(past, period, step) == Sum(past) / period as real
    ensures |past| > period ==> Smoothed(past, period, step) == step(Smoothed(past[..|past| - 1], period, step), past[|past| - 1])
  {
    hide Sum;
  }

  lemma Redone(x: real, n: real)
    requires n != 0.0
    ensures x / n * n == x
  {
  }

  lemma Entries(past: seq<real>, period: nat)
    requires 1 <= period <= |past|
    ensures EmaAt(period)(past) == Some(Quantized(Smoothed(past, period, EmaStep(period)), PRICE_STEPS))
    ensures WilderAt(period)(past) == Some(Smoothed(past, period, WilderStep(period)))
  {
    hide Quantized, EmaStep, WilderStep, Smoothed;
  }

  /**
   * An exponential average starts as the mean of its first period, and each later value moves it two parts in period plus one of the
   * way towards that value; the entry is that average, rounded.
   */
  lemma EmaMovesTowards(past: seq<real>, period: nat)
    requires 1 <= period <= |past|
    ensures EmaAt(period)(past) == Some(Quantized(Smoothed(past, period, EmaStep(period)), PRICE_STEPS))
    ensures |past| == period ==> Smoothed(past, period, EmaStep(period)) * period as real == Sum(past)
    ensures |past| > period ==>
              var before, last := Smoothed(past[..|past| - 1], period, EmaStep(period)), past[|past| - 1];
              (Smoothed(past, period, EmaStep(period)) - before) * (period + 1) as real == 2.0 * (last - before)
  {
    hide *;
    Entries(past, period);
    SmoothedParts(past, period, EmaStep(period));
    if |past| == period { Redone(Sum(past), period as real); }
    else { EmaStepMoves(period, Smoothed(past[..|past| - 1], period, EmaStep(period)), past[|past| - 1]); }
  }

  /** And a Wilder average moves one part in period. */
  lemma WilderMovesTowards(past: seq<real>, period: nat)
    requires 1 <= period <= |past|
    ensures WilderAt(period)(past) == Some(Smoothed(past, period, WilderStep(period)))
    ensures |past| == period ==> Smoothed(past, period, WilderStep(period)) * period as real == Sum(past)
    ensures |past| > period ==>
              var before, last := Smoothed(past[..|past| - 1], period, WilderStep(period)), past[|past| - 1];
              (Smoothed(past, period, WilderStep(period)) - before) * period as real == last - before
  {
    hide *;
    Entries(past, period);
    SmoothedParts(past, period, WilderStep(period));
    if |past| == period { Redone(Sum(past), period as real); }
    else { WilderStepMoves(period, Smoothed(past[..|past| - 1], period, WilderStep(period)), past[|past| - 1]); }
  }

  /** An entry that exists from its period on, between the rounded bounds. */
  ghost predicate Among(entry: Option<real>, there: bool, lo: real, hi: real) {
    (entry.Some? <==> there) && (entry.Some? ==> Quantized(lo, PRICE_STEPS) <= entry.value <= Quantized(hi, PRICE_STEPS))
  }

  lemma RoundedAmong(x: real, lo: real, hi: real)
    requires lo <= x <= hi
    ensures Among(Some(Quantized(x, PRICE_STEPS)), true, lo, hi)
  {
    QuantizedMonotone(lo, x, PRICE_STEPS);
    QuantizedMonotone(x, hi, PRICE_STEPS);
    hide Quantized;
  }

  /**
   * Every moving average exists exactly from its period on, and lies between any bounds of the values it has seen, up to the
   * rounding of those bounds.
   */
  lemma AveragesStayAmongTheValues(past: seq<real>, period: nat, lo: real, hi: real)
    requires period >= 1 && Within(past, lo, hi)
    ensures Among(SmaAt(period)(past), |past| >= period, lo, hi)
    ensures Among(EmaAt(period)(past), |past| >= period, lo, hi)
  {
    hide Quantized, Smoothed, Sum, EmaStep;
    if |past| >= period {
      var window := past[|past| - period..];
      MeanWithin(window, lo, hi);
      RoundedAmong(Sum(window) / period as real, lo, hi);
      EmaAverages(period, lo, hi);
      SmoothedWithin(past, period, EmaStep(period), lo, hi);
      RoundedAmong(Smoothed(past, period, EmaStep(period)), lo, hi);
    }
  }

  // ---- the strength index ---------------------------------------------------------------------------------------------

  /** The strength index is the share of the gains in all moves, in percent; without any loss it is 100. */
  lemma StrengthIsTheShareOfGains(up: real, down: real)
    requires up >= 0.0 && down >= 0.0
    ensures RsiFrom(Some(up), Some(down))
         == Some(if down == 0.0 then 100.0 else Quantized(100.0 * up / (up + down), PCT_STEPS))
  {
    if down == 0.0 {
      assert (100.0 * PCT_STEPS).Floor == 1_000_000 && 100.0 * PCT_STEPS == 1_000_000.0;
    } else {
      Share(up, down);
    }
  }

  lemma Share(up: real, down: real)
    requires up >= 0.0 && down > 0.0
    ensures 1.0 + up / down > 0.0 && 100.0 - 100.0 / (1.0 + up / down) == 100.0 * up / (up + down)
  {
    var q, t := 1.0 + up / down, up + down;
    assert up / down * down == up;
    assert q * down == t;
    assert up / down >= 0.0;
    Fraction(q, down, t);
    assert 100.0 * up / t == 100.0 - 100.0 * down / t by { assert 100.0 * up == 100.0 * t - 100.0 * down; Undone(100.0, t); Split(100.0 * t, 100.0 * down, t); }
  }

  lemma Split(a: real, b: real, t: real)
    requires t != 0.0
    ensures (a - b) / t == a / t - b / t
  {
  }

  lemma Fraction(q: real, down: real, t: real)
    requires q > 0.0 && down > 0.0 && q * down == t
    ensures 100.0 / q == 100.0 * down / t
  {
    var r := 100.0 / q;
    assert r * q == 100.0;
    assert r * t == r * (q * down) == (r * q) * down == 100.0 * down;
    assert r * t / t == r by { Undone(r, t); }
  }

  lemma ShareBounds(up: real, down: real)
    requires up >= 0.0 && down > 0.0
    ensures 0.0 <= 100.0 * up / (up + down) <= 100.0
  {
    var t := up + down;
    DivideMonotone(0.0, 100.0 * up, t);
    DivideMonotone(100.0 * up, 100.0 * t, t);
    Undone(100.0, t);
  }

  lemma StrengthInScale(up: real, down: real)
    requires up >= 0.0 && down >= 0.0
    ensures RsiFrom(Some(up), Some(down)).Some? && 0.0 <= RsiFrom(Some(up), Some(down)).value <= 100.0
    ensures up == 0.0 && down > 0.0 ==> RsiFrom(Some(up), Some(down)).value == 0.0
  {
    StrengthIsTheShareOfGains(up, down);
    hide RsiFrom;
    if down > 0.0 {
      ShareBounds(up, down);
      QuantizedSign(100.0 * up / (up + down), PCT_STEPS);
      QuantizedMonotone(100.0 * up / (up + down), 100.0, PCT_STEPS);
      assert (100.0 * PCT_STEPS).Floor == 1_000_000 && Quantized(100.0, PCT_STEPS) == 100.0;
      if up == 0.0 { QuantizedWhole(0, PCT_STEPS); }
    }
  }

  lemma ChangesPositive(past: seq<real>)
    ensures forall i :: 0 <= i < |Changes(past, Gain)| ==> Changes(past, Gain)[i] >= 0.0 && Changes(past, Loss)[i] >= 0.0
  {
  }

  lemma {:induction false} SmoothedPositive(past: seq<real>, period: nat)
    requires 1 <= period <= |past| && forall i :: 0 <= i < |past| ==> past[i] >= 0.0
    ensures Smoothed(past, period, WilderStep(period)) >= 0.0
  {
    var hi := Largest(past);
    WilderAverages(period, 0.0, hi);
    SmoothedWithin(past, period, WilderStep(period), 0.0, hi);
  }

  function Largest(values: seq<real>): (r: real)
    requires values != []
    ensures forall i :: 0 <= i < |values| ==> values[i] <= r
  {
    if |values| == 1 then values[0]
    else
      var rest := Largest(values[..|values| - 1]);
      if values[|values| - 1] > rest then values[|values| - 1] else rest
  }

  lemma {:induction false} SmoothedZero(past: seq<real>, period: nat)
    requires 1 <= period <= |past| && forall i :: 0 <= i < |past| ==> past[i] == 0.0
    ensures Smoothed(past, period, WilderStep(period)) == 0.0
  {
    WilderAverages(period, 0.0, 0.0);
    SmoothedWithin(past, period, WilderStep(period), 0.0, 0.0);
  }

  /**
   * The strength index exists exactly when more than a period of values is there, always lies in [0, 100], and is 100 on a
   * series that never falls.
   */
  lemma StrengthStaysInScale(past: seq<real>, period: nat)
    requires period >= 1
    ensures RsiAt(period)(past).Some? <==> |past| > period
    ensures RsiAt(period)(past).Some? ==> 0.0 <= RsiAt(period)(past).value <= 100.0
    ensures |past| > period && (forall i :: 0 < i < |past| ==> past[i - 1] <= past[i]) ==> RsiAt(period)(past) == Some(100.0)
  {
    hide RsiFrom, Smoothed, Changes, WilderAt;
    if |past| > period {
      var gains, losses := Changes(past, Gain), Changes(past, Loss);
      ChangesPositive(past);
      SmoothedPositive(gains, period);
      SmoothedPositive(losses, period);
      var up, down := Smoothed(gains, period, WilderStep(period)), Smoothed(losses, period, WilderStep(period));
      StrengthInScale(up, down);
      StrengthOf(past, period, up, down);
      if forall i :: 0 < i < |past| ==> past[i - 1] <= past[i] {
        NoLosses(past);
        SmoothedZero(losses, period);
        StrengthIsTheShareOfGains(up, 0.0);
      }
    }
  }

  lemma StrengthOf(past: seq<real>, period: nat, up: real, down: real)
    requires period >= 1 && |past| > period
    requires up == Smoothed(Changes(past, Gain), period, WilderStep(period)) && down == Smoothed(Changes(past, Loss), period, WilderStep(period))
    ensures RsiAt(period)(past) == RsiFrom(Some(up), Some(down))
  {
    hide RsiFrom, Smoothed, Changes;
    assert WilderAt(period)(Changes(past, Gain)) == Some(up);
    assert WilderAt(period)(Changes(past, Loss)) == Some(down);
  }

  lemma NoLosses(past: seq<real>)
    requires forall i :: 0 < i < |past| ==> past[i - 1] <= past[i]
    ensures forall i :: 0 <= i < |Changes(past, Loss)| ==> Changes(past, Loss)[i] == 0.0
  {
    forall i | 0 <= i < |Changes(past, Loss)| ensures Changes(past, Loss)[i] == 0.0 {
      assert past[(i + 1) - 1] <= past[i + 1];
    }
  }

  // ---- ranges -------------------------------------------------------------------------------------------------------

  /** The true range of a candle is the span of the candle together with the close before it. */
  lemma TrueRangeIsTheSpan(previous: Candle, c: Candle)
    requires c.low <= c.high
    ensures var top, bottom := (if previous.close > c.high then previous.close else c.high), if previous.close < c.low then previous.close else c.low;
            RangeAfter(previous, c) == top - bottom
  {
  }

  /** The average range exists exactly from its period on and is never negative. */
  lemma AverageRangeIsPositive(past: seq<Candle>, period: nat)
    requires period >= 1 && forall i :: 0 <= i < |past| ==> past[i].Consistent()
    ensures AtrAt(period)(past).Some? <==> |past| >= period
    ensures AtrAt(period)(past).Some? ==> AtrAt(period)(past).value >= 0.0
  {
    hide Smoothed, Quantized, RangeAfter;
    var ranges := TrueRanges(past);
    assert AtrAt(period)(past) == match WilderAt(period)(ranges) case None => None case Some(v) => Some(Quantized(v, PRICE_STEPS));
    if |past| >= period {
      forall i | 0 <= i < |ranges| ensures ranges[i] >= 0.0 {
        if i > 0 { TrueRangeIsTheSpan(past[i - 1], past[i]); }
      }
      SmoothedPositive(ranges, period);
      assert WilderAt(period)(ranges) == Some(Smoothed(ranges, period, WilderStep(period)));
      QuantizedSign(Smoothed(ranges, period, WilderStep(period)), PRICE_STEPS);
    }
  }

  // ---- the difference of two averages -------------------------------------------------------------------------------

  /** The line is on the side of the faster average. */
  lemma LineFollowsTheFasterAverage(past: seq<real>, fast: nat, slow: nat)
    requires 1 <= fast < slow <= |past|
    ensures LineAt(fast, slow)(past).Some? && EmaAt(fast)(past).Some? && EmaAt(slow)(past).Some?
    ensures EmaAt(fast)(past).value >= EmaAt(slow)(past).value ==> LineAt(fast, slow)(past).value >= 0.0
    ensures EmaAt(fast)(past).value <= EmaAt(slow)(past).value ==> LineAt(fast, slow)(past).value <= 0.0
  {
    hide Quantized, Smoothed;
    QuantizedSign(EmaAt(fast)(past).value - EmaAt(slow)(past).value, PRICE_STEPS);
  }

  /** The histogram exists once the signal does, and is on the side of the line. */
  lemma HistogramFollowsTheLine(past: seq<real>, fast: nat, slow: nat, signal: nat)
    requires 1 <= fast < slow <= |past| && signal >= 1
    ensures HistogramAt(fast, slow, signal)(past).Some? <==> |past| + 1 >= slow + signal
    ensures HistogramAt(fast, slow, signal)(past).Some? ==>
              && LineAt(fast, slow)(past).Some? && SignalAt(fast, slow, signal)(past).Some?
              && var line, smooth := LineAt(fast, slow)(past).value, SignalAt(fast, slow, signal)(past).value;
              && (line >= smooth ==> HistogramAt(fast, slow, signal)(past).value >= 0.0)
              && (line <= smooth ==> HistogramAt(fast, slow, signal)(past).value <= 0.0)
  {
    SignalExists(past, fast, slow, signal);
    HistogramIs(past, fast, slow, signal);
    hide *;
    if SignalAt(fast, slow, signal)(past).Some? {
      QuantizedSign(LineAt(fast, slow)(past).value - SignalAt(fast, slow, signal)(past).value, PRICE_STEPS);
    }
  }

  lemma SignalExists(past: seq<real>, fast: nat, slow: nat, signal: nat)
    requires 1 <= fast < slow <= |past| && signal >= 1
    ensures LineAt(fast, slow)(past).Some?
    ensures SignalAt(fast, slow, signal)(past).Some? <==> |past| + 1 >= slow + signal
  {
    hide Quantized, Smoothed, LineValue;
    assert |DefinedLine(past, fast, slow)| == |past| - slow + 1;
    assert SignalAt(fast, slow, signal)(past) == EmaAt(signal)(DefinedLine(past, fast, slow));
  }

  // ---- volume and volatility ------------------------------------------------------------------------------------------

  /** The baseline of a candle is there once enough candles came before it, and does not change with the candle itself. */
  lemma NotInItsOwnBaseline(past: seq<Candle>, more: Candle, lookback: nat)
    requires lookback >= 1 && past != []
    ensures BaselineAt(lookback)(past).Some? <==> |past| > lookback
    ensures BaselineAt(lookback)(past[..|past| - 1] + [more]) == BaselineAt(lookback)(past)
  {
    hide Quantized, Sum, Volumes;
    if |past| > lookback {
      assert (past[..|past| - 1] + [more])[|past| - 1 - lookback..|past| - 1] == past[|past| - 1 - lookback..|past| - 1];
    }
  }

  /** Relative volume needs a positive baseline, and says on which side of it the last candle's volume is. */
  lemma VolumeAgainstItsBaseline(past: seq<Candle>, lookback: nat)
    requires lookback >= 1 && past != []
    ensures var r, baseline := RelativeVolumeAt(lookback)(past), BaselineAt(lookback)(past);
            && (r.Some? <==> baseline.Some? && baseline.value > 0.0)
            && (r.Some? && past[|past| - 1].volume >= baseline.value ==> r.value >= 1.0)
            && (r.Some? && past[|past| - 1].volume <= baseline.value ==> r.value <= 1.0)
  {
    hide Quantized, BaselineAt;
    var baseline := BaselineAt(lookback)(past);
    if baseline.Some? && baseline.value > 0.0 { AgainstOne(past[|past| - 1].volume, baseline.value); }
  }

  lemma AgainstOne(v: real, b: real)
    requires b > 0.0
    ensures v >= b ==> Quantized(v / b, RATIO_STEPS) >= 1.0
    ensures v <= b ==> Quantized(v / b, RATIO_STEPS) <= 1.0
  {
    assert b / b == 1.0;
    assert (1.0 * RATIO_STEPS).Floor == 10_000 && Quantized(1.0, RATIO_STEPS) == 1.0;
    if v >= b { DivideMonotone(b, v, b); QuantizedMonotone(1.0, v / b, RATIO_STEPS); }
    if v <= b { DivideMonotone(v, b, b); QuantizedMonotone(v / b, 1.0, RATIO_STEPS); }
  }

  lemma SameSigns(x: real, y: real)
    requires (x > 0.0 && y > 0.0) || (x < 0.0 && y < 0.0)
    ensures Times(x, y) > 0.0
  {
  }

  lemma NoProduct(y: real)
    ensures Times(0.0, y) == 0.0
  {
  }

  lemma SquareSign(x: real)
    ensures x != 0.0 ==> Times(x, x) > 0.0
    ensures x == 0.0 ==> Times(x, x) == 0.0
  {
    hide Times;
    if x != 0.0 { SameSigns(x, x); } else { NoProduct(x); }
  }

  lemma SquaresLast(values: seq<real>, mean: real)
    requires values != []
    ensures var most, off := values[..|values| - 1], values[|values| - 1] - mean;
            Sum(Squares(values, mean)) == Sum(Squares(most, mean)) + Times(off, off)
  {
    var most, off := values[..|values| - 1], values[|values| - 1] - mean;
    assert Squares(values, mean)[..|values| - 1] == Squares(most, mean);
    assert Squares(values, mean)[|values| - 1] == Times(off, off);
  }

  lemma {:induction false} SquaresSum(values: seq<real>, mean: real)
    ensures Sum(Squares(values, mean)) >= 0.0
    ensures Sum(Squares(values, mean)) == 0.0 <==> forall i :: 0 <= i < |values| ==> values[i] == mean
  {
    if values != [] {
      var most, last := values[..|values| - 1], values[|values| - 1];
      SquaresSum(most, mean);
      SquareSign(last - mean);
      hide Sum, Times, Squares;
      SquaresLast(values, mean);
      assert (forall i :: 0 <= i < |values| ==> values[i] == mean) <==> last == mean && forall i :: 0 <= i < |most| ==> most[i] == mean by {
        assert forall i :: 0 <= i < |most| ==> most[i] == values[i];
      }
    }
  }

  lemma ZeroShare(x: real, n: real)
    requires n > 0.0
    ensures x / n == 0.0 <==> x == 0.0
  {
    assert x / n * n == x;
  }

  /** The deviation takes the root of a number that is never negative, and zero if and only if all returns are equal. */
  lemma DeviationVanishesIffEven(values: seq<real>, root: real -> real)
    requires values != []
    ensures exists spread :: spread >= 0.0 && Deviation(values, root) == Quantized(root(spread), RATIO_STEPS)
                             && (spread == 0.0 <==> forall i :: 0 <= i < |values| ==> values[i] == values[0])
  {
    hide Quantized, Sum, Squares;
    var n, mean := |values| as real, Sum(values) / |values| as real;
    var spread := Sum(Squares(values, mean)) / n;
    SquaresSum(values, mean);
    DivideMonotone(0.0, Sum(Squares(values, mean)), n);
    ZeroShare(Sum(Squares(values, mean)), n);
    if forall i :: 0 <= i < |values| ==> values[i] == values[0] { MeanWithin(values, values[0], values[0]); }
    assert spread == 0.0 <==> forall i :: 0 <= i < |values| ==> values[i] == values[0];
    assert Deviation(values, root) == Quantized(root(spread), RATIO_STEPS);
  }

  lemma HalfIsOne(a: real, b: real)
    requires a > 0.0 && b == 2.0 * a
    ensures (b - a) / a == 1.0
  {
    var d := b - a;
    assert d == a;
    assert a / a == 1.0;
  }

  /** One value per candle where the price before it was not zero: the relative change from it. */
  lemma ReturnIsTheRelativeChange(past: seq<real>)
    requires |past| >= 2 && past[|past| - 2] > 0.0
    ensures ReturnAt(past).Some?
    ensures past[|past| - 1] >= past[|past| - 2] ==> ReturnAt(past).value >= 0.0
    ensures past[|past| - 1] <= past[|past| - 2] ==> ReturnAt(past).value <= 0.0
    ensures past[|past| - 1] == 2.0 * past[|past| - 2] ==> ReturnAt(past) == Some(1.0)
  {
    var a, b := past[|past| - 2], past[|past| - 1];
    QuantizedSign((b - a) / a, RATIO_STEPS);
    if b >= a { DivideMonotone(0.0, b - a, a); } else { DivideMonotone(b - a, 0.0, a); }
    if b == 2.0 * a {
      HalfIsOne(a, b);
      assert (1.0 * RATIO_STEPS).Floor == 10_000 && Quantized(1.0, RATIO_STEPS) == 1.0;
    }
    hide Quantized;
  }
}
