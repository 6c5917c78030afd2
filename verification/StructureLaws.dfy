/** What the market context of a candle says: which way trends, distances, breakouts and gaps point, and when they are unknown. */
module StructureLaws {
  import opened Prelude
  import opened Candles
  import opened Indicators
  import opened IndicatorLaws
  import opened MarketStructure

  // ---- pivots -------------------------------------------------------------------------------------------------------

  /** A pivot on the record: a candle whose extreme is strictly past that of its neighbours, usable once the last of them closed. */
  ghost predicate IsPivot(candles: seq<Candle>, left: int, right: int, p: SwingPoint) {
    && left <= p.index < |candles| && 0 <= p.index && p.index + right < |candles|
    && var c := candles[p.index];
    && p.ts == c.ts && p.confirmedIndex == p.index + right
    && match p.kind
       case SwingHigh =>
         p.price == c.high
         && forall k :: 0 <= k < |candles| && p.index - left <= k <= p.index + right && k != p.index ==> candles[k].high < c.high
       case SwingLow =>
         p.price == c.low
         && forall k :: 0 <= k < |candles| && p.index - left <= k <= p.index + right && k != p.index ==> c.low < candles[k].low
  }

  lemma HighPivot(candles: seq<Candle>, index: int, left: int, right: int)
    requires 1 <= left <= index && 1 <= right && index + right < |candles|
    ensures IsHigh(candles, index, left, right)
       <==> IsPivot(candles, left, right, SwingPoint(SwingHigh, index, candles[index].ts, candles[index].high, index + right))
  {
  }

  lemma LowPivot(candles: seq<Candle>, index: int, left: int, right: int)
    requires 1 <= left <= index && 1 <= right && index + right < |candles|
    ensures IsLow(candles, index, left, right)
       <==> IsPivot(candles, left, right, SwingPoint(SwingLow, index, candles[index].ts, candles[index].low, index + right))
  {
  }

  lemma PivotFields(candles: seq<Candle>, left: int, right: int, p: SwingPoint)
    ensures IsPivot(candles, left, right, p) ==>
              0 <= p.index < |candles|
              && p == SwingPoint(p.kind, p.index, candles[p.index].ts, if p.kind.SwingHigh? then candles[p.index].high else candles[p.index].low,
                                 p.index + right)
  {
  }

  lemma PivotsHere(candles: seq<Candle>, index: int, left: int, right: int, p: SwingPoint)
    requires 1 <= left <= index && 1 <= right && index + right < |candles|
    ensures p in PivotsAt(candles, index, left, right) <==> p.index == index && IsPivot(candles, left, right, p)
  {
    hide IsHigh, IsLow, IsPivot;
    HighPivot(candles, index, left, right);
    LowPivot(candles, index, left, right);
    var c := candles[index];
    var high, low := SwingPoint(SwingHigh, index, c.ts, c.high, index + right), SwingPoint(SwingLow, index, c.ts, c.low, index + right);
    assert p in PivotsAt(candles, index, left, right) <==>
             (p == high && IsHigh(candles, index, left, right)) || (p == low && IsLow(candles, index, left, right));
    PivotFields(candles, left, right, p);
  }

  lemma PivotEnds(candles: seq<Candle>, left: int, right: int, p: SwingPoint)
    ensures IsPivot(candles, left, right, p) ==> p.index < |candles| - right
  {
  }

  lemma PivotIndex(candles: seq<Candle>, left: int, right: int, p: SwingPoint)
    ensures IsPivot(candles, left, right, p) ==> left <= p.index
  {
  }

  lemma {:induction false} PivotsSoFar(candles: seq<Candle>, n: int, left: int, right: int, p: SwingPoint)
    requires 1 <= left && 1 <= right && n + right <= |candles|
    ensures p in PivotsBelow(candles, n, left, right) <==> p.index < n && IsPivot(candles, left, right, p)
    decreases n - left
  {
    hide IsPivot, PivotsAt, IsHigh, IsLow;
    if n > left {
      PivotsSoFar(candles, n - 1, left, right, p);
      PivotsHere(candles, n - 1, left, right, p);
    } else {
      PivotIndex(candles, left, right, p);
    }
  }

  /** The pivots found are the strict extremes of their neighbourhoods, all of them and nothing else: a plateau has none. */
  lemma PivotsAreStrictExtremes(candles: seq<Candle>, left: int, right: int, p: SwingPoint)
    requires 1 <= left && 1 <= right
    ensures p in SwingPoints(candles, left, right) <==> IsPivot(candles, left, right, p)
  {
    hide PivotsBelow, IsPivot;
    PivotsSoFar(candles, |candles| - right, left, right, p);
    PivotEnds(candles, left, right, p);
  }

  // ---- distances ----------------------------------------------------------------------------------------------------

  /** A distance is unknown without a reference, on the side of the price otherwise, and 100 percent at twice the reference. */
  lemma DistanceSide(price: real, reference: Option<real>)
    ensures DistancePct(price, reference).None? <==> reference.None? || reference.value == 0.0
    ensures reference.Some? && reference.value > 0.0 ==>
              && (price >= reference.value ==> DistancePct(price, reference).value >= 0.0)
              && (price <= reference.value ==> DistancePct(price, reference).value <= 0.0)
              && (price == 2.0 * reference.value ==> DistancePct(price, reference).value == 100.0)
  {
    if reference.Some? && reference.value > 0.0 {
      PercentSide(reference.value, price);
    }
  }

  /** A change in percent is on the side of the later price. */
  lemma PercentSide(earlier: real, later: real)
    requires earlier > 0.0
    ensures later >= earlier ==> Quantized((later - earlier) / earlier * 100.0, PCT_STEPS) >= 0.0
    ensures later <= earlier ==> Quantized((later - earlier) / earlier * 100.0, PCT_STEPS) <= 0.0
    ensures later == 2.0 * earlier ==> Quantized((later - earlier) / earlier * 100.0, PCT_STEPS) == 100.0
  {
    var share := (later - earlier) / earlier;
    QuantizedSign(share * 100.0, PCT_STEPS);
    if later >= earlier { DivideMonotone(0.0, later - earlier, earlier); }
    if later <= earlier { DivideMonotone(later - earlier, 0.0, earlier); }
    if later == 2.0 * earlier {
      HalfIsOne(earlier, later);
      assert (100.0 * PCT_STEPS).Floor == 1_000_000 && Quantized(100.0, PCT_STEPS) == 100.0;
    }
    hide Quantized;
  }

  // ---- trends -------------------------------------------------------------------------------------------------------

  /** A move is a trend from half a percent on, in its own direction, and at full strength from two percent on. */
  lemma TrendNeedsAMove(change: real, lookback: int)
    ensures var t := TrendFromMove(change, lookback);
            && t.available && t.lookback == lookback
            && (t.state.Up? <==> change >= 0.5) && (t.state.Down? <==> change <= -0.5)
            && (t.state.Sideways? <==> -0.5 < change < 0.5)
            && 0.0 <= t.strength <= 1.0 && (change >= 2.0 || change <= -2.0 ==> t.strength == 1.0)
  {
    var magnitude := if change >= 0.0 then change else -change;
    var share := magnitude / STRONG_PCT;
    assert share * 2.0 == magnitude;
    var strength := if share <= 1.0 then share else 1.0;
    assert (1.0 * RATIO_STEPS).Floor == 10_000 && Quantized(1.0, RATIO_STEPS) == 1.0;
    QuantizedSign(strength, RATIO_STEPS);
    QuantizedMonotone(strength, 1.0, RATIO_STEPS);
    hide Quantized;
  }

  /**
   * The trend before a candle is known exactly with a full window strictly before it that starts at a price, and then points the
   * way from the window's first close to its last, or nowhere.
   */
  lemma TrendIsTheWindowsMove(candles: seq<Candle>, before: int, lookback: nat)
    requires lookback >= 1
    ensures var t, start := TrendBefore(candles, before, lookback), before - lookback;
            && (t.available <==> 0 <= start && before <= |candles| && candles[start].close != 0.0)
            && (!t.available ==> t.state.UnknownTrend?)
            && (t.available && candles[start].close > 0.0 ==>
                  && (t.state.Up? ==> candles[start].close < candles[before - 1].close)
                  && (t.state.Down? ==> candles[start].close > candles[before - 1].close)
                  && (candles[before - 1].close == 2.0 * candles[start].close ==> t.state.Up? && t.strength == 1.0))
  {
    var start := before - lookback;
    if 0 <= start && before <= |candles| && candles[start].close != 0.0 {
      var first, last := candles[start].close, candles[before - 1].close;
      TrendNeedsAMove(Quantized((last - first) / first * 100.0, PCT_STEPS), lookback);
      if first > 0.0 { PercentSide(first, last); }
      hide Quantized, TrendFromMove;
    }
  }

  /** Two averages give a trend when both are known: the side the faster one is on. */
  lemma AveragesGiveATrend(fast: Option<real>, slow: Option<real>)
    ensures TrendOf(fast, slow).UnknownTrend? <==> fast.None? || slow.None?
    ensures TrendOf(fast, slow).Up? <==> exists a, b :: fast == Some(a) && slow == Some(b) && b < a
    ensures TrendOf(fast, slow).Down? <==> exists a, b :: fast == Some(a) && slow == Some(b) && a < b
    ensures TrendOf(fast, slow).Sideways? <==> fast.Some? && fast == slow
  {
  }

  // ---- breakouts and gaps ---------------------------------------------------------------------------------------------

  /** A breakout needs a known swing high and a known swing low, and is a close strictly past one of them. */
  lemma BreakoutIsPastAPivot(close: real, high: Option<real>, low: Option<real>)
    ensures BreakoutOf(close, high, low).UnknownBreakout? <==> high.None? || low.None?
    ensures BreakoutOf(close, high, low).AboveResistance? ==> high.Some? && high.value < close
    ensures BreakoutOf(close, high, low).BelowSupport? ==> low.Some? && close < low.value
    ensures BreakoutOf(close, high, low).Inside? <==> high.Some? && low.Some? && low.value <= close <= high.value
  {
  }

  lemma {:induction false} LatestIsTheLast(points: seq<SwingPoint>, kind: SwingKind)
    ensures var r := LatestPrice(points, kind);
            && (r.None? <==> forall i :: 0 <= i < |points| ==> points[i].kind != kind)
            && (r.Some? ==> LatestPivot(points, kind, r.value))
  {
    if points != [] && points[|points| - 1].kind != kind {
      var most := points[..|points| - 1];
      LatestIsTheLast(most, kind);
      assert forall i :: 0 <= i < |most| ==> most[i] == points[i];
      if LatestPrice(most, kind).Some? {
        var price := LatestPrice(most, kind).value;
        var i :| 0 <= i < |most| && most[i].kind == kind && most[i].price == price && forall j :: i < j < |most| ==> most[j].kind != kind;
        assert points[i] == most[i] && forall j :: i < j < |points| ==> points[j].kind != kind;
      }
    }
  }

  /** A gap is an open at least half a percent away from the close before, on the side it opens to; the first candle has none. */
  lemma GapIsAgainstTheCloseBefore(candles: seq<Candle>, index: int)
    requires 0 <= index < |candles|
    ensures var (gap, pct) := GapAt(candles, index);
            && (gap.UnknownGap? <==> index == 0 || candles[index - 1].close == 0.0) && (pct.None? <==> gap.UnknownGap?)
            && (pct.Some? ==> (gap.GapUp? <==> pct.value >= 0.5) && (gap.GapDown? <==> pct.value <= -0.5))
            && (index > 0 && candles[index - 1].close > 0.0 ==>
                  && (gap.GapUp? ==> candles[index].open > candles[index - 1].close)
                  && (gap.GapDown? ==> candles[index].open < candles[index - 1].close)
                  && (candles[index].open == 2.0 * candles[index - 1].close ==> gap.GapUp?))
  {
    if index > 0 {
      DistanceSide(candles[index].open, Some(candles[index - 1].close));
      hide DistancePct;
    }
  }

  // ---- the whole context ----------------------------------------------------------------------------------------------

  /** The entry of an indicator at a candle, where the series has that indicator. */
  function Entry(series: IndicatorSeries, period: nat, index: int): Option<real> {
    if period in series.ema && 0 <= index < |series.ema[period]| then series.ema[period][index] else None
  }

  /** A pivot of an earlier candle whose confirming candles are all there. */
  function ConfirmedBefore(index: int): SwingPoint -> bool { (p: SwingPoint) => p.confirmedIndex <= index && p.index < index }

  /** The price of the latest pivot of a kind among some points. */
  ghost predicate LatestPivot(points: seq<SwingPoint>, kind: SwingKind, price: real) {
    exists i :: 0 <= i < |points| && points[i].kind == kind && points[i].price == price
                && forall j :: i < j < |points| ==> points[j].kind != kind
  }

  lemma OneLatest(points: seq<SwingPoint>, kind: SwingKind, a: real, b: real)
    requires LatestPivot(points, kind, a) && LatestPivot(points, kind, b)
    ensures a == b
  {
  }

  /**
   * What the context of a candle is read from: the short trend from the 9 and 20 candle averages, the medium one from 50 and
   * 200, the slope over five candles of the 20 candle average, levels and breakout from pivots confirmed by now and strictly
   * earlier, and the range relative to the close.
   */
  lemma ContextIsReadFrom(candles: seq<Candle>, index: int, series: IndicatorSeries, swings: seq<SwingPoint>)
    requires 0 <= index < |candles|
    ensures StructureAt(candles, index, series, swings).None? <==> !({9, 20, 50, 200} <= series.ema.Keys)
    ensures StructureAt(candles, index, series, swings).Some? ==>
              var s, close := StructureAt(candles, index, series, swings).value, candles[index].close;
              var usable := Filter(swings, ConfirmedBefore(index));
              && s.shortTrend == TrendOf(Entry(series, 9, index), Entry(series, 20, index))
              && s.mediumTrend == TrendOf(Entry(series, 50, index), Entry(series, 200, index))
              && (s.slope.Some? ==> Entry(series, 20, index).Some? && Entry(series, 20, index - 5).Some?
                                    && s.slope == DistancePct(Entry(series, 20, index).value, Entry(series, 20, index - 5)))
              && s.confirmed == |usable|
              && (s.breakout.AboveResistance? ==> exists high :: LatestPivot(usable, SwingHigh, high) && high < close)
              && (s.breakout.BelowSupport? ==> exists low :: LatestPivot(usable, SwingLow, low) && close < low)
              && (s.support.Some? ==> s.support.value < close && exists p :: p in usable && p.kind.SwingLow? && p.price == s.support.value)
              && (s.resistance.Some? ==> s.resistance.value > close && exists p :: p in usable && p.kind.SwingHigh? && p.price == s.resistance.value)
              && s.supportDistance == DistancePct(close, s.support) && s.resistanceDistance == DistancePct(close, s.resistance)
              && (s.gap, s.gapPct) == GapAt(candles, index)
  {
    hide Quantized, DistancePct, TrendOf, GapAt, LatestPrice, LeastAbove, GreatestBelow, Filter, SlopeAt, LatestPivot;
    var close := candles[index].close;
    var usable := Filter(ConfirmedSwings(swings, index), EarlierThan(index));
    UsableIs(swings, index);
    if 20 in series.ema { SlopeIsKnown(series, index); }
    NearestLevels(usable, close);
    LatestIsTheLast(usable, SwingHigh);
    LatestIsTheLast(usable, SwingLow);
    BreakoutIsPastAPivot(close, LatestPrice(usable, SwingHigh), LatestPrice(usable, SwingLow));
    hide BreakoutOf, ConfirmedSwings;
  }

  lemma SlopeIsKnown(series: IndicatorSeries, index: int)
    requires 20 in series.ema
    ensures var slope, now, earlier := SlopeAt(series.ema[20], index, SLOPE_SPAN), Entry(series, 20, index), Entry(series, 20, index - 5);
            slope.Some? ==> now.Some? && earlier.Some? && slope == DistancePct(now.value, earlier)
  {
    if Entry(series, 20, index).Some? { DistanceSide(Entry(series, 20, index).value, Entry(series, 20, index - 5)); }
    hide DistancePct;
  }

  lemma UsableIs(swings: seq<SwingPoint>, index: int)
    ensures Filter(ConfirmedSwings(swings, index), EarlierThan(index))
         == Filter(swings, ConfirmedBefore(index))
  {
    FilterFilter(swings, UsableBy(index), EarlierThan(index));
    FilterAgree(swings, (p: SwingPoint) => UsableBy(index)(p) && EarlierThan(index)(p),
                ConfirmedBefore(index));
  }
}
