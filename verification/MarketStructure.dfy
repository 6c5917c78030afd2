/** Swing points, prior trend and the market context of one candle, read only from candles at or before it. */
module MarketStructure {
  import opened Prelude
  import opened Candles
  import opened Indicators

  datatype SwingKind = SwingHigh | SwingLow

  datatype SwingPoint = SwingPoint(kind: SwingKind, index: int, ts: int, price: real, confirmedIndex: int) {
    predicate UsableAt(i: int) { confirmedIndex <= i }
  }

  /** Strictly above every neighbour in the window. */
  predicate IsHigh(candles: seq<Candle>, index: int, left: int, right: int)
    requires 1 <= left <= index && 1 <= right && index + right < |candles|
  {
    forall k :: index - left <= k <= index + right && k != index ==> candles[index].high > candles[k].high
  }

  predicate IsLow(candles: seq<Candle>, index: int, left: int, right: int)
    requires 1 <= left <= index && 1 <= right && index + right < |candles|
  {
    forall k :: index - left <= k <= index + right && k != index ==> candles[index].low < candles[k].low
  }

  function PivotsAt(candles: seq<Candle>, index: int, left: int, right: int): seq<SwingPoint>
    requires 1 <= left <= index && 1 <= right && index + right < |candles|
  {
    var c := candles[index];
    (if IsHigh(candles, index, left, right) then [SwingPoint(SwingHigh, index, c.ts, c.high, index + right)] else [])
    + (if IsLow(candles, index, left, right) then [SwingPoint(SwingLow, index, c.ts, c.low, index + right)] else [])
  }

  /** The pivots below index `n`, oldest first. */
  function PivotsBelow(candles: seq<Candle>, n: int, left: int, right: int): seq<SwingPoint>
    requires 1 <= left && 1 <= right && n + right <= |candles|
    decreases n - left
  {
    if n <= left then [] else PivotsBelow(candles, n - 1, left, right) + PivotsAt(candles, n - 1, left, right)
  }

  function SwingPoints(candles: seq<Candle>, left: int, right: int): seq<SwingPoint>
    requires 1 <= left && 1 <= right
  {
    PivotsBelow(candles, |candles| - right, left, right)
  }

  method FindSwings(candles: seq<Candle>, left: int, right: int) returns (found: seq<SwingPoint>)
    requires 1 <= left && 1 <= right
    ensures found == SwingPoints(candles, left, right)
  {
    found := [];
    var index := left;
    while index < |candles| - right
      invariant left <= index && (index <= |candles| - right || index == left)
      invariant index <= |candles| - right ==> found == PivotsBelow(candles, index, left, right)
      invariant index > |candles| - right ==> found == []
    {
      found := found + PivotsAt(candles, index, left, right);
      index := index + 1;
    }
  }

  function UsableBy(i: int): SwingPoint -> bool { (p: SwingPoint) => p.UsableAt(i) }

  function ConfirmedSwings(swings: seq<SwingPoint>, i: int): seq<SwingPoint> { Filter(swings, UsableBy(i)) }

  lemma PivotLocal(a: seq<Candle>, b: seq<Candle>, index: int, left: int, right: int)
    requires 1 <= left <= index && 1 <= right && index + right < |a| && index + right < |b|
    requires a[..index + right + 1] == b[..index + right + 1]
    ensures PivotsAt(a, index, left, right) == PivotsAt(b, index, left, right)
  {
    forall k | 0 <= k <= index + right ensures a[k] == b[k] {
      assert a[..index + right + 1][k] == b[..index + right + 1][k];
    }
  }

  lemma {:induction false} PivotsLocal(a: seq<Candle>, b: seq<Candle>, n: int, left: int, right: int)
    requires 1 <= left && 1 <= right && n + right <= |a| && n + right <= |b|
    requires n + right >= 0 ==> a[..n + right] == b[..n + right]
    ensures PivotsBelow(a, n, left, right) == PivotsBelow(b, n, left, right)
    decreases n - left
  {
    if n > left {
      assert a[..n + right - 1] == a[..n + right][..n + right - 1] == b[..n + right - 1];
      PivotsLocal(a, b, n - 1, left, right);
      PivotLocal(a, b, n - 1, left, right);
    }
  }

  /** The pivots at one index become usable together, `right` candles later. */
  lemma PivotsConfirmTogether(candles: seq<Candle>, index: int, i: int, left: int, right: int)
    requires 1 <= left <= index && 1 <= right && index + right < |candles|
    ensures ConfirmedSwings(PivotsAt(candles, index, left, right), i)
         == if index + right <= i then PivotsAt(candles, index, left, right) else []
  {
    var pivots := PivotsAt(candles, index, left, right);
    forall p | p in pivots ensures p.confirmedIndex == index + right {}
    hide PivotsAt;
    if index + right <= i { FilterAll(pivots, UsableBy(i)); } else { FilterNone(pivots, UsableBy(i)); }
  }

  /** Of the pivots below `n`, those usable at `i` are the ones whose confirming candles had closed by `i`. */
  lemma {:induction false} UsablePivots(candles: seq<Candle>, n: int, i: int, left: int, right: int)
    requires 1 <= left && 1 <= right && n + right <= |candles|
    ensures ConfirmedSwings(PivotsBelow(candles, n, left, right), i)
         == PivotsBelow(candles, Min(n, i + 1 - right), left, right)
    decreases n - left
  {
    hide PivotsAt, Filter, UsableBy;
    if n > left {
      var before, last := PivotsBelow(candles, n - 1, left, right), PivotsAt(candles, n - 1, left, right);
      UsablePivots(candles, n - 1, i, left, right);
      FilterConcat(before, last, UsableBy(i));
      PivotsConfirmTogether(candles, n - 1, i, left, right);
      assert before + [] == before;
    }
  }

  /**
   * The no-look-ahead lemma of swing points: of the pivots of the whole series, those confirmed at `i` are exactly the
   * pivots of the series as it stood at `i`.
   */
  lemma ConfirmedAreThePast(candles: seq<Candle>, i: int, left: int, right: int)
    requires 1 <= left && 1 <= right && 0 <= i < |candles|
    ensures ConfirmedSwings(SwingPoints(candles, left, right), i) == SwingPoints(candles[..i + 1], left, right)
  {
    hide PivotsBelow, ConfirmedSwings, PivotsAt;
    UsablePivots(candles, |candles| - right, i, left, right);
    PivotsLocal(candles, candles[..i + 1], i + 1 - right, left, right);
  }

  // ---- trend ------------------------------------------------------------------------------------------------------

  datatype TrendState = Up | Down | Sideways | UnknownTrend

  datatype PriorTrend = PriorTrend(state: TrendState, strength: real, lookback: int, available: bool)

  const SIDEWAYS_PCT := 0.5
  const STRONG_PCT := 2.0

  function TrendFromMove(change: real, lookback: int): PriorTrend {
    var magnitude := AbsReal(change);
    var strength := Quantized(if magnitude / STRONG_PCT <= 1.0 then magnitude / STRONG_PCT else 1.0, RATIO_STEPS);
    PriorTrend(if magnitude < SIDEWAYS_PCT then Sideways else if change > 0.0 then Up else Down, strength, lookback, true)
  }

  /** The move over the `lookback` candles ending strictly before `before`; unavailable without a full window. */
  function TrendBefore(candles: seq<Candle>, before: int, lookback: nat): PriorTrend
    requires lookback >= 1
  {
    var start := before - lookback;
    if start < 0 || before > |candles| || candles[start].close == 0.0 then PriorTrend(UnknownTrend, 0.0, lookback, false)
    else
      var first, last := candles[start].close, candles[before - 1].close;
      TrendFromMove(Quantized((last - first) / first * 100.0, PCT_STEPS), lookback)
  }

  // ---- structure --------------------------------------------------------------------------------------------------

  datatype Breakout = AboveResistance | BelowSupport | Inside | UnknownBreakout

  datatype Gap = GapUp | GapDown | NoGap | UnknownGap

  const GAP_MIN_PCT := 0.5
  const SLOPE_SPAN := 5

  datatype Structure = Structure(shortTrend: TrendState, mediumTrend: TrendState, slope: Option<real>, support: Option<real>,
                                 resistance: Option<real>, supportDistance: Option<real>, resistanceDistance: Option<real>,
                                 breakout: Breakout, relativeAtr: Option<real>, gap: Gap, gapPct: Option<real>, confirmed: nat)

  function DistancePct(price: real, reference: Option<real>): Option<real> {
    if reference.None? || reference.value == 0.0 then None
    else Some(Quantized((price - reference.value) / reference.value * 100.0, PCT_STEPS))
  }

  function SlopeAt(series: Series, index: int, span: int): Option<real> {
    DistanceBetween(ValueAt(series, index), ValueAt(series, index - span))
  }

  function DistanceBetween(current: Option<real>, earlier: Option<real>): Option<real> {
    if current.None? then None else DistancePct(current.value, earlier)
  }

  function EmaTrend(series: IndicatorSeries, index: int, fast: nat, slow: nat): Option<TrendState> {
    if fast !in series.ema || slow !in series.ema then None
    else Some(TrendOf(ValueAt(series.ema[fast], index), ValueAt(series.ema[slow], index)))
  }

  function TrendOf(fast: Option<real>, slow: Option<real>): TrendState {
    if fast.None? || slow.None? then UnknownTrend
    else if fast.value > slow.value then Up else if fast.value < slow.value then Down else Sideways
  }

  function LeastAbove(points: seq<SwingPoint>, close: real): Option<real> {
    if points == [] then None
    else
      var rest, p := LeastAbove(points[1..], close), points[0];
      if p.kind.SwingHigh? && p.price > close && (rest.None? || p.price < rest.value) then Some(p.price) else rest
  }

  function GreatestBelow(points: seq<SwingPoint>, close: real): Option<real> {
    if points == [] then None
    else
      var rest, p := GreatestBelow(points[1..], close), points[0];
      if p.kind.SwingLow? && p.price < close && (rest.None? || p.price > rest.value) then Some(p.price) else rest
  }

  function LatestPrice(points: seq<SwingPoint>, kind: SwingKind): Option<real> {
    if points == [] then None
    else if points[|points| - 1].kind == kind then Some(points[|points| - 1].price)
    else LatestPrice(points[..|points| - 1], kind)
  }

  function BreakoutOf(close: real, high: Option<real>, low: Option<real>): Breakout {
    if high.None? || low.None? then UnknownBreakout
    else if close > high.value then AboveResistance else if close < low.value then BelowSupport else Inside
  }

  function GapAt(candles: seq<Candle>, index: int): (Gap, Option<real>)
    requires 0 <= index < |candles|
  {
    if index < 1 then (UnknownGap, None)
    else
      var change := DistancePct(candles[index].open, Some(candles[index - 1].close));
      if change.None? then (UnknownGap, None)
      else if change.value >= GAP_MIN_PCT then (GapUp, change)
      else if change.value <= -GAP_MIN_PCT then (GapDown, change)
      else (NoGap, change)
  }

  function EarlierThan(index: int): SwingPoint -> bool { (p: SwingPoint) => p.index < index }

  /** The context of `candles[index]`; None when an EMA the context needs was not computed for the series. */
  function StructureAt(candles: seq<Candle>, index: int, series: IndicatorSeries, swings: seq<SwingPoint>): Option<Structure>
    requires 0 <= index < |candles|
  {
    var usable := Filter(ConfirmedSwings(swings, index), EarlierThan(index));
    var close := candles[index].close;
    var support, resistance := GreatestBelow(usable, close), LeastAbove(usable, close);
    var atr := ValueAt(series.atr, index);
    var short, medium := EmaTrend(series, index, 9, 20), EmaTrend(series, index, 50, 200);
    if short.None? || medium.None? then None
    else
      Some(Structure(short.value, medium.value, SlopeAt(series.ema[20], index, SLOPE_SPAN), support, resistance,
                     DistancePct(close, support), DistancePct(close, resistance),
                     BreakoutOf(close, LatestPrice(usable, SwingHigh), LatestPrice(usable, SwingLow)),
                     if atr.None? || close == 0.0 then None else Some(Quantized(atr.value / close * 100.0, PCT_STEPS)),
                     GapAt(candles, index).0, GapAt(candles, index).1, |usable|))
  }

  /** Support and resistance are the nearest confirmed pivots on either side of the close. */
  lemma {:induction false} NearestLevels(points: seq<SwingPoint>, close: real)
    ensures var r := LeastAbove(points, close);
            && (r.Some? ==> r.value > close && exists p :: p in points && p.kind.SwingHigh? && p.price == r.value)
            && (forall p :: p in points && p.kind.SwingHigh? && p.price > close ==> r.Some? && r.value <= p.price)
    ensures var s := GreatestBelow(points, close);
            && (s.Some? ==> s.value < close && exists p :: p in points && p.kind.SwingLow? && p.price == s.value)
            && (forall p :: p in points && p.kind.SwingLow? && p.price < close ==> s.Some? && s.value >= p.price)
  {
    if points != [] {
      NearestLevels(points[1..], close);
      assert points[0] in points;
      forall p | p in points[1..] ensures p in points {}
      assert forall p :: p in points ==> p == points[0] || p in points[1..];
    }
  }

  /** The structure at a candle is the same whatever follows it, even with indicators and pivots of whole series. */
  lemma StructureNeverLooksAhead(a: seq<Candle>, b: seq<Candle>, i: nat, w: Windows, left: int, right: int)
    requires w.Valid() && 1 <= left && 1 <= right && i < |a| && i < |b| && a[..i + 1] == b[..i + 1]
    ensures StructureAt(a, i, SeriesOf(a, w), SwingPoints(a, left, right))
         == StructureAt(b, i, SeriesOf(b, w), SwingPoints(b, left, right))
  {
    IndicatorsNeverLookAhead(a, b, i, w);
    ConfirmedAreThePast(a, i, left, right);
    ConfirmedAreThePast(b, i, left, right);
    StructureAgrees(a, b, i, SeriesOf(a, w), SeriesOf(b, w), SwingPoints(a, left, right), SwingPoints(b, left, right));
  }

  /** What the structure reads: the candles so far, the indicator values so far and the confirmed pivots. */
  lemma StructureAgrees(a: seq<Candle>, b: seq<Candle>, i: nat, x: IndicatorSeries, y: IndicatorSeries,
                        p: seq<SwingPoint>, q: seq<SwingPoint>)
    requires i < |a| && i < |b| && a[..i + 1] == b[..i + 1]
    requires AgreeThrough(x, y, i) && ConfirmedSwings(p, i) == ConfirmedSwings(q, i)
    ensures StructureAt(a, i, x, p) == StructureAt(b, i, y, q)
  {
    assert a[i] == a[..i + 1][i] == b[i];
    assert i >= 1 ==> a[i - 1] == a[..i + 1][i - 1] == b[i - 1];
    assert GapAt(a, i) == GapAt(b, i);
    if 20 in x.ema { SlopeAgrees(x, y, i); }
    hide Quantized, DistancePct, LeastAbove, GreatestBelow, LatestPrice, BreakoutOf, GapAt, SlopeAt, ConfirmedSwings, Filter, TrendOf, ValueAt;
  }

  lemma SlopeAgrees(x: IndicatorSeries, y: IndicatorSeries, i: nat)
    requires AgreeThrough(x, y, i) && 20 in x.ema && 20 in y.ema
    ensures SlopeAt(x.ema[20], i, SLOPE_SPAN) == SlopeAt(y.ema[20], i, SLOPE_SPAN)
  {
    if i < SLOPE_SPAN {
      assert ValueAt(x.ema[20], i - SLOPE_SPAN) == None == ValueAt(y.ema[20], i - SLOPE_SPAN);
    }
  }
}
