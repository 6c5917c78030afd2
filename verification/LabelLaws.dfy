/** What an outcome label says of the candles, in prices: which candle decided, at what price, and how far the trade ran. */
module LabelLaws {
  import opened Prelude
  import opened Candles
  import opened Domain
  import opened Labels

  ghost predicate ReachesTarget(t: Trade, c: Candle) {
    match t.direction
    case Long => t.target <= c.high
    case Short => c.low <= t.target
  }

  ghost predicate ReachesStop(t: Trade, c: Candle) {
    match t.direction
    case Long => c.low <= t.stop
    case Short => t.stop <= c.high
  }

  /** Candle `k` is the first within the limit that reaches either barrier. */
  ghost predicate Decides(t: Trade, future: seq<Candle>, maxCandles: nat, k: nat) {
    && k < |future| && k < maxCandles && (ReachesTarget(t, future[k]) || ReachesStop(t, future[k]))
    && forall j :: 0 <= j < k ==> !ReachesTarget(t, future[j]) && !ReachesStop(t, future[j])
  }

  /** Profit in units of risk, to the quantum. */
  ghost function Multiple(t: Trade, price: real): real
    requires t.entry != t.stop
  {
    match t.direction
    case Long => Quantized((price - t.entry) / (t.entry - t.stop), R_STEPS)
    case Short => Quantized((t.entry - price) / (t.stop - t.entry), R_STEPS)
  }

  /** The price furthest into profit among the entry and the candles. */
  ghost predicate IsBest(t: Trade, candles: seq<Candle>, price: real) {
    match t.direction
    case Long =>
      && t.entry <= price && (forall c :: c in candles ==> c.high <= price)
      && (price == t.entry || exists c :: c in candles && price == c.high)
    case Short =>
      && price <= t.entry && (forall c :: c in candles ==> price <= c.low)
      && (price == t.entry || exists c :: c in candles && price == c.low)
  }

  /** The price furthest into loss. */
  ghost predicate IsWorst(t: Trade, candles: seq<Candle>, price: real) {
    match t.direction
    case Long =>
      && price <= t.entry && (forall c :: c in candles ==> price <= c.low)
      && (price == t.entry || exists c :: c in candles && price == c.low)
    case Short =>
      && t.entry <= price && (forall c :: c in candles ==> c.high <= price)
      && (price == t.entry || exists c :: c in candles && price == c.high)
  }

  lemma BestAndWorst(t: Trade, candles: seq<Candle>)
    ensures IsBest(t, candles, BestOver(t, candles)) && IsWorst(t, candles, WorstOver(t, candles))
  {
    ExtremesBound(t, candles);
    ExtremesAttained(t, candles);
    hide BestOver, WorstOver;
    if t.direction.Short? {
      forall c | c in candles ensures BestOver(t, candles) <= c.low && c.high <= WorstOver(t, candles) {
        assert t.Favourable(c) == c.low && t.Adverse(c) == c.high;
      }
    } else {
      forall c | c in candles ensures c.high <= BestOver(t, candles) && WorstOver(t, candles) <= c.low {
        assert t.Favourable(c) == c.high && t.Adverse(c) == c.low;
      }
    }
  }

  lemma MultipleIs(t: Trade, price: real)
    requires t.Valid()
    ensures t.InR(price) == Multiple(t, price)
  {
    hide Quantized;
  }

  lemma TouchIsReaching(t: Trade, c: Candle)
    ensures t.TouchesTarget(c) <==> ReachesTarget(t, c)
    ensures t.TouchesStop(c) <==> ReachesStop(t, c)
    ensures t.Touches(c) <==> ReachesTarget(t, c) || ReachesStop(t, c)
  {
  }

  lemma DeciderIsFirstTouch(t: Trade, future: seq<Candle>, maxCandles: nat, k: nat)
    requires Decides(t, future, maxCandles, k)
    ensures FirstTouch(t, Window(future, maxCandles)) == Some(k)
  {
    var window := Window(future, maxCandles);
    hide FirstTouch, ReachesTarget, ReachesStop, t.Touches;
    forall j | 0 <= j <= k ensures window[j] == future[j] && (t.Touches(window[j]) <==> j == k) { TouchIsReaching(t, future[j]); }
    FirstTouchAt(t, window, k);
  }

  /**
   * The first candle that reaches a barrier decides. When it reaches the stop the trade is stopped, whatever else it reaches; it
   * exits at the barrier, or at the open when the candle opened past it: worse than a stop, better than a target.
   */
  lemma FirstBarrierDecides(t: Trade, future: seq<Candle>, maxCandles: nat, k: nat)
    requires t.Valid() && maxCandles >= 1 && Decides(t, future, maxCandles, k)
    ensures var o, c := Outcome(t, future, maxCandles), future[k];
            var barrier := if ReachesStop(t, c) then t.stop else t.target;
            var exit := if t.direction.Long? == ReachesStop(t, c) then MinOf(c.open, barrier) else MaxOf(c.open, barrier);
            && o.result == (if ReachesStop(t, c) then HitStop else HitTarget)
            && o.candlesToOutcome == Some(k + 1) && o.candlesUsed == k + 1 && o.complete
            && o.exitPrice == Some(exit) && o.rMultiple == Some(Multiple(t, exit))
            && (o.gapThrough <==> exit != barrier)
            && (o.ambiguous <==> ReachesStop(t, c) && ReachesTarget(t, c))
  {
    DeciderIsFirstTouch(t, future, maxCandles, k);
    var c := future[k];
    assert Window(future, maxCandles)[k] == c;
    TouchIsReaching(t, c);
    MultipleIs(t, ExitAt(t, c).0);
    hide FirstTouch, BestOver, WorstOver, t.InR, Multiple, Decides;
  }

  function MinOf(a: real, b: real): real { if a < b then a else b }

  function MaxOf(a: real, b: real): real { if a > b then a else b }

  lemma ExcursionsAt(t: Trade, future: seq<Candle>, maxCandles: nat, k: nat)
    requires t.Valid() && maxCandles >= 1 && k < |future| && k < maxCandles && FirstTouch(t, Window(future, maxCandles)) == Some(k)
    ensures var o := Outcome(t, future, maxCandles);
            && o.mfeR == Some(t.InR(BestOver(t, if t.TouchesStop(future[k]) then future[..k] else future[..k + 1])))
            && o.maeR == Some(t.InR(WorstOver(t, future[..k + 1])))
  {
    var window := Window(future, maxCandles);
    assert window[..k] == future[..k] && window[..k + 1] == future[..k + 1] && window[k] == future[k];
    hide FirstTouch, BestOver, WorstOver, t.InR, ExitAt, Window, t.TouchesStop, t.TouchesTarget;
  }

  /** A decided trade ran as far as the candles up to the deciding one went; a candle that stops it adds only to the loss. */
  lemma DecidedExcursions(t: Trade, future: seq<Candle>, maxCandles: nat, k: nat) returns (best: real, worst: real)
    requires t.Valid() && maxCandles >= 1 && Decides(t, future, maxCandles, k)
    ensures IsBest(t, if ReachesStop(t, future[k]) then future[..k] else future[..k + 1], best)
    ensures IsWorst(t, future[..k + 1], worst)
    ensures Outcome(t, future, maxCandles).mfeR == Some(Multiple(t, best))
    ensures Outcome(t, future, maxCandles).maeR == Some(Multiple(t, worst))
  {
    DeciderIsFirstTouch(t, future, maxCandles, k);
    hide BestOver, WorstOver, t.InR, Multiple, IsBest, IsWorst, Outcome, ReachesStop, ReachesTarget, FirstTouch, t.TouchesStop;
    ExcursionsAt(t, future, maxCandles, k);
    TouchIsReaching(t, future[k]);
    var read := if ReachesStop(t, future[k]) then future[..k] else future[..k + 1];
    best, worst := BestOver(t, read), WorstOver(t, future[..k + 1]);
    BestAndWorst(t, read);
    BestAndWorst(t, future[..k + 1]);
    MultipleIs(t, best);
    MultipleIs(t, worst);
  }

  /** When nothing decides, the label is a timeout at the last close within the limit, complete when the limit was reached. */
  lemma NothingDecided(t: Trade, future: seq<Candle>, maxCandles: nat) returns (best: real, worst: real)
    requires t.Valid() && maxCandles >= 1 && forall k: nat :: !Decides(t, future, maxCandles, k)
    ensures var o, n := Outcome(t, future, maxCandles), Min(|future|, maxCandles);
            && o.candlesUsed == n && o.candlesToOutcome == None && !o.ambiguous && !o.gapThrough
            && (o.complete <==> |future| >= maxCandles)
            && (if future == [] then o.result == NoData && o.exitPrice == None && o.rMultiple == None && o.mfeR == None && o.maeR == None
                else
                  && o.result == TimedOut && o.exitPrice == Some(future[n - 1].close)
                  && o.rMultiple == Some(Multiple(t, future[n - 1].close))
                  && IsBest(t, future[..n], best) && IsWorst(t, future[..n], worst)
                  && o.mfeR == Some(Multiple(t, best)) && o.maeR == Some(Multiple(t, worst)))
  {
    var window := Window(future, maxCandles);
    best, worst := BestOver(t, window), WorstOver(t, window);
    BestAndWorst(t, window);
    MultipleIs(t, best);
    MultipleIs(t, worst);
    if window != [] { MultipleIs(t, window[|window| - 1].close); }
    if FirstTouch(t, window).Some? { FirstTouchDecides(t, future, maxCandles); }
    hide FirstTouch, BestOver, WorstOver, t.InR, Multiple, Decides, IsBest, IsWorst, ExitAt;
  }

  lemma FirstTouchDecides(t: Trade, future: seq<Candle>, maxCandles: nat)
    requires FirstTouch(t, Window(future, maxCandles)).Some?
    ensures Decides(t, future, maxCandles, FirstTouch(t, Window(future, maxCandles)).value)
  {
    var window := Window(future, maxCandles);
    var first := FirstTouch(t, window);
    hide FirstTouch, ReachesTarget, ReachesStop, t.Touches;
    forall j | 0 <= j <= first.value
      ensures window[j] == future[j] && (t.Touches(window[j]) <==> ReachesTarget(t, future[j]) || ReachesStop(t, future[j]))
    {
      TouchIsReaching(t, future[j]);
    }
  }

  // ---- fixed horizons -------------------------------------------------------------------------------------------

  /** Profit in percent of the entry, to the quantum. */
  ghost function Percent(direction: Direction, entry: real, price: real): real
    requires entry > 0.0
  {
    match direction
    case Long => Quantized((price - entry) / entry * 100.0, PCT_STEPS)
    case Short => Quantized((entry - price) / entry * 100.0, PCT_STEPS)
  }

  ghost predicate IsHighest(candles: seq<Candle>, price: real) {
    (forall c :: c in candles ==> c.high <= price) && exists c :: c in candles && c.high == price
  }

  ghost predicate IsLowest(candles: seq<Candle>, price: real) {
    (forall c :: c in candles ==> price <= c.low) && exists c :: c in candles && c.low == price
  }

  lemma {:induction false} HorizonExtremes(direction: Direction, candles: seq<Candle>)
    requires candles != []
    ensures direction.Long? ==> IsHighest(candles, BestOf(direction, candles)) && IsLowest(candles, WorstOf(direction, candles))
    ensures direction.Short? ==> IsLowest(candles, BestOf(direction, candles)) && IsHighest(candles, WorstOf(direction, candles))
  {
    var most, last := candles[..|candles| - 1], candles[|candles| - 1];
    assert forall c :: c in candles <==> c in most || c == last;
    if |candles| > 1 { HorizonExtremes(direction, most); }
  }

  lemma PercentIs(direction: Direction, entry: real, price: real)
    requires entry > 0.0
    ensures MovePct(direction, entry, price) == Percent(direction, entry, price)
  {
    assert -((price - entry) / entry * 100.0) == (entry - price) / entry * 100.0;
    hide Quantized;
  }

  /** A horizon's return is taken at its last close, its excursions at the highest high and the lowest low on the way. */
  lemma HorizonReturns(future: seq<Candle>, entry: real, direction: Direction, horizon: nat) returns (highest: real, lowest: real)
    requires horizon >= 1 && entry > 0.0
    ensures var o, n := FixedHorizon(future, entry, direction, horizon), Min(|future|, horizon);
            && o.candlesUsed == n
            && (if future == [] then o.exitPrice == None && o.returnPct == None && o.mfePct == None && o.maePct == None && !o.complete
                else
                  && IsHighest(future[..n], highest) && IsLowest(future[..n], lowest)
                  && o.exitPrice == Some(future[n - 1].close) && o.returnPct == Some(Percent(direction, entry, future[n - 1].close))
                  && o.mfePct == Some(Percent(direction, entry, if direction.Long? then highest else lowest))
                  && o.maePct == Some(Percent(direction, entry, if direction.Long? then lowest else highest)))
  {
    var window := Window(future, horizon);
    highest, lowest := 0.0, 0.0;
    if window != [] {
      var best, worst := BestOf(direction, window), WorstOf(direction, window);
      HorizonExtremes(direction, window);
      highest, lowest := if direction.Long? then best else worst, if direction.Long? then worst else best;
      PercentIs(direction, entry, window[|window| - 1].close);
      PercentIs(direction, entry, best);
      PercentIs(direction, entry, worst);
    }
    hide BestOf, WorstOf, MovePct, Percent, IsHighest, IsLowest;
  }
}
