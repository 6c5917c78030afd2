/** Technical indicators, one pass each, and why no value ever depends on a later candle. */
module Indicators {
  import opened Prelude
  import opened Candles

  type Series = seq<Option<real>>

  function Sum(values: seq<real>): real {
    if values == [] then 0.0 else Sum(values[..|values| - 1]) + values[|values| - 1]
  }

  lemma SumAppend(values: seq<real>, x: real)
    ensures Sum(values + [x]) == Sum(values) + x
  {
    assert (values + [x])[..|values|] == values;
  }

  lemma {:induction false} SumFirst(values: seq<real>)
    requires values != []
    ensures Sum(values) == values[0] + Sum(values[1..])
  {
    if |values| == 1 {
      assert values[..0] == [] && values[1..] == [];
    } else {
      SumFirst(values[..|values| - 1]);
      assert values[1..][..|values| - 2] == values[..|values| - 1][1..];
    }
  }

  /** Each function below maps the values up to and including one candle to that candle's entry. */
  function Aligned<T>(values: seq<T>, at: seq<T> -> Option<real>): (r: Series)
    ensures |r| == |values|
    ensures forall i :: 0 <= i < |values| ==> r[i] == at(values[..i + 1])
  {
    seq(|values|, i requires 0 <= i < |values| => at(values[..i + 1]))
  }

  /** No look-ahead: two lists that agree through `i` have the same entry at `i`, whatever follows. */
  lemma AlignedPrefix<T>(a: seq<T>, b: seq<T>, i: nat, at: seq<T> -> Option<real>)
    requires i < |a| && i < |b| && a[..i + 1] == b[..i + 1]
    ensures Aligned(a, at)[i] == Aligned(b, at)[i]
  {
  }

  // ---- simple moving average --------------------------------------------------------------------------------------

  function SmaAt(period: nat): seq<real> -> Option<real>
    requires period >= 1
  {
    (past: seq<real>) => if |past| < period then None else Some(Quantized(Sum(past[|past| - period..]) / period as real, PRICE_STEPS))
  }

  /** The last `period` of the first `i` values, or all of them while there are fewer. */
  function Window(values: seq<real>, i: nat, period: nat): seq<real>
    requires i <= |values|
  {
    values[Max(0, i - period)..i]
  }

  /** Adding the newest value and dropping the oldest keeps the sum of the window. */
  lemma SlideWindow(values: seq<real>, i: nat, period: nat)
    requires i < |values| && period >= 1
    ensures Sum(Window(values, i + 1, period))
         == Sum(Window(values, i, period)) + values[i] - (if i >= period then values[i - period] else 0.0)
  {
    var lo := Max(0, i - period);
    assert values[lo..i + 1] == values[lo..i] + [values[i]];
    SumAppend(values[lo..i], values[i]);
    if i >= period {
      SumFirst(values[lo..i + 1]);
      assert values[lo..i + 1][1..] == values[lo + 1..i + 1];
    }
  }

  lemma WindowEmpty(values: seq<real>, period: nat)
    ensures Sum(Window(values, 0, period)) == 0.0
  {
    assert Window(values, 0, period) == [];
  }

  lemma SmaEntry(values: seq<real>, i: nat, period: nat)
    requires i < |values| && period >= 1
    ensures SmaAt(period)(values[..i + 1])
         == if i >= period - 1 then Some(Quantized(Sum(Window(values, i + 1, period)) / period as real, PRICE_STEPS)) else None
  {
    if i >= period - 1 {
      assert values[..i + 1][i + 1 - period..] == Window(values, i + 1, period);
    }
  }

  /** One running sum, adding the newest value and dropping the oldest, is the mean of the last `period` values. */
  method Sma(values: seq<real>, period: nat) returns (r: Series)
    requires period >= 1
    ensures r == Aligned(values, SmaAt(period))
  {
    hide Quantized, Sum, Window, SmaAt;
    r := [];
    var running := 0.0;
    assert Sum(Window(values, 0, period)) == 0.0 by { WindowEmpty(values, period); }
    var i := 0;
    while i < |values|
      invariant 0 <= i <= |values| && |r| == i
      invariant forall k :: 0 <= k < i ==> r[k] == SmaAt(period)(values[..k + 1])
      invariant running == Sum(Window(values, i, period))
    {
      SlideWindow(values, i, period);
      running := running + values[i];
      if i >= period {
        running := running - values[i - period];
      }
      SmaEntry(values, i, period);
      r := r + [if i >= period - 1 then Some(Quantized(running / period as real, PRICE_STEPS)) else None];
      i := i + 1;
    }
  }

  // ---- recursive averages -----------------------------------------------------------------------------------------

  /** A seeded recursive average: the mean of the first `period` values, then one step per later value. */
  function Smoothed(past: seq<real>, period: nat, step: (real, real) -> real): real
    requires 1 <= period <= |past|
  {
    if |past| == period then Sum(past) / period as real
    else step(Smoothed(past[..|past| - 1], period, step), past[|past| - 1])
  }

  function EmaStep(period: nat): (real, real) -> real {
    (current: real, x: real) => (x - current) * (2.0 / (period + 1) as real) + current
  }

  function WilderStep(period: nat): (real, real) -> real
    requires period >= 1
  {
    (current: real, x: real) => (current * (period - 1) as real + x) / period as real
  }

  function EmaAt(period: nat): seq<real> -> Option<real>
    requires period >= 1
  {
    (past: seq<real>) => if |past| < period then None else Some(Quantized(Smoothed(past, period, EmaStep(period)), PRICE_STEPS))
  }

  function WilderAt(period: nat): seq<real> -> Option<real>
    requires period >= 1
  {
    (past: seq<real>) => if |past| < period then None else Some(Smoothed(past, period, WilderStep(period)))
  }

  /** The one-pass loop shared by both averages: only the current value is carried from candle to candle. */
  method Recursive(values: seq<real>, period: nat, step: (real, real) -> real, shown: real -> real) returns (r: Series)
    requires period >= 1
    ensures |r| == |values|
    ensures forall i :: 0 <= i < |values| ==>
              r[i] == if i + 1 < period then None else Some(shown(Smoothed(values[..i + 1], period, step)))
  {
    if |values| < period {
      return seq(|values|, _ => None);
    }
    var current := Sum(values[..period]) / period as real;
    r := seq(period - 1, _ => None) + [Some(shown(current))];
    var i := period;
    while i < |values|
      invariant period <= i <= |values| && |r| == i
      invariant current == Smoothed(values[..i], period, step)
      invariant forall k :: 0 <= k < i ==> r[k] == if k + 1 < period then None else Some(shown(Smoothed(values[..k + 1], period, step)))
    {
      assert values[..i + 1][..i] == values[..i];
      current := step(current, values[i]);
      r := r + [Some(shown(current))];
      i := i + 1;
    }
  }

  function ToPrice(x: real): real { Quantized(x, PRICE_STEPS) }

  function Unrounded(x: real): real { x }

  method Ema(values: seq<real>, period: nat) returns (r: Series)
    requires period >= 1
    ensures r == Aligned(values, EmaAt(period))
  {
    r := Recursive(values, period, EmaStep(period), ToPrice);
  }

  method Wilder(values: seq<real>, period: nat) returns (r: Series)
    requires period >= 1
    ensures r == Aligned(values, WilderAt(period))
  {
    r := Recursive(values, period, WilderStep(period), Unrounded);
  }

  // ---- RSI --------------------------------------------------------------------------------------------------------

  function Gain(earlier: real, later: real): real { if later > earlier then later - earlier else 0.0 }

  /** Pairwise changes of consecutive values, each through `change`. */
  function Changes<T>(values: seq<T>, change: (T, T) -> real): (r: seq<real>)
    ensures |r| == if values == [] then 0 else |values| - 1
  {
    seq(if values == [] then 0 else |values| - 1, i requires 0 <= i < |values| - 1 => change(values[i], values[i + 1]))
  }

  function Loss(earlier: real, later: real): real { Gain(later, earlier) }

  function RsiFrom(up: Option<real>, down: Option<real>): Option<real> {
    if up.None? || down.None? then None
    else if down.value == 0.0 then Some(Quantized(100.0, PCT_STEPS))
    else if 1.0 + up.value / down.value == 0.0 then None
    else Some(Quantized(100.0 - 100.0 / (1.0 + up.value / down.value), PCT_STEPS))
  }

  function RsiAt(period: nat): seq<real> -> Option<real>
    requires period >= 1
  {
    (past: seq<real>) =>
      if |past| <= period then None
      else RsiFrom(WilderAt(period)(Changes(past, Gain)), WilderAt(period)(Changes(past, Loss)))
  }

  method GainsAndLosses(values: seq<real>) returns (gains: seq<real>, losses: seq<real>)
    requires values != []
    ensures gains == Changes(values, Gain) && losses == Changes(values, Loss)
  {
    gains, losses := [], [];
    var k := 0;
    while k + 1 < |values|
      invariant 0 <= k < |values|
      invariant gains == Changes(values, Gain)[..k] && losses == Changes(values, Loss)[..k]
    {
      var change := values[k + 1] - values[k];
      gains := gains + [if change > 0.0 then change else 0.0];
      losses := losses + [if change < 0.0 then -change else 0.0];
      k := k + 1;
    }
  }

  /** Gains and losses are smoothed separately; each entry is offset by one candle from its change. */
  method Rsi(values: seq<real>, period: nat) returns (r: Series)
    requires period >= 1
    ensures r == Aligned(values, RsiAt(period))
  {
    hide Quantized, RsiFrom, WilderAt, Changes;
    if |values| <= period {
      return seq(|values|, _ => None);
    }
    var gains, losses := GainsAndLosses(values);
    var up := Wilder(gains, period);
    var down := Wilder(losses, period);
    r := [None];
    var i := 0;
    while i < |gains|
      invariant 0 <= i <= |gains| && |r| == i + 1
      invariant forall j :: 0 <= j <= i ==> r[j] == RsiAt(period)(values[..j + 1])
    {
      RsiEntry(values, i, period);
      r := r + [RsiFrom(up[i], down[i])];
      i := i + 1;
    }
  }

  lemma RsiEntry(values: seq<real>, i: nat, period: nat)
    requires period >= 1 && i + 1 < |values|
    ensures RsiAt(period)(values[..i + 2])
         == RsiFrom(WilderAt(period)(Changes(values, Gain)[..i + 1]), WilderAt(period)(Changes(values, Loss)[..i + 1]))
  {
    hide Quantized;
    ChangesPrefix(values, i + 1, Gain);
    ChangesPrefix(values, i + 1, Loss);
  }

  lemma ChangesPrefix<T>(values: seq<T>, i: nat, change: (T, T) -> real)
    requires i < |values|
    ensures Changes(values[..i + 1], change) == Changes(values, change)[..i]
  {
  }

  // ---- ATR --------------------------------------------------------------------------------------------------------

  function MaxReal(a: real, b: real): real { if a >= b then a else b }

  function AbsReal(x: real): real { if x < 0.0 then -x else x }

  function RangeAfter(previous: Candle, c: Candle): real {
    MaxReal(MaxReal(c.high - c.low, AbsReal(c.high - previous.close)), AbsReal(c.low - previous.close))
  }

  function TrueRanges(candles: seq<Candle>): (r: seq<real>)
    ensures |r| == |candles|
  {
    seq(|candles|, i requires 0 <= i < |candles| =>
      if i == 0 then candles[0].high - candles[0].low else RangeAfter(candles[i - 1], candles[i]))
  }

  function AtrAt(period: nat): seq<Candle> -> Option<real>
    requires period >= 1
  {
    (past: seq<Candle>) => match WilderAt(period)(TrueRanges(past)) case None => None case Some(v) => Some(Quantized(v, PRICE_STEPS))
  }

  method TrueRangesOf(candles: seq<Candle>) returns (r: seq<real>)
    ensures r == TrueRanges(candles)
  {
    r := [];
    var i := 0;
    while i < |candles|
      invariant 0 <= i <= |candles| && r == TrueRanges(candles)[..i]
    {
      var span := candles[i].high - candles[i].low;
      if i == 0 {
        r := r + [span];
      } else {
        var previous := candles[i - 1].close;
        r := r + [MaxReal(MaxReal(span, AbsReal(candles[i].high - previous)), AbsReal(candles[i].low - previous))];
      }
      i := i + 1;
    }
  }

  method Atr(candles: seq<Candle>, period: nat) returns (r: Series)
    requires period >= 1
    ensures r == Aligned(candles, AtrAt(period))
  {
    hide WilderAt, Quantized;
    var ranges := TrueRangesOf(candles);
    var smoothed := Wilder(ranges, period);
    r := seq(|smoothed|, i requires 0 <= i < |smoothed| =>
      match smoothed[i] case None => None case Some(v) => Some(Quantized(v, PRICE_STEPS)));
    forall i | 0 <= i < |candles| ensures r[i] == AtrAt(period)(candles[..i + 1]) {
      assert TrueRanges(candles[..i + 1]) == ranges[..i + 1];
    }
  }

  // ---- MACD -------------------------------------------------------------------------------------------------------

  function LineAt(fast: nat, slow: nat): seq<real> -> Option<real>
    requires 1 <= fast < slow
  {
    (past: seq<real>) => if |past| < slow then None else Some(LineValue(past, fast, slow))
  }

  /** The MACD line from the first candle where it exists. */
  function DefinedLine(past: seq<real>, fast: nat, slow: nat): (r: seq<real>)
    requires 1 <= fast < slow <= |past|
    ensures |r| == |past| - slow + 1
  {
    seq(|past| - slow + 1, k requires 0 <= k < |past| - slow + 1 => LineValue(past[..slow + k], fast, slow))
  }

  function LineValue(past: seq<real>, fast: nat, slow: nat): real
    requires 1 <= fast < slow <= |past|
  {
    Quantized(EmaAt(fast)(past).value - EmaAt(slow)(past).value, PRICE_STEPS)
  }

  /** The signal smooths only the candles where the line exists, never a padded gap. */
  function SignalAt(fast: nat, slow: nat, signal: nat): seq<real> -> Option<real>
    requires 1 <= fast < slow && signal >= 1
  {
    (past: seq<real>) => if |past| < slow then None else EmaAt(signal)(DefinedLine(past, fast, slow))
  }

  function HistogramAt(fast: nat, slow: nat, signal: nat): seq<real> -> Option<real>
    requires 1 <= fast < slow && signal >= 1
  {
    (past: seq<real>) =>
      if LineAt(fast, slow)(past).Some? && SignalAt(fast, slow, signal)(past).Some?
      then Some(Quantized(LineAt(fast, slow)(past).value - SignalAt(fast, slow, signal)(past).value, PRICE_STEPS)) else None
  }

  datatype Macd = Macd(line: Series, signal: Series, histogram: Series)

  method MacdLine(values: seq<real>, fast: nat, slow: nat) returns (line: Series, defined: seq<real>)
    requires 1 <= fast < slow
    ensures line == Aligned(values, LineAt(fast, slow))
    ensures defined == if |values| < slow then [] else DefinedLine(values, fast, slow)
  {
    hide Quantized, EmaAt, LineAt, LineValue;
    var quick := Ema(values, fast);
    var slowLine := Ema(values, slow);
    line, defined := [], [];
    var i := 0;
    while i < |values|
      invariant 0 <= i <= |values| && |line| == i
      invariant forall k :: 0 <= k < i ==> line[k] == LineAt(fast, slow)(values[..k + 1])
      invariant |defined| == Max(0, i - slow + 1)
      invariant forall k :: 0 <= k < |defined| ==> defined[k] == LineValue(values[..slow + k], fast, slow)
    {
      LineEntry(values, fast, slow, quick, slowLine, i);
      var entry := if quick[i].Some? && slowLine[i].Some? then Some(Quantized(quick[i].value - slowLine[i].value, PRICE_STEPS)) else None;
      line := line + [entry];
      if entry.Some? {
        defined := defined + [entry.value];
      }
      i := i + 1;
    }
  }

  /** The line exists from the candle where the slow average does, and is the difference of the two averages there. */
  lemma LineEntry(values: seq<real>, fast: nat, slow: nat, quick: Series, slowLine: Series, i: nat)
    requires 1 <= fast < slow && i < |values|
    requires quick == Aligned(values, EmaAt(fast)) && slowLine == Aligned(values, EmaAt(slow))
    ensures slowLine[i].Some? <==> i + 1 >= slow
    ensures slowLine[i].Some? ==> quick[i].Some?
    ensures LineAt(fast, slow)(values[..i + 1])
         == if slowLine[i].Some? then Some(Quantized(quick[i].value - slowLine[i].value, PRICE_STEPS)) else None
    ensures slowLine[i].Some? ==>
              LineValue(values[..i + 1], fast, slow) == Quantized(quick[i].value - slowLine[i].value, PRICE_STEPS)
  {
    hide Quantized, Smoothed;
  }

  method ComputeMacd(values: seq<real>, fast: nat, slow: nat, signal: nat) returns (r: Macd)
    requires 1 <= fast < slow && signal >= 1
    ensures r.line == Aligned(values, LineAt(fast, slow))
    ensures r.signal == Aligned(values, SignalAt(fast, slow, signal))
    ensures r.histogram == Aligned(values, HistogramAt(fast, slow, signal))
  {
    hide Quantized, EmaAt, LineAt, DefinedLine, SignalAt, HistogramAt;
    var line, defined := MacdLine(values, fast, slow);
    var smoothed := Ema(defined, signal);
    var signals, histogram: Series := [], [];
    var i := 0;
    while i < |values|
      invariant 0 <= i <= |values| && |signals| == i && |histogram| == i
      invariant forall k :: 0 <= k < i ==> signals[k] == SignalAt(fast, slow, signal)(values[..k + 1])
      invariant forall k :: 0 <= k < i ==> histogram[k] == HistogramAt(fast, slow, signal)(values[..k + 1])
    {
      SignalEntry(values, i, fast, slow, signal, defined, smoothed);
      HistogramIs(values[..i + 1], fast, slow, signal);
      if i + 1 >= slow {
        var smooth := smoothed[i + 1 - slow];
        signals := signals + [smooth];
        histogram := histogram + [if line[i].Some? && smooth.Some? then Some(Quantized(line[i].value - smooth.value, PRICE_STEPS)) else None];
      } else {
        signals, histogram := signals + [None], histogram + [None];
      }
      i := i + 1;
    }
    r := Macd(line, signals, histogram);
  }

  lemma SignalEntry(values: seq<real>, i: nat, fast: nat, slow: nat, signal: nat, defined: seq<real>, smoothed: Series)
    requires 1 <= fast < slow && signal >= 1 && i < |values|
    requires defined == if |values| < slow then [] else DefinedLine(values, fast, slow)
    requires smoothed == Aligned(defined, EmaAt(signal))
    ensures SignalAt(fast, slow, signal)(values[..i + 1]) == if i + 1 < slow then None else smoothed[i + 1 - slow]
  {
    hide EmaAt, DefinedLine;
    if i + 1 >= slow { DefinedPrefix(values, i, fast, slow); }
  }

  lemma HistogramIs(past: seq<real>, fast: nat, slow: nat, signal: nat)
    requires 1 <= fast < slow && signal >= 1
    ensures HistogramAt(fast, slow, signal)(past)
         == (var l, s := LineAt(fast, slow)(past), SignalAt(fast, slow, signal)(past);
             if l.Some? && s.Some? then Some(Quantized(l.value - s.value, PRICE_STEPS)) else None)
  {
    hide LineAt, SignalAt, Quantized;
  }

  lemma DefinedPrefix(values: seq<real>, i: nat, fast: nat, slow: nat)
    requires 1 <= fast < slow <= i + 1 <= |values|
    ensures DefinedLine(values[..i + 1], fast, slow) == DefinedLine(values, fast, slow)[..i + 2 - slow]
  {
    hide LineAt;
    forall k | 0 <= k < i + 2 - slow
      ensures DefinedLine(values[..i + 1], fast, slow)[k] == DefinedLine(values, fast, slow)[k]
    {
      assert values[..i + 1][..slow + k] == values[..slow + k];
    }
  }

  // ---- volume and volatility ----------------------------------------------------------------------------------------

  function Volumes(candles: seq<Candle>): seq<real> { Map(candles, (c: Candle) => c.volume) }

  function Closes(candles: seq<Candle>): seq<real> { Map(candles, (c: Candle) => c.close) }

  /** The average volume of the `lookback` candles before the last one: a candle is never in its own baseline. */
  function BaselineAt(lookback: nat): seq<Candle> -> Option<real>
    requires lookback >= 1
  {
    (past: seq<Candle>) =>
      if |past| <= lookback then None
      else Some(Quantized(Sum(Volumes(past[|past| - 1 - lookback..|past| - 1])) / lookback as real, PRICE_STEPS))
  }

  function RelativeVolumeAt(lookback: nat): seq<Candle> -> Option<real>
    requires lookback >= 1
  {
    (past: seq<Candle>) =>
      if past == [] || BaselineAt(lookback)(past).None? || BaselineAt(lookback)(past).value <= 0.0 then None
      else Some(Quantized(past[|past| - 1].volume / BaselineAt(lookback)(past).value, RATIO_STEPS))
  }

  lemma BaselineEntry(candles: seq<Candle>, i: nat, lookback: nat)
    requires lookback >= 1 && i < |candles|
    ensures BaselineAt(lookback)(candles[..i + 1])
         == if i < lookback then None else Some(Quantized(Sum(Volumes(candles[i - lookback..i])) / lookback as real, PRICE_STEPS))
    ensures var b := BaselineAt(lookback)(candles[..i + 1]);
            RelativeVolumeAt(lookback)(candles[..i + 1])
            == if b.None? || b.value <= 0.0 then None else Some(Quantized(candles[i].volume / b.value, RATIO_STEPS))
  {
    hide Quantized, Sum, Volumes;
    if i >= lookback {
      assert candles[..i + 1][i - lookback..i] == candles[i - lookback..i];
    }
  }

  method RelativeVolume(candles: seq<Candle>, lookback: nat) returns (baseline: Series, r: Series)
    requires lookback >= 1
    ensures baseline == Aligned(candles, BaselineAt(lookback)) && r == Aligned(candles, RelativeVolumeAt(lookback))
  {
    hide Quantized, Sum, Volumes, BaselineAt, RelativeVolumeAt;
    baseline, r := [], [];
    var i := 0;
    while i < |candles|
      invariant 0 <= i <= |candles| && |baseline| == i && |r| == i
      invariant forall k :: 0 <= k < i ==> baseline[k] == BaselineAt(lookback)(candles[..k + 1])
      invariant forall k :: 0 <= k < i ==> r[k] == RelativeVolumeAt(lookback)(candles[..k + 1])
    {
      var average := None;
      BaselineEntry(candles, i, lookback);
      if i >= lookback {
        average := Some(Quantized(Sum(Volumes(candles[i - lookback..i])) / lookback as real, PRICE_STEPS));
      }
      baseline := baseline + [average];
      r := r + [if average.Some? && average.value > 0.0 then Some(Quantized(candles[i].volume / average.value, RATIO_STEPS)) else None];
      i := i + 1;
    }
  }

  function ReturnAt(past: seq<real>): Option<real> {
    if |past| < 2 || past[|past| - 2] == 0.0 then None
    else Some(Quantized((past[|past| - 1] - past[|past| - 2]) / past[|past| - 2], RATIO_STEPS))
  }

  function Present(entries: Series): seq<real> {
    if entries == [] then []
    else Present(entries[..|entries| - 1]) + (if entries[|entries| - 1].Some? then [entries[|entries| - 1].value] else [])
  }

  function Squares(values: seq<real>, mean: real): seq<real> { Map(values, (x: real) => (x - mean) * (x - mean)) }

  function Deviation(values: seq<real>, root: real -> real): real
    requires values != []
  {
    var mean := Sum(values) / |values| as real;
    Quantized(root(Sum(Squares(values, mean)) / |values| as real), RATIO_STEPS)
  }

  /** The deviation of the last `lookback` returns; `root` is the decimal square root. */
  function VolatilityAt(lookback: nat, root: real -> real): seq<real> -> Option<real>
    requires lookback >= 1
  {
    (past: seq<real>) =>
      var window := Present(Aligned(past, ReturnAt)[Max(0, |past| - lookback)..]);
      if |window| < lookback then None else Some(Deviation(window, root))
  }

  method Volatility(values: seq<real>, lookback: nat, root: real -> real) returns (r: Series)
    requires lookback >= 1
    ensures r == Aligned(values, VolatilityAt(lookback, root))
  {
    hide Present, Deviation, ReturnAt, VolatilityAt, Aligned;
    var changes := Aligned(values, ReturnAt);
    r := [];
    var i := 0;
    while i < |values|
      invariant 0 <= i <= |values| && |r| == i
      invariant forall k :: 0 <= k < i ==> r[k] == VolatilityAt(lookback, root)(values[..k + 1])
    {
      var lo := Max(0, i - lookback + 1);
      VolatilityEntry(values, i, lookback, root);
      var window := Present(changes[lo..i + 1]);
      r := r + [if |window| < lookback then None else Some(Deviation(window, root))];
      i := i + 1;
    }
  }

  lemma VolatilityEntry(values: seq<real>, i: nat, lookback: nat, root: real -> real)
    requires lookback >= 1 && i < |values|
    ensures var window := Present(Aligned(values, ReturnAt)[Max(0, i - lookback + 1)..i + 1]);
            VolatilityAt(lookback, root)(values[..i + 1]) == if |window| < lookback then None else Some(Deviation(window, root))
  {
    hide Present, Deviation, ReturnAt, Aligned;
    ReturnsPrefix(values, i, Max(0, i - lookback + 1));
  }

  lemma ReturnsPrefix(values: seq<real>, i: nat, lo: nat)
    requires lo <= i < |values|
    ensures Aligned(values[..i + 1], ReturnAt)[lo..] == Aligned(values, ReturnAt)[lo..i + 1]
  {
    hide ReturnAt;
    forall k | lo <= k <= i ensures Aligned(values[..i + 1], ReturnAt)[k] == Aligned(values, ReturnAt)[k] {
      assert values[..i + 1][..k + 1] == values[..k + 1];
    }
  }

  // ---- everything at once -------------------------------------------------------------------------------------------

  datatype Windows = Windows(emas: set<nat>, rsi: nat, atr: nat, fast: nat, slow: nat, signal: nat, volume: nat, volatility: nat,
                             root: real -> real)
  {
    predicate Valid() {
      && (forall p :: p in emas ==> p >= 1)
      && rsi >= 1 && atr >= 1 && 1 <= fast < slow && signal >= 1 && volume >= 1 && volatility >= 1
    }
  }

  /** Every indicator of one candle series, computed once and aligned with it. */
  datatype IndicatorSeries = IndicatorSeries(ema: map<nat, Series>, rsi: Series, atr: Series, macd: Macd, relativeVolume: Series,
                                             averageVolume: Series, volatility: Series)

  function SeriesOf(candles: seq<Candle>, w: Windows): IndicatorSeries
    requires w.Valid()
  {
    var values := Closes(candles);
    IndicatorSeries(
      map p | p in w.emas :: Aligned(values, EmaAt(p)),
      Aligned(values, RsiAt(w.rsi)), Aligned(candles, AtrAt(w.atr)),
      Macd(Aligned(values, LineAt(w.fast, w.slow)), Aligned(values, SignalAt(w.fast, w.slow, w.signal)),
           Aligned(values, HistogramAt(w.fast, w.slow, w.signal))),
      Aligned(candles, RelativeVolumeAt(w.volume)), Aligned(candles, BaselineAt(w.volume)),
      Aligned(values, VolatilityAt(w.volatility, w.root)))
  }

  function ValueAt(series: Series, index: int): Option<real> {
    if 0 <= index < |series| then series[index] else None
  }

  /** The two series hold the same values at every index up to `i`. */
  ghost predicate AgreeThrough(a: IndicatorSeries, b: IndicatorSeries, i: int) {
    && a.ema.Keys == b.ema.Keys
    && (forall p, k :: p in a.ema && 0 <= k <= i ==> ValueAt(a.ema[p], k) == ValueAt(b.ema[p], k))
    && (forall k :: 0 <= k <= i ==> ValueAt(a.rsi, k) == ValueAt(b.rsi, k))
    && (forall k :: 0 <= k <= i ==> ValueAt(a.atr, k) == ValueAt(b.atr, k))
    && (forall k :: 0 <= k <= i ==> ValueAt(a.macd.line, k) == ValueAt(b.macd.line, k))
    && (forall k :: 0 <= k <= i ==> ValueAt(a.macd.signal, k) == ValueAt(b.macd.signal, k))
    && (forall k :: 0 <= k <= i ==> ValueAt(a.macd.histogram, k) == ValueAt(b.macd.histogram, k))
    && (forall k :: 0 <= k <= i ==> ValueAt(a.relativeVolume, k) == ValueAt(b.relativeVolume, k))
    && (forall k :: 0 <= k <= i ==> ValueAt(a.averageVolume, k) == ValueAt(b.averageVolume, k))
    && (forall k :: 0 <= k <= i ==> ValueAt(a.volatility, k) == ValueAt(b.volatility, k))
  }

  lemma AlignedAgree<T>(a: seq<T>, b: seq<T>, i: nat, at: seq<T> -> Option<real>)
    requires i < |a| && i < |b| && a[..i + 1] == b[..i + 1]
    ensures forall k :: 0 <= k <= i ==> ValueAt(Aligned(a, at), k) == ValueAt(Aligned(b, at), k)
  {
    forall k | 0 <= k <= i ensures ValueAt(Aligned(a, at), k) == ValueAt(Aligned(b, at), k) {
      assert a[..k + 1] == a[..i + 1][..k + 1] == b[..k + 1];
      AlignedPrefix(a, b, k, at);
    }
  }

  /** No look-ahead: indicators computed over two whole series agree wherever the candles so far agree. */
  lemma IndicatorsNeverLookAhead(a: seq<Candle>, b: seq<Candle>, i: nat, w: Windows)
    requires w.Valid() && i < |a| && i < |b| && a[..i + 1] == b[..i + 1]
    ensures AgreeThrough(SeriesOf(a, w), SeriesOf(b, w), i)
  {
    assert Closes(a)[..i + 1] == Closes(a[..i + 1]) == Closes(b[..i + 1]) == Closes(b)[..i + 1];
    hide Aligned, EmaAt, RsiAt, AtrAt, LineAt, SignalAt, HistogramAt, RelativeVolumeAt, BaselineAt, VolatilityAt, ValueAt, Closes;
    forall p | p in w.emas ensures forall k :: 0 <= k <= i ==> ValueAt(Aligned(Closes(a), EmaAt(p)), k) == ValueAt(Aligned(Closes(b), EmaAt(p)), k) {
      AlignedAgree(Closes(a), Closes(b), i, EmaAt(p));
    }
    AlignedAgree(Closes(a), Closes(b), i, RsiAt(w.rsi));
    AlignedAgree(a, b, i, AtrAt(w.atr));
    AlignedAgree(Closes(a), Closes(b), i, LineAt(w.fast, w.slow));
    AlignedAgree(Closes(a), Closes(b), i, SignalAt(w.fast, w.slow, w.signal));
    AlignedAgree(Closes(a), Closes(b), i, HistogramAt(w.fast, w.slow, w.signal));
    AlignedAgree(a, b, i, RelativeVolumeAt(w.volume));
    AlignedAgree(a, b, i, BaselineAt(w.volume));
    AlignedAgree(Closes(a), Closes(b), i, VolatilityAt(w.volatility, w.root));
  }

  method ComputeSeries(candles: seq<Candle>, w: Windows) returns (r: IndicatorSeries)
    requires w.Valid()
    ensures r == SeriesOf(candles, w)
  {
    hide Aligned, EmaAt, RsiAt, AtrAt, LineAt, SignalAt, HistogramAt, RelativeVolumeAt, BaselineAt, VolatilityAt;
    var values := Closes(candles);
    var emas: map<nat, Series> := map[];
    var left := w.emas;
    while left != {}
      invariant left <= w.emas
      invariant emas.Keys == w.emas - left
      invariant forall p :: p in emas ==> emas[p] == Aligned(values, EmaAt(p))
      decreases |left|
    {
      var p: nat :| p in left;
      var line := Ema(values, p);
      emas, left := emas[p := line], left - {p};
    }
    var rsi := Rsi(values, w.rsi);
    var atr := Atr(candles, w.atr);
    var macd := ComputeMacd(values, w.fast, w.slow, w.signal);
    var baseline, relative := RelativeVolume(candles, w.volume);
    var volatility := Volatility(values, w.volatility, w.root);
    r := IndicatorSeries(emas, rsi, atr, macd, relative, baseline, volatility);
  }
}
