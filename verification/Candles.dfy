/** Research vocabulary: candles, timeframes and the half-even quantizer. Values are exact reals before quantizing. */
module Candles {
  import opened Prelude

  datatype Timeframe = M5 | M15 | M30 | H1 | H4 | D1

  /** Nominal expected minutes per candle; none for a daily candle, whose bucket is the whole session. */
  function BucketMinutes(t: Timeframe): Option<nat> {
    match t
    case M5 => Some(5)
    case M15 => Some(15)
    case M30 => Some(30)
    case H1 => Some(60)
    case H4 => Some(240)
    case D1 => None
  }

  /** One aggregated candle covering its first to its last expected minute. */
  datatype Candle = Candle(timeframe: Timeframe, ts: int, endTs: int, day: int, open: real, high: real, low: real, close: real,
                           volume: real, minutesExpected: nat, minutesPresent: nat, truncated: bool)
  {
    predicate Consistent() { low <= open && low <= close && high >= open && high >= close }
  }

  /** Round half to even. */
  function HalfEven(x: real): int {
    var f := x.Floor;
    if x - f as real < 0.5 then f else if x - f as real > 0.5 then f + 1 else if f % 2 == 0 then f else f + 1
  }

  const PRICE_STEPS := 1_000_000.0
  const PCT_STEPS := 10_000.0
  const R_STEPS := 10_000.0
  const RATIO_STEPS := 10_000.0

  /** The value in whole steps of 1/steps. */
  function Quantized(x: real, steps: real): real
    requires steps > 0.0
  {
    HalfEven(x * steps) as real / steps
  }

  lemma HalfEvenMonotone(x: real, y: real)
    requires x <= y
    ensures HalfEven(x) <= HalfEven(y)
  {
    if x.Floor == y.Floor {
    } else {
      assert x.Floor + 1 <= y.Floor;
    }
  }

  lemma QuantizedMonotone(x: real, y: real, steps: real)
    requires x <= y && steps > 0.0
    ensures Quantized(x, steps) <= Quantized(y, steps)
  {
    assert x * steps <= y * steps;
    HalfEvenMonotone(x * steps, y * steps);
    DivideMonotone(HalfEven(x * steps) as real, HalfEven(y * steps) as real, steps);
  }

  lemma DivideMonotone(a: real, b: real, c: real)
    requires a <= b && c > 0.0
    ensures a / c <= b / c
  {
  }
}
