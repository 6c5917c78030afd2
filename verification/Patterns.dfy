/** Candlestick detection: which candles a reading depends on. The detectors' own thresholds stay abstract. */
module Patterns {
  import opened Prelude
  import opened Candles
  import opened MarketStructure

  /** Pattern names, in alphabetical order. */
  datatype Pattern =
    | BearishEngulfing | BullishEngulfing | DarkCloudCover | Doji | DragonflyDoji | EveningStar | GravestoneDoji | Hammer
    | HangingMan | InvertedHammer | MorningStar | PiercingLine | ShootingStar | ThreeBlackCrows | ThreeWhiteSoldiers

  function Rank(p: Pattern): int {
    match p
    case BearishEngulfing => 0
    case BullishEngulfing => 1
    case DarkCloudCover => 2
    case Doji => 3
    case DragonflyDoji => 4
    case EveningStar => 5
    case GravestoneDoji => 6
    case Hammer => 7
    case HangingMan => 8
    case InvertedHammer => 9
    case MorningStar => 10
    case PiercingLine => 11
    case ShootingStar => 12
    case ThreeBlackCrows => 13
    case ThreeWhiteSoldiers => 14
  }

  datatype PatternDirection = Bullish | Bearish | Neutral

  /** A reading; `evidence` stands for the injective hash of everything the detector recorded. */
  datatype Detection = Detection(pattern: Pattern, direction: PatternDirection, startTs: int, endTs: int, candles: nat,
                                 score: real, evidence: seq<real>)

  function ByName(d: Detection): int { Rank(d.pattern) }

  /** The detectors, as functions of the candles their pattern spans and of the trend before its first candle. */
  datatype Detectors = Detectors(one: (Candle, PriorTrend) -> seq<Detection>,
                                 two: (Candle, Candle, PriorTrend) -> seq<Detection>,
                                 three: (Candle, Candle, Candle, PriorTrend) -> seq<Detection>)

  const MAX_PATTERN_CANDLES: nat := 3

  /** The prior trend before the first candle of a 1-, 2- and 3-candle pattern. */
  datatype PriorContext = PriorContext(one: PriorTrend, two: PriorTrend, three: PriorTrend)

  function PriorAt(candles: seq<Candle>, index: int, lookback: nat): PriorContext
    requires lookback >= 1
  {
    PriorContext(TrendBefore(candles, index, lookback), TrendBefore(candles, index - 1, lookback),
                 TrendBefore(candles, index - 2, lookback))
  }

  predicate OneTimeframe(candles: seq<Candle>) {
    forall i, j :: 0 <= i < j < |candles| ==> candles[i].timeframe == candles[j].timeframe
  }

  /** Every pattern whose last candle is `candles[index]`, by name; None is the IndexError or ValueError. */
  function DetectAt(candles: seq<Candle>, index: int, prior: PriorContext, d: Detectors): Option<seq<Detection>> {
    if !(0 <= index < |candles|) || (exists c :: c in candles && c.timeframe != candles[index].timeframe) then None
    else
      Some(SortBy(
        d.one(candles[index], prior.one)
        + (if index >= 1 then d.two(candles[index - 1], candles[index], prior.two) else [])
        + (if index >= 2 then d.three(candles[index - 2], candles[index - 1], candles[index], prior.three) else []),
        ByName))
  }

  /** The trend before an index shifts with the list it is read from, as long as its window is kept. */
  lemma TrendShifts(candles: seq<Candle>, lo: nat, hi: nat, before: int, lookback: nat)
    requires lookback >= 1 && lo <= hi <= |candles| && before <= hi && (lo == 0 || before - lookback >= lo)
    ensures TrendBefore(candles[lo..hi], before - lo, lookback) == TrendBefore(candles, before, lookback)
  {
    hide TrendFromMove, Quantized;
    if before - lookback >= lo {
      assert candles[lo..hi][before - lo - lookback] == candles[before - lookback];
      assert candles[lo..hi][before - lo - 1] == candles[before - 1];
    }
  }

  /** The context of a reading is the same on any stretch that holds its whole window, or starts at the first candle. */
  lemma ContextShifts(candles: seq<Candle>, lo: nat, hi: nat, index: nat, lookback: nat)
    requires lookback >= 1 && index < hi <= |candles| && (lo == 0 || lo + 2 + lookback <= index) && lo <= hi
    ensures PriorAt(candles[lo..hi], index - lo, lookback) == PriorAt(candles, index, lookback)
  {
    hide TrendBefore;
    TrendShifts(candles, lo, hi, index, lookback);
    TrendShifts(candles, lo, hi, index - 1, lookback);
    TrendShifts(candles, lo, hi, index - 2, lookback);
  }

  function Reading(candles: seq<Candle>, index: int, lookback: nat, d: Detectors): Option<seq<Detection>>
    requires lookback >= 1
  {
    DetectAt(candles, index, PriorAt(candles, index, lookback), d)
  }

  lemma DetectShifts(candles: seq<Candle>, lo: nat, hi: nat, index: nat, prior: PriorContext, d: Detectors)
    requires OneTimeframe(candles) && lo <= index < hi <= |candles| && (lo == 0 || lo + 2 <= index)
    ensures DetectAt(candles[lo..hi], index - lo, prior, d) == DetectAt(candles, index, prior, d)
  {
    var part := candles[lo..hi];
    forall k | 0 <= k < hi - lo ensures part[k] == candles[lo + k] {}
    assert forall c :: c in candles ==> c.timeframe == candles[index].timeframe;
    assert forall c :: c in part ==> c in candles;
    assert part[index - lo] == candles[index];
    assert index - lo >= 1 ==> part[index - lo - 1] == candles[index - 1];
    assert index - lo >= 2 ==> part[index - lo - 2] == candles[index - 2];
    hide SortBy;
  }

  /** What the scan hashes: the last pattern's candles and the lookback before them, clamped at the first candle. */
  function IdentityStart(index: nat, lookback: nat): nat {
    Max(0, index - (MAX_PATTERN_CANDLES + lookback) + 1)
  }

  /** The identity window is wide enough: detection on the window alone gives the same readings as on the whole history. */
  lemma IdentityWindowSuffices(candles: seq<Candle>, index: nat, lookback: nat, d: Detectors)
    requires lookback >= 1 && index < |candles| && OneTimeframe(candles)
    ensures var lo := IdentityStart(index, lookback);
            Reading(candles[lo..index + 1], index - lo, lookback, d) == Reading(candles, index, lookback, d)
  {
    hide DetectAt, PriorAt, OneTimeframe;
    var lo := IdentityStart(index, lookback);
    ContextShifts(candles, lo, index + 1, index, lookback);
    DetectShifts(candles, lo, index + 1, index, PriorAt(candles, index, lookback), d);
  }

  /** So equal window content means equal readings, and a revision outside the window changes none. */
  lemma EqualWindowsEqualReadings(a: seq<Candle>, b: seq<Candle>, i: nat, j: nat, lookback: nat, d: Detectors)
    requires lookback >= 1 && i < |a| && j < |b| && OneTimeframe(a) && OneTimeframe(b)
    requires a[IdentityStart(i, lookback)..i + 1] == b[IdentityStart(j, lookback)..j + 1]
    ensures Reading(a, i, lookback, d) == Reading(b, j, lookback, d)
  {
    hide Reading, OneTimeframe;
    IdentityWindowSuffices(a, i, lookback, d);
    IdentityWindowSuffices(b, j, lookback, d);
    assert |a[IdentityStart(i, lookback)..i + 1]| == |b[IdentityStart(j, lookback)..j + 1]|;
  }

  /** The whole window is needed: one candle less at its old end loses the trend before a three-candle pattern. */
  lemma NarrowerWindowIsNotEnough(lookback: nat, index: nat) returns (a: seq<Candle>, b: seq<Candle>)
    requires lookback >= 1 && index >= lookback + 2
    ensures |a| == |b| == index + 1 && OneTimeframe(a) && OneTimeframe(b)
    ensures a[IdentityStart(index, lookback) + 1..] == b[IdentityStart(index, lookback) + 1..]
    ensures PriorAt(a, index, lookback).three != PriorAt(b, index, lookback).three
  {
    var flat := Candle(M15, 0, 0, 0, 1.0, 1.0, 1.0, 1.0, 0.0, 1, 1, false);
    var lo := index - lookback - 2;
    a := seq(index + 1, _ => flat);
    b := a[lo := flat.(close := 0.0, low := 0.0)];
    assert TrendBefore(b, index - 2, lookback).available == false;
    assert TrendBefore(a, index - 2, lookback).available == true;
  }

  lemma ReadingOnThePast(a: seq<Candle>, i: nat, lookback: nat, d: Detectors)
    requires lookback >= 1 && i < |a| && OneTimeframe(a)
    ensures Reading(a, i, lookback, d) == Reading(a[..i + 1], i, lookback, d)
  {
    hide DetectAt, PriorAt, OneTimeframe;
    assert a[0..i + 1] == a[..i + 1];
    ContextShifts(a, 0, i + 1, i, lookback);
    DetectShifts(a, 0, i + 1, i, PriorAt(a, i, lookback), d);
  }

  /** No look-ahead: the readings at a candle depend only on the candles up to it. */
  lemma ReadingsNeverLookAhead(a: seq<Candle>, b: seq<Candle>, i: nat, lookback: nat, d: Detectors)
    requires lookback >= 1 && i < |a| && i < |b| && OneTimeframe(a) && OneTimeframe(b) && a[..i + 1] == b[..i + 1]
    ensures Reading(a, i, lookback, d) == Reading(b, i, lookback, d) == Reading(a[..i + 1], i, lookback, d)
  {
    hide *;
    ReadingOnThePast(a, i, lookback, d);
    ReadingOnThePast(b, i, lookback, d);
  }
}
