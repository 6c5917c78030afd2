/** Historical evaluation without look-ahead, and splits whose training side never saw the period that judges it. */
module Backtest {
  import opened Prelude
  import opened Candles
  import opened Domain
  import opened Indicators
  import opened MarketStructure
  import opened Patterns
  import Labels

  /** What the engine knew at a candle: the candle, indicator values there, the structure and the reading. */
  datatype Snapshot = Snapshot(candle: Candle, emas: seq<Option<real>>, emaDistances: seq<Option<real>>, rsi: Option<real>,
                               atr: Option<real>, relativeVolume: Option<real>, volatility: Option<real>,
                               macd: seq<Option<real>>, structure: Structure, detection: Detection)

  function EmaOrNone(series: IndicatorSeries, period: nat, index: int): Option<real> {
    if period in series.ema then ValueAt(series.ema[period], index) else None
  }

  function SnapshotAt(history: seq<Candle>, index: int, series: IndicatorSeries, structure: Structure, d: Detection): Snapshot
    requires 0 <= index < |history|
  {
    var close := history[index].close;
    var emas := [EmaOrNone(series, 9, index), EmaOrNone(series, 20, index), EmaOrNone(series, 50, index), EmaOrNone(series, 200, index)];
    Snapshot(history[index], emas,
             [DistancePct(close, emas[0]), DistancePct(close, emas[1]), DistancePct(close, emas[2]), DistancePct(close, emas[3])],
             ValueAt(series.rsi, index), ValueAt(series.atr, index), ValueAt(series.relativeVolume, index),
             ValueAt(series.volatility, index),
             [ValueAt(series.macd.line, index), ValueAt(series.macd.signal, index), ValueAt(series.macd.histogram, index)],
             structure, d)
  }

  datatype Study = Study(detectors: Detectors, lookback: nat, windows: Windows, left: int, right: int, targetAtr: real,
                         stopAtr: real, horizons: seq<nat>, maxCandles: nat, wanted: Option<set<Pattern>>)
  {
    predicate Valid() { lookback >= 1 && windows.Valid() && left >= 1 && right >= 1 }

    predicate Wants(d: Detection) { wanted.None? || d.pattern in wanted.value }
  }

  datatype LabelSet = LabelSet(horizons: seq<Labels.HorizonOutcome>, barrier: Option<Labels.BarrierOutcome>, used: nat)

  /** One historical candidate: what was known at the candle, and what happened after it. */
  datatype Occurrence = Occurrence(ticker: string, signalTs: int, signalEnd: int, pattern: Pattern, direction: Direction,
                                   snapshot: Snapshot, labels: LabelSet, labelEnd: Option<int>)

  function DirectionOf(d: Detection): Option<Direction> {
    match d.direction case Bullish => Some(Long) case Bearish => Some(Short) case Neutral => None
  }

  /** Stop and target a multiple of ATR away from the entry. */
  function AtrTrade(entry: real, atr: real, direction: Direction, study: Study): Labels.Trade {
    if direction.Long? then Labels.Trade(Long, entry, entry - atr * study.stopAtr, entry + atr * study.targetAtr)
    else Labels.Trade(Short, entry, entry + atr * study.stopAtr, entry - atr * study.targetAtr)
  }

  function MostUsed(outcomes: seq<Labels.HorizonOutcome>): nat {
    if outcomes == [] then 0 else Max(outcomes[0].candlesUsed, MostUsed(outcomes[1..]))
  }

  /** The labels of a candidate: functions of its entry, its ATR, its direction and the candles after it; None is a ValueError. */
  function LabelsFor(future: seq<Candle>, entry: real, atr: Option<real>, direction: Direction, study: Study): (r: Option<LabelSet>)
    ensures r.Some? ==> r.value.used <= |future|
  {
    var traded := atr.Some? && atr.value > 0.0 && entry > 0.0;
    var trade := AtrTrade(entry, if atr.Some? then atr.value else 0.0, direction, study);
    if (study.horizons != [] && entry <= 0.0) || 0 in study.horizons then None
    else if traded && (!trade.Valid() || study.maxCandles < 1) then None
    else
      var horizons := HorizonsFor(future, entry, direction, study.horizons);
      var barrier := if traded then Some(Labels.Outcome(trade, future, study.maxCandles)) else None;
      var used := Max(MostUsed(horizons), if barrier.Some? then barrier.value.candlesUsed else 0);
      MostUsedBounded(future, entry, direction, study.horizons);
      if traded then BarrierUsesFuture(trade, future, study.maxCandles); Some(LabelSet(horizons, barrier, used))
      else Some(LabelSet(horizons, barrier, used))
  }

  lemma BarrierUsesFuture(t: Labels.Trade, future: seq<Candle>, maxCandles: nat)
    requires t.Valid() && maxCandles >= 1
    ensures Labels.Outcome(t, future, maxCandles).candlesUsed <= |future|
  {
  }

  function HorizonsFor(future: seq<Candle>, entry: real, direction: Direction, horizons: seq<nat>): (r: seq<Labels.HorizonOutcome>)
    requires horizons != [] ==> entry > 0.0
    requires 0 !in horizons
    ensures |r| == |horizons|
  {
    if horizons == [] then []
    else [Labels.FixedHorizon(future, entry, direction, horizons[0])] + HorizonsFor(future, entry, direction, horizons[1..])
  }

  lemma {:induction false} MostUsedBounded(future: seq<Candle>, entry: real, direction: Direction, horizons: seq<nat>)
    requires (horizons != [] ==> entry > 0.0) && 0 !in horizons
    ensures MostUsed(HorizonsFor(future, entry, direction, horizons)) <= |future|
  {
    if horizons != [] {
      MostUsedBounded(future, entry, direction, horizons[1..]);
      var r := HorizonsFor(future, entry, direction, horizons);
      assert r[1..] == HorizonsFor(future, entry, direction, horizons[1..]);
    }
  }

  /** The candidates of some readings at one candle; None is a ValueError or a missing indicator. */
  function Candidates(ticker: string, candles: seq<Candle>, index: nat, series: IndicatorSeries, structure: Structure,
                      found: seq<Detection>, study: Study): Option<seq<Occurrence>>
    requires index < |candles|
  {
    if found == [] then Some([])
    else
      match Candidates(ticker, candles, index, series, structure, found[1..], study)
      case None => None
      case Some(rest) =>
        var d, c := found[0], candles[index];
        if !study.Wants(d) || DirectionOf(d).None? then Some(rest)
        else
          var future := candles[index + 1..];
          match LabelsFor(future, c.close, ValueAt(series.atr, index), DirectionOf(d).value, study)
          case None => None
          case Some(labels) =>
            Some([Occurrence(ticker, c.ts, c.endTs, d.pattern, DirectionOf(d).value,
                             SnapshotAt(candles[..index + 1], index, series, structure, d), labels,
                             if labels.used > 0 then Some(future[labels.used - 1].endTs) else None)] + rest)
  }

  /** Everything found at one candle, with indicators and pivots computed over the whole series. */
  function OccurrencesAt(ticker: string, candles: seq<Candle>, index: nat, series: IndicatorSeries, pivots: seq<SwingPoint>, study: Study)
    : Option<seq<Occurrence>>
    requires index < |candles| && study.Valid()
  {
    match DetectAt(candles[..index + 1], index, PriorAt(candles, index, study.lookback), study.detectors)
    case None => None
    case Some(found) =>
      if found == [] then Some([])
      else
        match StructureAt(candles[..index + 1], index, series, pivots)
        case None => None
        case Some(structure) => Candidates(ticker, candles, index, series, structure, found, study)
  }

  function OccurrencesBelow(ticker: string, candles: seq<Candle>, n: nat, series: IndicatorSeries, pivots: seq<SwingPoint>, study: Study)
    : Option<seq<Occurrence>>
    requires n <= |candles| && study.Valid()
  {
    if n == 0 then Some([])
    else
      match OccurrencesBelow(ticker, candles, n - 1, series, pivots, study)
      case None => None
      case Some(before) =>
        match OccurrencesAt(ticker, candles, n - 1, series, pivots, study)
        case None => None
        case Some(here) => Some(before + here)
  }

  method BuildOccurrences(ticker: string, candles: seq<Candle>, study: Study) returns (r: Option<seq<Occurrence>>)
    requires study.Valid()
    ensures r == OccurrencesBelow(ticker, candles, |candles|, SeriesOf(candles, study.windows),
                                  SwingPoints(candles, study.left, study.right), study)
  {
    hide OccurrencesAt, SeriesOf, SwingPoints;
    var series := ComputeSeries(candles, study.windows);
    var pivots := FindSwings(candles, study.left, study.right);
    var occurrences: seq<Occurrence> := [];
    var index := 0;
    while index < |candles|
      invariant 0 <= index <= |candles|
      invariant OccurrencesBelow(ticker, candles, index, series, pivots, study) == Some(occurrences)
    {
      var here := OccurrencesAt(ticker, candles, index, series, pivots, study);
      if here.None? {
        NoneStays(ticker, candles, index + 1, |candles|, series, pivots, study);
        return None;
      }
      occurrences := occurrences + here.value;
      index := index + 1;
    }
    return Some(occurrences);
  }

  lemma {:induction false} NoneStays(ticker: string, candles: seq<Candle>, n: nat, m: nat, series: IndicatorSeries,
                                     pivots: seq<SwingPoint>, study: Study)
    requires n <= m <= |candles| && study.Valid() && OccurrencesBelow(ticker, candles, n, series, pivots, study).None?
    ensures OccurrencesBelow(ticker, candles, m, series, pivots, study).None?
    decreases m
  {
    if n < m { NoneStays(ticker, candles, n, m - 1, series, pivots, study); }
  }

  // ---- no look-ahead ------------------------------------------------------------------------------------------------

  /** The readings and the structure the engine has at a candle, over a whole series. */
  function KnownAt(candles: seq<Candle>, index: nat, study: Study): (Option<seq<Detection>>, Option<Structure>)
    requires index < |candles| && study.Valid()
  {
    (DetectAt(candles[..index + 1], index, PriorAt(candles, index, study.lookback), study.detectors),
     StructureAt(candles[..index + 1], index, SeriesOf(candles, study.windows), SwingPoints(candles, study.left, study.right)))
  }

  /**
   * No look-ahead. If two histories agree up to a candle, everything the backtest knows there is equal -- readings,
   * structure and, for every reading, the whole feature snapshot -- although indicators and pivots were computed over
   * the two complete series, whatever followed in each.
   */
  lemma NothingLooksAhead(a: seq<Candle>, b: seq<Candle>, i: nat, study: Study, structure: Structure, d: Detection)
    requires study.Valid() && i < |a| && i < |b| && a[..i + 1] == b[..i + 1]
    ensures KnownAt(a, i, study) == KnownAt(b, i, study)
    ensures SnapshotAt(a[..i + 1], i, SeriesOf(a, study.windows), structure, d)
         == SnapshotAt(b[..i + 1], i, SeriesOf(b, study.windows), structure, d)
  {
    hide DetectAt, StructureAt, SeriesOf, SwingPoints, DistancePct, PriorAt;
    IndicatorsNeverLookAhead(a, b, i, study.windows);
    ConfirmedAreThePast(a, i, study.left, study.right);
    ConfirmedAreThePast(b, i, study.left, study.right);
    StructureAgrees(a[..i + 1], b[..i + 1], i, SeriesOf(a, study.windows), SeriesOf(b, study.windows),
                    SwingPoints(a, study.left, study.right), SwingPoints(b, study.left, study.right));
    SnapshotAgrees(a[..i + 1], i, SeriesOf(a, study.windows), SeriesOf(b, study.windows), structure, d);
    PriorFromPast(a, i, study.lookback);
    PriorFromPast(b, i, study.lookback);
  }

  lemma PriorFromPast(candles: seq<Candle>, i: nat, lookback: nat)
    requires lookback >= 1 && i < |candles|
    ensures PriorAt(candles, i, lookback) == PriorAt(candles[..i + 1], i, lookback)
  {
    ContextShifts(candles, 0, i + 1, i, lookback);
    assert candles[0..i + 1] == candles[..i + 1];
  }

  lemma SnapshotAgrees(history: seq<Candle>, i: nat, x: IndicatorSeries, y: IndicatorSeries, structure: Structure, d: Detection)
    requires i < |history| && AgreeThrough(x, y, i)
    ensures SnapshotAt(history, i, x, structure, d) == SnapshotAt(history, i, y, structure, d)
  {
    hide ValueAt, DistancePct;
    forall p: nat ensures EmaOrNone(x, p, i) == EmaOrNone(y, p, i) {}
  }

  /** Labels look at history only through the entry, the ATR and the direction. */
  lemma LabelsIgnoreHistory(a: seq<Candle>, b: seq<Candle>, i: nat, j: nat, x: IndicatorSeries, y: IndicatorSeries,
                            structure: Structure, d: Detection, e: Detection, study: Study)
    requires i < |a| && j < |b| && a[i + 1..] == b[j + 1..]
    requires a[i].close == b[j].close && ValueAt(x.atr, i) == ValueAt(y.atr, j)
    requires study.Wants(d) && study.Wants(e) && DirectionOf(d) == DirectionOf(e) && DirectionOf(d).Some?
    ensures var p, q := Candidates("", a, i, x, structure, [d], study), Candidates("", b, j, y, structure, [e], study);
            && (p.Some? <==> q.Some?)
            && (p.Some? ==> |p.value| == |q.value| == 1 && p.value[0].labels == q.value[0].labels
                            && p.value[0].labelEnd == q.value[0].labelEnd)
  {
    hide *;
    OneCandidate(a, i, x, structure, d, study);
    OneCandidate(b, j, y, structure, e, study);
  }

  /** The only candidate of a single reading, and its labels. */
  lemma OneCandidate(candles: seq<Candle>, index: nat, series: IndicatorSeries, structure: Structure, d: Detection, study: Study)
    requires index < |candles| && study.Wants(d) && DirectionOf(d).Some?
    ensures var r, future := Candidates("", candles, index, series, structure, [d], study), candles[index + 1..];
            var labels := LabelsFor(future, candles[index].close, ValueAt(series.atr, index), DirectionOf(d).value, study);
            && (r.Some? <==> labels.Some?)
            && (r.Some? ==> |r.value| == 1 && r.value[0].labels == labels.value && labels.value.used <= |future|
                            && r.value[0].labelEnd == if labels.value.used > 0 then Some(future[labels.value.used - 1].endTs) else None)
  {
    assert [d][1..] == [];
    assert Candidates("", candles, index, series, structure, [], study) == Some([]);
    hide LabelsFor, SnapshotAt, Study.Wants, DirectionOf;
  }

  // ---- labels and time ----------------------------------------------------------------------------------------------

  ghost predicate Chronological(candles: seq<Candle>) {
    forall i, j :: 0 <= i < j < |candles| ==> candles[i].endTs < candles[j].endTs
  }

  lemma {:induction false} HorizonsReadWhatTheyCount(future: seq<Candle>, entry: real, direction: Direction, horizons: seq<nat>, n: nat)
    requires (horizons != [] ==> entry > 0.0) && 0 !in horizons
    requires MostUsed(HorizonsFor(future, entry, direction, horizons)) <= n <= |future|
    ensures HorizonsFor(future[..n], entry, direction, horizons) == HorizonsFor(future, entry, direction, horizons)
  {
    if horizons != [] {
      var all := HorizonsFor(future, entry, direction, horizons);
      assert all[1..] == HorizonsFor(future, entry, direction, horizons[1..]);
      HorizonsReadWhatTheyCount(future, entry, direction, horizons[1..], n);
      Labels.HorizonReadsWhatItCounts(future, entry, direction, horizons[0], n);
    }
  }

  /** The labels of a candidate are a function of the next `used` candles alone. */
  lemma LabelsReadWhatTheyCount(future: seq<Candle>, entry: real, atr: Option<real>, direction: Direction, study: Study)
    requires LabelsFor(future, entry, atr, direction, study).Some?
    ensures var r := LabelsFor(future, entry, atr, direction, study);
            r.value.used <= |future| && LabelsFor(future[..r.value.used], entry, atr, direction, study) == r
  {
    hide HorizonsFor, MostUsed, AtrTrade, Labels.Outcome;
    var used := LabelsFor(future, entry, atr, direction, study).value.used;
    HorizonsReadWhatTheyCount(future, entry, direction, study.horizons, used);
    if atr.Some? && atr.value > 0.0 && entry > 0.0 {
      Labels.OutcomeReadsWhatItCounts(AtrTrade(entry, atr.value, direction, study), future, study.maxCandles, used);
    }
  }

  /** `o` was built at that candle of the series, and its labels are those of the next `used` candles. */
  ghost predicate BuiltAt(o: Occurrence, candles: seq<Candle>, index: nat, series: IndicatorSeries, study: Study) {
    && index < |candles| && o.signalEnd == candles[index].endTs
    && index + 1 + o.labels.used <= |candles|
    && o.labelEnd == (if o.labels.used > 0 then Some(candles[index + o.labels.used].endTs) else None)
    && LabelsFor(candles[index + 1..index + 1 + o.labels.used], candles[index].close, ValueAt(series.atr, index), o.direction, study)
       == Some(o.labels)
  }

  lemma {:induction false} CandidatesBuilt(ticker: string, candles: seq<Candle>, index: nat, series: IndicatorSeries,
                                           structure: Structure, found: seq<Detection>, study: Study)
    requires index < |candles| && Candidates(ticker, candles, index, series, structure, found, study).Some?
    ensures forall o :: o in Candidates(ticker, candles, index, series, structure, found, study).value ==>
              BuiltAt(o, candles, index, series, study)
    decreases |found|
  {
    hide LabelsFor, SnapshotAt;
    if found != [] {
      CandidatesBuilt(ticker, candles, index, series, structure, found[1..], study);
      var d := found[0];
      if study.Wants(d) && DirectionOf(d).Some? {
        var future, entry, atr := candles[index + 1..], candles[index].close, ValueAt(series.atr, index);
        LabelsReadWhatTheyCount(future, entry, atr, DirectionOf(d).value, study);
        var used := LabelsFor(future, entry, atr, DirectionOf(d).value, study).value.used;
        assert future[..used] == candles[index + 1..index + 1 + used];
      }
    }
  }

  lemma {:induction false} OccurrencesBuilt(ticker: string, candles: seq<Candle>, n: nat, series: IndicatorSeries,
                                            pivots: seq<SwingPoint>, study: Study)
    requires n <= |candles| && study.Valid() && OccurrencesBelow(ticker, candles, n, series, pivots, study).Some?
    ensures forall o :: o in OccurrencesBelow(ticker, candles, n, series, pivots, study).value ==>
              exists index :: BuiltAt(o, candles, index, series, study)
    decreases n
  {
    hide OccurrencesAt, BuiltAt, OccurrencesBelow;
    BelowUnfolds(ticker, candles, n, series, pivots, study);
    if n > 0 {
      OccurrencesBuilt(ticker, candles, n - 1, series, pivots, study);
      HereBuilt(ticker, candles, n - 1, series, pivots, study);
      var before := OccurrencesBelow(ticker, candles, n - 1, series, pivots, study).value;
      var here := OccurrencesAt(ticker, candles, n - 1, series, pivots, study).value;
      forall o | o in before + here ensures exists index :: BuiltAt(o, candles, index, series, study) {
        if o in here { assert BuiltAt(o, candles, n - 1, series, study); }
      }
    }
  }

  lemma BelowUnfolds(ticker: string, candles: seq<Candle>, n: nat, series: IndicatorSeries, pivots: seq<SwingPoint>, study: Study)
    requires n <= |candles| && study.Valid() && OccurrencesBelow(ticker, candles, n, series, pivots, study).Some?
    ensures n == 0 ==> OccurrencesBelow(ticker, candles, n, series, pivots, study).value == []
    ensures n > 0 ==>
              var before, here := OccurrencesBelow(ticker, candles, n - 1, series, pivots, study),
                                  OccurrencesAt(ticker, candles, n - 1, series, pivots, study);
              && before.Some? && here.Some?
              && OccurrencesBelow(ticker, candles, n, series, pivots, study).value == before.value + here.value
  {
    hide OccurrencesAt;
  }

  lemma HereBuilt(ticker: string, candles: seq<Candle>, index: nat, series: IndicatorSeries, pivots: seq<SwingPoint>, study: Study)
    requires index < |candles| && study.Valid() && OccurrencesAt(ticker, candles, index, series, pivots, study).Some?
    ensures forall o :: o in OccurrencesAt(ticker, candles, index, series, pivots, study).value ==>
              BuiltAt(o, candles, index, series, study)
  {
    hide Candidates, BuiltAt, DetectAt;
    var found := DetectAt(candles[..index + 1], index, PriorAt(candles, index, study.lookback), study.detectors).value;
    if found != [] {
      CandidatesBuilt(ticker, candles, index, series, StructureAt(candles[..index + 1], index, series, pivots).value, found, study);
    }
  }

  // ---- splits -------------------------------------------------------------------------------------------------------

  /** Alphabetical order of tickers. */
  predicate TextLeq(a: string, b: string) {
    a == [] || (b != [] && (a[0] < b[0] || (a[0] == b[0] && TextLeq(a[1..], b[1..]))))
  }

  /** By signal candle, then ticker, then pattern. */
  predicate Precedes(a: Occurrence, b: Occurrence) {
    || a.signalEnd < b.signalEnd
    || (a.signalEnd == b.signalEnd &&
          ((a.ticker != b.ticker && TextLeq(a.ticker, b.ticker)) || (a.ticker == b.ticker && Rank(a.pattern) <= Rank(b.pattern))))
  }

  function InsertOccurrence(o: Occurrence, s: seq<Occurrence>): (r: seq<Occurrence>)
    ensures multiset(r) == multiset{o} + multiset(s)
  {
    if s == [] || Precedes(o, s[0]) then [o] + s
    else
      assert s == [s[0]] + s[1..];
      [s[0]] + InsertOccurrence(o, s[1..])
  }

  function ChronologicalOrder(s: seq<Occurrence>): (r: seq<Occurrence>)
    ensures multiset(r) == multiset(s)
  {
    if s == [] then []
    else
      assert s == [s[0]] + s[1..];
      InsertOccurrence(s[0], ChronologicalOrder(s[1..]))
  }

  ghost predicate InTime(s: seq<Occurrence>) {
    forall i, j :: 0 <= i < j < |s| ==> s[i].signalEnd <= s[j].signalEnd
  }

  lemma {:induction false} InsertInTime(o: Occurrence, s: seq<Occurrence>)
    requires InTime(s)
    ensures InTime(InsertOccurrence(o, s))
  {
    if s != [] && !Precedes(o, s[0]) {
      InsertInTime(o, s[1..]);
      var t := InsertOccurrence(o, s[1..]);
      forall x | x in t ensures s[0].signalEnd <= x.signalEnd {
        assert x in multiset(t);
        if x != o { assert x in multiset(s[1..]); }
      }
    }
  }

  lemma {:induction false} OrderedInTime(s: seq<Occurrence>)
    ensures InTime(ChronologicalOrder(s))
  {
    if s != [] {
      OrderedInTime(s[1..]);
      InsertInTime(s[0], ChronologicalOrder(s[1..]));
    }
  }

  function SignalBefore(t: int): Occurrence -> bool { (o: Occurrence) => o.signalEnd < t }

  function SignalFrom(t: int): Occurrence -> bool { (o: Occurrence) => o.signalEnd >= t }

  function SignalWithin(from: int, to: int): Occurrence -> bool { (o: Occurrence) => from <= o.signalEnd < to }

  function LabelledBy(cutoff: int): Occurrence -> bool { (o: Occurrence) => o.labelEnd.None? || o.labelEnd.value <= cutoff }

  /** Drop training observations whose labels reach past the boundary less the embargo. */
  function Purge(train: seq<Occurrence>, boundary: int, embargo: nat): seq<Occurrence> { Filter(train, LabelledBy(boundary - embargo)) }

  /** Everything the labels of `o` were computed from: its own candle, and candles that had ended by the cutoff. */
  ghost predicate ReadOnlyBy(o: Occurrence, candles: seq<Candle>, index: nat, series: IndicatorSeries, study: Study, cutoff: int) {
    BuiltAt(o, candles, index, series, study) && forall k :: index < k <= index + o.labels.used ==> candles[k].endTs <= cutoff
  }

  lemma KeptIsBlind(o: Occurrence, candles: seq<Candle>, index: nat, series: IndicatorSeries, study: Study, cutoff: int)
    requires Chronological(candles) && BuiltAt(o, candles, index, series, study) && LabelledBy(cutoff)(o)
    ensures ReadOnlyBy(o, candles, index, series, study, cutoff)
  {
    hide LabelsFor;
  }

  /** `o` is one of the occurrences the backtest builds from a ticker's candles. */
  ghost predicate DrawnFrom(o: Occurrence, ticker: string, candles: seq<Candle>, study: Study)
    requires study.Valid()
  {
    var all := OccurrencesBelow(ticker, candles, |candles|, SeriesOf(candles, study.windows),
                                SwingPoints(candles, study.left, study.right), study);
    all.Some? && o in all.value
  }

  /** Occurrences of any number of tickers, each built from that ticker's candles. */
  ghost predicate FromBook(occurrences: seq<Occurrence>, book: map<string, seq<Candle>>, study: Study)
    requires study.Valid()
  {
    && (forall ticker :: ticker in book ==> Chronological(book[ticker]))
    && (forall o :: o in occurrences ==> exists ticker :: ticker in book && DrawnFrom(o, ticker, book[ticker], study))
  }

  /** Building one ticker's occurrences yields such a list, and lists of several tickers may be joined in any order. */
  lemma BooksJoin(ticker: string, candles: seq<Candle>, others: seq<Occurrence>, book: map<string, seq<Candle>>, study: Study)
    requires study.Valid() && Chronological(candles) && FromBook(others, book, study) && ticker !in book
    requires OccurrencesBelow(ticker, candles, |candles|, SeriesOf(candles, study.windows),
                              SwingPoints(candles, study.left, study.right), study).Some?
    ensures var built := OccurrencesBelow(ticker, candles, |candles|, SeriesOf(candles, study.windows),
                                          SwingPoints(candles, study.left, study.right), study).value;
            FromBook(built + others, book[ticker := candles], study)
  {
    hide OccurrencesBelow, SeriesOf, SwingPoints, Chronological;
    var more := book[ticker := candles];
    var built := OccurrencesBelow(ticker, candles, |candles|, SeriesOf(candles, study.windows),
                                  SwingPoints(candles, study.left, study.right), study).value;
    forall o | o in built + others ensures exists t :: t in more && DrawnFrom(o, t, more[t], study) {
      if o in built {
        assert DrawnFrom(o, ticker, more[ticker], study);
      } else {
        var t :| t in book && DrawnFrom(o, t, book[t], study);
        assert more[t] == book[t];
      }
    }
  }

  /** The labels of `o` are a function of candles of its own ticker that had all ended by the cutoff. */
  ghost predicate Blind(o: Occurrence, book: map<string, seq<Candle>>, study: Study, cutoff: int)
    requires study.Valid()
  {
    exists ticker, index :: ticker in book && ReadOnlyBy(o, book[ticker], index, SeriesOf(book[ticker], study.windows), study, cutoff)
  }

  /** Purging removes every overlap: what is kept was labelled only from candles that ended by the boundary less the embargo. */
  lemma PurgedTrainingIsBlind(occurrences: seq<Occurrence>, book: map<string, seq<Candle>>, study: Study,
                              train: seq<Occurrence>, boundary: int, embargo: nat)
    requires study.Valid() && FromBook(occurrences, book, study) && forall o :: o in train ==> o in occurrences
    ensures forall o :: o in Purge(train, boundary, embargo) ==> Blind(o, book, study, boundary - embargo)
  {
    hide OccurrencesBelow, SeriesOf, SwingPoints, BuiltAt, ReadOnlyBy, Filter, Chronological;
    forall o | o in Purge(train, boundary, embargo) ensures Blind(o, book, study, boundary - embargo) {
      var ticker :| ticker in book && DrawnFrom(o, ticker, book[ticker], study);
      var candles := book[ticker];
      var series := SeriesOf(candles, study.windows);
      OccurrencesBuilt(ticker, candles, |candles|, series, SwingPoints(candles, study.left, study.right), study);
      var index :| BuiltAt(o, candles, index, series, study);
      KeptIsBlind(o, candles, index, series, study, boundary - embargo);
    }
  }

  datatype Splits = Splits(train: seq<Occurrence>, validation: seq<Occurrence>, test: seq<Occurrence>, trainEnd: int, validationEnd: int)

  function BoundaryIndex(n: nat, fraction: real): nat
    requires n >= 1
  {
    Min(n - 1, Max(0, (n as real * fraction).Floor))
  }

  /** Chronological train, validation and test before purging; None is a ValueError. */
  function SplitAt(occurrences: seq<Occurrence>, trainFraction: real, validationFraction: real): Option<Splits> {
    var ordered := ChronologicalOrder(occurrences);
    if !(0.0 < trainFraction < 1.0) || !(0.0 < validationFraction < 1.0) || trainFraction + validationFraction >= 1.0 || ordered == []
    then None
    else
      var trainEnd := ordered[BoundaryIndex(|ordered|, trainFraction)].signalEnd;
      var validationEnd := ordered[BoundaryIndex(|ordered|, trainFraction + validationFraction)].signalEnd;
      Some(Splits(Filter(ordered, SignalBefore(trainEnd)), Filter(ordered, SignalWithin(trainEnd, validationEnd)),
                  Filter(ordered, SignalFrom(validationEnd)), trainEnd, validationEnd))
  }

  function TimeSplits(occurrences: seq<Occurrence>, trainFraction: real, validationFraction: real, embargo: nat): Option<Splits> {
    match SplitAt(occurrences, trainFraction, validationFraction)
    case None => None
    case Some(s) => Some(s.(train := Purge(s.train, s.trainEnd, embargo)))
  }

  lemma SplitInTime(s: seq<Occurrence>, t: int)
    requires InTime(s)
    ensures Filter(s, SignalBefore(t)) + Filter(s, SignalFrom(t)) == s
  {
    assert SwitchesOnce(s, SignalBefore(t), SignalFrom(t));
    hide *;
    FilterSwitch(s, SignalBefore(t), SignalFrom(t));
  }

  /** Before purging the three splits partition the occurrences in chronological order; only training is ever purged. */
  lemma SplitsPartition(occurrences: seq<Occurrence>, trainFraction: real, validationFraction: real, embargo: nat)
    requires SplitAt(occurrences, trainFraction, validationFraction).Some?
    ensures var whole := SplitAt(occurrences, trainFraction, validationFraction).value;
            var kept := TimeSplits(occurrences, trainFraction, validationFraction, embargo).value;
            && whole.train + whole.validation + whole.test == ChronologicalOrder(occurrences)
            && whole.trainEnd <= whole.validationEnd
            && kept.validation == whole.validation && kept.test == whole.test
            && (forall o :: o in kept.train <==> o in whole.train && (o.labelEnd.Some? ==> o.labelEnd.value <= whole.trainEnd - embargo))
  {
    hide *;
    SplitIs(occurrences, trainFraction, validationFraction);
    KeptIs(occurrences, trainFraction, validationFraction, embargo);
    var whole := SplitAt(occurrences, trainFraction, validationFraction).value;
    ThreeWay(ChronologicalOrder(occurrences), whole.trainEnd, whole.validationEnd);
  }

  lemma SplitIs(occurrences: seq<Occurrence>, trainFraction: real, validationFraction: real)
    requires SplitAt(occurrences, trainFraction, validationFraction).Some?
    ensures var ordered, whole := ChronologicalOrder(occurrences), SplitAt(occurrences, trainFraction, validationFraction).value;
            && InTime(ordered) && whole.trainEnd <= whole.validationEnd
            && whole.train == Filter(ordered, SignalBefore(whole.trainEnd))
            && whole.validation == Filter(ordered, SignalWithin(whole.trainEnd, whole.validationEnd))
            && whole.test == Filter(ordered, SignalFrom(whole.validationEnd))
  {
    hide ChronologicalOrder, InTime, Filter, SignalBefore, SignalWithin, SignalFrom;
    var ordered := ChronologicalOrder(occurrences);
    OrderedInTime(occurrences);
    BoundariesInOrder(|ordered|, trainFraction, trainFraction + validationFraction);
    EndsInOrder(ordered, BoundaryIndex(|ordered|, trainFraction), BoundaryIndex(|ordered|, trainFraction + validationFraction));
  }

  lemma EndsInOrder(ordered: seq<Occurrence>, i: nat, j: nat)
    requires InTime(ordered) && i <= j < |ordered|
    ensures ordered[i].signalEnd <= ordered[j].signalEnd
  {
  }

  lemma KeptIs(occurrences: seq<Occurrence>, trainFraction: real, validationFraction: real, embargo: nat)
    requires SplitAt(occurrences, trainFraction, validationFraction).Some?
    ensures var whole := SplitAt(occurrences, trainFraction, validationFraction).value;
            var splits := TimeSplits(occurrences, trainFraction, validationFraction, embargo);
            && splits.Some? && splits.value.validation == whole.validation && splits.value.test == whole.test
            && (forall o :: o in splits.value.train
                  <==> o in whole.train && (o.labelEnd.Some? ==> o.labelEnd.value <= whole.trainEnd - embargo))
  {
    hide SplitAt, Filter;
  }

  lemma ThreeWay(ordered: seq<Occurrence>, from: int, to: int)
    requires InTime(ordered) && from <= to
    ensures Filter(ordered, SignalBefore(from)) + Filter(ordered, SignalWithin(from, to)) + Filter(ordered, SignalFrom(to)) == ordered
  {
    hide InTime, Filter;
    SplitInTime(ordered, from);
    SuffixInTime(ordered, from);
    SplitInTime(Filter(ordered, SignalFrom(from)), to);
    FilterTwice(ordered, from, to);
    var a, b, c := Filter(ordered, SignalBefore(from)), Filter(ordered, SignalWithin(from, to)), Filter(ordered, SignalFrom(to));
    assert a + (b + c) == a + b + c;
  }

  lemma BoundariesInOrder(n: nat, a: real, b: real)
    requires n >= 1 && a <= b
    ensures BoundaryIndex(n, a) <= BoundaryIndex(n, b)
  {
    assert n as real * a <= n as real * b;
  }

  lemma SuffixInTime(s: seq<Occurrence>, t: int)
    requires InTime(s)
    ensures InTime(Filter(s, SignalFrom(t)))
  {
    hide Filter, SignalBefore, SignalFrom;
    SplitInTime(s, t);
    var before, later := Filter(s, SignalBefore(t)), Filter(s, SignalFrom(t));
    forall i, j | 0 <= i < j < |later| ensures later[i].signalEnd <= later[j].signalEnd {
      assert s[|before| + i] == later[i] && s[|before| + j] == later[j];
    }
  }

  lemma FilterTwice(s: seq<Occurrence>, from: int, to: int)
    requires from <= to
    ensures Filter(Filter(s, SignalFrom(from)), SignalBefore(to)) == Filter(s, SignalWithin(from, to))
    ensures Filter(Filter(s, SignalFrom(from)), SignalFrom(to)) == Filter(s, SignalFrom(to))
  {
    FilterFilter(s, SignalFrom(from), SignalBefore(to));
    FilterFilter(s, SignalFrom(from), SignalFrom(to));
    FilterAgree(s, (o: Occurrence) => SignalFrom(from)(o) && SignalBefore(to)(o), SignalWithin(from, to));
    FilterAgree(s, (o: Occurrence) => SignalFrom(from)(o) && SignalFrom(to)(o), SignalFrom(to));
  }

  /**
   * A time split judges blind. Over occurrences built from any tickers' candles, every training occurrence was signalled
   * before the boundary and labelled only from candles that had ended by the boundary less the embargo, while everything
   * that evaluates it was signalled at the boundary or later.
   */
  lemma SplitTrainsBlind(occurrences: seq<Occurrence>, book: map<string, seq<Candle>>, study: Study,
                         trainFraction: real, validationFraction: real, embargo: nat)
    requires study.Valid() && FromBook(occurrences, book, study)
    requires TimeSplits(occurrences, trainFraction, validationFraction, embargo).Some?
    ensures var s := TimeSplits(occurrences, trainFraction, validationFraction, embargo).value;
            && (forall o :: o in s.train ==> o.signalEnd < s.trainEnd && Blind(o, book, study, s.trainEnd - embargo))
            && (forall p :: p in s.validation + s.test ==> s.trainEnd <= p.signalEnd)
  {
    hide FromBook, Blind, SplitAt, ChronologicalOrder, InTime, Purge;
    var whole := SplitAt(occurrences, trainFraction, validationFraction).value;
    SplitIs(occurrences, trainFraction, validationFraction);
    var ordered := ChronologicalOrder(occurrences);
    MultisetMembers(ordered, occurrences);
    PurgedTrainingIsBlind(occurrences, book, study, whole.train, whole.trainEnd, embargo);
    PurgeKeeps(whole.train, whole.trainEnd, embargo);
    hide Filter;
  }

  lemma PurgeKeeps(train: seq<Occurrence>, boundary: int, embargo: nat)
    ensures forall o :: o in Purge(train, boundary, embargo) ==> o in train
  {
    hide Filter;
  }

  datatype Fold = Fold(train: seq<Occurrence>, test: seq<Occurrence>, boundary: int, end: int)

  function SignalThrough(from: int, to: int): Occurrence -> bool { (o: Occurrence) => from <= o.signalEnd <= to }

  /** Where slice `k` starts. */
  function Start(size: nat, k: nat): nat { k * size }

  lemma StartNext(size: nat, k: nat)
    requires size >= 1
    ensures Start(size, k) < Start(size, k + 1) == Start(size, k) + size
  {
  }

  lemma StartMonotone(size: nat, j: nat, k: nat)
    requires j <= k
    ensures Start(size, j) <= Start(size, k)
  {
    assert j * size <= k * size;
  }

  lemma SlicesFit(n: nat, folds: nat)
    requires folds >= 2 && n >= folds
    ensures n / folds >= 1 && Start(n / folds, folds) <= n
  {
    assert n == folds * (n / folds) + n % folds;
  }

  /** Fold `k` tests on the next chronological slice and trains on all purged history before it. */
  function FoldAt(ordered: seq<Occurrence>, size: nat, k: nat, embargo: nat): Fold
    requires size >= 1 && k >= 1 && Start(size, k + 1) <= |ordered|
  {
    StartNext(size, k);
    var boundary, end := ordered[Start(size, k)].signalEnd, ordered[Start(size, k + 1) - 1].signalEnd;
    Fold(Purge(Filter(ordered, SignalBefore(boundary)), boundary, embargo), Filter(ordered, SignalThrough(boundary, end)), boundary, end)
  }

  ghost predicate IsFold(fold: Fold, ordered: seq<Occurrence>, size: nat, k: nat, embargo: nat)
    requires size >= 1 && k >= 1
  {
    Start(size, k + 1) <= |ordered| && fold == FoldAt(ordered, size, k, embargo)
  }

  ghost predicate Walk(result: seq<Fold>, ordered: seq<Occurrence>, size: nat, upTo: nat, embargo: nat)
    requires size >= 1
  {
    && |result| == upTo - 1 && Start(size, upTo) <= |ordered|
    && forall j :: 0 <= j < |result| ==> IsFold(result[j], ordered, size, j + 1, embargo)
  }

  lemma WalkOne(result: seq<Fold>, ordered: seq<Occurrence>, size: nat, k: nat, embargo: nat)
    requires size >= 1 && k >= 1 && Walk(result, ordered, size, k, embargo) && Start(size, k + 1) <= |ordered|
    ensures Walk(result + [FoldAt(ordered, size, k, embargo)], ordered, size, k + 1, embargo)
  {
    hide FoldAt, Start;
    assert IsFold(FoldAt(ordered, size, k, embargo), ordered, size, k, embargo);
    hide IsFold;
  }

  /** Expanding-window walk-forward; None is a ValueError. */
  method WalkForward(occurrences: seq<Occurrence>, folds: nat, embargo: nat) returns (r: Option<seq<Fold>>)
    ensures r.Some? <==> folds >= 2 && |occurrences| >= folds
    ensures r.Some? ==> |occurrences| / folds >= 1 && Walk(r.value, ChronologicalOrder(occurrences), |occurrences| / folds, folds, embargo)
  {
    hide ChronologicalOrder, FoldAt, Start;
    if folds < 2 {
      return None;
    }
    var ordered := ChronologicalOrder(occurrences);
    MultisetMembers(ordered, occurrences);
    if |ordered| < folds {
      return None;
    }
    SlicesFit(|ordered|, folds);
    var size := |ordered| / folds;
    var result: seq<Fold> := [];
    var k := 1;
    StartMonotone(size, 1, folds);
    while k < folds
      invariant 1 <= k <= folds && Walk(result, ordered, size, k, embargo)
    {
      StartMonotone(size, k + 1, folds);
      WalkOne(result, ordered, size, k, embargo);
      result := result + [FoldAt(ordered, size, k, embargo)];
      k := k + 1;
    }
    return Some(result);
  }

  lemma InTimeAt(s: seq<Occurrence>, i: nat, j: nat)
    requires InTime(s) && i <= j < |s|
    ensures s[i].signalEnd <= s[j].signalEnd
  {
  }

  /** Training only ever grows from fold to fold, always ends before its own test period, and is always purged. */
  lemma TrainingGrows(ordered: seq<Occurrence>, size: nat, j: nat, k: nat, embargo: nat)
    requires InTime(ordered) && size >= 1 && 1 <= j <= k && Start(size, j + 1) <= |ordered| && Start(size, k + 1) <= |ordered|
    ensures forall o :: o in FoldAt(ordered, size, j, embargo).train ==> o in FoldAt(ordered, size, k, embargo).train
    ensures var f := FoldAt(ordered, size, k, embargo);
            && (forall o :: o in f.train ==> o.signalEnd < f.boundary && (o.labelEnd.Some? ==> o.labelEnd.value <= f.boundary - embargo))
            && (forall o :: o in f.test ==> f.boundary <= o.signalEnd <= f.end)
  {
    StartNext(size, k);
    StartMonotone(size, j, k);
    InTimeAt(ordered, Start(size, j), Start(size, k));
    hide Filter, InTime, Start;
  }

  /** Every fold of a walk-forward judges blind, in the same sense as a time split. */
  lemma FoldTrainsBlind(occurrences: seq<Occurrence>, book: map<string, seq<Candle>>, study: Study, size: nat, k: nat, embargo: nat)
    requires study.Valid() && FromBook(occurrences, book, study)
    requires size >= 1 && k >= 1 && Start(size, k + 1) <= |ChronologicalOrder(occurrences)|
    ensures var f := FoldAt(ChronologicalOrder(occurrences), size, k, embargo);
            && (forall o :: o in f.train ==> o.signalEnd < f.boundary && Blind(o, book, study, f.boundary - embargo))
            && (forall p :: p in f.test ==> f.boundary <= p.signalEnd)
  {
    hide FromBook, Blind, ChronologicalOrder, Start, Purge;
    var ordered := ChronologicalOrder(occurrences);
    MultisetMembers(ordered, occurrences);
    StartNext(size, k);
    var boundary := ordered[Start(size, k)].signalEnd;
    var before := Filter(ordered, SignalBefore(boundary));
    PurgedTrainingIsBlind(occurrences, book, study, before, boundary, embargo);
    PurgeKeeps(before, boundary, embargo);
    hide Filter;
  }

  /** Two folds share a test observation exactly when it ends at a time both slices contain: never, unless signals tie. */
  lemma TestsOverlapOnlyOnTies(ordered: seq<Occurrence>, size: nat, k: nat, embargo: nat, o: Occurrence)
    requires InTime(ordered) && size >= 1 && k >= 1 && Start(size, k + 2) <= |ordered| && o in ordered
    ensures Start(size, k + 1) <= |ordered| && 1 <= Start(size, k + 1) < |ordered|
    ensures o in FoldAt(ordered, size, k, embargo).test && o in FoldAt(ordered, size, k + 1, embargo).test
       <==> o.signalEnd == ordered[Start(size, k + 1) - 1].signalEnd == ordered[Start(size, k + 1)].signalEnd
  {
    StartNext(size, k);
    StartNext(size, k + 1);
    var mid := Start(size, k + 1);
    InTimeAt(ordered, mid - 1, mid);
    InTimeAt(ordered, Start(size, k), mid - 1);
    InTimeAt(ordered, mid, Start(size, k + 2) - 1);
    hide Filter, InTime, Start;
  }

  /** Fold `k` tests `o`. */
  ghost predicate InTest(o: Occurrence, ordered: seq<Occurrence>, size: nat, k: nat, embargo: nat)
    requires size >= 1 && k >= 1
  {
    Start(size, k + 1) <= |ordered| && o in FoldAt(ordered, size, k, embargo).test
  }

  /** Some fold of the walk tests `o`. */
  ghost predicate Tested(o: Occurrence, ordered: seq<Occurrence>, size: nat, folds: nat, embargo: nat)
    requires size >= 1
  {
    exists k: nat :: 1 <= k < folds && InTest(o, ordered, size, k, embargo)
  }

  lemma InTestWhen(o: Occurrence, ordered: seq<Occurrence>, size: nat, k: nat, embargo: nat)
    requires size >= 1 && k >= 1 && o in ordered && Start(size, k + 1) <= |ordered|
    ensures Start(size, k) < |ordered| && Start(size, k + 1) >= 1
    ensures InTest(o, ordered, size, k, embargo)
       <==> ordered[Start(size, k)].signalEnd <= o.signalEnd <= ordered[Start(size, k + 1) - 1].signalEnd
  {
    StartNext(size, k);
    hide Filter, Start;
  }

  /** Going back from the last fold, the first one that does not start after the signal tests it. */
  lemma {:induction false} SomeFoldTests(o: Occurrence, ordered: seq<Occurrence>, size: nat, k: nat, embargo: nat) returns (j: nat)
    requires InTime(ordered) && size >= 1 && k >= 1 && o in ordered && Start(size, k + 1) <= |ordered| && size < |ordered|
    requires 1 <= Start(size, k + 1) && ordered[size].signalEnd <= o.signalEnd <= ordered[Start(size, k + 1) - 1].signalEnd
    ensures 1 <= j <= k && InTest(o, ordered, size, j, embargo)
  {
    InTestWhen(o, ordered, size, k, embargo);
    if ordered[Start(size, k)].signalEnd <= o.signalEnd {
      j := k;
    } else {
      assert Start(size, 1) == size;
      StartNext(size, k - 1);
      var i :| 0 <= i < |ordered| && ordered[i] == o;
      hide Start, InTest;
      if Start(size, k) <= i { InTimeAt(ordered, Start(size, k), i); }
      InTimeAt(ordered, i, Start(size, k) - 1);
      j := SomeFoldTests(o, ordered, size, k - 1, embargo);
    }
  }

  lemma TestedWithin(o: Occurrence, ordered: seq<Occurrence>, size: nat, k: nat, folds: nat, embargo: nat)
    requires InTime(ordered) && o in ordered && size >= 1 && Start(size, folds) <= |ordered|
    requires 1 <= k < folds && InTest(o, ordered, size, k, embargo)
    ensures size < |ordered| && 1 <= Start(size, folds)
    ensures ordered[size].signalEnd <= o.signalEnd <= ordered[Start(size, folds) - 1].signalEnd
  {
    assert Start(size, 1) == size;
    StartNext(size, k);
    StartMonotone(size, k + 1, folds);
    StartMonotone(size, 1, k);
    hide Start, Filter;
    InTestWhen(o, ordered, size, k, embargo);
    InTimeAt(ordered, size, Start(size, k));
    InTimeAt(ordered, Start(size, k + 1) - 1, Start(size, folds) - 1);
    hide InTest;
  }

  /**
   * Which observations a walk-forward judges at all: exactly those signalled from the start of the second slice up to the end
   * of the last full slice. The first slice is only ever trained on, and what is left over after an uneven division, if it
   * was signalled later than the last full slice ends, is never judged.
   */
  lemma TestedIffWithinTheSlices(o: Occurrence, ordered: seq<Occurrence>, size: nat, folds: nat, embargo: nat)
    requires InTime(ordered) && o in ordered && size >= 1 && folds >= 2 && Start(size, folds) <= |ordered|
    ensures size < Start(size, folds)
    ensures Tested(o, ordered, size, folds, embargo)
       <==> ordered[size].signalEnd <= o.signalEnd <= ordered[Start(size, folds) - 1].signalEnd
  {
    assert Start(size, 1) == size;
    StartNext(size, 1);
    StartMonotone(size, 2, folds);
    hide Start, InTest;
    if Tested(o, ordered, size, folds, embargo) {
      var k: nat :| 1 <= k < folds && InTest(o, ordered, size, k, embargo);
      TestedWithin(o, ordered, size, k, folds, embargo);
    }
    if ordered[size].signalEnd <= o.signalEnd <= ordered[Start(size, folds) - 1].signalEnd {
      var k := SomeFoldTests(o, ordered, size, folds - 1, embargo);
    }
  }

  lemma {:induction false} OrderKept(s: seq<Occurrence>)
    requires InTime(s) && forall i, j :: 0 <= i < j < |s| ==> s[i].ticker == s[j].ticker && s[i].pattern == s[j].pattern
    ensures ChronologicalOrder(s) == s
  {
    if s != [] {
      OrderKept(s[1..]);
      assert s == [s[0]] + s[1..];
      if |s| > 1 { assert Precedes(s[0], s[1]); }
    }
  }

  /** The occurrence `o` as it would be with another signal candle. */
  function At(o: Occurrence, ts: int, end: int): Occurrence { o.(signalTs := ts, signalEnd := end) }

  /** One occurrence at three candles, in time order. */
  function Three(o: Occurrence, second: int, third: int): seq<Occurrence> { [At(o, 0, 1), At(o, 1, second), At(o, 2, third)] }

  lemma ThreeInOrder(o: Occurrence, second: int, third: int)
    requires 1 <= second <= third
    ensures InTime(Three(o, second, third)) && ChronologicalOrder(Three(o, second, third)) == Three(o, second, third)
  {
    OrderKept(Three(o, second, third));
  }

  lemma LastOfThreeUntested(s: seq<Occurrence>, embargo: nat)
    requires |s| == 3 && InTime(s) && s[1].signalEnd < s[2].signalEnd
    ensures Tested(s[1], s, 1, 2, embargo) && !Tested(s[2], s, 1, 2, embargo)
  {
    hide Tested;
    assert Start(1, 2) == 2;
    TestedIffWithinTheSlices(s[1], s, 1, 2, embargo);
    TestedIffWithinTheSlices(s[2], s, 1, 2, embargo);
  }

  /** Three occurrences in two folds: the only test set holds the second, and the third is never judged. */
  lemma RemainderIsNeverTested(o: Occurrence, embargo: nat)
    ensures var s := Three(o, 2, 3);
            && ChronologicalOrder(s) == s && |s| / 2 == 1
            && Tested(s[1], s, 1, 2, embargo) && !Tested(s[2], s, 1, 2, embargo)
  {
    ThreeInOrder(o, 2, 3);
    hide Tested, ChronologicalOrder, InTime;
    LastOfThreeUntested(Three(o, 2, 3), embargo);
  }

  lemma TiedAreTested(s: seq<Occurrence>, k: nat, i: nat, embargo: nat)
    requires |s| == 3 && s[1].signalEnd == s[2].signalEnd && 1 <= k <= 2 && 1 <= i <= 2
    ensures InTest(s[i], s, 1, k, embargo)
  {
    hide InTest;
    assert Start(1, k) == k && Start(1, k + 1) == k + 1;
    InTestWhen(s[i], s, 1, k, embargo);
  }

  /** Three occurrences in three folds, the last two signalled at the same time: both test sets hold both of them. */
  lemma TiedSignalsAreTestedTwice(o: Occurrence, embargo: nat)
    ensures var s := Three(o, 2, 2);
            && ChronologicalOrder(s) == s && |s| / 3 == 1 && s[1] != s[2]
            && (forall k, i :: 1 <= k <= 2 && 1 <= i <= 2 ==> InTest(s[i], s, 1, k, embargo))
  {
    ThreeInOrder(o, 2, 2);
    hide InTest, ChronologicalOrder, InTime;
    var s := Three(o, 2, 2);
    forall k, i | 1 <= k <= 2 && 1 <= i <= 2 ensures InTest(s[i], s, 1, k, embargo) { TiedAreTested(s, k, i, embargo); }
  }
}
