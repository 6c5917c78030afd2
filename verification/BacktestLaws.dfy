/** What a backtest collects and how it divides it: one candidate per wanted reading, barriers on the right sides, splits by their fractions. */
module BacktestLaws {
  import opened Prelude
  import opened Candles
  import opened Domain
  import opened Indicators
  import opened MarketStructure
  import opened Patterns
  import opened Backtest

  // ---- candidates ---------------------------------------------------------------------------------------------------

  /** A reading that points somewhere and is among the wanted patterns, if any were named. */
  function Traded(study: Study): Detection -> bool {
    (d: Detection) => d.direction != Neutral && (study.wanted.None? || d.pattern in study.wanted.value)
  }

  /** A candidate repeats its reading: bullish ones are bought, bearish ones sold, at their own candle. */
  ghost predicate Repeats(o: Occurrence, d: Detection, ticker: string, candles: seq<Candle>, index: nat)
    requires index < |candles|
  {
    && o.ticker == ticker && o.pattern == d.pattern && o.signalTs == candles[index].ts && o.signalEnd == candles[index].endTs
    && (o.direction.Long? <==> d.direction.Bullish?) && (o.direction.Short? <==> d.direction.Bearish?)
    && o.snapshot.candle == candles[index] && o.snapshot.detection == d
  }

  /** At a candle there is exactly one candidate per traded reading, in the order of the readings. */
  lemma {:induction false} OneCandidatePerReading(ticker: string, candles: seq<Candle>, index: nat, series: IndicatorSeries,
                                                  structure: Structure, found: seq<Detection>, study: Study)
    requires index < |candles| && Candidates(ticker, candles, index, series, structure, found, study).Some?
    ensures var r, traded := Candidates(ticker, candles, index, series, structure, found, study).value, Filter(found, Traded(study));
            |r| == |traded| && forall i :: 0 <= i < |r| ==> Repeats(r[i], traded[i], ticker, candles, index)
    decreases |found|
  {
    hide LabelsFor, DistancePct, EmaOrNone, ValueAt;
    if found != [] { OneCandidatePerReading(ticker, candles, index, series, structure, found[1..], study); }
  }

  /** A candidate's barriers lie a multiple of the range away: target on the profitable side, stop on the other. */
  lemma BarriersAreOnTheirSides(d: Detection, entry: real, atr: real, study: Study)
    requires d.direction != Neutral
    ensures DirectionOf(d).Some?
    ensures var t := AtrTrade(entry, atr, DirectionOf(d).value, study);
            && t.direction == DirectionOf(d).value && t.entry == entry
            && t.Move(t.target) == atr * study.targetAtr && t.Move(t.stop) == -(atr * study.stopAtr)
            && (d.direction.Bullish? ==> t.target == entry + atr * study.targetAtr && t.stop == entry - atr * study.stopAtr)
            && (d.direction.Bearish? ==> t.target == entry - atr * study.targetAtr && t.stop == entry + atr * study.stopAtr)
  {
  }

  /** Labels are refused exactly for an empty horizon, a horizon over a worthless entry, or a trade without room on either side. */
  lemma LabelsAreRefusedIff(future: seq<Candle>, entry: real, atr: Option<real>, direction: Direction, study: Study)
    ensures LabelsFor(future, entry, atr, direction, study).None?
       <==> (exists h :: h in study.horizons && (h == 0 || entry <= 0.0))
            || (atr.Some? && atr.value > 0.0 && entry > 0.0 && (study.targetAtr <= 0.0 || study.stopAtr <= 0.0 || study.maxCandles == 0))
  {
    hide HorizonsFor, MostUsed, Labels.Outcome;
    assert study.horizons != [] ==> study.horizons[0] in study.horizons;
    if atr.Some? && atr.value > 0.0 {
      PositiveMultiple(atr.value, study.targetAtr);
      PositiveMultiple(atr.value, study.stopAtr);
    }
  }

  lemma PositiveMultiple(a: real, k: real)
    requires a > 0.0
    ensures a * k > 0.0 <==> k > 0.0
  {
    if k <= 0.0 { assert a * -k >= 0.0; }
  }

  const PERIODS: seq<nat> := [9, 20, 50, 200]

  /** The averages of the last 9, 20, 50 and 200 closes, and how far the latest close is from each. */
  ghost predicate HoldsTheAverages(s: Snapshot, past: seq<real>)
    requires past != []
  {
    && |s.emas| == |s.emaDistances| == 4
    && (forall k :: 0 <= k < 4 ==> s.emas[k] == EmaAt(PERIODS[k])(past))
    && (forall k :: 0 <= k < 4 ==> s.emaDistances[k] == DistancePct(past[|past| - 1], s.emas[k]))
  }

  lemma EmaEntry(candles: seq<Candle>, index: nat, w: Windows, p: nat)
    requires w.Valid() && p in w.emas && index < |candles|
    ensures EmaOrNone(SeriesOf(candles, w), p, index) == EmaAt(p)(Closes(candles[..index + 1]))
  {
    hide EmaAt, RsiAt, AtrAt, LineAt, SignalAt, HistogramAt, BaselineAt, RelativeVolumeAt, VolatilityAt;
    assert Closes(candles)[..index + 1] == Closes(candles[..index + 1]);
  }

  /** The snapshot of a candle holds these averages over the candles up to it, when the study computes them. */
  lemma SnapshotHoldsTheAverages(candles: seq<Candle>, index: nat, study: Study, structure: Structure, d: Detection)
    requires study.Valid() && index < |candles| && {9, 20, 50, 200} <= study.windows.emas
    ensures HoldsTheAverages(SnapshotAt(candles[..index + 1], index, SeriesOf(candles, study.windows), structure, d),
                             Closes(candles[..index + 1]))
  {
    hide EmaAt, SeriesOf, DistancePct, EmaOrNone, ValueAt;
    forall k | 0 <= k < 4
      ensures EmaOrNone(SeriesOf(candles, study.windows), PERIODS[k], index) == EmaAt(PERIODS[k])(Closes(candles[..index + 1]))
    {
      EmaEntry(candles, index, study.windows, PERIODS[k]);
    }
  }

  /** And the indicators of the candles up to it, each in its own place. */
  lemma SnapshotHoldsTheIndicators(candles: seq<Candle>, index: nat, study: Study, structure: Structure, d: Detection)
    requires study.Valid() && index < |candles|
    ensures var s, w := SnapshotAt(candles[..index + 1], index, SeriesOf(candles, study.windows), structure, d), study.windows;
            var past, closes := candles[..index + 1], Closes(candles[..index + 1]);
            && s.candle == candles[index] && s.structure == structure && s.detection == d
            && s.rsi == RsiAt(w.rsi)(closes) && s.atr == AtrAt(w.atr)(past)
            && s.relativeVolume == RelativeVolumeAt(w.volume)(past) && s.volatility == VolatilityAt(w.volatility, w.root)(closes)
            && s.macd == [LineAt(w.fast, w.slow)(closes), SignalAt(w.fast, w.slow, w.signal)(closes),
                          HistogramAt(w.fast, w.slow, w.signal)(closes)]
  {
    hide EmaAt, RsiAt, AtrAt, LineAt, SignalAt, HistogramAt, BaselineAt, RelativeVolumeAt, VolatilityAt, DistancePct, EmaOrNone;
    assert Closes(candles)[..index + 1] == Closes(candles[..index + 1]);
  }

  // ---- order --------------------------------------------------------------------------------------------------------

  /** Alphabetical order is a total order on texts. */
  lemma {:induction false} TextTotal(a: string, b: string)
    ensures TextLeq(a, b) || TextLeq(b, a)
    ensures TextLeq(a, b) && TextLeq(b, a) ==> a == b
  {
    if a != [] && b != [] {
      TextTotal(a[1..], b[1..]);
      if a[0] == b[0] { assert a == [a[0]] + a[1..] && b == [b[0]] + b[1..]; }
    }
  }

  lemma {:induction false} TextTransitive(a: string, b: string, c: string)
    requires TextLeq(a, b) && TextLeq(b, c)
    ensures TextLeq(a, c)
  {
    if a != [] && a[0] == b[0] == c[0] { TextTransitive(a[1..], b[1..], c[1..]); }
  }

  /** The first letter where two texts differ decides. */
  lemma {:induction false} FirstLetterDecides(shared: string, a: string, b: string)
    requires a != [] && b != [] && a[0] < b[0]
    ensures TextLeq(shared + a, shared + b) && !TextLeq(shared + b, shared + a)
  {
    if shared == [] {
      assert shared + a == a && shared + b == b;
    } else {
      assert (shared + a)[1..] == shared[1..] + a && (shared + b)[1..] == shared[1..] + b;
      FirstLetterDecides(shared[1..], a, b);
    }
  }

  lemma PrecedesTotal(a: Occurrence, b: Occurrence)
    ensures Precedes(a, b) || Precedes(b, a)
  {
    TextTotal(a.ticker, b.ticker);
    hide TextLeq, Rank;
  }

  lemma PrecedesTransitive(a: Occurrence, b: Occurrence, c: Occurrence)
    requires Precedes(a, b) && Precedes(b, c)
    ensures Precedes(a, c)
  {
    TextTotal(a.ticker, b.ticker);
    TextTotal(b.ticker, c.ticker);
    if TextLeq(a.ticker, b.ticker) && TextLeq(b.ticker, c.ticker) { TextTransitive(a.ticker, b.ticker, c.ticker); }
    hide TextLeq, Rank;
  }

  ghost predicate Ordered(s: seq<Occurrence>) { forall i, j :: 0 <= i < j < |s| ==> Precedes(s[i], s[j]) }

  lemma {:induction false} InsertOrdered(o: Occurrence, s: seq<Occurrence>)
    requires Ordered(s)
    ensures Ordered(InsertOccurrence(o, s))
  {
    hide Precedes;
    if s != [] {
      PrecedesTotal(o, s[0]);
      if Precedes(o, s[0]) {
        forall j | 0 <= j < |s| ensures Precedes(o, s[j]) { if j > 0 { PrecedesTransitive(o, s[0], s[j]); } }
      } else {
        InsertOrdered(o, s[1..]);
        var t := InsertOccurrence(o, s[1..]);
        forall x | x in t ensures Precedes(s[0], x) {
          assert x in multiset(t);
          if x != o { assert x in multiset(s[1..]); }
        }
      }
    }
  }

  /** The chronological order is by signal candle, then by ticker, then by pattern name, and holds every occurrence as often as given. */
  lemma {:induction false} ChronologicalIsOrdered(s: seq<Occurrence>)
    ensures Ordered(ChronologicalOrder(s)) && multiset(ChronologicalOrder(s)) == multiset(s)
  {
    if s != [] {
      ChronologicalIsOrdered(s[1..]);
      InsertOrdered(s[0], ChronologicalOrder(s[1..]));
    }
  }

  // ---- splits -------------------------------------------------------------------------------------------------------

  /** A split is refused exactly without occurrences, with a fraction outside (0, 1), or with no room for a test period. */
  lemma SplitIsRefusedIff(occurrences: seq<Occurrence>, train: real, validation: real)
    ensures SplitAt(occurrences, train, validation).None?
       <==> occurrences == [] || train <= 0.0 || train >= 1.0 || validation <= 0.0 || validation >= 1.0 || train + validation >= 1.0
  {
    MultisetMembers(ChronologicalOrder(occurrences), occurrences);
    hide ChronologicalOrder;
  }

  lemma {:induction false} FewerBefore(s: seq<Occurrence>, k: nat, t: int)
    requires InTime(s) && k < |s| && s[k].signalEnd == t
    ensures |Filter(s, SignalBefore(t))| <= k
    ensures k > 0 && s[k - 1].signalEnd < t ==> |Filter(s, SignalBefore(t))| == k
  {
    hide Filter, InTime;
    var head, tail := s[..k], s[k..];
    assert s == head + tail;
    FilterConcat(head, tail, SignalBefore(t));
    forall o | o in tail ensures !SignalBefore(t)(o) {
      var i :| 0 <= i < |tail| && tail[i] == o;
      assert s[k + i] == o;
      InTimeAt(s, k, k + i);
    }
    FilterNone(tail, SignalBefore(t));
    if k > 0 && s[k - 1].signalEnd < t {
      forall o | o in head ensures SignalBefore(t)(o) {
        var i :| 0 <= i < |head| && head[i] == o;
        InTimeAt(s, i, k - 1);
      }
      FilterAll(head, SignalBefore(t));
    }
  }

  lemma BoundaryOf(n: nat, fraction: real)
    requires n >= 1 && 0.0 < fraction < 1.0
    ensures BoundaryIndex(n, fraction) as real <= n as real * fraction < BoundaryIndex(n, fraction) as real + 1.0
  {
    var x := n as real * fraction;
    assert 0.0 <= x < n as real by { Less(n as real, fraction); }
  }

  lemma Less(n: real, fraction: real)
    requires n > 0.0 && 0.0 < fraction < 1.0
    ensures 0.0 <= n * fraction < n
  {
    assert n * (1.0 - fraction) > 0.0;
  }

  /**
   * A split keeps to its fractions. Before purging, training holds at most its fraction of the occurrences, training and
   * validation together at most theirs, and unless signals tie at a boundary each is full to the last whole occurrence.
   */
  lemma SplitKeepsToItsFractions(occurrences: seq<Occurrence>, train: real, validation: real)
    requires SplitAt(occurrences, train, validation).Some?
    ensures var s, n := SplitAt(occurrences, train, validation).value, |occurrences| as real;
            && |s.train| as real <= n * train && (|s.train| + |s.validation|) as real <= n * (train + validation)
            && var ordered := ChronologicalOrder(occurrences);
            var a, b := BoundaryIndex(|ordered|, train), BoundaryIndex(|ordered|, train + validation);
            && (a > 0 && ordered[a - 1].signalEnd < s.trainEnd ==> |s.train| as real > n * train - 1.0)
            && (b > 0 && ordered[b - 1].signalEnd < s.validationEnd ==> (|s.train| + |s.validation|) as real > n * (train + validation) - 1.0)
  {
    hide *;
    SplitIsRefusedIff(occurrences, train, validation);
    SplitIs(occurrences, train, validation);
    SplitEnds(occurrences, train, validation);
    var ordered := ChronologicalOrder(occurrences);
    MultisetMembers(ordered, occurrences);
    var s := SplitAt(occurrences, train, validation).value;
    BoundaryOf(|ordered|, train);
    BoundaryOf(|ordered|, train + validation);
    FewerBefore(ordered, BoundaryIndex(|ordered|, train), s.trainEnd);
    FewerBefore(ordered, BoundaryIndex(|ordered|, train + validation), s.validationEnd);
    TrainAndValidation(ordered, s.trainEnd, s.validationEnd);
  }

  lemma SplitEnds(occurrences: seq<Occurrence>, train: real, validation: real)
    requires SplitAt(occurrences, train, validation).Some?
    ensures var s, ordered := SplitAt(occurrences, train, validation).value, ChronologicalOrder(occurrences);
            && ordered != [] && |ordered| == |occurrences|
            && var a, b := BoundaryIndex(|ordered|, train), BoundaryIndex(|ordered|, train + validation);
            && a < |ordered| && b < |ordered| && s.trainEnd == ordered[a].signalEnd && s.validationEnd == ordered[b].signalEnd
  {
    MultisetMembers(ChronologicalOrder(occurrences), occurrences);
    hide ChronologicalOrder, Filter;
  }

  lemma TrainAndValidation(ordered: seq<Occurrence>, from: int, to: int)
    requires InTime(ordered) && from <= to
    ensures |Filter(ordered, SignalBefore(from))| + |Filter(ordered, SignalWithin(from, to))| == |Filter(ordered, SignalBefore(to))|
  {
    hide InTime, Filter;
    ThreeWay(ordered, from, to);
    SplitInTime(ordered, to);
  }
}
