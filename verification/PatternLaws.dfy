/** What a reading is made of: the detectors of each length on their own candles and trend, and the order of the names. */
module PatternLaws {
  import opened Prelude
  import opened Candles
  import opened MarketStructure
  import opened Patterns

  ghost function Name(p: Pattern): string {
    match p
    case BearishEngulfing => "BEARISH_ENGULFING"
    case BullishEngulfing => "BULLISH_ENGULFING"
    case DarkCloudCover => "DARK_CLOUD_COVER"
    case Doji => "DOJI"
    case DragonflyDoji => "DRAGONFLY_DOJI"
    case EveningStar => "EVENING_STAR"
    case GravestoneDoji => "GRAVESTONE_DOJI"
    case Hammer => "HAMMER"
    case HangingMan => "HANGING_MAN"
    case InvertedHammer => "INVERTED_HAMMER"
    case MorningStar => "MORNING_STAR"
    case PiercingLine => "PIERCING_LINE"
    case ShootingStar => "SHOOTING_STAR"
    case ThreeBlackCrows => "THREE_BLACK_CROWS"
    case ThreeWhiteSoldiers => "THREE_WHITE_SOLDIERS"
  }

  /** The names agree up to the k-th character, where the first one has the smaller. */
  ghost predicate SmallerAt(a: string, b: string, k: nat) {
    k < |a| && k < |b| && a[k] < b[k] && forall j :: 0 <= j < k ==> a[j] == b[j]
  }

  ghost function Initial(p: Pattern): char {
    match p
    case BearishEngulfing | BullishEngulfing => 'B'
    case DarkCloudCover | Doji | DragonflyDoji => 'D'
    case EveningStar => 'E'
    case GravestoneDoji => 'G'
    case Hammer | HangingMan => 'H'
    case InvertedHammer => 'I'
    case MorningStar => 'M'
    case PiercingLine => 'P'
    case ShootingStar => 'S'
    case ThreeBlackCrows | ThreeWhiteSoldiers => 'T'
  }

  lemma NameStarts(p: Pattern)
    ensures Name(p) != [] && Name(p)[0] == Initial(p)
  {
  }

  lemma InitialsInOrder(a: Pattern, b: Pattern)
    requires Rank(a) < Rank(b)
    ensures Initial(a) < Initial(b) || (Initial(a) == Initial(b) && SameInitial(a, b))
  {
  }

  ghost predicate SameInitial(a: Pattern, b: Pattern) {
    || (a.BearishEngulfing? && b.BullishEngulfing?) || (a.DarkCloudCover? && b.Doji?) || (a.DarkCloudCover? && b.DragonflyDoji?)
    || (a.Doji? && b.DragonflyDoji?) || (a.Hammer? && b.HangingMan?) || (a.ThreeBlackCrows? && b.ThreeWhiteSoldiers?)
  }

  lemma SecondLetters(a: Pattern, b: Pattern)
    requires SameInitial(a, b)
    ensures SmallerAt(Name(a), Name(b), if a.Hammer? then 2 else if a.ThreeBlackCrows? then 6 else 1)
  {
  }

  lemma RankTellsApart(a: Pattern, b: Pattern)
    requires Rank(a) == Rank(b)
    ensures a == b
  {
  }

  /** Readings are ordered by the alphabet of their pattern names, and no two patterns share a place. */
  lemma RankIsAlphabetical(a: Pattern, b: Pattern)
    ensures Rank(a) < Rank(b) ==> exists k: nat :: SmallerAt(Name(a), Name(b), k)
    ensures Rank(a) == Rank(b) ==> a == b
  {
    hide Rank, Name, Initial, SameInitial;
    if Rank(a) < Rank(b) {
      NameStarts(a);
      NameStarts(b);
      InitialsInOrder(a, b);
      if SameInitial(a, b) { SecondLetters(a, b); } else { assert SmallerAt(Name(a), Name(b), 0); }
    } else if Rank(a) == Rank(b) {
      RankTellsApart(a, b);
    }
  }

  /**
   * Every detector sees its own candles, ending at this one, and the trend before the first of them. What they find is returned
   * whole and in order of the names; an index outside the list or a foreign timeframe is refused.
   */
  lemma EveryLengthSeesItsOwnTrend(candles: seq<Candle>, index: int, lookback: nat, d: Detectors)
    requires lookback >= 1
    ensures Reading(candles, index, lookback, d).None?
       <==> !(0 <= index < |candles|) || exists c :: c in candles && c.timeframe != candles[index].timeframe
    ensures var r := Reading(candles, index, lookback, d);
            r.Some? ==>
              && multiset(r.value)
                 == multiset(d.one(candles[index], TrendBefore(candles, index, lookback)))
                    + (if index >= 1 then multiset(d.two(candles[index - 1], candles[index], TrendBefore(candles, index - 1, lookback)))
                       else multiset{})
                    + (if index >= 2 then multiset(d.three(candles[index - 2], candles[index - 1], candles[index],
                                                           TrendBefore(candles, index - 2, lookback)))
                       else multiset{})
              && forall i, j :: 0 <= i < j < |r.value| ==> Rank(r.value[i].pattern) <= Rank(r.value[j].pattern)
  {
    hide TrendBefore, SortBy, Rank;
    if 0 <= index < |candles| && forall c :: c in candles ==> c.timeframe == candles[index].timeframe {
      var all := d.one(candles[index], TrendBefore(candles, index, lookback))
                 + (if index >= 1 then d.two(candles[index - 1], candles[index], TrendBefore(candles, index - 1, lookback)) else [])
                 + (if index >= 2 then d.three(candles[index - 2], candles[index - 1], candles[index], TrendBefore(candles, index - 2, lookback))
                    else []);
      assert Reading(candles, index, lookback, d) == Some(SortBy(all, ByName));
      SortBySorted(all, ByName);
    }
  }
}
