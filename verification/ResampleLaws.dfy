/** Which candles a resampling emits, and what each says of the minutes of its bucket. */
module ResampleLaws {
  import opened Prelude
  import opened Calendar
  import opened BarStore
  import opened Candles
  import opened Timeframes

  // ---- one candle -------------------------------------------------------------------------------------------------

  ghost predicate HasBar(bucket: seq<int>, byMinute: map<int, Bar>) { exists i :: 0 <= i < |bucket| && bucket[i] in byMinute }

  /** The first stored minute of a bucket opens its candle and the last one closes it. */
  ghost predicate OpensAndCloses(c: Candle, bucket: seq<int>, byMinute: map<int, Bar>) {
    && (exists i :: 0 <= i < |bucket| && bucket[i] in byMinute && c.open == byMinute[bucket[i]].values.open
                    && forall j :: 0 <= j < i ==> bucket[j] !in byMinute)
    && (exists i :: 0 <= i < |bucket| && bucket[i] in byMinute && c.close == byMinute[bucket[i]].values.close
                    && forall j :: i < j < |bucket| ==> bucket[j] !in byMinute)
  }

  /** The extremes of a candle are reached by stored minutes of its bucket, and by none exceeded. */
  ghost predicate Spans(c: Candle, bucket: seq<int>, byMinute: map<int, Bar>) {
    && (forall m :: m in bucket && m in byMinute ==> c.low <= byMinute[m].values.low && byMinute[m].values.high <= c.high)
    && (exists m :: m in bucket && m in byMinute && c.high == byMinute[m].values.high)
    && (exists m :: m in bucket && m in byMinute && c.low == byMinute[m].values.low)
  }

  ghost function MinutesOf(t: Timeframe): Option<nat> {
    match t
    case M5 => Some(5)
    case M15 => Some(15)
    case M30 => Some(30)
    case H1 => Some(60)
    case H4 => Some(240)
    case D1 => None
  }

  lemma {:induction false} PresentMembers(bucket: seq<int>, byMinute: map<int, Bar>)
    ensures forall b :: b in Present(bucket, byMinute) <==> exists m :: m in bucket && m in byMinute && byMinute[m] == b
    ensures Present(bucket, byMinute) != [] <==> HasBar(bucket, byMinute)
  {
    if bucket != [] {
      PresentMembers(bucket[1..], byMinute);
      assert forall m :: m in bucket <==> m == bucket[0] || m in bucket[1..];
      if i :| 0 <= i < |bucket| && bucket[i] in byMinute { if i > 0 { assert bucket[1..][i - 1] == bucket[i]; } }
    }
  }

  lemma {:induction false} FirstPresent(bucket: seq<int>, byMinute: map<int, Bar>) returns (i: nat)
    requires Present(bucket, byMinute) != []
    ensures i < |bucket| && bucket[i] in byMinute && Present(bucket, byMinute)[0] == byMinute[bucket[i]]
    ensures forall j :: 0 <= j < i ==> bucket[j] !in byMinute
  {
    if bucket[0] in byMinute { i := 0; }
    else {
      i := FirstPresent(bucket[1..], byMinute);
      i := i + 1;
      forall j | 0 <= j < i ensures bucket[j] !in byMinute { if j > 0 { assert bucket[1..][j - 1] == bucket[j]; } }
    }
  }

  lemma {:induction false} LastPresent(bucket: seq<int>, byMinute: map<int, Bar>) returns (i: nat)
    requires Present(bucket, byMinute) != []
    ensures var present := Present(bucket, byMinute);
            i < |bucket| && bucket[i] in byMinute && present[|present| - 1] == byMinute[bucket[i]]
    ensures forall j :: i < j < |bucket| ==> bucket[j] !in byMinute
  {
    var rest := Present(bucket[1..], byMinute);
    if rest == [] {
      i := 0;
      PresentMembers(bucket[1..], byMinute);
      forall j | 0 < j < |bucket| ensures bucket[j] !in byMinute { assert bucket[1..][j - 1] == bucket[j]; }
    } else {
      i := LastPresent(bucket[1..], byMinute);
      i := i + 1;
      forall j | i < j < |bucket| ensures bucket[j] !in byMinute { assert bucket[1..][j - 1] == bucket[j]; }
    }
  }

  lemma {:induction false} ExtremesOf(bars: seq<Bar>)
    requires bars != []
    ensures forall b :: b in bars ==> Lowest(bars) <= b.values.low && b.values.high <= Highest(bars)
    ensures exists b :: b in bars && b.values.high == Highest(bars)
    ensures exists b :: b in bars && b.values.low == Lowest(bars)
  {
    if |bars| == 1 {
      assert bars[0] in bars;
    } else {
      ExtremesOf(bars[1..]);
      assert bars[0] in bars;
      assert forall b :: b in bars <==> b == bars[0] || b in bars[1..];
    }
  }

  lemma BucketOpensAndCloses(t: Timeframe, day: int, bucket: seq<int>, byMinute: map<int, Bar>)
    requires bucket != [] && Present(bucket, byMinute) != []
    ensures OpensAndCloses(CandleOf(t, day, bucket, Present(bucket, byMinute)), bucket, byMinute)
  {
    var first := FirstPresent(bucket, byMinute);
    var last := LastPresent(bucket, byMinute);
    hide Present, Highest, Lowest, Volume, BucketMinutes;
  }

  lemma BucketSpans(t: Timeframe, day: int, bucket: seq<int>, byMinute: map<int, Bar>)
    requires bucket != [] && Present(bucket, byMinute) != []
    ensures Spans(CandleOf(t, day, bucket, Present(bucket, byMinute)), bucket, byMinute)
  {
    var present := Present(bucket, byMinute);
    PresentMembers(bucket, byMinute);
    ExtremesOf(present);
    hide Present, Highest, Lowest, Volume, BucketMinutes;
    forall m | m in bucket && m in byMinute ensures byMinute[m] in present {}
  }

  /** What the candle of a bucket says: bounds, day, first and last stored price, extremes, and whether it was cut short. */
  lemma CandleTellsItsBucket(t: Timeframe, day: int, bucket: seq<int>, byMinute: map<int, Bar>)
    requires bucket != [] && Present(bucket, byMinute) != []
    ensures var c := CandleOf(t, day, bucket, Present(bucket, byMinute));
            && c.timeframe == t && c.day == day && c.ts == bucket[0] && c.endTs == bucket[|bucket| - 1]
            && OpensAndCloses(c, bucket, byMinute) && Spans(c, bucket, byMinute)
            && c.minutesExpected == |bucket| && c.minutesPresent == |Present(bucket, byMinute)|
            && (c.truncated <==> MinutesOf(t).Some? && |bucket| < MinutesOf(t).value)
  {
    BucketOpensAndCloses(t, day, bucket, byMinute);
    BucketSpans(t, day, bucket, byMinute);
    hide Present, Highest, Lowest, Volume, OpensAndCloses, Spans;
  }

  // ---- which candles ----------------------------------------------------------------------------------------------

  /** The k-th bucket is over by `through` and holds a bar, and `c` is its candle. */
  ghost predicate CandleOfBucket(t: Timeframe, day: int, buckets: seq<seq<int>>, k: nat, byMinute: map<int, Bar>, through: int, c: Candle)
    requires forall i :: 0 <= i < |buckets| ==> buckets[i] != []
  {
    && k < |buckets| && buckets[k][|buckets[k]| - 1] + MINUTE <= through
    && Present(buckets[k], byMinute) != [] && c == CandleOf(t, day, buckets[k], Present(buckets[k], byMinute))
  }

  /** Buckets end one after the other. */
  ghost predicate EndInOrder(buckets: seq<seq<int>>)
    requires forall i :: 0 <= i < |buckets| ==> buckets[i] != []
  {
    forall i, j :: 0 <= i < j < |buckets| ==> buckets[i][|buckets[i]| - 1] < buckets[j][|buckets[j]| - 1]
  }

  lemma {:induction false} JoinedMembers(buckets: seq<seq<int>>, i: nat, m: int)
    requires i < |buckets| && m in buckets[i]
    ensures m in Joined(buckets)
  {
    if i > 0 { JoinedMembers(buckets[1..], i - 1, m); }
  }

  lemma {:induction false} JoinedInOrder(buckets: seq<seq<int>>)
    requires (forall i :: 0 <= i < |buckets| ==> buckets[i] != []) && StrictlyIncreasing(Joined(buckets))
    ensures EndInOrder(buckets)
  {
    if buckets != [] {
      var head, rest := buckets[0], buckets[1..];
      var all := head + Joined(rest);
      assert forall i :: 0 <= i < |Joined(rest)| ==> all[|head| + i] == Joined(rest)[i];
      forall i, j | 0 <= i < j < |Joined(rest)| ensures Joined(rest)[i] < Joined(rest)[j] { assert all[|head| + i] < all[|head| + j]; }
      JoinedInOrder(rest);
      forall j | 0 < j < |buckets| ensures head[|head| - 1] < buckets[j][|buckets[j]| - 1] {
        assert rest[j - 1] == buckets[j];
        var m := buckets[j][|buckets[j]| - 1];
        JoinedMembers(rest, j - 1, m);
        var i :| 0 <= i < |Joined(rest)| && Joined(rest)[i] == m;
        assert all[|head| - 1] < all[|head| + i];
      }
      hide Joined, StrictlyIncreasing;
      forall i, j | 0 < i < j < |buckets| ensures buckets[i][|buckets[i]| - 1] < buckets[j][|buckets[j]| - 1] {
        assert rest[i - 1] == buckets[i] && rest[j - 1] == buckets[j];
      }
    }
  }

  lemma {:induction false} BucketCandlesAre(t: Timeframe, day: int, buckets: seq<seq<int>>, byMinute: map<int, Bar>, through: int, c: Candle)
    requires (forall i :: 0 <= i < |buckets| ==> buckets[i] != []) && EndInOrder(buckets)
    ensures c in BucketCandles(t, day, buckets, byMinute, through)
       <==> exists k: nat :: CandleOfBucket(t, day, buckets, k, byMinute, through, c)
  {
    hide Present, CandleOf;
    if buckets != [] {
      var rest := buckets[1..];
      assert EndInOrder(rest) by { assert forall i :: 0 <= i < |rest| ==> rest[i] == buckets[i + 1]; }
      BucketCandlesAre(t, day, rest, byMinute, through, c);
      if k: nat :| CandleOfBucket(t, day, buckets, k, byMinute, through, c) {
        if k > 0 {
          assert rest[k - 1] == buckets[k];
          assert CandleOfBucket(t, day, rest, k - 1, byMinute, through, c);
        }
      }
      if c in BucketCandles(t, day, buckets, byMinute, through) {
        if exists k: nat :: CandleOfBucket(t, day, rest, k, byMinute, through, c) {
          var k: nat :| CandleOfBucket(t, day, rest, k, byMinute, through, c);
          assert rest[k] == buckets[k + 1];
          assert CandleOfBucket(t, day, buckets, k + 1, byMinute, through, c);
        } else {
          assert CandleOfBucket(t, day, buckets, 0, byMinute, through, c);
        }
      }
    }
  }

  lemma SessionCandlesAre(calendar: SessionCalendar, s: Session, t: Timeframe, byMinute: map<int, Bar>, start: int, end: int, through: int, c: Candle)
    requires calendar.Valid()
    ensures c in OneSession(calendar, s, t, byMinute, start, end, through)
       <==> s.open < end && start < s.close
            && exists k: nat :: CandleOfBucket(t, s.day, SessionBuckets(calendar, s, t), k, byMinute, through, c)
  {
    calendar.MinutesCharacterized(s.open, s.close);
    BucketsAreTheSession(calendar, s, t);
    hide SessionBuckets, SessionCalendar.ExpectedMinutesSpec, BucketCandles, CandleOfBucket, Joined;
    JoinedInOrder(SessionBuckets(calendar, s, t));
    BucketCandlesAre(t, s.day, SessionBuckets(calendar, s, t), byMinute, through, c);
  }

  lemma {:induction false} AllSessionsCandles(calendar: SessionCalendar, sessions: seq<Session>, t: Timeframe, byMinute: map<int, Bar>,
                                              start: int, end: int, through: int, c: Candle)
    ensures c in SessionCandles(calendar, sessions, t, byMinute, start, end, through)
       <==> exists s :: s in sessions && c in OneSession(calendar, s, t, byMinute, start, end, through)
  {
    hide OneSession;
    if sessions != [] {
      AllSessionsCandles(calendar, sessions[1..], t, byMinute, start, end, through, c);
      assert forall s :: s in sessions <==> s == sessions[0] || s in sessions[1..];
    }
  }

  ghost predicate CandleOfSession(calendar: SessionCalendar, s: Session, t: Timeframe, byMinute: map<int, Bar>, start: int, end: int,
                                  through: int, c: Candle)
  {
    && s in calendar.sessions && s.open < end && start < s.close
    && exists k: nat :: CandleOfBucket(t, s.day, SessionBuckets(calendar, s, t), k, byMinute, through, c)
  }

  /** The candles emitted are those of the buckets of the sessions that meet the window, over by then and with a stored bar. */
  lemma CandlesAreTheCompletedBuckets(calendar: SessionCalendar, t: Timeframe, byMinute: map<int, Bar>, start: int, end: int, through: int,
                                      c: Candle)
    requires calendar.Valid()
    ensures c in Resampled(calendar, t, byMinute, start, end, through)
       <==> exists s :: CandleOfSession(calendar, s, t, byMinute, start, end, through, c)
  {
    AllSessionsCandles(calendar, calendar.sessions, t, byMinute, start, end, through, c);
    hide OneSession, SessionCandles, CandleOfBucket, SessionBuckets, SessionCalendar.Valid;
    forall s | s in calendar.sessions
      ensures c in OneSession(calendar, s, t, byMinute, start, end, through) <==> CandleOfSession(calendar, s, t, byMinute, start, end, through, c)
    {
      SessionCandlesAre(calendar, s, t, byMinute, start, end, through, c);
    }
  }
}
