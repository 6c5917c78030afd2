/** Resampling one-minute bars into candles: buckets of expected minutes, anchored at each session's open. */
module Timeframes {
  import opened Prelude
  import opened Calendar
  import opened BarStore
  import opened Candles

  /** Consecutive stretches of `size` minutes; the last one may be shorter. */
  function Chunked(minutes: seq<int>, size: nat): (r: seq<seq<int>>)
    requires size >= 1
    ensures forall i :: 0 <= i < |r| ==> r[i] != []
    decreases |minutes|
  {
    if minutes == [] then []
    else if |minutes| <= size then [minutes]
    else [minutes[..size]] + Chunked(minutes[size..], size)
  }

  function Joined(buckets: seq<seq<int>>): seq<int> {
    if buckets == [] then [] else buckets[0] + Joined(buckets[1..])
  }

  /** The buckets of a list of minutes: joined they are the list, and only the last may be short. */
  lemma {:induction false} ChunksPartition(minutes: seq<int>, size: nat)
    requires size >= 1
    ensures Joined(Chunked(minutes, size)) == minutes
    ensures var r := Chunked(minutes, size);
            forall i :: 0 <= i < |r| ==> 1 <= |r[i]| <= size && (i < |r| - 1 ==> |r[i]| == size)
    decreases |minutes|
  {
    if minutes == [] {
    } else if |minutes| <= size {
      assert Joined([minutes]) == minutes + Joined([]);
    } else {
      ChunksPartition(minutes[size..], size);
      assert minutes[..size] + minutes[size..] == minutes;
      var rest := Chunked(minutes[size..], size);
      assert ([minutes[..size]] + rest)[1..] == rest;
    }
  }

  lemma {:induction false} ChunkedConcat(a: seq<int>, b: seq<int>, size: nat, k: nat)
    requires size >= 1 && |a| == k * size
    ensures Chunked(a + b, size) == Chunked(a, size) + Chunked(b, size)
    decreases k
  {
    if k == 0 {
      assert a + b == b;
    } else if |a| == size {
      assert a + b == a + b && (a + b)[..size] == a && (a + b)[size..] == b;
      assert b == [] ==> a + b == a;
    } else {
      assert |a| == (k - 1) * size + size;
      assert |a| > size by { AtLeastTwice(k, size); }
      assert (a + b)[..size] == a[..size] && (a + b)[size..] == a[size..] + b;
      ChunkedConcat(a[size..], b, size, k - 1);
    }
  }

  lemma AtLeastTwice(k: nat, size: nat)
    requires size >= 1 && k >= 1 && k * size != size
    ensures k * size > size
  {
    assert k >= 2;
    assert k * size >= 2 * size;
  }

  function Refined(buckets: seq<seq<int>>, size: nat): seq<seq<int>>
    requires size >= 1
  {
    if buckets == [] then [] else Chunked(buckets[0], size) + Refined(buckets[1..], size)
  }

  /** Timeframes nest: cutting each coarse bucket into fine ones is cutting the session into fine ones. */
  lemma {:induction false} BucketsNest(minutes: seq<int>, fine: nat, k: nat)
    requires fine >= 1 && k >= 1
    ensures k * fine >= 1 && Refined(Chunked(minutes, k * fine), fine) == Chunked(minutes, fine)
    decreases |minutes|
  {
    assert k * fine >= 1 by { Positive(k, fine); }
    var size := k * fine;
    if minutes == [] {
    } else if |minutes| <= size {
      assert Refined([minutes], fine) == Chunked(minutes, fine) + Refined([], fine);
    } else {
      var head, rest := minutes[..size], minutes[size..];
      BucketsNest(rest, fine, k);
      ChunkedConcat(head, rest, fine, k);
      assert head + rest == minutes;
      assert ([head] + Chunked(rest, size))[1..] == Chunked(rest, size);
    }
  }

  lemma Positive(k: nat, fine: nat)
    requires k >= 1 && fine >= 1
    ensures k * fine >= 1
  {
  }

  // ---- one candle -------------------------------------------------------------------------------------------------

  function Present(minutes: seq<int>, byMinute: map<int, Bar>): (r: seq<Bar>)
    ensures |r| <= |minutes|
  {
    if minutes == [] then []
    else (if minutes[0] in byMinute then [byMinute[minutes[0]]] else []) + Present(minutes[1..], byMinute)
  }

  lemma {:induction false} PresentConcat(a: seq<int>, b: seq<int>, byMinute: map<int, Bar>)
    ensures Present(a + b, byMinute) == Present(a, byMinute) + Present(b, byMinute)
  {
    if a == [] {
      assert a + b == b;
    } else {
      assert (a + b)[1..] == a[1..] + b;
      PresentConcat(a[1..], b, byMinute);
    }
  }

  function Volume(bars: seq<Bar>): real {
    if bars == [] then 0.0 else bars[0].values.volume + Volume(bars[1..])
  }

  function Highest(bars: seq<Bar>): real
    requires bars != []
  {
    if |bars| == 1 then bars[0].values.high
    else var rest := Highest(bars[1..]); if bars[0].values.high >= rest then bars[0].values.high else rest
  }

  function Lowest(bars: seq<Bar>): real
    requires bars != []
  {
    if |bars| == 1 then bars[0].values.low
    else var rest := Lowest(bars[1..]); if bars[0].values.low <= rest then bars[0].values.low else rest
  }

  function CandleOf(t: Timeframe, day: int, bucket: seq<int>, present: seq<Bar>): Candle
    requires bucket != [] && present != []
  {
    var nominal := BucketMinutes(t);
    Candle(t, bucket[0], bucket[|bucket| - 1], day, present[0].values.open, Highest(present), Lowest(present),
           present[|present| - 1].values.close, Volume(present), |bucket|, |present|,
           nominal.Some? && |bucket| < nominal.value)
  }

  // ---- sessions -----------------------------------------------------------------------------------------------------

  function SessionBuckets(calendar: SessionCalendar, session: Session, t: Timeframe): (r: seq<seq<int>>)
    ensures forall i :: 0 <= i < |r| ==> r[i] != []
  {
    var minutes := calendar.ExpectedMinutesSpec(session.open, session.close);
    match BucketMinutes(t)
    case None => if minutes == [] then [] else [minutes]
    case Some(size) => Chunked(minutes, size)
  }

  /** A bucket is emitted only once its last minute has fully elapsed. */
  predicate Elapsed(bucket: seq<int>, through: int)
    requires bucket != []
  {
    bucket[|bucket| - 1] + MINUTE <= through
  }

  /** The completed buckets of a session; the first open one ends the walk. */
  function BucketCandles(t: Timeframe, day: int, buckets: seq<seq<int>>, byMinute: map<int, Bar>, through: int): seq<Candle>
    requires forall i :: 0 <= i < |buckets| ==> buckets[i] != []
  {
    if buckets == [] || !Elapsed(buckets[0], through) then []
    else
      var present := Present(buckets[0], byMinute);
      (if present == [] then [] else [CandleOf(t, day, buckets[0], present)])
      + BucketCandles(t, day, buckets[1..], byMinute, through)
  }

  predicate Intersects(s: Session, start: int, end: int) { s.open < end && s.close > start }

  function SessionCandles(calendar: SessionCalendar, sessions: seq<Session>, t: Timeframe, byMinute: map<int, Bar>,
                          start: int, end: int, through: int): seq<Candle>
  {
    if sessions == [] then []
    else
      OneSession(calendar, sessions[0], t, byMinute, start, end, through)
      + SessionCandles(calendar, sessions[1..], t, byMinute, start, end, through)
  }

  function OneSession(calendar: SessionCalendar, s: Session, t: Timeframe, byMinute: map<int, Bar>,
                      start: int, end: int, through: int): seq<Candle>
  {
    if Intersects(s, start, end) then BucketCandles(t, s.day, SessionBuckets(calendar, s, t), byMinute, through) else []
  }

  /** Resample bars already indexed by minute. */
  function Resampled(calendar: SessionCalendar, t: Timeframe, byMinute: map<int, Bar>, start: int, end: int, through: int): seq<Candle> {
    SessionCandles(calendar, calendar.sessions, t, byMinute, start, end, through)
  }

  function Emitted(t: Timeframe, day: int, bucket: seq<int>, byMinute: map<int, Bar>): seq<Candle>
    requires bucket != []
  {
    var present := Present(bucket, byMinute);
    if present == [] then [] else [CandleOf(t, day, bucket, present)]
  }

  lemma BucketStep(t: Timeframe, day: int, buckets: seq<seq<int>>, k: nat, byMinute: map<int, Bar>, through: int)
    requires forall i :: 0 <= i < |buckets| ==> buckets[i] != []
    requires k < |buckets| && Elapsed(buckets[k], through)
    ensures BucketCandles(t, day, buckets[k..], byMinute, through)
         == Emitted(t, day, buckets[k], byMinute) + BucketCandles(t, day, buckets[k + 1..], byMinute, through)
  {
    assert buckets[k..][1..] == buckets[k + 1..];
    hide Present, CandleOf;
  }

  method BucketCandlesOf(t: Timeframe, day: int, buckets: seq<seq<int>>, byMinute: map<int, Bar>, through: int) returns (r: seq<Candle>)
    requires forall i :: 0 <= i < |buckets| ==> buckets[i] != []
    ensures r == BucketCandles(t, day, buckets, byMinute, through)
  {
    hide BucketCandles, Present, CandleOf;
    r := [];
    var k := 0;
    assert buckets[0..] == buckets;
    while k < |buckets| && Elapsed(buckets[k], through)
      invariant 0 <= k <= |buckets|
      invariant BucketCandles(t, day, buckets, byMinute, through) == r + BucketCandles(t, day, buckets[k..], byMinute, through)
    {
      BucketStep(t, day, buckets, k, byMinute, through);
      var present := Present(buckets[k], byMinute);
      var emitted := if present == [] then [] else [CandleOf(t, day, buckets[k], present)];
      Regroup(r, emitted, BucketCandles(t, day, buckets[k + 1..], byMinute, through));
      r := r + emitted;
      k := k + 1;
    }
    StillOpen(t, day, buckets, k, byMinute, through);
  }

  lemma StillOpen(t: Timeframe, day: int, buckets: seq<seq<int>>, k: nat, byMinute: map<int, Bar>, through: int)
    requires forall i :: 0 <= i < |buckets| ==> buckets[i] != []
    requires k <= |buckets| && (k < |buckets| ==> !Elapsed(buckets[k], through))
    ensures BucketCandles(t, day, buckets[k..], byMinute, through) == []
  {
  }

  lemma Regroup(a: seq<Candle>, b: seq<Candle>, c: seq<Candle>)
    ensures a + (b + c) == (a + b) + c
  {
  }

  lemma SessionStep(calendar: SessionCalendar, sessions: seq<Session>, k: nat, t: Timeframe, byMinute: map<int, Bar>,
                    start: int, end: int, through: int)
    requires k < |sessions|
    ensures SessionCandles(calendar, sessions[k..], t, byMinute, start, end, through)
         == OneSession(calendar, sessions[k], t, byMinute, start, end, through)
            + SessionCandles(calendar, sessions[k + 1..], t, byMinute, start, end, through)
  {
    assert sessions[k..][1..] == sessions[k + 1..];
    hide SessionBuckets, BucketCandles;
  }

  /** Completed candles of the sessions intersecting [start, end); None when two bars claim one minute. */
  method Resample(bars: seq<Bar>, calendar: SessionCalendar, t: Timeframe, start: int, end: int, through: int)
    returns (r: Option<seq<Candle>>)
    requires calendar.Valid()
    ensures r.Some? <==> DistinctMinutes(bars)
    ensures r.Some? ==> exists byMinute :: Indexes(byMinute, bars) && r.value == Resampled(calendar, t, byMinute, start, end, through)
  {
    hide SessionBuckets, BucketCandles, SessionCandles, DistinctMinutes, Indexes, SessionCalendar.Valid;
    var indexed := IndexByMinute(bars);
    if indexed.None? {
      return None;
    }
    var byMinute, sessions := indexed.value, calendar.sessions;
    var candles: seq<Candle> := [];
    var k := 0;
    assert sessions[0..] == sessions;
    while k < |sessions|
      invariant 0 <= k <= |sessions|
      invariant Resampled(calendar, t, byMinute, start, end, through)
             == candles + SessionCandles(calendar, sessions[k..], t, byMinute, start, end, through)
    {
      var s := sessions[k];
      SessionStep(calendar, sessions, k, t, byMinute, start, end, through);
      var emitted: seq<Candle> := [];
      if Intersects(s, start, end) {
        emitted := BucketCandlesOf(t, s.day, SessionBuckets(calendar, s, t), byMinute, through);
      }
      Regroup(candles, emitted, SessionCandles(calendar, sessions[k + 1..], t, byMinute, start, end, through));
      candles := candles + emitted;
      k := k + 1;
    }
    NoSessions(calendar, t, byMinute, start, end, through);
    assert sessions[k..] == [] && candles + [] == candles;
    return Some(candles);
  }

  lemma NoSessions(calendar: SessionCalendar, t: Timeframe, byMinute: map<int, Bar>, start: int, end: int, through: int)
    ensures SessionCandles(calendar, [], t, byMinute, start, end, through) == []
  {
  }

  // ---- laws -------------------------------------------------------------------------------------------------------

  /** The buckets of a session, in any timeframe, are its expected minutes: none missing, none twice. */
  lemma BucketsAreTheSession(calendar: SessionCalendar, session: Session, t: Timeframe)
    ensures Joined(SessionBuckets(calendar, session, t)) == calendar.ExpectedMinutesSpec(session.open, session.close)
  {
    var minutes := calendar.ExpectedMinutesSpec(session.open, session.close);
    match BucketMinutes(t)
    case None => if minutes != [] { assert Joined([minutes]) == minutes + Joined([]); }
    case Some(size) => ChunksPartition(minutes, size);
  }

  function TotalVolume(candles: seq<Candle>): real {
    if candles == [] then 0.0 else candles[0].volume + TotalVolume(candles[1..])
  }

  lemma {:induction false} TotalVolumeConcat(a: seq<Candle>, b: seq<Candle>)
    ensures TotalVolume(a + b) == TotalVolume(a) + TotalVolume(b)
  {
    if a == [] {
      assert a + b == b;
    } else {
      assert (a + b)[1..] == a[1..] + b;
      TotalVolumeConcat(a[1..], b);
    }
  }

  lemma {:induction false} VolumeConcat(a: seq<Bar>, b: seq<Bar>)
    ensures Volume(a + b) == Volume(a) + Volume(b)
  {
    if a == [] {
      assert a + b == b;
    } else {
      assert (a + b)[1..] == a[1..] + b;
      VolumeConcat(a[1..], b);
    }
  }

  /** How many leading buckets have elapsed. */
  function ElapsedCount(buckets: seq<seq<int>>, through: int): (n: nat)
    requires forall i :: 0 <= i < |buckets| ==> buckets[i] != []
    ensures n <= |buckets|
  {
    if buckets == [] || !Elapsed(buckets[0], through) then 0 else 1 + ElapsedCount(buckets[1..], through)
  }

  /** Volume is conserved: the emitted candles carry exactly the volume of the bars in the completed buckets. */
  lemma {:induction false} VolumeConserved(t: Timeframe, day: int, buckets: seq<seq<int>>, byMinute: map<int, Bar>, through: int)
    requires forall i :: 0 <= i < |buckets| ==> buckets[i] != []
    ensures TotalVolume(BucketCandles(t, day, buckets, byMinute, through))
         == Volume(Present(Joined(buckets[..ElapsedCount(buckets, through)]), byMinute))
  {
    if buckets == [] || !Elapsed(buckets[0], through) {
      assert buckets[..0] == [];
    } else {
      var n := ElapsedCount(buckets[1..], through);
      VolumeConserved(t, day, buckets[1..], byMinute, through);
      assert buckets[0..] == buckets;
      BucketStep(t, day, buckets, 0, byMinute, through);
      hide BucketCandles;
      assert buckets[..n + 1][1..] == buckets[1..][..n];
      PresentConcat(buckets[0], Joined(buckets[1..][..n]), byMinute);
      VolumeConcat(Present(buckets[0], byMinute), Present(Joined(buckets[1..][..n]), byMinute));
      TotalVolumeConcat(Emitted(t, day, buckets[0], byMinute), BucketCandles(t, day, buckets[1..], byMinute, through));
      EmittedVolume(t, day, buckets[0], byMinute);
      hide Emitted, Volume, TotalVolume, Present;
    }
  }

  lemma EmittedVolume(t: Timeframe, day: int, bucket: seq<int>, byMinute: map<int, Bar>)
    requires bucket != []
    ensures TotalVolume(Emitted(t, day, bucket, byMinute)) == Volume(Present(bucket, byMinute))
  {
    var present := Present(bucket, byMinute);
    if present != [] {
      assert Emitted(t, day, bucket, byMinute)[1..] == [];
    }
  }

  /** The expected minutes of the completed buckets of the sessions that meet the range. */
  function CompletedMinutes(calendar: SessionCalendar, sessions: seq<Session>, t: Timeframe, start: int, end: int, through: int): seq<int> {
    if sessions == [] then []
    else
      var buckets := SessionBuckets(calendar, sessions[0], t);
      (if Intersects(sessions[0], start, end) then Joined(buckets[..ElapsedCount(buckets, through)]) else [])
      + CompletedMinutes(calendar, sessions[1..], t, start, end, through)
  }

  lemma OneSessionVolume(calendar: SessionCalendar, s: Session, t: Timeframe, byMinute: map<int, Bar>, start: int, end: int, through: int)
    ensures var buckets := SessionBuckets(calendar, s, t);
            TotalVolume(OneSession(calendar, s, t, byMinute, start, end, through))
            == Volume(Present(if Intersects(s, start, end) then Joined(buckets[..ElapsedCount(buckets, through)]) else [], byMinute))
  {
    hide SessionBuckets, BucketCandles, ElapsedCount, Joined;
    VolumeConserved(t, s.day, SessionBuckets(calendar, s, t), byMinute, through);
  }

  lemma {:induction false} SessionsVolume(calendar: SessionCalendar, sessions: seq<Session>, t: Timeframe, byMinute: map<int, Bar>,
                                          start: int, end: int, through: int)
    ensures TotalVolume(SessionCandles(calendar, sessions, t, byMinute, start, end, through))
         == Volume(Present(CompletedMinutes(calendar, sessions, t, start, end, through), byMinute))
    decreases |sessions|
  {
    hide SessionBuckets, OneSession, ElapsedCount, Joined, Intersects;
    if sessions != [] {
      var buckets := SessionBuckets(calendar, sessions[0], t);
      var here := if Intersects(sessions[0], start, end) then Joined(buckets[..ElapsedCount(buckets, through)]) else [];
      var rest := CompletedMinutes(calendar, sessions[1..], t, start, end, through);
      OneSessionVolume(calendar, sessions[0], t, byMinute, start, end, through);
      SessionsVolume(calendar, sessions[1..], t, byMinute, start, end, through);
      PresentConcat(here, rest, byMinute);
      VolumeConcat(Present(here, byMinute), Present(rest, byMinute));
      TotalVolumeConcat(OneSession(calendar, sessions[0], t, byMinute, start, end, through),
                        SessionCandles(calendar, sessions[1..], t, byMinute, start, end, through));
    }
  }

  /** Over a whole resampled series: its candles carry exactly the volume of the bars in its completed buckets. */
  lemma ResampledVolumeConserved(calendar: SessionCalendar, t: Timeframe, byMinute: map<int, Bar>, start: int, end: int, through: int)
    ensures TotalVolume(Resampled(calendar, t, byMinute, start, end, through))
         == Volume(Present(CompletedMinutes(calendar, calendar.sessions, t, start, end, through), byMinute))
  {
    SessionsVolume(calendar, calendar.sessions, t, byMinute, start, end, through);
  }

  /** Within a session, later instants only add candles at the end. */
  lemma {:induction false} BucketCandlesGrow(t: Timeframe, day: int, buckets: seq<seq<int>>, byMinute: map<int, Bar>, through: int, later: int)
    requires forall i :: 0 <= i < |buckets| ==> buckets[i] != []
    requires through <= later
    ensures BucketCandles(t, day, buckets, byMinute, through) <= BucketCandles(t, day, buckets, byMinute, later)
  {
    if buckets != [] && Elapsed(buckets[0], through) {
      BucketCandlesGrow(t, day, buckets[1..], byMinute, through, later);
    }
  }

  lemma {:induction false} AllElapsedSame(t: Timeframe, day: int, buckets: seq<seq<int>>, byMinute: map<int, Bar>, through: int, later: int)
    requires forall i :: 0 <= i < |buckets| ==> buckets[i] != []
    requires through <= later && forall i :: 0 <= i < |buckets| ==> Elapsed(buckets[i], through)
    ensures BucketCandles(t, day, buckets, byMinute, through) == BucketCandles(t, day, buckets, byMinute, later)
  {
    if buckets != [] { AllElapsedSame(t, day, buckets[1..], byMinute, through, later); }
  }

  lemma {:induction false} JoinedMembers(buckets: seq<seq<int>>, i: nat, m: int)
    requires i < |buckets| && m in buckets[i]
    ensures m in Joined(buckets)
  {
    if i > 0 { JoinedMembers(buckets[1..], i - 1, m); }
  }

  /** Every minute of a session's buckets lies inside the session. */
  lemma BucketInSession(calendar: SessionCalendar, s: Session, t: Timeframe, i: nat)
    requires calendar.Valid() && i < |SessionBuckets(calendar, s, t)|
    ensures var b := SessionBuckets(calendar, s, t)[i];
            s.open <= b[|b| - 1] && b[|b| - 1] + MINUTE <= CeilMinute(s.close)
  {
    var buckets := SessionBuckets(calendar, s, t);
    var last := buckets[i][|buckets[i]| - 1];
    BucketsAreTheSession(calendar, s, t);
    JoinedMembers(buckets, i, last);
    calendar.MinutesCharacterized(s.open, s.close);
    hide SessionBuckets, SessionCalendar.ExpectedMinutesSpec, SessionCalendar.Valid;
    assert calendar.Expected(last) && s.open <= last < s.close;
    assert Whole(last);
    MinutesApart(last, CeilMinute(s.close));
  }

  /** Once an instant is past a session's close every bucket of it has elapsed; before its open none has. */
  lemma SessionElapsed(calendar: SessionCalendar, s: Session, t: Timeframe, byMinute: map<int, Bar>, through: int, later: int)
    requires calendar.Valid() && s.Valid() && through <= later
    ensures s.close <= through ==>
              BucketCandles(t, s.day, SessionBuckets(calendar, s, t), byMinute, through)
              == BucketCandles(t, s.day, SessionBuckets(calendar, s, t), byMinute, later)
    ensures through <= s.open ==> BucketCandles(t, s.day, SessionBuckets(calendar, s, t), byMinute, through) == []
  {
    var buckets := SessionBuckets(calendar, s, t);
    forall i | 0 <= i < |buckets|
      ensures (s.close <= through ==> Elapsed(buckets[i], through)) && (through <= s.open ==> !Elapsed(buckets[i], through))
    {
      BucketInSession(calendar, s, t, i);
      CeilOfWhole(s.close);
    }
    hide SessionBuckets, SessionCalendar.Valid;
    if s.close <= through { AllElapsedSame(t, s.day, buckets, byMinute, through, later); }
  }

  lemma CeilOfWhole(ts: int)
    requires Whole(ts)
    ensures CeilMinute(ts) == ts
  {
  }

  lemma {:induction false} NothingBeforeTheOpen(calendar: SessionCalendar, sessions: seq<Session>, t: Timeframe,
                                                byMinute: map<int, Bar>, start: int, end: int, through: int)
    requires calendar.Valid() && forall i :: 0 <= i < |sessions| ==> sessions[i].Valid() && through <= sessions[i].open
    ensures SessionCandles(calendar, sessions, t, byMinute, start, end, through) == []
  {
    if sessions != [] {
      SessionElapsed(calendar, sessions[0], t, byMinute, through, through);
      NothingBeforeTheOpen(calendar, sessions[1..], t, byMinute, start, end, through);
    }
  }

  /** Sessions in time order, none reaching into the next. */
  ghost predicate InRow(sessions: seq<Session>) {
    && (forall i :: 0 <= i < |sessions| ==> sessions[i].Valid())
    && (forall i, j :: 0 <= i < j < |sessions| ==> sessions[i].close <= sessions[j].open)
  }

  lemma RestInRow(sessions: seq<Session>)
    requires InRow(sessions) && sessions != []
    ensures sessions[0].Valid() && InRow(sessions[1..])
    ensures forall i :: 0 <= i < |sessions[1..]| ==> sessions[1..][i].Valid() && sessions[0].close <= sessions[1..][i].open
  {
    hide Session.Valid;
  }

  lemma OneSessionGrows(calendar: SessionCalendar, s: Session, t: Timeframe, byMinute: map<int, Bar>, start: int, end: int,
                        through: int, later: int)
    requires calendar.Valid() && s.Valid() && through <= later
    ensures OneSession(calendar, s, t, byMinute, start, end, through) <= OneSession(calendar, s, t, byMinute, start, end, later)
    ensures s.close <= through ==>
              OneSession(calendar, s, t, byMinute, start, end, through) == OneSession(calendar, s, t, byMinute, start, end, later)
  {
    hide SessionBuckets, BucketCandles, SessionCalendar.Valid, Session.Valid;
    SessionElapsed(calendar, s, t, byMinute, through, later);
    BucketCandlesGrow(t, s.day, SessionBuckets(calendar, s, t), byMinute, through, later);
  }

  lemma {:induction false} SessionCandlesGrow(calendar: SessionCalendar, sessions: seq<Session>, t: Timeframe, byMinute: map<int, Bar>,
                                              start: int, end: int, through: int, later: int)
    requires calendar.Valid() && through <= later && InRow(sessions)
    ensures SessionCandles(calendar, sessions, t, byMinute, start, end, through)
         <= SessionCandles(calendar, sessions, t, byMinute, start, end, later)
  {
    hide SessionCalendar.Valid, Session.Valid, InRow, OneSession;
    if sessions != [] {
      RestInRow(sessions);
      OneSessionGrows(calendar, sessions[0], t, byMinute, start, end, through, later);
      if sessions[0].close <= through {
        SessionCandlesGrow(calendar, sessions[1..], t, byMinute, start, end, through, later);
      } else {
        NothingBeforeTheOpen(calendar, sessions[1..], t, byMinute, start, end, through);
      }
    }
  }

  /** A candle once emitted never changes: for the same bars, a later instant only appends candles. */
  lemma EmittedCandlesAreFinal(calendar: SessionCalendar, t: Timeframe, byMinute: map<int, Bar>, start: int, end: int,
                               through: int, later: int)
    requires calendar.Valid() && through <= later
    ensures Resampled(calendar, t, byMinute, start, end, through) <= Resampled(calendar, t, byMinute, start, end, later)
  {
    SessionCandlesGrow(calendar, calendar.sessions, t, byMinute, start, end, through, later);
  }

  // ---- nesting ------------------------------------------------------------------------------------------------------

  lemma {:induction false} ExtremesConcat(a: seq<Bar>, b: seq<Bar>)
    requires a != [] && b != []
    ensures Highest(a + b) == (if Highest(a) >= Highest(b) then Highest(a) else Highest(b))
    ensures Lowest(a + b) == (if Lowest(a) <= Lowest(b) then Lowest(a) else Lowest(b))
  {
    if |a| == 1 {
      assert (a + b)[1..] == b;
    } else {
      assert (a + b)[1..] == a[1..] + b;
      ExtremesConcat(a[1..], b);
    }
  }

  datatype Totals = Totals(open: real, high: real, low: real, close: real, volume: real, present: nat)

  function TotalsOf(c: Candle): Totals { Totals(c.open, c.high, c.low, c.close, c.volume, c.minutesPresent) }

  function Merge(a: Totals, b: Totals): Totals {
    Totals(a.open, if a.high >= b.high then a.high else b.high, if a.low <= b.low then a.low else b.low, b.close,
           a.volume + b.volume, a.present + b.present)
  }

  /** Aggregate candles into the values of one candle over all of them. */
  function Aggregate(candles: seq<Candle>): Totals
    requires candles != []
  {
    if |candles| == 1 then TotalsOf(candles[0]) else Merge(TotalsOf(candles[0]), Aggregate(candles[1..]))
  }

  function BarTotals(bars: seq<Bar>): Totals
    requires bars != []
  {
    Totals(bars[0].values.open, Highest(bars), Lowest(bars), bars[|bars| - 1].values.close, Volume(bars), |bars|)
  }

  lemma MergeBars(a: seq<Bar>, b: seq<Bar>)
    requires a != [] && b != []
    ensures BarTotals(a + b) == Merge(BarTotals(a), BarTotals(b))
  {
    ExtremesConcat(a, b);
    VolumeConcat(a, b);
  }

  /** The candles of the fine buckets aggregate to the values of all their bars, empty buckets and all. */
  lemma {:induction false} AggregateIsWhole(t: Timeframe, day: int, fine: seq<seq<int>>, byMinute: map<int, Bar>, through: int)
    requires forall i :: 0 <= i < |fine| ==> fine[i] != [] && Elapsed(fine[i], through)
    ensures var candles, bars := BucketCandles(t, day, fine, byMinute, through), Present(Joined(fine), byMinute);
            && (candles == [] <==> bars == [])
            && (bars != [] ==> Aggregate(candles) == BarTotals(bars))
  {
    if fine != [] {
      var head, rest := Present(fine[0], byMinute), fine[1..];
      AggregateIsWhole(t, day, rest, byMinute, through);
      PresentConcat(fine[0], Joined(rest), byMinute);
      var tail := Present(Joined(rest), byMinute);
      var later := BucketCandles(t, day, rest, byMinute, through);
      if head == [] {
        assert [] + later == later && head + tail == tail;
      } else {
        var c := CandleOf(t, day, fine[0], head);
        assert TotalsOf(c) == BarTotals(head);
        assert ([c] + later)[1..] == later;
        if tail == [] {
          assert head + tail == head;
        } else {
          MergeBars(head, tail);
        }
        hide Highest, Lowest, Volume, Present;
      }
    }
  }

  /**
   * Timeframes agree with each other: inside a completed coarse bucket, aggregating the fine candles gives exactly the
   * coarse candle's open, high, low, close, volume and number of bars.
   */
  lemma FineCandlesMakeTheCoarseOne(fineT: Timeframe, coarseT: Timeframe, day: int, bucket: seq<int>, size: nat,
                                    byMinute: map<int, Bar>, through: int)
    requires size >= 1 && bucket != [] && StrictlyIncreasing(bucket) && Elapsed(bucket, through)
    requires Present(bucket, byMinute) != []
    ensures var fine := BucketCandles(fineT, day, Chunked(bucket, size), byMinute, through);
            fine != [] && Aggregate(fine) == TotalsOf(CandleOf(coarseT, day, bucket, Present(bucket, byMinute)))
  {
    var fine := Chunked(bucket, size);
    ChunksPartition(bucket, size);
    AllElapsed(bucket, size, through);
    hide Chunked, Elapsed;
    AggregateIsWhole(fineT, day, fine, byMinute, through);
  }

  function MinutesExpected(candles: seq<Candle>): nat {
    if candles == [] then 0 else candles[0].minutesExpected + MinutesExpected(candles[1..])
  }

  /** The expected minutes of the emitted candles: those of the buckets that hold a bar. */
  lemma {:induction false} ExpectedOverBuckets(t: Timeframe, day: int, fine: seq<seq<int>>, byMinute: map<int, Bar>, through: int)
    requires forall i :: 0 <= i < |fine| ==> fine[i] != [] && Elapsed(fine[i], through)
    ensures var total := MinutesExpected(BucketCandles(t, day, fine, byMinute, through));
            && total <= |Joined(fine)|
            && (total == |Joined(fine)| <==> forall i :: 0 <= i < |fine| ==> Present(fine[i], byMinute) != [])
  {
    if fine != [] {
      var rest := fine[1..];
      ExpectedOverBuckets(t, day, rest, byMinute, through);
      var later := BucketCandles(t, day, rest, byMinute, through);
      assert (forall i :: 0 <= i < |fine| ==> Present(fine[i], byMinute) != []) <==>
             Present(fine[0], byMinute) != [] && forall i :: 0 <= i < |rest| ==> Present(rest[i], byMinute) != [] by {
        assert forall i :: 0 <= i < |rest| ==> rest[i] == fine[i + 1];
        assert forall i :: 0 < i < |fine| ==> fine[i] == rest[i - 1];
      }
      if Present(fine[0], byMinute) == [] {
        assert [] + later == later;
      } else {
        var c := CandleOf(t, day, fine[0], Present(fine[0], byMinute));
        assert ([c] + later)[1..] == later;
      }
    }
  }

  lemma AllElapsed(bucket: seq<int>, size: nat, through: int)
    requires size >= 1 && bucket != [] && StrictlyIncreasing(bucket) && Elapsed(bucket, through)
    ensures forall i :: 0 <= i < |Chunked(bucket, size)| ==> Elapsed(Chunked(bucket, size)[i], through)
  {
    var fine := Chunked(bucket, size);
    ChunksPartition(bucket, size);
    forall i | 0 <= i < |fine| ensures Elapsed(fine[i], through) {
      JoinedMembers(fine, i, fine[i][|fine[i]| - 1]);
      var k :| 0 <= k < |bucket| && bucket[k] == fine[i][|fine[i]| - 1];
      assert bucket[k] <= bucket[|bucket| - 1];
    }
  }

  /**
   * Expected minutes do not simply add up. Inside a completed coarse bucket the fine candles never expect more minutes than
   * the coarse one, and exactly as many if and only if every fine bucket holds a bar: a bucket without one emits no candle.
   */
  lemma ExpectedMinutesAddUpIffNoGap(fineT: Timeframe, coarseT: Timeframe, day: int, bucket: seq<int>, size: nat,
                                     byMinute: map<int, Bar>, through: int)
    requires size >= 1 && bucket != [] && StrictlyIncreasing(bucket) && Elapsed(bucket, through)
    requires Present(bucket, byMinute) != []
    ensures var fine := MinutesExpected(BucketCandles(fineT, day, Chunked(bucket, size), byMinute, through));
            var coarse := CandleOf(coarseT, day, bucket, Present(bucket, byMinute)).minutesExpected;
            && fine <= coarse
            && (fine == coarse <==> forall b :: b in Chunked(bucket, size) ==> Present(b, byMinute) != [])
  {
    AllElapsed(bucket, size, through);
    ChunksPartition(bucket, size);
    ExpectedOverBuckets(fineT, day, Chunked(bucket, size), byMinute, through);
    hide Chunked, Elapsed, Present, BucketCandles, MinutesExpected;
    assert forall i :: 0 <= i < |Chunked(bucket, size)| ==> Chunked(bucket, size)[i] in Chunked(bucket, size);
  }

  /** The expected minutes of a session of `n` minutes from the epoch. */
  function FirstMinutes(n: nat): (r: seq<int>)
    ensures |r| == n && forall i :: 0 <= i < n ==> r[i] == i * MINUTE
  {
    seq(n, i => i * MINUTE)
  }

  /**
   * A session of ten minutes with a bar in the first only: its one fifteen-minute candle expects ten minutes, while its
   * five-minute candles expect five, because the second five-minute bucket is a gap.
   */
  lemma GapLosesExpectedMinutes(b: Bar, day: int)
    ensures var bucket, byMinute, through := FirstMinutes(10), map[0 := b], 10 * MINUTE;
            && Elapsed(bucket, through) && Present(bucket, byMinute) == [b]
            && CandleOf(M15, day, bucket, [b]).minutesExpected == 10
            && MinutesExpected(BucketCandles(M5, day, Chunked(bucket, 5), byMinute, through)) == 5
  {
    var bucket, byMinute, through := FirstMinutes(10), map[0 := b], 10 * MINUTE;
    var first, second := bucket[..5], bucket[5..];
    assert Chunked(second, 5) == [second];
    assert Chunked(bucket, 5) == [first] + [second] == [first, second];
    LaterMinutes(10, 10);
    LaterMinutes(10, 5);
    PresentOne(0, bucket[1..], byMinute);
    PresentOne(0, bucket[1..5], byMinute);
    PresentNone(bucket[1..], byMinute);
    PresentNone(bucket[1..5], byMinute);
    PresentNone(second, byMinute);
    assert [0] + bucket[1..] == bucket && [0] + bucket[1..5] == first;
    hide Present;
    TwoBuckets(M5, day, first, second, byMinute, through);
    assert [CandleOf(M5, day, first, [b])][1..] == [];
  }

  lemma LaterMinutes(n: nat, m: nat)
    requires 1 <= m <= n
    ensures forall k :: 0 <= k < m - 1 ==> FirstMinutes(n)[1..m][k] != 0
    ensures forall k :: 0 <= k < n - m ==> FirstMinutes(n)[m..][k] != 0
  {
  }

  lemma TwoBuckets(t: Timeframe, day: int, first: seq<int>, second: seq<int>, byMinute: map<int, Bar>, through: int)
    requires first != [] && second != [] && Elapsed(first, through) && Present(first, byMinute) != [] && Present(second, byMinute) == []
    ensures BucketCandles(t, day, [first, second], byMinute, through) == [CandleOf(t, day, first, Present(first, byMinute))]
  {
    hide Present, CandleOf;
    assert [first, second][1..] == [second] && [second][1..] == [];
    assert BucketCandles(t, day, [], byMinute, through) == [];
    assert BucketCandles(t, day, [second], byMinute, through) == [];
  }

  lemma PresentOne(m: int, rest: seq<int>, byMinute: map<int, Bar>)
    requires m in byMinute
    ensures Present([m] + rest, byMinute) == [byMinute[m]] + Present(rest, byMinute)
  {
    assert ([m] + rest)[1..] == rest;
  }

  lemma {:induction false} PresentNone(minutes: seq<int>, byMinute: map<int, Bar>)
    requires forall k :: 0 <= k < |minutes| ==> minutes[k] !in byMinute
    ensures Present(minutes, byMinute) == []
  {
    if minutes != [] { PresentNone(minutes[1..], byMinute); }
  }

  /** Every timeframe of a session cuts the next coarser one: days into four hours, hours, half hours, quarters and five minutes. */
  lemma EveryTimeframeNests(calendar: SessionCalendar, s: Session)
    ensures Refined(SessionBuckets(calendar, s, D1), 240) == SessionBuckets(calendar, s, H4)
    ensures Refined(SessionBuckets(calendar, s, H4), 60) == SessionBuckets(calendar, s, H1)
    ensures Refined(SessionBuckets(calendar, s, H1), 30) == SessionBuckets(calendar, s, M30)
    ensures Refined(SessionBuckets(calendar, s, M30), 15) == SessionBuckets(calendar, s, M15)
    ensures Refined(SessionBuckets(calendar, s, M15), 5) == SessionBuckets(calendar, s, M5)
  {
    hide SessionCalendar.ExpectedMinutesSpec, Chunked;
    var minutes := calendar.ExpectedMinutesSpec(s.open, s.close);
    DayIsCut(minutes, 240);
    BucketsNest(minutes, 60, 4);
    BucketsNest(minutes, 30, 2);
    BucketsNest(minutes, 15, 2);
    BucketsNest(minutes, 5, 3);
  }

  lemma DayIsCut(minutes: seq<int>, size: nat)
    requires size >= 1
    ensures Refined(if minutes == [] then [] else [minutes], size) == Chunked(minutes, size)
  {
    if minutes != [] { assert Refined([minutes], size) == Chunked(minutes, size) + Refined([], size); }
  }
}
