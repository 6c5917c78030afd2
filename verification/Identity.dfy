/** Content identity of the bars behind a reading, and why an unchanged identity means an unchanged reading. */
module Identity {
  import opened Prelude
  import opened Calendar
  import opened BarStore
  import opened Candles
  import opened MarketStructure
  import opened Patterns
  import opened Timeframes

  function Minute(b: Bar): int { b.ts }

  /** The bars in timestamp order. */
  function BarIndex(bars: seq<Bar>): seq<Bar> { SortBy(bars, Minute) }

  function CountBelow(index: seq<Bar>, ts: int): (n: nat)
    ensures n <= |index|
    ensures forall i :: 0 <= i < n ==> index[i].ts < ts
    ensures n < |index| ==> index[n].ts >= ts
  {
    if index == [] || index[0].ts >= ts then 0 else 1 + CountBelow(index[1..], ts)
  }

  function CountThrough(index: seq<Bar>, ts: int): (n: nat)
    ensures n <= |index|
    ensures forall i :: 0 <= i < n ==> index[i].ts <= ts
    ensures n < |index| ==> index[n].ts > ts
  {
    if index == [] || index[0].ts > ts then 0 else 1 + CountThrough(index[1..], ts)
  }

  /** The slice two bisections find. */
  function Between(index: seq<Bar>, start: int, end: int): seq<Bar> {
    var lo, hi := CountBelow(index, start), CountThrough(index, end);
    if lo <= hi then index[lo..hi] else []
  }

  function InRange(start: int, end: int): Bar -> bool { (b: Bar) => start <= b.ts <= end }

  lemma {:induction false} SplitsByTime(index: seq<Bar>, start: int, end: int)
    requires SortedBy(index, Minute)
    ensures var lo, hi := CountBelow(index, start), CountThrough(index, end);
            forall i :: 0 <= i < |index| ==> (i < lo <==> index[i].ts < start) && (i < hi <==> index[i].ts <= end)
  {
    var lo, hi := CountBelow(index, start), CountThrough(index, end);
    hide CountBelow, CountThrough;
    forall i | 0 <= i < |index| ensures (i < lo <==> index[i].ts < start) && (i < hi <==> index[i].ts <= end) {
      assert lo < i ==> Minute(index[lo]) <= Minute(index[i]);
      assert hi < i ==> Minute(index[hi]) <= Minute(index[i]);
    }
  }

  lemma {:induction false} SliceIsFilter(index: seq<Bar>, lo: nat, hi: nat, start: int, end: int)
    requires lo <= |index| && hi <= |index|
    requires forall i :: 0 <= i < |index| ==> (i < lo <==> index[i].ts < start) && (i < hi <==> index[i].ts <= end)
    ensures Filter(index, InRange(start, end)) == if lo <= hi then index[lo..hi] else []
  {
    hide Filter;
    if lo <= hi {
      assert index == index[..lo] + index[lo..hi] + index[hi..];
      FilterMiddle(index[..lo], index[lo..hi], index[hi..], InRange(start, end));
    } else {
      FilterNone(index, InRange(start, end));
    }
  }

  /** A bisected lookup returns exactly the bars a scan over all of them would, in time order. */
  lemma BetweenIsFilter(bars: seq<Bar>, start: int, end: int)
    ensures Between(BarIndex(bars), start, end) == Filter(BarIndex(bars), InRange(start, end))
  {
    hide SortBy, CountBelow, CountThrough, Filter, SortedBy;
    var index := BarIndex(bars);
    SortBySorted(bars, Minute);
    SplitsByTime(index, start, end);
    SliceIsFilter(index, CountBelow(index, start), CountThrough(index, end), start, end);
  }

  /** Read order cannot change what a lookup returns. */
  lemma ReadOrderIsIrrelevant(a: seq<Bar>, b: seq<Bar>)
    requires multiset(a) == multiset(b) && KeysDistinct(a, Minute)
    ensures BarIndex(a) == BarIndex(b)
  {
    SortBySorted(a, Minute);
    SortBySorted(b, Minute);
    SortDistinct(a, Minute);
    SortedUnique(BarIndex(a), BarIndex(b), Minute);
  }

  // ---- content ------------------------------------------------------------------------------------------------------

  /** What the hash encodes of a bar: its minute and its values, never the batch that delivered it. */
  datatype Content = Content(ts: int, values: Ohlcv)

  function ContentOf(b: Bar): Content { Content(b.ts, b.values) }

  function Contents(bars: seq<Bar>): seq<Content> { Map(bars, ContentOf) }

  /** One bucket of the calendar together with the bars that fell into it. */
  datatype Piece = Piece(day: int, bucket: seq<int>, bars: seq<Bar>) {
    ghost predicate Valid() {
      bucket != [] && bars != [] && forall b :: b in bars ==> bucket[0] <= b.ts <= bucket[|bucket| - 1]
    }
  }

  function PieceCandle(t: Timeframe, p: Piece): Candle
    requires p.bucket != [] && p.bars != []
  {
    CandleOf(t, p.day, p.bucket, p.bars)
  }

  function PieceContents(pieces: seq<Piece>): seq<Content> {
    if pieces == [] then [] else Contents(pieces[0].bars) + PieceContents(pieces[1..])
  }

  function PieceCandles(t: Timeframe, pieces: seq<Piece>): (r: seq<Candle>)
    requires forall i :: 0 <= i < |pieces| ==> pieces[i].bucket != [] && pieces[i].bars != []
    ensures |r| == |pieces|
  {
    seq(|pieces|, i requires 0 <= i < |pieces| => PieceCandle(t, pieces[i]))
  }

  /** Candles cut from one calendar: valid pieces, chronological and disjoint. */
  ghost predicate Cut(pieces: seq<Piece>) {
    && (forall i :: 0 <= i < |pieces| ==> pieces[i].Valid())
    && (forall i, j :: 0 <= i < j < |pieces| ==> pieces[i].bucket[|pieces[i].bucket| - 1] < pieces[j].bucket[0])
  }

  /** Two cuts of the same calendar: their buckets coincide or do not meet. */
  ghost predicate SameCalendar(a: seq<Piece>, b: seq<Piece>) {
    forall p, q :: p in a && q in b && p.bucket != [] && q.bucket != [] ==>
      (p.bucket == q.bucket && p.day == q.day)
      || p.bucket[|p.bucket| - 1] < q.bucket[0] || q.bucket[|q.bucket| - 1] < p.bucket[0]
  }

  lemma ContentsShape(bars: seq<Bar>)
    ensures |Contents(bars)| == |bars|
    ensures forall i :: 0 <= i < |bars| ==> Contents(bars)[i] == Content(bars[i].ts, bars[i].values)
  {
  }

  lemma {:induction false} PieceContentsLater(pieces: seq<Piece>, ts: int)
    requires forall i :: 0 <= i < |pieces| ==> pieces[i].Valid() && ts < pieces[i].bucket[0]
    ensures forall c :: c in PieceContents(pieces) ==> ts < c.ts
  {
    if pieces != [] {
      PieceContentsLater(pieces[1..], ts);
      ContentsShape(pieces[0].bars);
      forall c | c in Contents(pieces[0].bars) ensures ts < c.ts {
        var i :| 0 <= i < |pieces[0].bars| && Contents(pieces[0].bars)[i] == c;
        assert pieces[0].bars[i] in pieces[0].bars;
      }
    }
  }

  /** The first piece's entries lie in its bucket; whatever follows lies after it. */
  lemma {:induction false} EntriesByBucket(pieces: seq<Piece>, end: int)
    requires Cut(pieces) && pieces != []
    requires forall i :: 0 < i < |pieces| ==> end < pieces[i].bucket[0]
    ensures var all, n := PieceContents(pieces), |pieces[0].bars|;
            && n <= |all|
            && (forall k :: 0 <= k < n ==> pieces[0].bucket[0] <= all[k].ts <= pieces[0].bucket[|pieces[0].bucket| - 1])
            && (forall k :: n <= k < |all| ==> end < all[k].ts)
  {
    var all, n := PieceContents(pieces), |pieces[0].bars|;
    ContentsShape(pieces[0].bars);
    PieceContentsLater(pieces[1..], end);
    forall k | 0 <= k < n ensures pieces[0].bucket[0] <= all[k].ts <= pieces[0].bucket[|pieces[0].bucket| - 1] {
      assert pieces[0].bars[k] in pieces[0].bars && all[k].ts == pieces[0].bars[k].ts;
    }
    forall k | n <= k < |all| ensures end < all[k].ts {
      assert all[k] == PieceContents(pieces[1..])[k - n];
    }
  }

  /** So equal contents start with the same bucket, and neither side can hold more of it than the other. */
  lemma {:induction false} FirstPiece(a: seq<Piece>, b: seq<Piece>)
    requires Cut(a) && Cut(b) && SameCalendar(a, b) && a != [] && b != []
    requires PieceContents(a) == PieceContents(b)
    ensures a[0].bucket == b[0].bucket && a[0].day == b[0].day && |a[0].bars| <= |b[0].bars|
  {
    var all, n := PieceContents(a), |b[0].bars|;
    EntriesByBucket(a, a[0].bucket[|a[0].bucket| - 1]);
    EntriesByBucket(b, b[0].bucket[|b[0].bucket| - 1]);
    assert all[0].ts >= a[0].bucket[0] && all[0].ts >= b[0].bucket[0];
    assert a[0] in a && b[0] in b;
    var probe := if n < |all| then all[n].ts else 0;
  }

  /** Equal contents mean the same buckets holding the same values. */
  lemma {:induction false} ContentsDetermineCandles(t: Timeframe, a: seq<Piece>, b: seq<Piece>)
    requires Cut(a) && Cut(b) && SameCalendar(a, b) && PieceContents(a) == PieceContents(b)
    ensures PieceCandles(t, a) == PieceCandles(t, b)
    decreases |a|
  {
    if a == [] {
      if b != [] { ContentsShape(b[0].bars); }
    } else {
      ContentsShape(a[0].bars);
      assert b != [];
      ContentsShape(b[0].bars);
      FirstPiece(a, b);
      SameCalendarFlips(a, b);
      FirstPiece(b, a);
      var n := |a[0].bars|;
      assert PieceContents(a)[..n] == Contents(a[0].bars) && PieceContents(b)[..n] == Contents(b[0].bars);
      assert PieceContents(a)[n..] == PieceContents(a[1..]) && PieceContents(b)[n..] == PieceContents(b[1..]);
      SameContentsSameCandle(t, a[0], b[0]);
      CutRest(a);
      CutRest(b);
      SameCalendarRest(a, b);
      ContentsDetermineCandles(t, a[1..], b[1..]);
      FirstCandle(t, a);
      FirstCandle(t, b);
    }
  }

  lemma FirstCandle(t: Timeframe, pieces: seq<Piece>)
    requires pieces != [] && forall i :: 0 <= i < |pieces| ==> pieces[i].bucket != [] && pieces[i].bars != []
    ensures PieceCandles(t, pieces) == [PieceCandle(t, pieces[0])] + PieceCandles(t, pieces[1..])
  {
    hide PieceCandle;
  }

  lemma SameCalendarFlips(a: seq<Piece>, b: seq<Piece>)
    requires SameCalendar(a, b)
    ensures SameCalendar(b, a)
  {
  }

  lemma SameCalendarRest(a: seq<Piece>, b: seq<Piece>)
    requires SameCalendar(a, b) && a != [] && b != []
    ensures SameCalendar(a[1..], b[1..])
  {
    assert forall p :: p in a[1..] ==> p in a;
    assert forall p :: p in b[1..] ==> p in b;
  }

  lemma CutRest(pieces: seq<Piece>)
    requires Cut(pieces) && pieces != []
    ensures Cut(pieces[1..])
  {
  }

  lemma SameContentsSameCandle(t: Timeframe, p: Piece, q: Piece)
    requires p.bucket == q.bucket && p.bucket != [] && p.day == q.day && p.bars != [] && q.bars != []
    requires Contents(p.bars) == Contents(q.bars)
    ensures PieceCandle(t, p) == PieceCandle(t, q)
  {
    ContentsShape(p.bars);
    ContentsShape(q.bars);
    SameTotals(p.bars, q.bars);
    assert p.bars[0].values == Contents(p.bars)[0].values == q.bars[0].values;
    assert p.bars[|p.bars| - 1].values == Contents(p.bars)[|p.bars| - 1].values == q.bars[|q.bars| - 1].values;
  }

  lemma {:induction false} SameTotals(x: seq<Bar>, y: seq<Bar>)
    requires x != [] && |x| == |y| && forall i :: 0 <= i < |x| ==> Contents(x)[i] == Contents(y)[i]
    ensures Highest(x) == Highest(y) && Lowest(x) == Lowest(y) && Volume(x) == Volume(y)
  {
    ContentsShape(x);
    ContentsShape(y);
    assert x[0].values == Contents(x)[0].values == y[0].values;
    if |x| == 1 {
      assert x[1..] == [] && y[1..] == [];
    } else {
      forall i | 0 <= i < |x| - 1 ensures Contents(x[1..])[i] == Contents(y[1..])[i] {
        assert Contents(x)[i + 1] == Contents(y)[i + 1];
      }
      SameTotals(x[1..], y[1..]);
    }
  }

  function BucketBars(index: seq<Bar>, candles: seq<Candle>): seq<Bar> {
    if candles == [] then []
    else Between(index, candles[0].ts, candles[0].endTs) + BucketBars(index, candles[1..])
  }

  /** The identity of a window of candles: bucket by bucket, sorted, provenance left out. */
  function InputHash(index: seq<Bar>, candles: seq<Candle>): seq<Content> {
    Contents(SortBy(BucketBars(index, candles), Minute))
  }

  /** Each piece holds what the lookup of its bucket finds. */
  ghost predicate LookedUp(index: seq<Bar>, pieces: seq<Piece>) {
    forall i :: 0 <= i < |pieces| ==>
      pieces[i].bucket != [] && pieces[i].bars == Between(index, pieces[i].bucket[0], pieces[i].bucket[|pieces[i].bucket| - 1])
  }

  lemma SliceSorted(index: seq<Bar>, start: int, end: int)
    requires SortedBy(index, Minute)
    ensures SortedBy(Between(index, start, end), Minute)
  {
  }

  lemma BucketBarsUnfold(t: Timeframe, index: seq<Bar>, pieces: seq<Piece>)
    requires pieces != [] && LookedUp(index, pieces) && forall i :: 0 <= i < |pieces| ==> pieces[i].bars != []
    ensures BucketBars(index, PieceCandles(t, pieces)) == pieces[0].bars + BucketBars(index, PieceCandles(t, pieces[1..]))
  {
    FirstCandle(t, pieces);
    assert PieceCandles(t, pieces)[1..] == PieceCandles(t, pieces[1..]);
    var p := pieces[0];
    assert PieceCandle(t, p).ts == p.bucket[0] && PieceCandle(t, p).endTs == p.bucket[|p.bucket| - 1];
    hide PieceCandle, Between, PieceCandles;
  }

  /** What the first piece contributes, and where everything after it starts. */
  lemma FirstBars(index: seq<Bar>, pieces: seq<Piece>) returns (mid: int)
    requires pieces != [] && SortedBy(index, Minute) && Cut(pieces) && LookedUp(index, pieces)
    ensures SortedBy(pieces[0].bars, Minute) && LookedUp(index, pieces[1..]) && Cut(pieces[1..])
    ensures pieces[0].bucket != [] && forall x :: x in pieces[0].bars ==> pieces[0].bucket[0] <= x.ts <= mid
    ensures pieces[0].bucket[0] <= mid
    ensures |pieces| > 1 ==> pieces[1].bucket != [] && mid < pieces[1].bucket[0]
    ensures forall i :: 0 <= i < |pieces| ==> pieces[i].bars != []
  {
    hide Between, SortedBy, Cut;
    CutParts(pieces);
    mid := pieces[0].bucket[|pieces[0].bucket| - 1];
    SliceSorted(index, pieces[0].bucket[0], mid);
    assert pieces[0].bars[0] in pieces[0].bars;
  }

  lemma CutParts(pieces: seq<Piece>)
    requires Cut(pieces) && pieces != []
    ensures Cut(pieces[1..]) && forall i :: 0 <= i < |pieces| ==> pieces[i].Valid()
    ensures |pieces| > 1 ==> pieces[0].bucket[|pieces[0].bucket| - 1] < pieces[1].bucket[0]
  {
  }

  lemma {:induction false} BucketBarsSorted(t: Timeframe, index: seq<Bar>, pieces: seq<Piece>, bars: seq<Bar>)
    requires SortedBy(index, Minute) && Cut(pieces) && LookedUp(index, pieces)
    requires bars == BucketBars(index, PieceCandles(t, pieces))
    ensures SortedBy(bars, Minute) && Contents(bars) == PieceContents(pieces)
    ensures pieces != [] ==> pieces[0].bucket != [] && forall b :: b in bars ==> pieces[0].bucket[0] <= b.ts
    ensures pieces == [] ==> bars == []
    decreases |pieces|
  {
    if pieces != [] {
      var mid := FirstBars(index, pieces);
      BucketBarsUnfold(t, index, pieces);
      hide BucketBars, PieceCandles, SortedBy, Cut, LookedUp;
      var head, tail := pieces[0].bars, BucketBars(index, PieceCandles(t, pieces[1..]));
      BucketBarsSorted(t, index, pieces[1..], tail);
      assert forall b :: b in tail ==> mid < b.ts;
      JoinSorted(head, tail, mid);
      ContentsConcat(head, tail);
    }
  }

  lemma ContentsConcat(a: seq<Bar>, b: seq<Bar>)
    ensures Contents(a + b) == Contents(a) + Contents(b)
  {
  }

  lemma JoinSorted(a: seq<Bar>, b: seq<Bar>, mid: int)
    requires SortedBy(a, Minute) && SortedBy(b, Minute)
    requires forall x :: x in a ==> x.ts <= mid
    requires forall x :: x in b ==> mid < x.ts
    ensures SortedBy(a + b, Minute)
  {
    forall i, j | 0 <= i < j < |a + b| ensures Minute((a + b)[i]) <= Minute((a + b)[j]) {
      if i < |a| <= j { assert a[i] in a && b[j - |a|] in b; }
    }
  }

  /** The hash of a window is the contents of its pieces: assembly order and gaps between buckets play no part. */
  lemma InputHashIsContents(t: Timeframe, index: seq<Bar>, pieces: seq<Piece>)
    requires SortedBy(index, Minute) && Cut(pieces) && LookedUp(index, pieces)
    ensures InputHash(index, PieceCandles(t, pieces)) == PieceContents(pieces)
  {
    BucketBarsSorted(t, index, pieces, BucketBars(index, PieceCandles(t, pieces)));
    SortByFixed(BucketBars(index, PieceCandles(t, pieces)), Minute);
  }

  /** The candles of an identity window that end a longer history of candles. */
  ghost predicate WindowOf(window: seq<Candle>, history: seq<Candle>, index: nat, lookback: nat) {
    index < |history| && window == history[IdentityStart(index, lookback)..index + 1]
  }

  /**
   * The "unchanged" shortcut is sound. If the content behind a bucket's identity window is what it was when a reading was
   * stored -- whichever batches delivered it, and whatever changed outside the window -- detection now finds exactly what
   * detection found then.
   */
  lemma UnchangedHashUnchangedReadings(t: Timeframe, oldBars: seq<Bar>, newBars: seq<Bar>, was: seq<Piece>, now: seq<Piece>,
                                       before: seq<Candle>, after: seq<Candle>, i: nat, j: nat, lookback: nat, d: Detectors)
    requires lookback >= 1 && Cut(was) && Cut(now) && SameCalendar(was, now)
    requires LookedUp(BarIndex(oldBars), was) && LookedUp(BarIndex(newBars), now)
    requires InputHash(BarIndex(oldBars), PieceCandles(t, was)) == InputHash(BarIndex(newBars), PieceCandles(t, now))
    requires OneTimeframe(before) && OneTimeframe(after)
    requires WindowOf(PieceCandles(t, was), before, i, lookback) && WindowOf(PieceCandles(t, now), after, j, lookback)
    ensures Reading(before, i, lookback, d) == Reading(after, j, lookback, d)
  {
    hide Reading, OneTimeframe, SameCalendar, PieceContents, InputHash, BarIndex, LookedUp;
    IndexSorted(oldBars);
    IndexSorted(newBars);
    InputHashIsContents(t, BarIndex(oldBars), was);
    InputHashIsContents(t, BarIndex(newBars), now);
    ContentsDetermineCandles(t, was, now);
    EqualWindowsEqualReadings(before, after, i, j, lookback, d);
  }

  lemma IndexSorted(bars: seq<Bar>)
    ensures SortedBy(BarIndex(bars), Minute)
  {
    SortBySorted(bars, Minute);
  }
}
