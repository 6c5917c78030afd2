/** Versioned, delta-compressed one-minute bars: ingestion, as-of reads and the identity of selected data. */
module BarStore {
  import opened Prelude
  import opened Calendar

  datatype Ohlcv = Ohlcv(open: real, high: real, low: real, close: real, volume: real) {
    predicate Consistent() { low <= open && low <= close && high >= open && high >= close }
  }

  datatype RawBar = RawBar(ticker: string, ts: int, values: Ohlcv)

  function RawMinute(b: RawBar): int { b.ts }

  datatype Bar = Bar(ts: int, values: Ohlcv, batch: nat)

  /** One committed ingestion: the changed minutes of one ticker from one source. */
  datatype Batch = Batch(id: nat, source: string, ticker: string, ingestedAt: int, rows: map<int, Ohlcv>)

  datatype Feed = Feed(source: string, ticker: string)

  predicate Carries(b: Batch, feed: Feed, ts: int, asOf: int) {
    b.source == feed.source && b.ticker == feed.ticker && ts in b.rows && b.ingestedAt <= asOf
  }

  /** ORDER BY ingested_at DESC, batch_id DESC. */
  predicate NewerThan(a: Batch, b: Batch) {
    a.ingestedAt > b.ingestedAt || (a.ingestedAt == b.ingestedAt && a.id > b.id)
  }

  function Newest(batches: seq<Batch>, feed: Feed, ts: int, asOf: int): (r: Option<Batch>)
    ensures r.Some? ==> r.value in batches && r.value.source == feed.source && r.value.ticker == feed.ticker && ts in r.value.rows
                        && r.value.ingestedAt <= asOf
    ensures r.None? ==> forall b :: b in batches && b.source == feed.source && b.ticker == feed.ticker && ts in b.rows ==>
                          asOf < b.ingestedAt
  {
    if batches == [] then None
    else
      var older, b := Newest(batches[..|batches| - 1], feed, ts, asOf), batches[|batches| - 1];
      if Carries(b, feed, ts, asOf) && (older.None? || !NewerThan(older.value, b)) then Some(b) else older
  }

  /** No later commit outranks the chosen row: DISTINCT ON keeps the greatest (ingested_at, batch_id). */
  lemma {:induction false} NewestIsGreatest(batches: seq<Batch>, feed: Feed, ts: int, asOf: int, b: Batch)
    requires b in batches && b.source == feed.source && b.ticker == feed.ticker && ts in b.rows && b.ingestedAt <= asOf
    ensures var r := Newest(batches, feed, ts, asOf);
            r.Some? && (b.ingestedAt < r.value.ingestedAt || (b.ingestedAt == r.value.ingestedAt && b.id <= r.value.id))
  {
    if b in batches[..|batches| - 1] {
      NewestIsGreatest(batches[..|batches| - 1], feed, ts, asOf, b);
    }
  }

  function VersionAsOf(batches: seq<Batch>, feed: Feed, ts: int, asOf: int): Option<Bar> {
    match Newest(batches, feed, ts, asOf)
    case None => None
    case Some(b) => Some(Bar(ts, b.rows[ts], b.id))
  }

  function ValueAsOf(batches: seq<Batch>, feed: Feed, ts: int, asOf: int): Option<Ohlcv> {
    match Newest(batches, feed, ts, asOf)
    case None => None
    case Some(b) => Some(b.rows[ts])
  }

  function StoredMinutes(batches: seq<Batch>, feed: Feed, asOf: int): (r: set<int>)
    ensures forall ts :: ts in r <==> Newest(batches, feed, ts, asOf).Some?
  {
    set b, ts | b in batches && ts in b.rows && Newest(batches, feed, ts, asOf).Some? :: ts
  }

  function BarsAt(batches: seq<Batch>, feed: Feed, asOf: int, minutes: seq<int>): seq<Bar> {
    if minutes == [] then []
    else
      var rest := BarsAt(batches, feed, asOf, minutes[1..]);
      match VersionAsOf(batches, feed, minutes[0], asOf)
      case None => rest
      case Some(bar) => [bar] + rest
  }

  /** The bars of [start, end) as they were known at `asOf`, in order of minute. */
  function ReadAsOf(batches: seq<Batch>, feed: Feed, start: int, end: int, asOf: int): seq<Bar> {
    BarsAt(batches, feed, asOf,
           Ascending(set ts | ts in StoredMinutes(batches, feed, asOf) && start <= ts < end))
  }

  function BarsInMinutes(bars: seq<Bar>, minutes: seq<int>): seq<Bar> {
    Filter(bars, (b: Bar) => b.ts in minutes)
  }

  lemma {:induction false} BarsAtMembers(batches: seq<Batch>, feed: Feed, asOf: int, minutes: seq<int>)
    ensures forall b :: b in BarsAt(batches, feed, asOf, minutes) <==>
              b.ts in minutes && VersionAsOf(batches, feed, b.ts, asOf) == Some(b)
  {
    if minutes != [] { BarsAtMembers(batches, feed, asOf, minutes[1..]); }
  }

  lemma {:induction false} BarsAtFiltered(batches: seq<Batch>, feed: Feed, asOf: int, minutes: seq<int>, p: int -> bool)
    ensures Filter(BarsAt(batches, feed, asOf, minutes), (b: Bar) => p(b.ts))
         == BarsAt(batches, feed, asOf, Filter(minutes, p))
  {
    if minutes != [] {
      BarsAtFiltered(batches, feed, asOf, minutes[1..], p);
      var rest := BarsAt(batches, feed, asOf, minutes[1..]);
      var q := (b: Bar) => p(b.ts);
      match VersionAsOf(batches, feed, minutes[0], asOf)
      case None =>
      case Some(bar) =>
        assert ([bar] + rest)[1..] == rest;
    }
  }

  lemma {:induction false} BarsAtSkipsUnstored(batches: seq<Batch>, feed: Feed, asOf: int, minutes: seq<int>)
    ensures BarsAt(batches, feed, asOf, minutes)
         == BarsAt(batches, feed, asOf, Filter(minutes, m => Newest(batches, feed, m, asOf).Some?))
  {
    if minutes != [] { BarsAtSkipsUnstored(batches, feed, asOf, minutes[1..]); }
  }

  lemma {:induction false} FilterIncreasing(s: seq<int>, p: int -> bool)
    requires StrictlyIncreasing(s)
    ensures StrictlyIncreasing(Filter(s, p))
  {
    if s != [] {
      FilterIncreasing(s[1..], p);
      var rest := Filter(s[1..], p);
      assert forall x :: x in rest ==> x in s[1..] && s[0] < x;
      assert p(s[0]) ==> forall i, j :: 0 <= i < j < |[s[0]] + rest| ==> ([s[0]] + rest)[i] < ([s[0]] + rest)[j] by {
        forall i, j | 0 <= i < j < |[s[0]] + rest| ensures ([s[0]] + rest)[i] < ([s[0]] + rest)[j] {
          assert ([s[0]] + rest)[j] in rest;
        }
      }
    }
  }

  /** Reading a range and keeping the wanted minutes is reading those minutes one by one. */
  lemma ReadSelected(batches: seq<Batch>, feed: Feed, start: int, end: int, asOf: int, minutes: seq<int>)
    requires StrictlyIncreasing(minutes) && forall m :: m in minutes ==> start <= m < end
    ensures BarsInMinutes(ReadAsOf(batches, feed, start, end, asOf), minutes) == BarsAt(batches, feed, asOf, minutes)
  {
    var stored := Ascending(set ts | ts in StoredMinutes(batches, feed, asOf) && start <= ts < end);
    var wanted := (m: int) => m in minutes;
    var known := (m: int) => Newest(batches, feed, m, asOf).Some?;
    BarsAtFiltered(batches, feed, asOf, stored, wanted);
    BarsAtSkipsUnstored(batches, feed, asOf, minutes);
    FilterIncreasing(stored, wanted);
    FilterIncreasing(minutes, known);
    SameMembersSameList(Filter(stored, wanted), Filter(minutes, known));
    FilterAgree(BarsAt(batches, feed, asOf, stored), (b: Bar) => b.ts in minutes, (b: Bar) => wanted(b.ts));
  }

  /** A batch committed after `asOf` changes nothing a read as of that instant returns. */
  lemma LaterBatchInvisible(batches: seq<Batch>, later: Batch, feed: Feed, ts: int, asOf: int)
    requires asOf < later.ingestedAt
    ensures Newest(batches + [later], feed, ts, asOf) == Newest(batches, feed, ts, asOf)
  {
    assert (batches + [later])[..|batches|] == batches;
  }

  lemma {:induction false} LaterBatchesInvisible(batches: seq<Batch>, later: seq<Batch>, feed: Feed, asOf: int)
    requires forall b :: b in later ==> asOf < b.ingestedAt
    ensures forall ts :: Newest(batches + later, feed, ts, asOf) == Newest(batches, feed, ts, asOf)
  {
    if later == [] {
      assert batches + later == batches;
    } else {
      var most, b := later[..|later| - 1], later[|later| - 1];
      LaterBatchesInvisible(batches, most, feed, asOf);
      forall ts ensures Newest(batches + later, feed, ts, asOf) == Newest(batches, feed, ts, asOf) {
        LaterBatchInvisible(batches + most, b, feed, ts, asOf);
        assert batches + later == (batches + most) + [b];
      }
    }
  }

  lemma {:induction false} BarsAtStable(batches: seq<Batch>, later: seq<Batch>, feed: Feed, asOf: int, minutes: seq<int>)
    requires forall b :: b in later ==> asOf < b.ingestedAt
    ensures BarsAt(batches + later, feed, asOf, minutes) == BarsAt(batches, feed, asOf, minutes)
  {
    if minutes != [] {
      LaterBatchesInvisible(batches, later, feed, asOf);
      BarsAtStable(batches, later, feed, asOf, minutes[1..]);
    }
  }

  /** ... so a whole range read "as of T" is frozen once every later commit is stamped after T. */
  lemma ReadStable(batches: seq<Batch>, later: seq<Batch>, feed: Feed, start: int, end: int, asOf: int)
    requires forall b :: b in later ==> asOf < b.ingestedAt
    ensures ReadAsOf(batches + later, feed, start, end, asOf) == ReadAsOf(batches, feed, start, end, asOf)
  {
    LaterBatchesInvisible(batches, later, feed, asOf);
    assert StoredMinutes(batches + later, feed, asOf) == StoredMinutes(batches, feed, asOf);
    BarsAtStable(batches, later, feed, asOf,
                 Ascending(set ts | ts in StoredMinutes(batches, feed, asOf) && start <= ts < end));
  }

  ghost predicate UniqueIds(batches: seq<Batch>) {
    forall i, j :: 0 <= i < j < |batches| ==> batches[i].id != batches[j].id
  }

  function ReadVersion(batches: seq<Batch>, feed: Feed, ts: int, id: nat): (r: Option<Bar>)
    ensures r.Some? ==> exists b :: b in batches && b.id == id && b.source == feed.source && b.ticker == feed.ticker
                                    && ts in b.rows && r.value == Bar(ts, b.rows[ts], id)
  {
    if batches == [] then None
    else if batches[0].id == id && batches[0].source == feed.source && batches[0].ticker == feed.ticker && ts in batches[0].rows
    then Some(Bar(ts, batches[0].rows[ts], id))
    else ReadVersion(batches[1..], feed, ts, id)
  }

  lemma {:induction false} ReadVersionFinds(batches: seq<Batch>, feed: Feed, ts: int, b: Batch)
    requires UniqueIds(batches) && b in batches && ts in b.rows && b.source == feed.source && b.ticker == feed.ticker
    ensures ReadVersion(batches, feed, ts, b.id) == Some(Bar(ts, b.rows[ts], b.id))
  {
    if batches[0] != b { ReadVersionFinds(batches[1..], feed, ts, b); }
  }

  /** The exact version a read returned can always be fetched again by its minute and batch. */
  lemma VersionRecoverable(batches: seq<Batch>, feed: Feed, ts: int, asOf: int)
    requires UniqueIds(batches) && VersionAsOf(batches, feed, ts, asOf).Some?
    ensures var bar := VersionAsOf(batches, feed, ts, asOf).value;
            ReadVersion(batches, feed, bar.ts, bar.batch) == Some(bar)
  {
    ReadVersionFinds(batches, feed, ts, Newest(batches, feed, ts, asOf).value);
  }

  lemma {:induction false} ReadVersionStable(batches: seq<Batch>, later: seq<Batch>, feed: Feed, ts: int, id: nat)
    requires ReadVersion(batches, feed, ts, id).Some?
    ensures ReadVersion(batches + later, feed, ts, id) == ReadVersion(batches, feed, ts, id)
  {
    assert (batches + later)[1..] == batches[1..] + later;
    if ReadVersion(batches[1..], feed, ts, id).Some? { ReadVersionStable(batches[1..], later, feed, ts, id); }
  }

  // ---- ingestion --------------------------------------------------------------------------------------------

  datatype BatchError = TickerMismatch(ts: int) | OutsideRange(ts: int) | DuplicateMinute(ts: int) | InvalidBar(ts: int)

  datatype Validation = Accepted(bars: seq<RawBar>) | Rejected(error: BatchError)

  function BarError(ticker: string, start: int, end: int, seen: set<int>, b: RawBar): Option<BatchError> {
    if b.ticker != ticker then Some(TickerMismatch(b.ts))
    else if !(start <= b.ts < end) then Some(OutsideRange(b.ts))
    else if b.ts in seen then Some(DuplicateMinute(b.ts))
    else if !Whole(b.ts) || !b.values.Consistent() then Some(InvalidBar(b.ts))
    else None
  }

  ghost predicate Acceptable(ticker: string, start: int, end: int, bars: seq<RawBar>) {
    && (forall i :: 0 <= i < |bars| ==>
          && bars[i].ticker == ticker && start <= bars[i].ts < end && Whole(bars[i].ts)
          && bars[i].values.low <= bars[i].values.open <= bars[i].values.high
          && bars[i].values.low <= bars[i].values.close <= bars[i].values.high)
    && KeysDistinct(bars, RawMinute)
  }

  method Validated(ticker: string, start: int, end: int, bars: seq<RawBar>) returns (r: Validation)
    ensures r.Accepted? <==> Acceptable(ticker, start, end, bars)
    ensures r.Accepted? ==> r.bars == SortBy(bars, RawMinute)
    ensures r.Rejected? ==> exists k :: 0 <= k < |bars| && Acceptable(ticker, start, end, bars[..k])
                                        && Some(r.error) == BarError(ticker, start, end, Minutes(bars[..k]), bars[k])
  {
    var seen: set<int> := {};
    var k := 0;
    while k < |bars|
      invariant 0 <= k <= |bars|
      invariant Acceptable(ticker, start, end, bars[..k])
      invariant seen == Minutes(bars[..k])
    {
      var error := BarError(ticker, start, end, seen, bars[k]);
      AcceptableOneMore(ticker, start, end, bars, k);
      if error.Some? {
        return Rejected(error.value);
      }
      seen := seen + {bars[k].ts};
      k := k + 1;
    }
    assert bars[..k] == bars;
    return Accepted(SortBy(bars, RawMinute));
  }

  /** One more bar is acceptable exactly when it raises no error; a bar that does spoils every longer list. */
  lemma AcceptableOneMore(ticker: string, start: int, end: int, bars: seq<RawBar>, k: nat)
    requires k < |bars| && Acceptable(ticker, start, end, bars[..k])
    ensures var error := BarError(ticker, start, end, Minutes(bars[..k]), bars[k]);
            && (error.None? ==> Acceptable(ticker, start, end, bars[..k + 1]))
            && (error.Some? ==> !Acceptable(ticker, start, end, bars))
    ensures Minutes(bars[..k + 1]) == Minutes(bars[..k]) + {bars[k].ts}
  {
    var b, before := bars[k], bars[..k];
    hide Whole, Ohlcv.Consistent;
    assert bars[..k + 1] == before + [b];
    forall i | 0 <= i < k ensures bars[i] == before[i] && before[i].ts in Minutes(before) && RawMinute(bars[i]) == bars[i].ts {}
    if b.ts in Minutes(before) {
      var i :| 0 <= i < k && before[i].ts == b.ts;
      assert RawMinute(bars[i]) == RawMinute(bars[k]);
    }
  }

  function Minutes(bars: seq<RawBar>): set<int> {
    set i | 0 <= i < |bars| :: bars[i].ts
  }

  function Values(bars: seq<RawBar>): (r: map<int, Ohlcv>)
    ensures r.Keys == Minutes(bars)
  {
    if bars == [] then map[]
    else
      assert Minutes(bars) == Minutes(bars[..|bars| - 1]) + {bars[|bars| - 1].ts};
      Values(bars[..|bars| - 1])[bars[|bars| - 1].ts := bars[|bars| - 1].values]
  }

  /** The minutes of a fetched batch that differ from what is already stored at `now`. */
  function Delta(batches: seq<Batch>, feed: Feed, now: int, fetched: map<int, Ohlcv>): map<int, Ohlcv> {
    map ts | ts in fetched && ValueAsOf(batches, feed, ts, now) != Some(fetched[ts]) :: fetched[ts]
  }

  function Store(batches: seq<Batch>, feed: Feed, now: int, id: nat, fetched: map<int, Ohlcv>): seq<Batch> {
    var delta := Delta(batches, feed, now, fetched);
    if delta == map[] then batches else batches + [Batch(id, feed.source, feed.ticker, now, delta)]
  }

  ghost predicate StampedBefore(batches: seq<Batch>, now: int) {
    forall b :: b in batches ==> b.ingestedAt < now
  }

  /** After one ingestion the current view is the old view overlaid with the whole fetch ... */
  lemma StoreOverlays(batches: seq<Batch>, feed: Feed, now: int, id: nat, fetched: map<int, Ohlcv>, ts: int)
    requires StampedBefore(batches, now)
    ensures ValueAsOf(Store(batches, feed, now, id, fetched), feed, ts, now)
         == if ts in fetched then Some(fetched[ts]) else ValueAsOf(batches, feed, ts, now)
  {
    var delta := Delta(batches, feed, now, fetched);
    if delta != map[] {
      var b := Batch(id, feed.source, feed.ticker, now, delta);
      assert (batches + [b])[..|batches|] == batches;
    } else if ts in fetched {
      assert ts !in delta;
    }
  }

  /** ... every other feed, and every earlier instant, is untouched. */
  lemma StoreElsewhere(batches: seq<Batch>, feed: Feed, now: int, id: nat, fetched: map<int, Ohlcv>,
                       other: Feed, ts: int, asOf: int)
    requires StampedBefore(batches, now) && (other != feed || asOf < now)
    ensures Newest(Store(batches, feed, now, id, fetched), other, ts, asOf) == Newest(batches, other, ts, asOf)
  {
    var b := Batch(id, feed.source, feed.ticker, now, Delta(batches, feed, now, fetched));
    assert (batches + [b])[..|batches|] == batches;
  }

  datatype Fetch = Fetch(feed: Feed, now: int, id: nat, values: map<int, Ohlcv>)

  function StoreAll(history: seq<Fetch>): seq<Batch> {
    if history == [] then []
    else
      var f := history[|history| - 1];
      Store(StoreAll(history[..|history| - 1]), f.feed, f.now, f.id, f.values)
  }

  /** Full storage: every complete fetch of the feed known at `asOf`, overlaid in order. */
  function Overlay(history: seq<Fetch>, feed: Feed, asOf: int): map<int, Ohlcv> {
    if history == [] then map[]
    else
      var f, older := history[|history| - 1], Overlay(history[..|history| - 1], feed, asOf);
      if f.feed == feed && f.now <= asOf then older + f.values else older
  }

  ghost predicate ClockAdvances(history: seq<Fetch>) {
    forall i, j :: 0 <= i < j < |history| ==> history[i].now < history[j].now
  }

  lemma {:induction false} StampsBelong(history: seq<Fetch>)
    ensures forall b :: b in StoreAll(history) ==> exists i :: 0 <= i < |history| && b.ingestedAt == history[i].now
  {
    if history != [] {
      StampsBelong(history[..|history| - 1]);
      var older := StoreAll(history[..|history| - 1]);
      forall b | b in StoreAll(history) ensures exists i :: 0 <= i < |history| && b.ingestedAt == history[i].now {
        if b in older {
          var i :| 0 <= i < |history| - 1 && b.ingestedAt == history[..|history| - 1][i].now;
          assert b.ingestedAt == history[i].now;
        } else {
          assert b.ingestedAt == history[|history| - 1].now;
        }
      }
    }
  }

  /** Delta storage refines full storage: at every instant each minute reads the same values in both. */
  lemma {:induction false} DeltaRefinesFull(history: seq<Fetch>, feed: Feed, ts: int, asOf: int)
    requires ClockAdvances(history)
    ensures ValueAsOf(StoreAll(history), feed, ts, asOf)
         == var full := Overlay(history, feed, asOf); if ts in full then Some(full[ts]) else None
  {
    if history != [] {
      var older, f := history[..|history| - 1], history[|history| - 1];
      DeltaRefinesFull(older, feed, ts, asOf);
      StampsBelong(older);
      assert StampedBefore(StoreAll(older), f.now);
      if f.feed == feed && f.now <= asOf {
        CurrentView(StoreAll(older), feed, ts, f.now, asOf);
        StoreOverlays(StoreAll(older), f.feed, f.now, f.id, f.values, ts);
        StoreStamped(StoreAll(older), f);
        CurrentView(StoreAll(history), feed, ts, f.now, asOf);
      } else {
        StoreElsewhere(StoreAll(older), f.feed, f.now, f.id, f.values, feed, ts, asOf);
      }
    }
  }

  lemma StoreStamped(batches: seq<Batch>, f: Fetch)
    requires StampedBefore(batches, f.now)
    ensures forall b :: b in Store(batches, f.feed, f.now, f.id, f.values) ==> b.ingestedAt <= f.now
  {
  }

  /** Reading later than the last commit reads the same as reading at it. */
  lemma {:induction false} CurrentView(batches: seq<Batch>, feed: Feed, ts: int, now: int, asOf: int)
    requires now <= asOf && forall b :: b in batches ==> b.ingestedAt <= now
    ensures Newest(batches, feed, ts, asOf) == Newest(batches, feed, ts, now)
  {
    if batches != [] { CurrentView(batches[..|batches| - 1], feed, ts, now, asOf); }
  }

  /** Fetching again exactly what is stored commits no batch, so every minute keeps its batch id. */
  lemma RefetchStoresNothing(batches: seq<Batch>, feed: Feed, now: int, later: int, id: nat, id': nat,
                             fetched: map<int, Ohlcv>)
    requires StampedBefore(batches, now) && now < later
    ensures var once := Store(batches, feed, now, id, fetched);
            Store(once, feed, later, id', fetched) == once
  {
    var once := Store(batches, feed, now, id, fetched);
    StoreStamped(batches, Fetch(feed, now, id, fetched));
    forall ts | ts in fetched ensures ValueAsOf(once, feed, ts, later) == Some(fetched[ts]) {
      StoreOverlays(batches, feed, now, id, fetched, ts);
      CurrentView(once, feed, ts, now, later);
    }
    assert Delta(once, feed, later, fetched) == map[];
  }

  /** An ingestion commits no batch exactly when every fetched minute already reads as it was fetched. */
  lemma StoresNothingExactlyWhenCurrent(batches: seq<Batch>, feed: Feed, now: int, id: nat, fetched: map<int, Ohlcv>)
    ensures Store(batches, feed, now, id, fetched) == batches
       <==> forall ts :: ts in fetched ==> ValueAsOf(batches, feed, ts, now) == Some(fetched[ts])
  {
    var delta := Delta(batches, feed, now, fetched);
    assert Store(batches, feed, now, id, fetched) == batches <==> delta == map[] by {
      assert delta != map[] ==> |Store(batches, feed, now, id, fetched)| == |batches| + 1;
    }
    NoKeysEmpty(delta);
    assert forall k :: k in delta <==> k in fetched && ValueAsOf(batches, feed, k, now) != Some(fetched[k]);
  }

  lemma NoKeysEmpty<K, V>(m: map<K, V>)
    ensures m == map[] <==> forall k :: k !in m
  {
  }

  /**
   * After any history of fetches, one more fetch commits nothing -- and every minute keeps its batch id -- exactly when it
   * agrees with the overlay of all complete fetches of its feed so far, whichever of them delivered each minute.
   */
  lemma AgreeingFetchStoresNothing(history: seq<Fetch>, feed: Feed, now: int, id: nat, fetched: map<int, Ohlcv>)
    requires ClockAdvances(history)
    ensures Store(StoreAll(history), feed, now, id, fetched) == StoreAll(history)
       <==> forall ts :: ts in fetched ==>
              var full := Overlay(history, feed, now); ts in full && full[ts] == fetched[ts]
  {
    StoresNothingExactlyWhenCurrent(StoreAll(history), feed, now, id, fetched);
    hide Store, StoreAll, Overlay;
    forall ts | ts in fetched
      ensures ValueAsOf(StoreAll(history), feed, ts, now) == Some(fetched[ts])
         <==> (var full := Overlay(history, feed, now); ts in full && full[ts] == fetched[ts])
    {
      DeltaRefinesFull(history, feed, ts, now);
    }
  }

  // ---- identity of selected data ----------------------------------------------------------------------------

  /** One line of the hashed material; `version` is None for a MISSING minute. */
  datatype DataEntry = DataEntry(source: string, ticker: string, minute: int, version: Option<Bar>)

  function BarAt(bars: seq<Bar>, minute: int): (r: Option<Bar>)
    ensures r.Some? ==> r.value in bars && r.value.ts == minute
    ensures r.None? ==> forall b :: b in bars ==> b.ts != minute
  {
    if bars == [] then None else if bars[0].ts == minute then Some(bars[0]) else BarAt(bars[1..], minute)
  }

  ghost predicate DistinctMinutes(bars: seq<Bar>) {
    forall i, j :: 0 <= i < j < |bars| ==> bars[i].ts != bars[j].ts
  }

  function DataEntries(feed: Feed, minutes: seq<int>, bars: seq<Bar>): seq<DataEntry> {
    seq(|minutes|, i requires 0 <= i < |minutes| =>
      DataEntry(feed.source, feed.ticker, minutes[i], BarAt(bars, minutes[i])))
  }

  /** The hash is an injective encoding of its entries, so the entries stand for it; None is the ValueError. */
  function SelectedDataHash(feed: Feed, minutes: seq<int>, bars: seq<Bar>): Option<seq<DataEntry>> {
    if (exists i, j :: 0 <= i < j < |bars| && bars[i].ts == bars[j].ts) || (exists b :: b in bars && b.ts !in minutes)
    then None
    else Some(DataEntries(feed, SortBy(minutes, m => m), bars))
  }

  ghost predicate Indexes(byTs: map<int, Bar>, bars: seq<Bar>) {
    && DistinctMinutes(bars)
    && (forall b :: b in bars ==> b.ts in byTs && byTs[b.ts] == b)
    && (forall ts :: ts in byTs ==> byTs[ts] in bars && byTs[ts].ts == ts)
  }

  lemma IndexesOneMore(byTs: map<int, Bar>, bars: seq<Bar>, b: Bar)
    requires Indexes(byTs, bars) && b.ts !in byTs
    ensures Indexes(byTs[b.ts := b], bars + [b])
  {
  }

  method IndexByMinute(bars: seq<Bar>) returns (r: Option<map<int, Bar>>)
    ensures r.Some? <==> DistinctMinutes(bars)
    ensures r.Some? ==> Indexes(r.value, bars)
  {
    var byTs: map<int, Bar> := map[];
    var k := 0;
    while k < |bars|
      invariant 0 <= k <= |bars|
      invariant Indexes(byTs, bars[..k])
    {
      if bars[k].ts in byTs {
        assert byTs[bars[k].ts] in bars[..k];
        return None;
      }
      IndexesOneMore(byTs, bars[..k], bars[k]);
      assert bars[..k] + [bars[k]] == bars[..k + 1];
      byTs := byTs[bars[k].ts := bars[k]];
      k := k + 1;
    }
    assert bars[..k] == bars;
    return Some(byTs);
  }

  method ComputeSelectedDataHash(feed: Feed, minutes: seq<int>, bars: seq<Bar>) returns (r: Option<seq<DataEntry>>)
    ensures r == SelectedDataHash(feed, minutes, bars)
  {
    hide SortBy;
    var indexed := IndexByMinute(bars);
    if indexed.None? {
      return None;
    }
    var byTs := indexed.value;
    if exists ts :: ts in byTs && ts !in minutes {
      return None;
    }
    assert forall b :: b in bars ==> b.ts in minutes;
    var ordered := SortBy(minutes, m => m);
    var entries: seq<DataEntry> := [];
    var n := 0;
    while n < |ordered|
      invariant 0 <= n <= |ordered|
      invariant entries == DataEntries(feed, ordered[..n], bars)
    {
      var version := if ordered[n] in byTs then Some(byTs[ordered[n]]) else None;
      IndexedBar(byTs, bars, ordered[n]);
      entries := entries + [DataEntry(feed.source, feed.ticker, ordered[n], version)];
      n := n + 1;
    }
    assert ordered[..n] == ordered;
    return Some(entries);
  }

  lemma IndexedBar(byTs: map<int, Bar>, bars: seq<Bar>, ts: int)
    requires Indexes(byTs, bars)
    ensures (if ts in byTs then Some(byTs[ts]) else None) == BarAt(bars, ts)
  {
  }

  /** Equal hashes over the same minutes mean the very same bar versions were used. */
  lemma EqualHashEqualBars(feed: Feed, minutes: seq<int>, bars: seq<Bar>, bars': seq<Bar>)
    requires SelectedDataHash(feed, minutes, bars).Some?
    requires SelectedDataHash(feed, minutes, bars) == SelectedDataHash(feed, minutes, bars')
    ensures forall b :: b in bars <==> b in bars'
  {
    var ordered := SortBy(minutes, m => m);
    MultisetMembers(ordered, minutes);
    EntriesDetermine(feed, minutes, ordered, bars, bars');
    EntriesDetermine(feed, minutes, ordered, bars', bars);
  }

  lemma EntriesDetermine(feed: Feed, minutes: seq<int>, ordered: seq<int>, bars: seq<Bar>, bars': seq<Bar>)
    requires forall m :: m in ordered <==> m in minutes
    requires DistinctMinutes(bars) && forall b :: b in bars ==> b.ts in minutes
    requires DataEntries(feed, ordered, bars) == DataEntries(feed, ordered, bars')
    ensures forall b :: b in bars ==> b in bars'
  {
    forall b | b in bars ensures b in bars' {
      assert b.ts in ordered;
      var i :| 0 <= i < |ordered| && ordered[i] == b.ts;
      assert DataEntries(feed, ordered, bars)[i].version == DataEntries(feed, ordered, bars')[i].version;
      assert BarAt(bars, b.ts) == Some(b);
    }
  }

  // ---- the tables ---------------------------------------------------------------------------------------------

  lemma {:induction false} ValuesMember(bars: seq<RawBar>)
    requires KeysDistinct(bars, RawMinute)
    ensures forall b :: b in bars ==> b.ts in Values(bars) && Values(bars)[b.ts] == b.values
  {
    if bars != [] {
      var most, last := bars[..|bars| - 1], bars[|bars| - 1];
      ValuesMember(most);
      forall b | b in bars ensures b.ts in Values(bars) && Values(bars)[b.ts] == b.values {
        if b in most { assert b.ts in Minutes(most); } else { assert b == last; }
      }
    }
  }

  lemma BarAtRead(batches: seq<Batch>, feed: Feed, start: int, end: int, asOf: int, ts: int)
    requires start <= ts < end
    ensures BarAt(ReadAsOf(batches, feed, start, end, asOf), ts) == VersionAsOf(batches, feed, ts, asOf)
  {
    var minutes := Ascending(set m | m in StoredMinutes(batches, feed, asOf) && start <= m < end);
    BarsAtMembers(batches, feed, asOf, minutes);
    var found := BarAt(ReadAsOf(batches, feed, start, end, asOf), ts);
    if VersionAsOf(batches, feed, ts, asOf).Some? {
      assert VersionAsOf(batches, feed, ts, asOf).value in ReadAsOf(batches, feed, start, end, asOf);
    }
  }

  datatype IngestResult = Refused(error: BatchError) | Unchanged(fetched: nat) | Stored(batch: nat, fetched: nat, stored: nat)

  class BarTables {
    var batches: seq<Batch>
    ghost var clock: int  // the last instant read by a holder of the ingestion lock

    constructor ()
      ensures Valid() && batches == []
    {
      batches, clock := [], 0;
    }

    ghost predicate Valid()
      reads this
    {
      UniqueIds(batches) && forall b :: b in batches ==> b.ingestedAt <= clock
    }

    /** One locked ingestion: only the minutes whose values differ from the current view are written. */
    method StoreBatch(feed: Feed, start: int, end: int, bars: seq<RawBar>, now: int, id: nat) returns (r: IngestResult)
      requires Valid() && clock < now && forall b :: b in batches ==> b.id != id
      modifies this
      ensures Valid()
      ensures r.Refused? <==> !Acceptable(feed.ticker, start, end, bars)
      ensures r.Refused? ==> unchanged(this)
      ensures !r.Refused? ==> clock == now && batches == Store(old(batches), feed, now, id, Values(bars))
      ensures r.Unchanged? ==> batches == old(batches)
    {
      hide SortBy, Filter, Values, Delta, Differs, Acceptable, KeysDistinct;
      var checked := Validated(feed.ticker, start, end, bars);
      if checked.Rejected? {
        return Refused(checked.error);
      }
      clock := now;
      var held := batches;
      var differs := (b: RawBar) => Differs(held, feed, start, end, now, b);
      var changed := Filter(checked.bars, differs);
      ChangedBars(batches, feed, start, end, now, bars, changed, differs);
      if changed == [] {
        return Unchanged(|checked.bars|);
      }
      batches := batches + [Batch(id, feed.source, feed.ticker, now, Values(changed))];
      return Stored(id, |checked.bars|, |changed|);
    }

    /** The ingestion lock is taken, the clock is read, the lock is released. */
    method AcquireDataAsOf(now: int) returns (asOf: int)
      requires Valid() && clock < now
      modifies this`clock
      ensures Valid() && clock == now && asOf == now
      ensures forall b :: b in batches ==> b.ingestedAt <= asOf
    {
      clock := now;
      return now;
    }
  }

  /** The bars that differ from the current read are the delta that full storage would overlay. */
  lemma ChangedBars(batches: seq<Batch>, feed: Feed, start: int, end: int, now: int, bars: seq<RawBar>, changed: seq<RawBar>,
                    differs: RawBar -> bool)
    requires Acceptable(feed.ticker, start, end, bars) && changed == Filter(SortBy(bars, RawMinute), differs)
    requires forall b :: differs(b) == Differs(batches, feed, start, end, now, b)
    ensures Values(changed) == Delta(batches, feed, now, Values(bars))
    ensures changed == [] <==> Delta(batches, feed, now, Values(bars)) == map[]
  {
    hide SortBy, Filter, Values, Delta, Differs;
    SortDistinct(bars, RawMinute);
    FilterDistinct(SortBy(bars, RawMinute), differs, RawMinute);
    MultisetMembers(SortBy(bars, RawMinute), bars);
    ChangedIsDelta(batches, feed, start, end, now, bars, changed);
  }

  predicate Differs(batches: seq<Batch>, feed: Feed, start: int, end: int, now: int, b: RawBar) {
    var held := BarAt(ReadAsOf(batches, feed, start, end, now), b.ts);
    held.None? || held.value.values != b.values
  }

  lemma ValuesAt(bars: seq<RawBar>, ts: int) returns (b: RawBar)
    requires KeysDistinct(bars, RawMinute) && ts in Values(bars)
    ensures b in bars && b.ts == ts && Values(bars)[ts] == b.values
  {
    var i :| 0 <= i < |bars| && bars[i].ts == ts;
    b := bars[i];
    ValuesMember(bars);
  }

  lemma DiffersIsDelta(batches: seq<Batch>, feed: Feed, start: int, end: int, now: int, bars: seq<RawBar>, b: RawBar)
    requires KeysDistinct(bars, RawMinute) && b in bars && start <= b.ts < end
    ensures var delta := Delta(batches, feed, now, Values(bars));
            && (Differs(batches, feed, start, end, now, b) <==> b.ts in delta)
            && (b.ts in delta ==> delta[b.ts] == b.values)
  {
    ValuesMember(bars);
    BarAtRead(batches, feed, start, end, now, b.ts);
  }

  lemma DeltaFrom(batches: seq<Batch>, feed: Feed, now: int, bars: seq<RawBar>, ts: int)
    requires KeysDistinct(bars, RawMinute) && ts in Delta(batches, feed, now, Values(bars))
    ensures exists b :: b in bars && b.ts == ts
  {
    var b := ValuesAt(bars, ts);
  }

  /** Comparing fetched bars with the current read of their range finds exactly the delta. */
  lemma ChangedIsDelta(batches: seq<Batch>, feed: Feed, start: int, end: int, now: int,
                       bars: seq<RawBar>, changed: seq<RawBar>)
    requires KeysDistinct(bars, RawMinute) && KeysDistinct(changed, RawMinute)
    requires forall b :: b in bars ==> start <= b.ts < end
    requires forall b :: b in changed <==> b in bars && Differs(batches, feed, start, end, now, b)
    ensures Values(changed) == Delta(batches, feed, now, Values(bars))
    ensures changed == [] <==> Delta(batches, feed, now, Values(bars)) == map[]
  {
    var delta := Delta(batches, feed, now, Values(bars));
    hide *;
    forall b | b in bars
      ensures (b in changed <==> b.ts in delta) && (b.ts in delta ==> delta[b.ts] == b.values)
    {
      DiffersIsDelta(batches, feed, start, end, now, bars, b);
    }
    forall ts ensures ts in Values(changed) <==> ts in delta {
      if ts in Values(changed) { var b := ValuesAt(changed, ts); }
      if ts in delta {
        DeltaFrom(batches, feed, now, bars, ts);
        var b :| b in bars && b.ts == ts;
        ValuesMember(changed);
      }
    }
    forall ts | ts in delta ensures Values(changed)[ts] == delta[ts] {
      var b := ValuesAt(changed, ts);
    }
    assert Values(changed) == delta;
    if changed != [] {
      assert changed[0] in changed && changed[0].ts in delta;
    } else {
      forall ts ensures ts !in delta {
        if ts in delta { DeltaFrom(batches, feed, now, bars, ts); }
      }
      assert delta == map[];
    }
  }
}
