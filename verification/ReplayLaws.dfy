/** Recalculated orders are honest: their chunks tile the expected minutes and each ex-date is paid once. */
module ReplayLaws {
  import opened Prelude
  import opened Calendar
  import opened BarStore
  import opened Domain
  import opened Events
  import opened History
  import opened HistoryLaws
  import opened FillContract
  import opened Ledger
  import opened Writers
  import opened Replay

  // ---- chunks -----------------------------------------------------------------------------------------------

  /**
   * The dividend chunks of a recalculation: joined they are exactly the expected minutes; only the first carries no
   * ex-date; each ex-date that has an expected minute opens exactly one chunk, at its first minute.
   */
  lemma ChunksPartitionTheMinutes(ctx: OrderContext, asOf: int, dividends: map<int, DividendRow>)
    requires ctx.Valid()
    ensures var r, minutes, days := DividendChunks(ctx, asOf, dividends), ReplayMinutes(ctx, asOf), ReplayDays(ctx, asOf);
            && Flatten(r) == minutes && r[0].day.None?
            && OpensWithItsDay(r, days, dividends.Keys) && DaysOnce(r) && NotBefore(r, days)
            && AllDaysOpened(minutes, days, dividends.Keys, {}, r)
  {
    ChunksLaw(ReplayMinutes(ctx, asOf), ReplayDays(ctx, asOf), dividends.Keys, None, [], {});
    hide ReplayMinutes, ReplayDays, OrderContext.Valid;
  }

  /** A stretch of the expected minutes is re-derived from its own first and last minute, and follows what came before. */
  lemma StretchRederived(calendar: SessionCalendar, start: int, horizon: int, done: seq<int>, chunk: seq<int>, rest: seq<int>)
    requires calendar.Valid() && chunk != []
    requires calendar.ExpectedMinutesSpec(start, horizon) == done + chunk + rest
    ensures var first, last := chunk[0], chunk[|chunk| - 1];
            && chunk == calendar.ExpectedMinutesSpec(first, last + MINUTE)
            && StrictlyIncreasing(chunk)
            && calendar.Expected(first) && calendar.Expected(last) && start <= first <= last < horizon
            && (done != [] ==> calendar.NextExpectedMinute(done[|done| - 1]) == Some(first))
  {
    var first, last := chunk[0], chunk[|chunk| - 1];
    StretchBounds(calendar, start, horizon, done, chunk, rest);
    calendar.MinutesCharacterized(first, last + MINUTE);
    hide SessionCalendar.ExpectedMinutesSpec, SessionCalendar.Valid, SessionCalendar.Expected, SessionCalendar.NextExpectedMinute, StrictlyIncreasing;
    forall m ensures m in chunk <==> m in calendar.ExpectedMinutesSpec(first, last + MINUTE) {
      if calendar.Expected(m) && first <= m < last + MINUTE { UpToLast(calendar, last, m); }
    }
    SameMembersSameList(chunk, calendar.ExpectedMinutesSpec(first, last + MINUTE));
    if done != [] { StretchFollows(calendar, start, horizon, done, chunk, rest); }
  }

  lemma StretchBounds(calendar: SessionCalendar, start: int, horizon: int, done: seq<int>, chunk: seq<int>, rest: seq<int>)
    requires calendar.Valid() && chunk != []
    requires calendar.ExpectedMinutesSpec(start, horizon) == done + chunk + rest
    ensures var first, last := chunk[0], chunk[|chunk| - 1];
            && StrictlyIncreasing(chunk)
            && calendar.Expected(first) && calendar.Expected(last) && start <= first <= last < horizon
            && forall m :: m in chunk <==> calendar.Expected(m) && first <= m <= last
  {
    var all, first, last := done + chunk + rest, chunk[0], chunk[|chunk| - 1];
    calendar.MinutesCharacterized(start, horizon);
    hide SessionCalendar.ExpectedMinutesSpec, SessionCalendar.Valid, SessionCalendar.Expected;
    StretchOrder(done, chunk, rest);
    hide StrictlyIncreasing;
    assert first in all && last in all;
    forall m ensures m in chunk <==> calendar.Expected(m) && first <= m <= last {
      assert m in chunk ==> m in all;
      assert calendar.Expected(m) && first <= m <= last ==> m in all;
    }
  }

  lemma StretchFollows(calendar: SessionCalendar, start: int, horizon: int, done: seq<int>, chunk: seq<int>, rest: seq<int>)
    requires calendar.Valid() && chunk != [] && done != []
    requires calendar.ExpectedMinutesSpec(start, horizon) == done + chunk + rest
    ensures calendar.NextExpectedMinute(done[|done| - 1]) == Some(chunk[0])
  {
    var all, first, d := done + chunk + rest, chunk[0], done[|done| - 1];
    calendar.MinutesCharacterized(start, horizon);
    hide SessionCalendar.ExpectedMinutesSpec, SessionCalendar.Valid, SessionCalendar.Expected, SessionCalendar.NextExpectedMinute;
    StretchOrder(done, chunk, rest);
    assert all[|done|] in all && all[|done| - 1] in all;
    assert d in done;
    calendar.NextExpectedIsLeast(d);
    calendar.ExpectedInRange(first);
    assert calendar.NextExpectedMinute(d).value in all;
  }

  lemma UpToLast(calendar: SessionCalendar, last: int, m: int)
    requires calendar.Expected(last) && calendar.Expected(m) && m < last + MINUTE
    ensures m <= last
  {
    if last < m { MinutesApart(last, m); }
  }

  lemma StretchOrder(done: seq<int>, chunk: seq<int>, rest: seq<int>)
    requires chunk != [] && StrictlyIncreasing(done + chunk + rest)
    ensures StrictlyIncreasing(chunk)
    ensures forall m :: m in done ==> m < chunk[0]
    ensures forall m :: m in chunk ==> chunk[0] <= m <= chunk[|chunk| - 1]
    ensures forall m :: m in rest ==> chunk[|chunk| - 1] < m
    ensures done != [] ==> forall m :: m in done ==> m <= done[|done| - 1]
  {
    var all := done + chunk + rest;
    assert forall i :: 0 <= i < |done| ==> all[i] == done[i];
    assert forall i :: 0 <= i < |chunk| ==> all[|done| + i] == chunk[i];
    assert forall i :: 0 <= i < |rest| ==> all[|done| + |chunk| + i] == rest[i];
    forall i, j | 0 <= i < j < |chunk| ensures chunk[i] < chunk[j] {
      assert all[|done| + i] < all[|done| + j];
    }
    forall m | m in done ensures m < chunk[0] && m <= done[|done| - 1] {
      var i :| 0 <= i < |done| && done[i] == m;
      assert all[i] < all[|done|];
      if i < |done| - 1 { assert all[i] < all[|done| - 1]; }
    }
    forall m | m in rest ensures chunk[|chunk| - 1] < m {
      var i :| 0 <= i < |rest| && rest[i] == m;
      assert all[|done| + |chunk| - 1] < all[|done| + |chunk| + i];
    }
  }

  /** The bars a chunk uses are the bars regeneration reads back from the chunk's bounds. */
  lemma ChunkBars(batches: seq<Batch>, feed: Feed, start: int, horizon: int, asOf: int, all: seq<int>, chunk: seq<int>)
    requires chunk != [] && StrictlyIncreasing(all) && StrictlyIncreasing(chunk)
    requires Filter(all, Within(chunk[0], chunk[|chunk| - 1])) == chunk
    requires forall m :: m in all ==> start <= m < horizon
    requires forall m :: m in chunk ==> chunk[0] <= m < chunk[|chunk| - 1] + MINUTE
    ensures var first, last := chunk[0], chunk[|chunk| - 1];
            Filter(BarsInMinutes(ReadAsOf(batches, feed, start, horizon, asOf), all), BarsWithin(first, last))
            == BarsInMinutes(ReadAsOf(batches, feed, first, last + MINUTE, asOf), chunk)
  {
    hide *;
    var first, last := chunk[0], chunk[|chunk| - 1];
    ReadSelected(batches, feed, start, horizon, asOf, all);
    ReadSelected(batches, feed, first, last + MINUTE, asOf, chunk);
    CutWithin(batches, feed, asOf, all, first, last);
  }

  lemma StretchSelected(done: seq<int>, chunk: seq<int>, rest: seq<int>)
    requires chunk != [] && StrictlyIncreasing(done + chunk + rest)
    ensures Filter(done + chunk + rest, Within(chunk[0], chunk[|chunk| - 1])) == chunk
    ensures StrictlyIncreasing(chunk) && forall m :: m in chunk ==> chunk[0] <= m < chunk[|chunk| - 1] + MINUTE
  {
    hide StrictlyIncreasing, Filter;
    StretchOrder(done, chunk, rest);
    FilterMiddle(done, chunk, rest, Within(chunk[0], chunk[|chunk| - 1]));
  }

  lemma CutWithin(batches: seq<Batch>, feed: Feed, asOf: int, minutes: seq<int>, lo: int, hi: int)
    ensures Filter(BarsAt(batches, feed, asOf, minutes), BarsWithin(lo, hi))
         == BarsAt(batches, feed, asOf, Filter(minutes, Within(lo, hi)))
  {
    BarsAtFiltered(batches, feed, asOf, minutes, Within(lo, hi));
    FilterAgree(BarsAt(batches, feed, asOf, minutes), BarsWithin(lo, hi), (b: Bar) => Within(lo, hi)(b.ts));
  }

  // ---- one write at a time ----------------------------------------------------------------------------------

  /** Recording events about one ex-date (or none) leaves every other ex-date unpaid. */
  lemma OtherDaysUnpaid(known: Known, events: seq<Event>, start: int, exDate: int, other: int)
    requires DividendsOnlyFor(events, exDate) && other != exDate && NoDividendFor(known, other)
    requires Dedupe(known, events, start).Fresh?
    ensures NoDividendFor(Dedupe(known, events, start).known, other)
  {
    DedupeGrows(known, events, start);
    hide Dedupe;
  }

  lemma NoneStillUnpaid(known: Known, events: seq<Event>, start: int, other: int)
    requires NoDividends(events) && NoDividendFor(known, other) && Dedupe(known, events, start).Fresh?
    ensures NoDividendFor(Dedupe(known, events, start).known, other)
  {
    DedupeGrows(known, events, start);
    hide Dedupe;
  }

  ghost predicate Unpaid(known: Known, chunks: seq<Chunk>) {
    forall i :: 0 <= i < |chunks| && chunks[i].day.Some? ==> NoDividendFor(known, chunks[i].day.value)
  }

  /** Run ids are handed out in order: the next one is free. */
  ghost predicate RunsBelow(runs: map<nat, int>, next: nat) {
    forall r :: r in runs ==> r < next
  }

  /** What holds between two chunks. */
  ghost predicate Replaying(m: FillModel, coupled: Coupling, market: Market, p: Progress, done: seq<int>, chunks: seq<Chunk>) {
    && Honest(m, coupled, market.(runs := p.runs), p.file) && p.file.projection.Some?
    && (forall r :: r in market.runs ==> r in p.runs && p.runs[r] == market.runs[r])
    && RunsBelow(p.runs, p.nextRun)
    && Unpaid(KnownOf(Plain(p.file.rows)), chunks)
    && (if done == [] then p.file.segments == []
        else p.file.segments != [] && p.file.segments[|p.file.segments| - 1].barTo == done[|done| - 1])
  }

  lemma PaymentKeeps(m: FillModel, coupled: Coupling, market: Market, f: OrderFile, row: DividendRow, g: OrderFile)
    requires WellBehaved(m, coupled) && Honest(m, coupled, market, f) && f.projection.Some?
    requires NoDividendFor(KnownOf(Plain(f.rows)), row.exDate)
    requires PayDividend(m, f, row) == Written(g)
    ensures Honest(m, coupled, market, g) && g.order == f.order && g.segments == f.segments && g.projection.Some?
    ensures forall other :: other != row.exDate && NoDividendFor(KnownOf(Plain(f.rows)), other)
                            ==> NoDividendFor(KnownOf(Plain(g.rows)), other)
  {
    hide WellBehaved, Honest, Dedupe, KnownOf, NoDividendFor, ApplyTo, DividendsOnlyFor, SourceOf, Plain;
    var ctx, state, known := f.order.terms.context, f.projection.value.state, KnownOf(Plain(f.rows));
    var r := m.applyDividend(state, ctx, row.exDate, row.amount, row.validated);
    var part := DividendPart(row.exDate, row.amount, row.validated);
    DividendEventsOnly(m, coupled, market, f, row);
    AppliedPart(m, coupled, market, f, part, r, g);
    forall other | other != row.exDate && NoDividendFor(known, other) ensures NoDividendFor(KnownOf(Plain(g.rows)), other) {
      OtherDaysUnpaid(known, r.events, ctx.start, row.exDate, other);
    }
  }

  lemma DividendEventsOnly(m: FillModel, coupled: Coupling, market: Market, f: OrderFile, row: DividendRow)
    requires WellBehaved(m, coupled) && Honest(m, coupled, market, f) && f.projection.Some?
    requires NoDividendFor(KnownOf(Plain(f.rows)), row.exDate)
    ensures DividendsOnlyFor(m.applyDividend(f.projection.value.state, f.order.terms.context, row.exDate, row.amount, row.validated).events,
                             row.exDate)
  {
    hide Honest, KnownOf, NoDividendFor, HeadFirst, SegmentsKeep, CreationReplays, DividendsOnlyFor, OrderContext.Valid, RegenerateRows;
    CachedIsRegained(m, coupled, market, f);
    HonestIsValid(m, coupled, market, f);
  }

  lemma EvaluatedChunk(m: FillModel, f: OrderFile, runId: nat, bars: seq<Bar>, minutes: seq<int>, g: OrderFile)
    returns (used: seq<Bar>, r: StepResult, d: Deduped, segment: SegmentRow)
    requires f.projection.Some? && minutes != [] && EvaluateChunk(m, f, runId, bars, minutes) == Written(g)
    ensures used == Filter(bars, BarsWithin(minutes[0], minutes[|minutes| - 1]))
    ensures r == m.runBars(f.projection.value.state, used, f.order.terms.context)
    ensures d == Dedupe(KnownOf(Plain(f.rows)), r.events, f.order.terms.context.start) && d.Fresh?
    ensures segment.runId == runId && segment.barFrom == minutes[0] && segment.barTo == minutes[|minutes| - 1]
    ensures segment.firstSeq == f.projection.value.nextSeq && segment.eventCount == |d.events|
    ensures SelectedDataHash(f.order.terms.Feed(), minutes, used) == Some(segment.dataHash)
    ensures ApplyResult(f, f.projection.value.nextSeq, r, d.events, [segment]) == Written(g)
  {
    hide Dedupe, ApplyResult, SelectedDataHash, Filter, KnownOf;
    used := Filter(bars, BarsWithin(minutes[0], minutes[|minutes| - 1]));
    r := m.runBars(f.projection.value.state, used, f.order.terms.context);
    d := Dedupe(KnownOf(Plain(f.rows)), r.events, f.order.terms.context.start);
    var nextSeq := f.projection.value.nextSeq;
    segment := SegmentRow(runId, minutes[0], minutes[|minutes| - 1], SelectedDataHash(f.order.terms.Feed(), minutes, used).value,
                          nextSeq, |d.events|);
  }

  lemma SegmentsPayNothing(m: FillModel, coupled: Coupling, market: Market, f: OrderFile, bars: seq<Bar>)
    requires WellBehaved(m, coupled) && Honest(m, coupled, market, f) && f.projection.Some?
    ensures NoDividends(m.runBars(f.projection.value.state, bars, f.order.terms.context).events)
  {
    CachedIsRegained(m, coupled, market, f);
    assert SegmentsKeep(m, f.order.terms.context, coupled, f.projection.value.state, KnownOf(Plain(f.rows)), bars);
    hide Honest, WellBehaved;
  }

  /** Evaluating one stretch of minutes keeps the file honest, extends its tiles and pays no dividend. */
  lemma ChunkKeeps(m: FillModel, coupled: Coupling, market: Market, f: OrderFile, runId: nat, asOf: int, horizon: int,
                   done: seq<int>, chunk: seq<int>, rest: seq<int>, g: OrderFile)
    requires WellBehaved(m, coupled) && Honest(m, coupled, market, f) && f.projection.Some?
    requires runId in market.runs && market.runs[runId] == asOf && chunk != [] && horizon <= f.order.terms.context.until
    requires f.order.terms.context.calendar.ExpectedMinutesSpec(f.order.terms.context.start, horizon) == done + chunk + rest
    requires done == [] ==> chunk[0] == f.order.terms.context.start && f.segments == []
    requires done != [] ==> f.segments != [] && f.segments[|f.segments| - 1].barTo == done[|done| - 1]
    requires EvaluateChunk(m, f, runId,
                           BarsInMinutes(ReadAsOf(market.batches, f.order.terms.Feed(), f.order.terms.context.start, horizon, asOf),
                                         done + chunk + rest), chunk) == Written(g)
    ensures Honest(m, coupled, market, g) && g.order == f.order && g.projection.Some?
    ensures g.segments != [] && g.segments[|g.segments| - 1].barTo == chunk[|chunk| - 1]
    ensures forall other :: NoDividendFor(KnownOf(Plain(f.rows)), other) ==> NoDividendFor(KnownOf(Plain(g.rows)), other)
  {
    var ctx, known := f.order.terms.context, KnownOf(Plain(f.rows));
    hide *;
    HonestIsValid(m, coupled, market, f);
    CachedIsRegained(m, coupled, market, f);
    ValidCalendar(ctx);
    var used, r, d, segment := EvaluatedChunk(m, f, runId,
        BarsInMinutes(ReadAsOf(market.batches, f.order.terms.Feed(), ctx.start, horizon, asOf), done + chunk + rest), chunk, g);
    StretchRederived(ctx.calendar, ctx.start, horizon, done, chunk, rest);
    SpecBounds(ctx.calendar, ctx.start, horizon);
    StretchSelected(done, chunk, rest);
    ChunkBars(market.batches, f.order.terms.Feed(), ctx.start, horizon, asOf, done + chunk + rest, chunk);
    EvaluationIsRecorded(m, market, f, segment, chunk, used, d, r);
    TileFacts(ctx, f.segments, segment, chunk[0]);
    ApplyIsAppend(f, r, d.events, [segment]);
    SegmentKeepsHonest(m, coupled, market, f, segment, used, d, r);
    SegmentsPayNothing(m, coupled, market, f, used);
    SegmentAppended(m, coupled, market, f, d, r, segment);
    forall other | NoDividendFor(known, other) ensures NoDividendFor(KnownOf(Plain(g.rows)), other) {
      NoneStillUnpaid(known, r.events, ctx.start, other);
    }
  }

  lemma ValidCalendar(ctx: OrderContext)
    requires ctx.Valid()
    ensures ctx.calendar.Valid()
  {
  }

  lemma SpecBounds(calendar: SessionCalendar, start: int, horizon: int)
    requires calendar.Valid()
    ensures forall m :: m in calendar.ExpectedMinutesSpec(start, horizon) ==> start <= m < horizon
    ensures StrictlyIncreasing(calendar.ExpectedMinutesSpec(start, horizon))
  {
    calendar.MinutesCharacterized(start, horizon);
  }

  lemma SegmentAppended(m: FillModel, coupled: Coupling, market: Market, f: OrderFile, d: Deduped, r: StepResult, g: SegmentRow)
    requires Honest(m, coupled, market, f)
    requires d == Dedupe(KnownOf(Plain(f.rows)), r.events, f.order.terms.context.start) && d.Fresh?
    ensures var h := Append(f, d.events, r.state, [g]);
            && h.order == f.order && h.projection.Some? && h.segments != [] && h.segments[|h.segments| - 1] == g
            && KnownOf(Plain(h.rows)) == d.known
  {
    AppendedSource(m, market, f, d.events, r.state, [g]);
    DedupeExtendsKnown(Plain(f.rows), r.events, f.order.terms.context.start);
    hide RegenerateRows, KnownOf, Dedupe, UniqueKeys;
  }

  // ---- the whole recalculation ------------------------------------------------------------------------------

  /** The dividend rows are looked up by their ex-date. */
  ghost predicate Keyed(dividends: map<int, DividendRow>) {
    forall d :: d in dividends ==> dividends[d].exDate == d
  }

  function PayFirst(m: FillModel, p: Progress, dividends: map<int, DividendRow>, chunk: Chunk): Recalculation
    requires p.file.projection.Some? && (chunk.day.Some? ==> chunk.day.value in dividends)
  {
    if chunk.day.None? then Going(p) else Carried(PayDividend(m, p.file, dividends[chunk.day.value]), p)
  }

  lemma UnpaidRest(known: Known, chunks: seq<Chunk>)
    requires chunks != [] && Unpaid(known, chunks)
    ensures Unpaid(known, chunks[1..])
    ensures chunks[0].day.Some? ==> NoDividendFor(known, chunks[0].day.value)
  {
    hide NoDividendFor;
  }

  lemma UnpaidKept(known: Known, later: Known, chunks: seq<Chunk>, exDate: int)
    requires chunks != [] && DaysOnce(chunks) && chunks[0].day == Some(exDate) && Unpaid(known, chunks)
    requires forall other :: other != exDate && NoDividendFor(known, other) ==> NoDividendFor(later, other)
    ensures Unpaid(later, chunks[1..])
  {
    hide NoDividendFor;
    forall i | 0 <= i < |chunks[1..]| && chunks[1..][i].day.Some? ensures NoDividendFor(later, chunks[1..][i].day.value) {
      assert chunks[1..][i] == chunks[i + 1] && chunks[0].day != chunks[i + 1].day;
    }
  }

  lemma {:induction false} PaidKeeps(m: FillModel, coupled: Coupling, market: Market, p: Progress, dividends: map<int, DividendRow>,
                  done: seq<int>, chunks: seq<Chunk>, q: Progress)
    requires WellBehaved(m, coupled) && Keyed(dividends) && chunks != [] && DaysOnce(chunks)
    requires Replaying(m, coupled, market, p, done, chunks)
    requires chunks[0].day.Some? ==> chunks[0].day.value in dividends
    requires PayFirst(m, p, dividends, chunks[0]) == Going(q)
    ensures Replaying(m, coupled, market, q, done, chunks[1..])
    ensures q.file.order == p.file.order && q.runs == p.runs && q.nextRun == p.nextRun
  {
    hide WellBehaved, Honest, Unpaid, NoDividendFor, KnownOf, ApplyTo, DaysOnce, Replaying, RunsBelow;
    var known, chunk := KnownOf(Plain(p.file.rows)), chunks[0];
    ReplayingParts(m, coupled, market, p, done, chunks);
    UnpaidRest(known, chunks);
    if chunk.day.Some? {
      PaymentKeeps(m, coupled, market.(runs := p.runs), p.file, dividends[chunk.day.value], q.file);
      UnpaidKept(known, KnownOf(Plain(q.file.rows)), chunks, chunk.day.value);
    }
    ReplayingPaid(m, coupled, market, p, done, chunks, q);
  }

  lemma ReplayingPaid(m: FillModel, coupled: Coupling, market: Market, p: Progress, done: seq<int>, chunks: seq<Chunk>, q: Progress)
    requires Replaying(m, coupled, market, p, done, chunks) && chunks != []
    requires q.runs == p.runs && q.nextRun == p.nextRun && q.file.segments == p.file.segments && q.file.projection.Some?
    requires Honest(m, coupled, market.(runs := q.runs), q.file) && Unpaid(KnownOf(Plain(q.file.rows)), chunks[1..])
    ensures Replaying(m, coupled, market, q, done, chunks[1..])
  {
    hide Honest, Unpaid, KnownOf, Plain, RunsBelow;
  }

  /** What stays fixed while the chunks are evaluated. */
  ghost predicate Setting(market: Market, order: Terms, asOf: int, horizon: int, all: seq<int>, bars: seq<Bar>) {
    && order.context.Valid() && horizon <= order.context.until
    && (all != [] ==> all == order.context.calendar.ExpectedMinutesSpec(order.context.start, horizon) && all[0] == order.context.start)
    && bars == BarsInMinutes(ReadAsOf(market.batches, order.Feed(), order.context.start, horizon, asOf), all)
  }

  lemma FreshRun(market: Market, p: Progress, asOf: int)
    requires RunsBelow(p.runs, p.nextRun)
    ensures MarketGrows(market.(runs := p.runs), market.(runs := p.runs[p.nextRun := asOf]), [])
    ensures RunsBelow(p.runs[p.nextRun := asOf], p.nextRun + 1)
  {
    assert market.batches + [] == market.batches;
  }

  lemma {:induction false} EvaluatedKeeps(m: FillModel, coupled: Coupling, market: Market, p: Progress, asOf: int, horizon: int, all: seq<int>,
                       bars: seq<Bar>, done: seq<int>, chunk: seq<int>, rest: seq<int>, chunks: seq<Chunk>, file: OrderFile)
    requires WellBehaved(m, coupled) && Replaying(m, coupled, market, p, done, chunks)
    requires Setting(market, p.file.order.terms, asOf, horizon, all, bars)
    requires chunk != [] && all == done + chunk + rest
    requires p.file.projection.Some? && EvaluateChunk(m, p.file, p.nextRun, bars, chunk) == Written(file)
    ensures file.order == p.file.order
    ensures Replaying(m, coupled, market, Progress(file, p.runs[p.nextRun := asOf], p.nextRun + 1), done + chunk, chunks)
  {
    var before, after := market.(runs := p.runs), market.(runs := p.runs[p.nextRun := asOf]);
    hide *;
    FreshRun(market, p, asOf) by { ReplayingParts(m, coupled, market, p, done, chunks); }
    ReplayingParts(m, coupled, market, p, done, chunks);
    SettingParts(market, p.file.order.terms, asOf, horizon, all, bars);
    HonestStable(m, coupled, before, after, [], p.file);
    ChunkKeeps(m, coupled, after, p.file, p.nextRun, asOf, horizon, done, chunk, rest, file);
    StillUnpaid(KnownOf(Plain(p.file.rows)), KnownOf(Plain(file.rows)), chunks);
    ReplayingAgain(m, coupled, market, p, asOf, done, chunk, chunks, file);
  }

  lemma {:induction false} StillUnpaid(known: Known, later: Known, chunks: seq<Chunk>)
    requires Unpaid(known, chunks)
    requires forall other :: NoDividendFor(known, other) ==> NoDividendFor(later, other)
    ensures Unpaid(later, chunks)
  {
    hide NoDividendFor;
  }

  lemma {:induction false} ReplayingParts(m: FillModel, coupled: Coupling, market: Market, p: Progress, done: seq<int>, chunks: seq<Chunk>)
    requires Replaying(m, coupled, market, p, done, chunks)
    ensures Honest(m, coupled, market.(runs := p.runs), p.file) && p.file.projection.Some?
    ensures RunsBelow(p.runs, p.nextRun) && Unpaid(KnownOf(Plain(p.file.rows)), chunks)
    ensures if done == [] then p.file.segments == []
            else p.file.segments != [] && p.file.segments[|p.file.segments| - 1].barTo == done[|done| - 1]
  {
    hide Honest, RunsBelow, Unpaid, KnownOf;
  }

  lemma {:induction false} ReplayingAgain(m: FillModel, coupled: Coupling, market: Market, p: Progress, asOf: int, done: seq<int>,
                                          chunk: seq<int>, chunks: seq<Chunk>, file: OrderFile)
    requires Replaying(m, coupled, market, p, done, chunks) && chunk != []
    requires Honest(m, coupled, market.(runs := p.runs[p.nextRun := asOf]), file) && file.projection.Some?
    requires Unpaid(KnownOf(Plain(file.rows)), chunks)
    requires file.segments != [] && file.segments[|file.segments| - 1].barTo == chunk[|chunk| - 1]
    ensures Replaying(m, coupled, market, Progress(file, p.runs[p.nextRun := asOf], p.nextRun + 1), done + chunk, chunks)
  {
    hide Honest, Unpaid, KnownOf;
  }

  lemma SettingParts(market: Market, order: Terms, asOf: int, horizon: int, all: seq<int>, bars: seq<Bar>)
    requires Setting(market, order, asOf, horizon, all, bars)
    ensures order.context.Valid() && horizon <= order.context.until
    ensures all != [] ==> all == order.context.calendar.ExpectedMinutesSpec(order.context.start, horizon) && all[0] == order.context.start
    ensures bars == BarsInMinutes(ReadAsOf(market.batches, order.Feed(), order.context.start, horizon, asOf), all)
  {
  }

  lemma {:induction false} StepKeeps(m: FillModel, coupled: Coupling, market: Market, p: Progress, asOf: int, horizon: int, all: seq<int>,
                  bars: seq<Bar>, dividends: map<int, DividendRow>, done: seq<int>, chunks: seq<Chunk>, q: Progress)
    requires WellBehaved(m, coupled) && Keyed(dividends) && chunks != [] && DaysOnce(chunks)
    requires Replaying(m, coupled, market, p, done, chunks)
    requires Setting(market, p.file.order.terms, asOf, horizon, all, bars) && done + Flatten(chunks) == all
    requires p.file.projection.Some? && (chunks[0].day.Some? ==> chunks[0].day.value in dividends)
    requires StepChunk(m, p, asOf, bars, dividends, chunks[0]) == Going(q)
    ensures Replaying(m, coupled, market, q, done + chunks[0].minutes, chunks[1..])
    ensures q.file.order == p.file.order
  {
    hide *;
    var mid := StepParts(m, p, asOf, bars, dividends, chunks[0], q);
    PaidKeeps(m, coupled, market, p, dividends, done, chunks, mid);
    if chunks[0].minutes == [] {
      assert done + [] == done;
    } else {
      FlattenSplits(done, chunks);
      EvaluatedKeeps(m, coupled, market, mid, asOf, horizon, all, bars, done, chunks[0].minutes, Flatten(chunks[1..]), chunks[1..], q.file);
    }
  }

  lemma {:induction false} FlattenSplits(done: seq<int>, chunks: seq<Chunk>)
    requires chunks != []
    ensures done + Flatten(chunks) == done + chunks[0].minutes + Flatten(chunks[1..])
  {
  }

  lemma {:induction false} StepParts(m: FillModel, p: Progress, asOf: int, bars: seq<Bar>, dividends: map<int, DividendRow>, chunk: Chunk, q: Progress)
    returns (mid: Progress)
    requires p.file.projection.Some? && (chunk.day.Some? ==> chunk.day.value in dividends)
    requires StepChunk(m, p, asOf, bars, dividends, chunk) == Going(q)
    ensures PayFirst(m, p, dividends, chunk) == Going(mid)
    ensures chunk.minutes == [] ==> q == mid
    ensures chunk.minutes != [] ==>
              && mid.file.projection.Some? && mid.runs == p.runs && mid.nextRun == p.nextRun
              && EvaluateChunk(m, mid.file, mid.nextRun, bars, chunk.minutes) == Written(q.file)
              && q == Progress(q.file, mid.runs[mid.nextRun := asOf], mid.nextRun + 1)
  {
    hide PayDividend, Dedupe, ApplyResult, SelectedDataHash;
    mid := PayFirst(m, p, dividends, chunk).progress;
  }

  lemma {:induction false} ChunksKeep(m: FillModel, coupled: Coupling, market: Market, p: Progress, asOf: int, horizon: int,
                                      all: seq<int>, bars: seq<Bar>, dividends: map<int, DividendRow>, done: seq<int>,
                                      chunks: seq<Chunk>, q: Progress)
    requires WellBehaved(m, coupled) && Keyed(dividends) && DaysOnce(chunks)
    requires Replaying(m, coupled, market, p, done, chunks)
    requires Setting(market, p.file.order.terms, asOf, horizon, all, bars) && done + Flatten(chunks) == all
    requires forall i :: 0 <= i < |chunks| && chunks[i].day.Some? ==> chunks[i].day.value in dividends
    requires RunChunks(m, p, asOf, bars, dividends, chunks) == Going(q)
    ensures Replaying(m, coupled, market, q, all, []) && q.file.order == p.file.order
    decreases |chunks|
  {
    hide WellBehaved, Setting, StepChunk, Replaying;
    if chunks == [] {
      assert done == all;
    } else {
      ReplayingHasProjection(m, coupled, market, p, done, chunks);
      var next := StepChunk(m, p, asOf, bars, dividends, chunks[0]).progress;
      StepKeeps(m, coupled, market, p, asOf, horizon, all, bars, dividends, done, chunks, next);
      assert (done + chunks[0].minutes) + Flatten(chunks[1..]) == all;
      ChunksKeep(m, coupled, market, next, asOf, horizon, all, bars, dividends, done + chunks[0].minutes, chunks[1..], q);
    }
  }

  lemma ReplayingHasProjection(m: FillModel, coupled: Coupling, market: Market, p: Progress, done: seq<int>, chunks: seq<Chunk>)
    requires Replaying(m, coupled, market, p, done, chunks)
    ensures p.file.projection.Some?
  {
  }

  lemma {:induction false} CloseKeeps(m: FillModel, coupled: Coupling, market: Market, p: Progress, asOf: int, horizon: int, all: seq<int>,
                   bars: seq<Bar>, q: Progress)
    requires WellBehaved(m, coupled) && UniqueIds(market.batches) && p.file.projection.Some?
    requires Honest(m, coupled, market.(runs := p.runs), p.file)
    requires Setting(market, p.file.order.terms, asOf, horizon, all, bars)
    requires CloseOut(m, p, asOf, bars) == Going(q)
    ensures Honest(m, coupled, market.(runs := q.runs), q.file) && q.file.projection.Some? && q.file.order == p.file.order
    ensures q.runs == p.runs && q.nextRun == p.nextRun && q.file.segments == p.file.segments
  {
    var state, ctx := p.file.projection.value.state, p.file.order.terms.context;
    if asOf >= ctx.until && !state.Final() && !state.frozen {
      var bar, r := ClosedParts(m, p, asOf, bars, q);
      hide *;
      SettingParts(market, p.file.order.terms, asOf, horizon, all, bars);
      PartOfBar(market.(runs := p.runs), p.file.order.terms.Feed(), ctx.start, horizon, asOf, all, bar, KnownOf(Plain(p.file.rows)));
      ValidityRuns(m, ctx, state, bar, asOf, r);
      AppliedPart(m, coupled, market.(runs := p.runs), p.file, ValidityPart(bar, asOf), r, q.file);
    }
  }

  lemma ClosedParts(m: FillModel, p: Progress, asOf: int, bars: seq<Bar>, q: Progress) returns (bar: Option<Bar>, r: StepResult)
    requires p.file.projection.Some? && CloseOut(m, p, asOf, bars) == Going(q)
    requires var state := p.file.projection.value.state; asOf >= p.file.order.terms.context.until && !state.Final() && !state.frozen
    ensures bar.Some? ==> bar.value in bars
    ensures m.applyValidityEnd(p.file.projection.value.state, p.file.order.terms.context, bar, asOf) == Some(r)
    ensures ApplyTo(p.file, r) == Written(q.file) && q == p.(file := q.file)
  {
    var state, ctx := p.file.projection.value.state, p.file.order.terms.context;
    bar := LastBarAt(bars, state.lastBarTs);
    r := m.applyValidityEnd(state, ctx, bar, asOf).value;
    hide ApplyTo;
  }

  lemma ValidityRuns(m: FillModel, ctx: OrderContext, state: OrderState, bar: Option<Bar>, now: int, r: StepResult)
    requires m.applyValidityEnd(state, ctx, bar, now) == Some(r)
    ensures RunPart(m, ctx, state, ValidityPart(bar, now)) == Some(r)
  {
  }

  lemma PartOfBar(market: Market, feed: Feed, start: int, end: int, asOf: int, minutes: seq<int>, bar: Option<Bar>, known: Known)
    requires UniqueIds(market.batches)
    requires bar.Some? ==> bar.value in BarsInMinutes(ReadAsOf(market.batches, feed, start, end, asOf), minutes)
    ensures PartOk(market, feed, known, ValidityPart(bar, asOf))
  {
    hide BarsInMinutes, ReadAsOf, UniqueIds, ReadVersion;
    if bar.Some? { ReadBarNamed(market.batches, feed, start, end, asOf, minutes, bar.value); }
  }

  lemma ReadBarNamed(batches: seq<Batch>, feed: Feed, start: int, end: int, asOf: int, minutes: seq<int>, bar: Bar)
    requires UniqueIds(batches) && bar in BarsInMinutes(ReadAsOf(batches, feed, start, end, asOf), minutes)
    ensures ReadVersion(batches, feed, bar.ts, bar.batch) == Some(bar)
  {
    var stored := Ascending(set m | m in StoredMinutes(batches, feed, asOf) && start <= m < end);
    BarsAtMembers(batches, feed, asOf, stored);
    assert bar in ReadAsOf(batches, feed, start, end, asOf);
    VersionRecoverable(batches, feed, bar.ts, asOf);
  }

  lemma ReplaySetting(market: Market, order: Terms, asOf: int)
    requires order.context.Valid()
    ensures Setting(market, order, asOf, Min(order.context.until, FloorMinute(asOf)),
                    ReplayMinutes(order.context, asOf), ReplayBars(market, order, asOf))
  {
    ReplayMinutesExpected(order.context, asOf);
    hide SessionCalendar.ExpectedMinutesSpec, SessionCalendar.Expected, ReadAsOf, BarsInMinutes, FloorMinute;
  }

  lemma RecreatedReplaying(m: FillModel, coupled: Coupling, market: Market, source: OrderFile, order: OrderRow,
                           nextRun: nat, chunks: seq<Chunk>, g: OrderFile)
    requires WellBehaved(m, coupled) && order.terms.context.Valid() && Recreate(m, source, order) == Written(g)
    requires RunsBelow(market.runs, nextRun)
    ensures Replaying(m, coupled, market, Progress(g, market.runs, nextRun), [], chunks) && g.order == order
  {
    var payload := FirstPayload(source).value;
    assert market.(runs := market.runs) == market;
    hide WellBehaved, Create, FirstPayload, Honest, OrderContext.Valid;
    CreateIsHonest(m, coupled, market, order, payload.inherited, payload.extra, g);
    NothingPaid(Plain(g.rows), chunks);
  }

  lemma NothingPaid(log: seq<Event>, chunks: seq<Chunk>)
    requires NoDividends(log)
    ensures Unpaid(KnownOf(log), chunks)
  {
    KnownOfMembers(log);
  }

  lemma RecalculationParts(m: FillModel, market: Market, source: OrderFile, order: OrderRow, asOf: int,
                           dividends: map<int, DividendRow>, nextRun: nat, q: Progress) returns (g: OrderFile, p: Progress)
    requires order.terms.context.Valid()
    requires Recalculate(m, market, source, order, asOf, dividends, nextRun) == Going(q)
    ensures Recreate(m, source, order) == Written(g)
    ensures forall i :: 0 <= i < |DividendChunks(order.terms.context, asOf, dividends)| && DividendChunks(order.terms.context, asOf, dividends)[i].day.Some?
                        ==> DividendChunks(order.terms.context, asOf, dividends)[i].day.value in dividends
    ensures RunChunks(m, Progress(g, market.runs, nextRun), asOf, ReplayBars(market, order.terms, asOf), dividends,
                      DividendChunks(order.terms.context, asOf, dividends)) == Going(p)
    ensures CloseOut(m, p, asOf, ReplayBars(market, order.terms, asOf)) == Going(q)
  {
    ChunkDaysStored(order.terms.context, asOf, dividends);
    g := Recreate(m, source, order).file;
    hide RunChunks, CloseOut, Recreate, DividendChunks, ReplayBars, OrderContext.Valid;
    p := RunChunks(m, Progress(g, market.runs, nextRun), asOf, ReplayBars(market, order.terms, asOf), dividends,
                   DividendChunks(order.terms.context, asOf, dividends)).progress;
  }

  /**
   * A recalculated order is honest: whatever source, configuration, watermark and dividends it starts from, its history
   * regenerates to exactly the projection it stored, and its segments tile every expected minute before the watermark.
   */
  lemma RecalculateIsHonest(m: FillModel, coupled: Coupling, market: Market, source: OrderFile, order: OrderRow, asOf: int,
                            dividends: map<int, DividendRow>, nextRun: nat, q: Progress)
    requires WellBehaved(m, coupled) && order.terms.context.Valid() && Keyed(dividends) && UniqueIds(market.batches)
    requires RunsBelow(market.runs, nextRun)
    requires Recalculate(m, market, source, order, asOf, dividends, nextRun) == Going(q)
    ensures Honest(m, coupled, market.(runs := q.runs), q.file) && q.file.order == order && q.file.projection.Some?
    ensures forall r :: r in market.runs ==> r in q.runs && q.runs[r] == market.runs[r]
    ensures RunsBelow(q.runs, q.nextRun)
    ensures var minutes, segments := ReplayMinutes(order.terms.context, asOf), q.file.segments;
            if minutes == [] then segments == []
            else segments != [] && segments[|segments| - 1].barTo == minutes[|minutes| - 1]
  {
    hide *;
    var ctx := order.terms.context;
    var chunks, minutes, horizon := DividendChunks(ctx, asOf, dividends), ReplayMinutes(ctx, asOf), Min(ctx.until, FloorMinute(asOf));
    var bars := ReplayBars(market, order.terms, asOf);
    var g, p := RecalculationParts(m, market, source, order, asOf, dividends, nextRun, q);
    RecreatedReplaying(m, coupled, market, source, order, nextRun, chunks, g);
    ChunksPartitionTheMinutes(ctx, asOf, dividends);
    ReplaySetting(market, order.terms, asOf);
    assert [] + Flatten(chunks) == minutes;
    ChunksKeep(m, coupled, market, Progress(g, market.runs, nextRun), asOf, horizon, minutes, bars, dividends, [], chunks, p);
    AllReplayed(m, coupled, market, p, minutes);
    CloseKeeps(m, coupled, market, p, asOf, horizon, minutes, bars, q);
  }

  lemma AllReplayed(m: FillModel, coupled: Coupling, market: Market, p: Progress, minutes: seq<int>)
    requires Replaying(m, coupled, market, p, minutes, [])
    ensures Honest(m, coupled, market.(runs := p.runs), p.file) && p.file.projection.Some?
    ensures forall r :: r in market.runs ==> r in p.runs && p.runs[r] == market.runs[r]
    ensures RunsBelow(p.runs, p.nextRun)
    ensures if minutes == [] then p.file.segments == []
            else p.file.segments != [] && p.file.segments[|p.file.segments| - 1].barTo == minutes[|minutes| - 1]
  {
  }
}
