/** What a recalculated order comes to, told minute by minute: the chunks and bulk evaluations leave no trace in the result. */
module RecalculationLaws {
  import opened Prelude
  import opened Calendar
  import opened BarStore
  import opened Domain
  import opened Events
  import opened History
  import opened Ledger
  import opened Writers
  import opened Replay
  import opened ReplayLaws

  /** What a recalculation works from. */
  datatype Inputs = Inputs(m: FillModel, order: Terms, batches: seq<Batch>, asOf: int, dividends: map<int, DividendRow>) {
    ghost function Paid(state: OrderState, day: int): OrderState {
      if day !in dividends then state
      else m.applyDividend(state, order.context, dividends[day].exDate, dividends[day].amount, dividends[day].validated).state
    }

    ghost function Evaluated(state: OrderState, minutes: seq<int>): OrderState {
      m.runBars(state, BarsAt(batches, order.Feed(), asOf, minutes), order.context).state
    }
  }

  /** A model for which it does not matter how bars in time order are cut. */
  ghost predicate Foldable(m: FillModel) {
    forall state, a: seq<Bar>, b: seq<Bar>, ctx :: (forall x, y :: x in a && y in b ==> x.ts <= y.ts) ==>
      m.runBars(m.runBars(state, a, ctx).state, b, ctx).state == m.runBars(state, a + b, ctx).state
  }

  /** It is the first of the minutes on its day, and that day has a dividend. */
  ghost predicate OpensExDate(x: Inputs, minutes: seq<int>, dayOf: map<int, int>, k: nat)
    requires k < |minutes| && Covers(dayOf, minutes)
  {
    dayOf[minutes[k]] in x.dividends && forall j :: 0 <= j < k ==> dayOf[minutes[j]] != dayOf[minutes[k]]
  }

  /** The state after `k` minutes: the first minute of an ex-date pays its dividend, then the minute's stored bar is evaluated. */
  ghost function StateAfter(x: Inputs, minutes: seq<int>, dayOf: map<int, int>, start: OrderState, k: nat): OrderState
    requires k <= |minutes| && Covers(dayOf, minutes)
  {
    if k == 0 then start
    else
      var before := StateAfter(x, minutes, dayOf, start, k - 1);
      x.Evaluated(if OpensExDate(x, minutes, dayOf, k - 1) then x.Paid(before, dayOf[minutes[k - 1]]) else before, [minutes[k - 1]])
  }

  ghost function ChunkState(x: Inputs, state: OrderState, chunk: Chunk): OrderState {
    var paid := if chunk.day.Some? then x.Paid(state, chunk.day.value) else state;
    if chunk.minutes == [] then paid else x.Evaluated(paid, chunk.minutes)
  }

  ghost function ChunkStates(x: Inputs, state: OrderState, chunks: seq<Chunk>): OrderState
    decreases |chunks|
  {
    if chunks == [] then state else ChunkStates(x, ChunkState(x, state, chunks[0]), chunks[1..])
  }

  lemma {:induction false} BarsAtJoin(batches: seq<Batch>, feed: Feed, asOf: int, a: seq<int>, b: seq<int>)
    ensures BarsAt(batches, feed, asOf, a + b) == BarsAt(batches, feed, asOf, a) + BarsAt(batches, feed, asOf, b)
  {
    hide VersionAsOf;
    if a == [] {
      assert a + b == b;
    } else {
      assert (a + b)[1..] == a[1..] + b;
      BarsAtJoin(batches, feed, asOf, a[1..], b);
    }
  }

  lemma EvaluatedThen(x: Inputs, state: OrderState, minutes: seq<int>, ts: int)
    requires Foldable(x.m) && forall t :: t in minutes ==> t < ts
    ensures x.Evaluated(x.Evaluated(state, minutes), [ts]) == x.Evaluated(state, minutes + [ts])
  {
    BarsAtJoin(x.batches, x.order.Feed(), x.asOf, minutes, [ts]);
    BarsAtMembers(x.batches, x.order.Feed(), x.asOf, minutes);
    BarsAtMembers(x.batches, x.order.Feed(), x.asOf, [ts]);
    hide BarsAt, VersionAsOf;
  }

  /** One more minute of a chunk. */
  lemma ChunkGrows(x: Inputs, state: OrderState, pending: Option<int>, current: seq<int>, ts: int)
    requires Foldable(x.m) && forall t :: t in current ==> t < ts
    ensures ChunkState(x, state, Chunk(pending, current + [ts])) == x.Evaluated(ChunkState(x, state, Chunk(pending, current)), [ts])
  {
    hide Foldable, x.Evaluated;
    var paid := if pending.Some? then x.Paid(state, pending.value) else state;
    if current == [] {
      assert current + [ts] == [ts];
    } else {
      EvaluatedThen(x, paid, current, ts);
    }
  }

  ghost predicate AppliedUpTo(x: Inputs, minutes: seq<int>, dayOf: map<int, int>, i: nat, applied: set<int>)
    requires i <= |minutes| && Covers(dayOf, minutes)
  {
    forall d :: d in applied <==> d in x.dividends && exists j :: 0 <= j < i && dayOf[minutes[j]] == d
  }

  lemma AppliedNext(x: Inputs, minutes: seq<int>, dayOf: map<int, int>, i: nat, applied: set<int>)
    requires i < |minutes| && Covers(dayOf, minutes) && AppliedUpTo(x, minutes, dayOf, i, applied)
    ensures OpensExDate(x, minutes, dayOf, i) <==> dayOf[minutes[i]] in x.dividends && dayOf[minutes[i]] !in applied
    ensures AppliedUpTo(x, minutes, dayOf, i + 1, if dayOf[minutes[i]] in x.dividends then applied + {dayOf[minutes[i]]} else applied)
  {
    var day := dayOf[minutes[i]];
    forall d ensures d in (if day in x.dividends then applied + {day} else applied)
                <==> d in x.dividends && exists j :: 0 <= j < i + 1 && dayOf[minutes[j]] == d {
      if d == day { assert dayOf[minutes[i]] == d; }
    }
  }

  /** Cutting into chunks changes nothing: from any point on, the chunks still to come lead to the state the minutes lead to. */
  lemma {:induction false} ChunksTell(x: Inputs, minutes: seq<int>, dayOf: map<int, int>, start: OrderState, i: nat, state: OrderState,
                                      pending: Option<int>, current: seq<int>, applied: set<int>)
    requires Foldable(x.m) && StrictlyIncreasing(minutes) && Covers(dayOf, minutes) && i <= |minutes|
    requires |current| <= i && current == minutes[i - |current|..i] && AppliedUpTo(x, minutes, dayOf, i, applied)
    requires ChunkState(x, state, Chunk(pending, current)) == StateAfter(x, minutes, dayOf, start, i)
    ensures Covers(dayOf, minutes[i..])
    ensures ChunkStates(x, state, Chunks(minutes[i..], dayOf, x.dividends.Keys, pending, current, applied))
         == StateAfter(x, minutes, dayOf, start, |minutes|)
    decreases |minutes| - i
  {
    hide Foldable, StrictlyIncreasing, ChunkState, AppliedUpTo, OpensExDate, x.Evaluated, x.Paid;
    if i == |minutes| {
    } else {
      var ts, day, rest := minutes[i], dayOf[minutes[i]], minutes[i..];
      assert rest[0] == ts && rest[1..] == minutes[i + 1..];
      AppliedNext(x, minutes, dayOf, i, applied);
      if day in x.dividends && day !in applied {
        OpeningState(x, StateAfter(x, minutes, dayOf, start, i), day, ts);
        ChunksTell(x, minutes, dayOf, start, i + 1, StateAfter(x, minutes, dayOf, start, i), Some(day), [ts], applied + {day});
      } else {
        EarlierMinutes(minutes, i, current);
        ChunkGrows(x, state, pending, current, ts);
        if day in x.dividends { assert applied + {day} == applied; }
        ChunksTell(x, minutes, dayOf, start, i + 1, state, pending, current + [ts], applied);
      }
    }
  }

  lemma OpeningState(x: Inputs, state: OrderState, day: int, ts: int)
    ensures ChunkState(x, state, Chunk(Some(day), [ts])) == x.Evaluated(x.Paid(state, day), [ts])
  {
  }

  lemma EarlierMinutes(minutes: seq<int>, i: nat, current: seq<int>)
    requires StrictlyIncreasing(minutes) && i < |minutes| && |current| <= i && current == minutes[i - |current|..i]
    ensures forall t :: t in current ==> t < minutes[i]
    ensures current + [minutes[i]] == minutes[i - |current|..i + 1]
  {
  }

  // ---- the writes -----------------------------------------------------------------------------------------------

  lemma WrittenState(f: OrderFile, nextSeq: nat, r: StepResult, events: seq<Event>, segments: seq<SegmentRow>, g: OrderFile)
    requires ApplyResult(f, nextSeq, r, events, segments) == Written(g)
    ensures g.order == f.order && g.projection.Some? && g.projection.value.state == r.state
  {
  }

  lemma PaidState(x: Inputs, p: Progress, chunk: Chunk, mid: Progress)
    requires p.file.projection.Some? && (chunk.day.Some? ==> chunk.day.value in x.dividends) && p.file.order.terms == x.order
    requires PayFirst(x.m, p, x.dividends, chunk) == Going(mid)
    ensures mid.file.order == p.file.order && mid.file.projection.Some?
    ensures mid.file.projection.value.state
         == if chunk.day.Some? then x.Paid(p.file.projection.value.state, chunk.day.value) else p.file.projection.value.state
  {
    hide Dedupe, KnownOf;
    if chunk.day.Some? {
      var row := x.dividends[chunk.day.value];
      var r := x.m.applyDividend(p.file.projection.value.state, p.file.order.terms.context, row.exDate, row.amount, row.validated);
      var d := AppliedParts(p.file, r, mid.file);
      WrittenState(p.file, p.file.projection.value.nextSeq, r, d.events, [], mid.file);
    }
  }

  lemma ChunkIsTold(x: Inputs, p: Progress, bars: seq<Bar>, chunk: Chunk, q: Progress)
    requires p.file.projection.Some? && (chunk.day.Some? ==> chunk.day.value in x.dividends) && p.file.order.terms == x.order
    requires StepChunk(x.m, p, x.asOf, bars, x.dividends, chunk) == Going(q)
    requires chunk.minutes != [] ==>
               Filter(bars, BarsWithin(chunk.minutes[0], chunk.minutes[|chunk.minutes| - 1])) == BarsAt(x.batches, x.order.Feed(), x.asOf, chunk.minutes)
    ensures q.file.order == p.file.order && q.file.projection.Some?
    ensures q.file.projection.value.state == ChunkState(x, p.file.projection.value.state, chunk)
  {
    hide StepChunk, PayFirst, EvaluateChunk, ApplyResult, Dedupe, BarsAt, Filter, x.Paid;
    var mid := StepParts(x.m, p, x.asOf, bars, x.dividends, chunk, q);
    PaidState(x, p, chunk, mid);
    if chunk.minutes != [] {
      var used, r, d, segment := EvaluatedChunk(x.m, mid.file, mid.nextRun, bars, chunk.minutes, q.file);
      WrittenState(mid.file, mid.file.projection.value.nextSeq, r, d.events, [segment], q.file);
    }
  }

  lemma {:induction false} ChunksAreTold(x: Inputs, p: Progress, all: seq<int>, done: seq<int>, chunks: seq<Chunk>, q: Progress)
    requires StrictlyIncreasing(all) && done + Flatten(chunks) == all
    requires p.file.projection.Some? && p.file.order.terms == x.order
    requires forall i :: 0 <= i < |chunks| && chunks[i].day.Some? ==> chunks[i].day.value in x.dividends
    requires RunChunks(x.m, p, x.asOf, BarsAt(x.batches, x.order.Feed(), x.asOf, all), x.dividends, chunks) == Going(q)
    ensures q.file.order == p.file.order && q.file.projection.Some?
    ensures q.file.projection.value.state == ChunkStates(x, p.file.projection.value.state, chunks)
    decreases |chunks|
  {
    hide StrictlyIncreasing, StepChunk, BarsAt, Filter, ChunkState;
    if chunks != [] {
      var bars, minutes := BarsAt(x.batches, x.order.Feed(), x.asOf, all), chunks[0].minutes;
      var next := StepChunk(x.m, p, x.asOf, bars, x.dividends, chunks[0]).progress;
      if minutes != [] {
        FlattenSplits(done, chunks);
        StretchSelected(done, minutes, Flatten(chunks[1..]));
        CutWithin(x.batches, x.order.Feed(), x.asOf, all, minutes[0], minutes[|minutes| - 1]);
      }
      ChunkIsTold(x, p, bars, chunks[0], next);
      assert (done + minutes) + Flatten(chunks[1..]) == all;
      ChunksAreTold(x, next, all, done + minutes, chunks[1..], q);
    }
  }

  /** The minutes of a recalculation: every expected minute of the order that is over by the watermark. */
  lemma ReplayMinutesAre(ctx: OrderContext, asOf: int, ts: int)
    requires ctx.Valid()
    ensures ts in ReplayMinutes(ctx, asOf) <==> ctx.calendar.Expected(ts) && ctx.start <= ts < ctx.until && ts + MINUTE <= asOf
    ensures StrictlyIncreasing(ReplayMinutes(ctx, asOf))
  {
    ReplayMinutesExpected(ctx, asOf);
    ctx.calendar.MinutesCharacterized(ctx.start, Min(ctx.until, FloorMinute(asOf)));
    hide SessionCalendar.ExpectedMinutesSpec, FloorMinute;
    if ctx.calendar.Expected(ts) { MinuteIsOver(ts, ctx.until, asOf); }
    hide SessionCalendar.Expected;
  }

  lemma MinuteIsOver(ts: int, until: int, asOf: int)
    requires Whole(ts)
    ensures ts < Min(until, FloorMinute(asOf)) <==> ts < until && ts + MINUTE <= asOf
  {
    if ts < FloorMinute(asOf) { MinutesApart(ts, FloorMinute(asOf)); }
  }

  /** A minute's day is that of the session that holds it. */
  lemma ReplayDaysAre(ctx: OrderContext, asOf: int, ts: int)
    requires ctx.Valid() && ts in ReplayMinutes(ctx, asOf)
    ensures ts in ReplayDays(ctx, asOf)
    ensures exists s :: s in ctx.calendar.sessions && s.open <= ts < s.close && s.day == ReplayDays(ctx, asOf)[ts]
  {
    ReplayMinutesExpected(ctx, asOf);
    ExpectedIsContained(ctx.calendar, ts);
    hide ReplayMinutes, SessionCalendar.SessionContaining, SessionCalendar.Valid, SessionCalendar.Expected;
    var s := ctx.calendar.SessionContaining(ts).value;
    assert s in ctx.calendar.sessions && s.day == DayOf(ctx.calendar, ts);
  }

  /** The bar that closes an order still live at its end: the stored version of its last evaluated minute, if it was replayed. */
  ghost function ClosingBar(x: Inputs, minutes: seq<int>, state: OrderState): Option<Bar> {
    if state.lastBarTs.Some? && state.lastBarTs.value in minutes
    then VersionAsOf(x.batches, x.order.Feed(), state.lastBarTs.value, x.asOf) else None
  }

  lemma {:induction false} LastBarIsClosing(batches: seq<Batch>, feed: Feed, asOf: int, minutes: seq<int>, ts: Option<int>)
    requires StrictlyIncreasing(minutes)
    ensures LastBarAt(BarsAt(batches, feed, asOf, minutes), ts)
         == if ts.Some? && ts.value in minutes then VersionAsOf(batches, feed, ts.value, asOf) else None
  {
    var bars := BarsAt(batches, feed, asOf, minutes);
    BarsAtMembers(batches, feed, asOf, minutes);
    LastBarFound(bars, ts);
    hide BarsAt, LastBarAt;
  }

  lemma {:induction false} LastBarFound(bars: seq<Bar>, ts: Option<int>)
    ensures LastBarAt(bars, ts).None? <==> forall b :: b in bars ==> ts != Some(b.ts)
    ensures LastBarAt(bars, ts).Some? ==> LastBarAt(bars, ts).value in bars && ts == Some(LastBarAt(bars, ts).value.ts)
  {
    if bars != [] {
      LastBarFound(bars[..|bars| - 1], ts);
      assert forall b :: b in bars <==> b in bars[..|bars| - 1] || b == bars[|bars| - 1];
    }
  }

  /** How a replayed order ends: past its validity, a running one is closed on its closing bar. */
  ghost predicate EndsAs(x: Inputs, minutes: seq<int>, reached: OrderState, state: OrderState) {
    if x.asOf < x.order.context.until || reached.Final() || reached.frozen then state == reached
    else
      var ended := x.m.applyValidityEnd(reached, x.order.context, ClosingBar(x, minutes, reached), x.asOf);
      ended.Some? && state == ended.value.state
  }

  lemma ClosedState(x: Inputs, p: Progress, minutes: seq<int>, q: Progress)
    requires p.file.projection.Some? && p.file.order.terms == x.order && StrictlyIncreasing(minutes)
    requires CloseOut(x.m, p, x.asOf, BarsAt(x.batches, x.order.Feed(), x.asOf, minutes)) == Going(q)
    ensures q.file.projection.Some? && EndsAs(x, minutes, p.file.projection.value.state, q.file.projection.value.state)
  {
    hide BarsAt, ApplyResult, Dedupe, KnownOf, LastBarAt, VersionAsOf, StrictlyIncreasing;
    var state, bars := p.file.projection.value.state, BarsAt(x.batches, x.order.Feed(), x.asOf, minutes);
    if !(x.asOf < x.order.context.until || state.Final() || state.frozen) {
      LastBarIsClosing(x.batches, x.order.Feed(), x.asOf, minutes, state.lastBarTs);
      var r := x.m.applyValidityEnd(state, x.order.context, ClosingBar(x, minutes, state), x.asOf).value;
      var d := AppliedParts(p.file, r, q.file);
      WrittenState(p.file, p.file.projection.value.nextSeq, r, d.events, [], q.file);
    }
  }

  lemma ReplayBarsAre(market: Market, order: Terms, asOf: int)
    requires order.context.Valid()
    ensures ReplayBars(market, order, asOf) == BarsAt(market.batches, order.Feed(), asOf, ReplayMinutes(order.context, asOf))
  {
    var ctx, horizon := order.context, Min(order.context.until, FloorMinute(asOf));
    ReplayMinutesExpected(ctx, asOf);
    ctx.calendar.MinutesCharacterized(ctx.start, horizon);
    hide SessionCalendar.ExpectedMinutesSpec, SessionCalendar.Expected, FloorMinute, ReadAsOf, BarsInMinutes, BarsAt, StrictlyIncreasing;
    ReadSelected(market.batches, order.Feed(), ctx.start, horizon, asOf, ReplayMinutes(ctx, asOf));
  }

  lemma CreatedState(m: FillModel, source: OrderFile, order: OrderRow, g: OrderFile) returns (created: StepResult)
    requires Recreate(m, source, order) == Written(g)
    ensures FirstPayload(source).Some? && FirstPayload(source).value.CreatedPayload?
    ensures var payload := FirstPayload(source).value;
            m.newOrderState(order.terms.context, payload.inherited, payload.extra) == Some(created)
    ensures g.order == order && g.projection.Some? && g.projection.value.state == created.state
  {
    hide FirstPayload;
    var payload := FirstPayload(source).value;
    created := m.newOrderState(order.terms.context, payload.inherited, payload.extra).value;
  }

  /**
   * A recalculation is a minute-by-minute replay. Its order starts from the creation the source's first event records, goes
   * through every expected minute that is over by the watermark, pays each dividend once, before the bar of the first minute of
   * its ex-date, evaluates the bars stored as of the watermark, and ends past its validity. Chunks, bulk evaluations, runs and
   * segments leave no trace in the state.
   */
  lemma RecalculationIsMinuteByMinute(m: FillModel, market: Market, source: OrderFile, order: OrderRow, asOf: int,
                                      dividends: map<int, DividendRow>, nextRun: nat, q: Progress) returns (created: StepResult)
    requires Foldable(m) && order.terms.context.Valid()
    requires Recalculate(m, market, source, order, asOf, dividends, nextRun) == Going(q)
    ensures FirstPayload(source).Some? && FirstPayload(source).value.CreatedPayload?
    ensures var payload := FirstPayload(source).value;
            m.newOrderState(order.terms.context, payload.inherited, payload.extra) == Some(created)
    ensures var x, minutes, dayOf := Inputs(m, order.terms, market.batches, asOf, dividends), ReplayMinutes(order.terms.context, asOf),
                                     ReplayDays(order.terms.context, asOf);
            q.file.projection.Some?
            && EndsAs(x, minutes, StateAfter(x, minutes, dayOf, created.state, |minutes|), q.file.projection.value.state)
  {
    hide *;
    var x := Inputs(m, order.terms, market.batches, asOf, dividends);
    var minutes, dayOf := ReplayMinutes(order.terms.context, asOf), ReplayDays(order.terms.context, asOf);
    var g, p := RecalculationParts(m, market, source, order, asOf, dividends, nextRun, q);
    created := CreatedState(m, source, order, g);
    ReplayBarsAre(market, order.terms, asOf);
    ReplayMinutesAre(order.terms.context, asOf, 0);
    ChunksPartitionTheMinutes(order.terms.context, asOf, dividends);
    assert [] + Flatten(DividendChunks(order.terms.context, asOf, dividends)) == minutes;
    ChunksAreTold(x, Progress(g, market.runs, nextRun), minutes, [], DividendChunks(order.terms.context, asOf, dividends), p);
    ChunksFromTheStart(x, order.terms.context, minutes, dayOf, created.state);
    ClosedState(x, p, minutes, q);
  }

  lemma ChunksFromTheStart(x: Inputs, ctx: OrderContext, minutes: seq<int>, dayOf: map<int, int>, start: OrderState)
    requires Foldable(x.m) && ctx.Valid() && minutes == ReplayMinutes(ctx, x.asOf) && dayOf == ReplayDays(ctx, x.asOf)
    requires StrictlyIncreasing(minutes)
    ensures ChunkStates(x, start, DividendChunks(ctx, x.asOf, x.dividends)) == StateAfter(x, minutes, dayOf, start, |minutes|)
  {
    hide Foldable, ReplayMinutes, ReplayDays, StrictlyIncreasing, OrderContext.Valid, ChunkStates, Chunks;
    assert minutes[0..] == minutes;
    ChunksTell(x, minutes, dayOf, start, 0, start, None, [], {});
  }
}
