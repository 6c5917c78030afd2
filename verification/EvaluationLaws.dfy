/** What a live evaluation covers: which minutes wait for one, when nothing is done, and where a new segment ends. */
module EvaluationLaws {
  import opened Prelude
  import opened Calendar
  import opened BarStore
  import opened Domain
  import opened Events
  import opened History
  import opened FillContract
  import opened Ledger
  import opened Writers

  /** An expected minute of the order that is over by now. */
  ghost predicate Elapsed(ctx: OrderContext, ts: int, marketNow: int) {
    ctx.calendar.Expected(ts) && ctx.start <= ts < ctx.until && ts + MINUTE <= marketNow
  }

  /** A bar of that minute is stored, as the run sees the store. */
  ghost predicate Stored(market: Market, f: OrderFile, ts: int, runId: nat)
    requires runId in market.runs
  {
    VersionAsOf(market.batches, f.order.terms.Feed(), ts, market.runs[runId]).Some?
  }

  /** A minute no segment has reached and an evaluation can be about: any elapsed one when gaps are closed, else one with a bar. */
  ghost predicate Waiting(market: Market, f: OrderFile, ts: int, runId: nat, marketNow: int, close: bool)
    requires runId in market.runs
  {
    && Elapsed(f.order.terms.context, ts, marketNow) && (forall g :: g in f.segments ==> g.barTo < ts)
    && (close || Stored(market, f, ts, runId))
  }

  lemma WholeElapsed(ts: int, until: int, marketNow: int)
    requires Whole(ts)
    ensures ts < Min(until, FloorMinute(marketNow)) <==> ts < until && ts + MINUTE <= marketNow
  {
    if ts < FloorMinute(marketNow) { MinutesApart(ts, FloorMinute(marketNow)); }
  }

  /** An honest file resumes at an expected minute, and never fails to find one. */
  lemma AlwaysResumes(m: FillModel, coupled: Coupling, market: Market, f: OrderFile) returns (start: int)
    requires Honest(m, coupled, market, f)
    ensures f.order.terms.context.Valid()
    ensures ResumeFrom(f.order.terms.context, f.segments) == Some(start) && f.order.terms.context.start <= start
    ensures f.order.terms.context.calendar.Expected(start)
    ensures forall ts :: f.order.terms.context.calendar.Expected(ts) && f.order.terms.context.start <= ts ==>
              (start <= ts <==> forall g :: g in f.segments ==> g.barTo < ts)
  {
    hide Honest, SessionCalendar.Expected, SessionCalendar.NextExpectedMinute, RegenerateRows;
    HonestIsValid(m, coupled, market, f);
    var ctx, segments := f.order.terms.context, f.segments;
    if segments == [] {
      start := ctx.start;
    } else {
      SegmentsEnd(market, f);
      var last := segments[|segments| - 1];
      NextExists(ctx, last.barTo);
      start := ctx.calendar.NextExpectedMinute(last.barTo).value;
      assert last in segments;
    }
    ResumeIsNextTile(m, coupled, market, f, start);
  }

  lemma NextExists(ctx: OrderContext, ts: int)
    requires ctx.Valid() && ctx.calendar.Expected(ts) && ts < ctx.until
    ensures var next := ctx.calendar.NextExpectedMinute(ts);
            next.Some? && ts < next.value && ctx.calendar.Expected(next.value)
            && forall k :: ctx.calendar.Expected(k) && ts < k ==> next.value <= k
  {
    hide SessionCalendar.NextExpectedMinute, SessionCalendar.Expected, Whole;
    ctx.calendar.NextExpectedIsLeast(ts);
    var k := LaterMinute(ctx, ts);
    ctx.calendar.ExpectedInRange(k);
  }

  /** Some session closes after the order's end, so some minute after `ts` is expected. */
  lemma LaterMinute(ctx: OrderContext, ts: int) returns (k: int)
    requires ctx.Valid() && ts < ctx.until
    ensures ctx.calendar.Expected(k) && ts < k
  {
    var c := ctx.calendar;
    var i, s := |c.sessions| - 1, c.sessions[|c.sessions| - 1];
    assert s in c.sessions && s.Valid();
    NextWhole(s.close);
    MinutesApart(s.open, s.close);
    k := s.close - MINUTE;
    assert InSession(c.sessions, i, k);
    var j :| 0 <= j < |c.sessions| && c.sessions[j].close == ctx.until;
    assert c.Expected(k);
    hide Whole, Session.Valid;
    assert j < i;
    assert c.sessions[j].close <= s.open;
    assert ts < k;
  }

  /** The last segment of an honest file ends last, at an expected minute before the order's end. */
  lemma SegmentsEnd(market: Market, f: OrderFile)
    requires SegmentsOk(market, f) && f.segments != []
    ensures var last := f.segments[|f.segments| - 1];
            && f.order.terms.context.calendar.Expected(last.barTo) && last.barTo < f.order.terms.context.until
            && LastSegmentEnd(f.segments) == Some(last.barTo)
            && (forall g :: g in f.segments ==> g.barTo <= last.barTo)
  {
    hide SessionCalendar.Expected, SessionCalendar.NextExpectedMinute, OrderContext.Valid, LastSegmentEnd;
    assert f.segments[|f.segments| - 1] in f.segments;
    LastSegmentIsLast(f.segments);
  }

  /** What the planned window is cut from: the elapsed expected minutes from `start`, and their stored bars. */
  lemma WindowContents(market: Market, order: Terms, start: int, marketNow: int, asOf: int)
    requires order.context.Valid() && order.context.start <= start
    ensures var ctx := order.context;
            var horizon := Min(ctx.until, FloorMinute(marketNow));
            var minutes := ctx.calendar.ExpectedMinutesSpec(start, horizon);
            var bars := BarsInMinutes(ReadAsOf(market.batches, order.Feed(), start, horizon, asOf), minutes);
            && StrictlyIncreasing(minutes) && (forall ts :: ts in minutes <==> start <= ts && Elapsed(ctx, ts, marketNow))
            && bars == BarsAt(market.batches, order.Feed(), asOf, minutes)
  {
    var ctx := order.context;
    var horizon := Min(ctx.until, FloorMinute(marketNow));
    var minutes := ctx.calendar.ExpectedMinutesSpec(start, horizon);
    ctx.calendar.MinutesCharacterized(start, horizon);
    hide SessionCalendar.ExpectedMinutesSpec, OrderContext.Valid, ReadAsOf, BarsInMinutes, FloorMinute, Whole;
    forall ts ensures ts in minutes <==> start <= ts && Elapsed(ctx, ts, marketNow) {
      if ctx.calendar.Expected(ts) {
        assert Whole(ts);
        WholeElapsed(ts, ctx.until, marketNow);
      }
    }
    ReadSelected(market.batches, order.Feed(), start, horizon, asOf, minutes);
  }

  ghost predicate Chronological(bars: seq<Bar>) { forall i, j :: 0 <= i < j < |bars| ==> bars[i].ts < bars[j].ts }

  lemma ConsChronological(b: Bar, later: seq<Bar>)
    requires Chronological(later) && forall x :: x in later ==> b.ts < x.ts
    ensures Chronological([b] + later)
  {
    forall i, j | 0 <= i < j < |[b] + later| ensures ([b] + later)[i].ts < ([b] + later)[j].ts {
      assert ([b] + later)[j] == later[j - 1] && later[j - 1] in later;
    }
  }

  /** The bars of increasing minutes come in increasing order. */
  lemma {:induction false} BarsAtInOrder(batches: seq<Batch>, feed: Feed, asOf: int, minutes: seq<int>)
    requires StrictlyIncreasing(minutes)
    ensures Chronological(BarsAt(batches, feed, asOf, minutes))
  {
    hide VersionAsOf, StrictlyIncreasing, Chronological;
    if minutes == [] {
      NoneChronological();
    } else {
      FirstIsLeast(minutes);
      BarsAtInOrder(batches, feed, asOf, minutes[1..]);
      BarsAtMembers(batches, feed, asOf, minutes[1..]);
      var version := VersionAsOf(batches, feed, minutes[0], asOf);
      if version.Some? {
        VersionIsAt(batches, feed, minutes[0], asOf);
        ConsChronological(version.value, BarsAt(batches, feed, asOf, minutes[1..]));
      }
    }
  }

  lemma NoneChronological()
    ensures Chronological([])
  {
  }

  lemma FirstIsLeast(minutes: seq<int>)
    requires StrictlyIncreasing(minutes) && minutes != []
    ensures StrictlyIncreasing(minutes[1..]) && forall ts :: ts in minutes[1..] ==> minutes[0] < ts
  {
  }

  /** The last of them is the latest minute that has a bar. */
  lemma LastBarIsLatest(batches: seq<Batch>, feed: Feed, asOf: int, minutes: seq<int>)
    requires StrictlyIncreasing(minutes)
    ensures var bars := BarsAt(batches, feed, asOf, minutes);
            && (bars == [] <==> forall ts :: ts in minutes ==> VersionAsOf(batches, feed, ts, asOf).None?)
            && (bars != [] ==>
                  var last := bars[|bars| - 1].ts;
                  && last in minutes && VersionAsOf(batches, feed, last, asOf).Some?
                  && forall ts :: ts in minutes && last < ts ==> VersionAsOf(batches, feed, ts, asOf).None?)
  {
    hide VersionAsOf, BarsAt, StrictlyIncreasing;
    BarsAtInOrder(batches, feed, asOf, minutes);
    BarsAtMembers(batches, feed, asOf, minutes);
    var bars := BarsAt(batches, feed, asOf, minutes);
    forall ts | ts in minutes && VersionAsOf(batches, feed, ts, asOf).Some? ensures bars != [] && ts <= bars[|bars| - 1].ts {
      VersionIsAt(batches, feed, ts, asOf);
      var b := VersionAsOf(batches, feed, ts, asOf).value;
      assert b.ts in minutes && b in bars;
      var i :| 0 <= i < |bars| && bars[i] == b;
    }
    if bars != [] { assert bars[|bars| - 1] in bars; }
  }

  lemma VersionIsAt(batches: seq<Batch>, feed: Feed, ts: int, asOf: int)
    requires VersionAsOf(batches, feed, ts, asOf).Some?
    ensures VersionAsOf(batches, feed, ts, asOf).value.ts == ts
  {
  }

  /** `BarTo` is the last minute that waits, out of the minutes a window is cut from. */
  lemma BarToIsLatest(batches: seq<Batch>, feed: Feed, asOf: int, minutes: seq<int>, close: bool)
    requires StrictlyIncreasing(minutes)
    ensures var barTo := BarTo(minutes, BarsAt(batches, feed, asOf, minutes), close);
            && (barTo.None? <==> forall ts :: ts in minutes ==> !close && VersionAsOf(batches, feed, ts, asOf).None?)
            && (barTo.Some? ==> barTo.value in minutes && (close || VersionAsOf(batches, feed, barTo.value, asOf).Some?)
                                && forall ts :: ts in minutes && barTo.value < ts ==> !close && VersionAsOf(batches, feed, ts, asOf).None?)
  {
    hide VersionAsOf, BarsAt;
    LastBarIsLatest(batches, feed, asOf, minutes);
    if minutes != [] {
      var last := minutes[|minutes| - 1];
      assert last in minutes;
      forall ts | ts in minutes ensures ts <= last {
        var i :| 0 <= i < |minutes| && minutes[i] == ts;
      }
    }
  }

  lemma PlanIs(market: Market, order: Terms, segments: seq<SegmentRow>, asOf: int, marketNow: int, close: bool, start: int)
    requires order.context.Valid() && ResumeFrom(order.context, segments) == Some(start)
    ensures var horizon := Min(order.context.until, FloorMinute(marketNow));
            var minutes := order.context.calendar.ExpectedMinutesSpec(start, horizon);
            var bars := BarsInMinutes(ReadAsOf(market.batches, order.Feed(), start, horizon, asOf), minutes);
            var plan := PlanWindow(market, order, segments, asOf, marketNow, close);
            && !plan.Broken?
            && (start >= horizon ==> plan.Nothing?)
            && (start < horizon ==>
                  && (plan.Nothing? <==> BarTo(minutes, bars, close).None?)
                  && (plan.Window? ==> BarTo(minutes, bars, close) == Some(plan.barTo)))
  {
    hide SessionCalendar.ExpectedMinutesSpec, ReadAsOf, BarsInMinutes, ResumeFrom, UpTo, BarsUpTo, Filter, BarTo, FloorMinute, OrderContext.Valid;
  }

  lemma NothingElapsed(ctx: OrderContext, start: int, marketNow: int)
    requires ctx.Valid() && start >= Min(ctx.until, FloorMinute(marketNow))
    ensures forall ts :: start <= ts ==> !Elapsed(ctx, ts, marketNow)
  {
    hide OrderContext.Valid, FloorMinute, Whole;
    forall ts | start <= ts && ctx.calendar.Expected(ts) ensures !Elapsed(ctx, ts, marketNow) {
      assert Whole(ts);
      WholeElapsed(ts, ctx.until, marketNow);
    }
  }

  lemma WaitingFrom(market: Market, f: OrderFile, start: int, runId: nat, marketNow: int, close: bool)
    requires runId in market.runs
    requires forall ts :: f.order.terms.context.calendar.Expected(ts) && f.order.terms.context.start <= ts ==>
               (start <= ts <==> forall g :: g in f.segments ==> g.barTo < ts)
    ensures forall ts :: Waiting(market, f, ts, runId, marketNow, close) <==>
              start <= ts && Elapsed(f.order.terms.context, ts, marketNow) && (close || Stored(market, f, ts, runId))
  {
    hide Stored, SessionCalendar.Expected;
  }

  /** Where a planned window ends, in terms of the minutes that wait. */
  lemma PlanEnds(m: FillModel, coupled: Coupling, market: Market, f: OrderFile, runId: nat, marketNow: int, close: bool)
    requires Honest(m, coupled, market, f) && runId in market.runs
    ensures f.order.terms.context.Valid()
    ensures var plan := PlanWindow(market, f.order.terms, f.segments, market.runs[runId], marketNow, close);
            && !plan.Broken?
            && (plan.Nothing? <==> forall ts :: !Waiting(market, f, ts, runId, marketNow, close))
            && (plan.Window? ==> Waiting(market, f, plan.barTo, runId, marketNow, close)
                                 && forall ts :: plan.barTo < ts ==> !Waiting(market, f, ts, runId, marketNow, close))
  {
    hide *;
    var start := AlwaysResumes(m, coupled, market, f);
    WaitingFrom(market, f, start, runId, marketNow, close);
    PlanFrom(market, f, start, runId, marketNow, close);
  }

  lemma PlanFrom(market: Market, f: OrderFile, start: int, runId: nat, marketNow: int, close: bool)
    requires runId in market.runs && f.order.terms.context.Valid() && f.order.terms.context.start <= start
    requires ResumeFrom(f.order.terms.context, f.segments) == Some(start)
    requires forall ts :: Waiting(market, f, ts, runId, marketNow, close) <==>
               start <= ts && Elapsed(f.order.terms.context, ts, marketNow) && (close || Stored(market, f, ts, runId))
    ensures var plan := PlanWindow(market, f.order.terms, f.segments, market.runs[runId], marketNow, close);
            && !plan.Broken?
            && (plan.Nothing? <==> forall ts :: !Waiting(market, f, ts, runId, marketNow, close))
            && (plan.Window? ==> Waiting(market, f, plan.barTo, runId, marketNow, close)
                                 && forall ts :: plan.barTo < ts ==> !Waiting(market, f, ts, runId, marketNow, close))
  {
    hide *;
    var terms, ctx, asOf := f.order.terms, f.order.terms.context, market.runs[runId];
    var horizon := Min(ctx.until, FloorMinute(marketNow));
    PlanIs(market, terms, f.segments, asOf, marketNow, close, start);
    if start >= horizon {
      NothingElapsed(ctx, start, marketNow);
    } else {
      var minutes := ctx.calendar.ExpectedMinutesSpec(start, horizon);
      WindowContents(market, terms, start, marketNow, asOf);
      BarToIsLatest(market.batches, terms.Feed(), asOf, minutes, close);
      StoredIs(market, f, runId);
    }
  }

  lemma StoredIs(market: Market, f: OrderFile, runId: nat)
    requires runId in market.runs
    ensures forall ts :: Stored(market, f, ts, runId) <==> VersionAsOf(market.batches, f.order.terms.Feed(), ts, market.runs[runId]).Some?
  {
    hide VersionAsOf;
  }

  // ---- what an evaluation does --------------------------------------------------------------------------------------

  /** An order the live cycle evaluates at all. */
  ghost predicate Running(f: OrderFile) {
    f.projection.Some? && !f.order.replay && !f.projection.value.state.Final() && !f.projection.value.state.frozen
  }

  /**
   * Where a new segment ends. It is the run's, one more than before, and ends at the last minute that waited: with trailing
   * gaps left open that minute has a stored bar and no later elapsed one does; with gaps closed no elapsed minute is left.
   */
  lemma SegmentReachesTheLastWaiting(m: FillModel, coupled: Coupling, market: Market, f: OrderFile, runId: nat, marketNow: int,
                                     close: bool, g: OrderFile)
    requires Honest(m, coupled, market, f) && Evaluate(m, market, f, runId, marketNow, close) == Written(g)
    ensures runId in market.runs && |g.segments| == |f.segments| + 1 && f.segments <= g.segments && g.order == f.order
    ensures var ctx, last := f.order.terms.context, g.segments[|f.segments|];
            && last.runId == runId && Elapsed(ctx, last.barTo, marketNow)
            && (!close ==> Stored(market, f, last.barTo, runId)
                           && forall ts :: Elapsed(ctx, ts, marketNow) && last.barTo < ts ==> !Stored(market, f, ts, runId))
            && (close ==> forall ts :: Elapsed(ctx, ts, marketNow) ==> ts <= last.barTo)
  {
    hide *;
    HonestIsValid(m, coupled, market, f);
    var start, minutes, bars, barTo, hash, r, d := EvaluatedParts(m, market, f, runId, marketNow, close, g);
    PlanEnds(m, coupled, market, f, runId, marketNow, close);
    AppliedSegments(f, r, d.events, SegmentRow(runId, minutes[0], barTo, hash, f.projection.value.nextSeq, |d.events|), g);
    BeyondWaiting(market, f, barTo, runId, marketNow, close);
  }

  lemma AppliedSegments(f: OrderFile, r: StepResult, events: seq<Event>, g: SegmentRow, h: OrderFile)
    requires f.projection.Some? && ApplyResult(f, f.projection.value.nextSeq, r, events, [g]) == Written(h)
    ensures h.segments == f.segments + [g] && h.order == f.order
  {
  }

  lemma BeyondWaiting(market: Market, f: OrderFile, barTo: int, runId: nat, marketNow: int, close: bool)
    requires runId in market.runs && Waiting(market, f, barTo, runId, marketNow, close)
    requires forall ts :: barTo < ts ==> !Waiting(market, f, ts, runId, marketNow, close)
    ensures Elapsed(f.order.terms.context, barTo, marketNow) && (!close ==> Stored(market, f, barTo, runId))
    ensures forall ts :: Elapsed(f.order.terms.context, ts, marketNow) && barTo < ts ==> !close && !Stored(market, f, ts, runId)
  {
    hide Elapsed, Stored;
    forall ts | Elapsed(f.order.terms.context, ts, marketNow) && barTo < ts ensures !close && !Stored(market, f, ts, runId) {
      assert !Waiting(market, f, ts, runId, marketNow, close) && forall g :: g in f.segments ==> g.barTo < ts;
    }
  }

  /**
   * When an evaluation does nothing, and when it must not. An order that is not running is left alone; a running one is left
   * alone if and only if no minute waits. When one does, the evaluation of a run that has not evaluated the order yet writes,
   * unless the model's events conflict with the log.
   */
  lemma IdleIffNothingWaits(m: FillModel, coupled: Coupling, market: Market, f: OrderFile, runId: nat, marketNow: int, close: bool)
    requires Honest(m, coupled, market, f) && f.projection.Some? && runId in market.runs
    ensures f.order.terms.context.Valid()
    ensures var w := Evaluate(m, market, f, runId, marketNow, close);
            && (w.Untouched? <==> Running(f) ==> forall ts :: !Waiting(market, f, ts, runId, marketNow, close))
            && (!w.Untouched? && (forall g :: g in f.segments ==> g.runId != runId) ==> w.Written? || w.WriteRefused?)
  {
    hide *;
    HonestIsValid(m, coupled, market, f);
    PlanEnds(m, coupled, market, f, runId, marketNow, close);
    EvaluateIs(m, market, f, runId, marketNow, close);
    var plan := PlanWindow(market, f.order.terms, f.segments, market.runs[runId], marketNow, close);
    RunningIs(f);
    if plan.Window? {
      var start := AlwaysResumes(m, coupled, market, f);
      PlannedBars(market, f.order.terms, f.segments, market.runs[runId], marketNow, close, start, plan.minutes, plan.bars, plan.barTo);
      WindowHashes(market, f.order.terms, start, market.runs[runId], plan);
      CachedIsRegained(m, coupled, market, f);
      SegmentIsWritten(m, market, f, runId, plan);
    }
  }

  lemma RunningIs(f: OrderFile)
    ensures Running(f) <==> f.projection.Some? && !f.order.replay && !f.projection.value.state.Final() && !f.projection.value.state.frozen
  {
  }

  lemma EvaluateIs(m: FillModel, market: Market, f: OrderFile, runId: nat, marketNow: int, close: bool)
    requires f.order.terms.context.Valid() && f.projection.Some? && runId in market.runs
    ensures var w := Evaluate(m, market, f, runId, marketNow, close);
            var plan := PlanWindow(market, f.order.terms, f.segments, market.runs[runId], marketNow, close);
            && (!Running(f) ==> w.Untouched?)
            && (Running(f) && !plan.Broken? ==> (w.Untouched? <==> plan.Nothing?))
            && (Running(f) && plan.Window? && plan.minutes != []
                && SelectedDataHash(f.order.terms.Feed(), plan.minutes, plan.bars).Some? ==>
                  w == WriteSegment(m, f, runId, plan.minutes, plan.bars, plan.barTo,
                                    SelectedDataHash(f.order.terms.Feed(), plan.minutes, plan.bars).value))
  {
    hide PlanWindow, SelectedDataHash, OrderContext.Valid, Dedupe, KnownOf;
  }

  lemma WindowHashes(market: Market, order: Terms, start: int, asOf: int, plan: Plan)
    requires order.context.Valid() && plan.Window?
    requires plan.minutes == order.context.calendar.ExpectedMinutesSpec(start, plan.barTo + MINUTE)
    requires plan.bars == BarsInMinutes(ReadAsOf(market.batches, order.Feed(), start, plan.barTo + MINUTE, asOf), plan.minutes)
    ensures SelectedDataHash(order.Feed(), plan.minutes, plan.bars).Some?
  {
    order.context.calendar.MinutesCharacterized(start, plan.barTo + MINUTE);
    hide *;
    ReadSelected(market.batches, order.Feed(), start, plan.barTo + MINUTE, asOf, plan.minutes);
    HashExists(market.batches, order.Feed(), asOf, plan.minutes);
  }

  lemma HashExists(batches: seq<Batch>, feed: Feed, asOf: int, minutes: seq<int>)
    requires StrictlyIncreasing(minutes)
    ensures SelectedDataHash(feed, minutes, BarsAt(batches, feed, asOf, minutes)).Some?
  {
    hide BarsAt, StrictlyIncreasing, VersionAsOf;
    BarsAtInOrder(batches, feed, asOf, minutes);
    BarsAtMembers(batches, feed, asOf, minutes);
  }

  lemma SegmentIsWritten(m: FillModel, market: Market, f: OrderFile, runId: nat, plan: Plan)
    requires f.projection.Some? && f.projection.value.nextSeq == |f.rows| + 1 && Contiguous(f.rows)
    requires f.order.terms.context.Valid() && plan.Window? && plan.minutes != []
    ensures forall hash :: (forall g :: g in f.segments ==> g.runId != runId) ==>
              var w := WriteSegment(m, f, runId, plan.minutes, plan.bars, plan.barTo, hash);
              w.Written? || w.WriteRefused?
  {
    hide Dedupe, KnownOf, OrderContext.Valid;
    assert forall row :: row in f.rows ==> row.seqNo <= |f.rows|;
  }
}
