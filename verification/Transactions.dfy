/** The bodies of the order transactions, step by step: what they read, the loops they run, what they would commit. */
module Transactions {
  import opened Prelude
  import opened Calendar
  import opened BarStore
  import opened Domain
  import opened Events
  import opened History
  import opened FillContract
  import opened Ledger
  import opened Writers

  /** Insert events at the given numbers and overwrite the projection; a number already taken fails the transaction. */
  method SaveResult(f: OrderFile, nextSeq: nat, r: StepResult, events: seq<Event>, segments: seq<SegmentRow>) returns (w: WriteResult)
    ensures w == ApplyResult(f, nextSeq, r, events, segments)
  {
    if exists row :: row in f.rows && nextSeq <= row.seqNo < nextSeq + |events| {
      return WriteRaised;
    }
    var rows := InsertEvents(f.rows, events, nextSeq);
    return Written(OrderFile(f.order, rows, f.segments + segments, Some(ProjectionRow(r.state, nextSeq + |events|, rows))));
  }

  method AppendResult(f: OrderFile, r: StepResult) returns (w: WriteResult)
    requires f.projection.Some?
    ensures w == ApplyTo(f, r)
  {
    var prepared := DedupeEvents(KnownOf(Plain(f.rows)), r.events, f.order.terms.context.start);
    if prepared.Refused? {
      return WriteRefused(prepared.error);
    }
    w := SaveResult(f, f.projection.value.nextSeq, r, prepared.events, []);
  }

  lemma ResumeInCalendar(ctx: OrderContext, segments: seq<SegmentRow>)
    requires ctx.Valid() && ResumeFrom(ctx, segments).Some?
    ensures ctx.calendar.sessions[0].open <= ResumeFrom(ctx, segments).value
  {
    ctx.calendar.ExpectedInRange(ctx.start);
    match LastSegmentEnd(segments)
    case None =>
    case Some(last) => ctx.calendar.FirstExpectedIsLeast(FloorMinute(last) + MINUTE);
  }

  /** Read the minutes and bars of the next window, as `PlanWindow` describes them. */
  method ReadWindow(market: Market, order: Terms, segments: seq<SegmentRow>, asOf: int, marketNow: int, closeTrailingGap: bool)
    returns (plan: Plan)
    requires order.context.Valid()
    ensures plan == PlanWindow(market, order, segments, asOf, marketNow, closeTrailingGap)
  {
    hide SessionCalendar.ExpectedMinutesSpec, ReadAsOf, BarsInMinutes, LastSegmentEnd, SessionCalendar.Expected, SessionCalendar.NextExpectedMinute, FloorMinute, BarTo, Filter;
    var ctx := order.context;
    var resume := ResumeFrom(ctx, segments);
    if resume.None? {
      return Broken;
    }
    var start, horizon := resume.value, Min(ctx.until, FloorMinute(marketNow));
    if start >= horizon {
      return Nothing;
    }
    ResumeInCalendar(ctx, segments);
    var listed := ctx.calendar.ExpectedMinutes(start, horizon);
    var minutes := listed.value;
    var bars := BarsInMinutes(ReadAsOf(market.batches, order.Feed(), start, horizon, asOf), minutes);
    var barTo := BarTo(minutes, bars, closeTrailingGap);
    if barTo.None? {
      return Nothing;
    }
    return Window(Filter(minutes, UpTo(barTo.value)), Filter(bars, BarsUpTo(barTo.value)), barTo.value);
  }

  /** One evaluation of one order: nothing, one segment with its fresh events, or a rolled back transaction. */
  method EvaluateTransaction(m: FillModel, market: Market, f: OrderFile, runId: nat, marketNow: int, closeTrailingGap: bool)
    returns (w: WriteResult)
    requires f.order.terms.context.Valid()
    ensures w == Evaluate(m, market, f, runId, marketNow, closeTrailingGap)
  {
    hide PlanWindow, SelectedDataHash, Dedupe, ApplyResult, KnownOf, OrderContext.Valid;
    if f.projection.None? {
      return WriteRefused(ProjectionMissing);
    }
    var state, nextSeq := f.projection.value.state, f.projection.value.nextSeq;
    if f.order.replay || state.Final() || state.frozen {
      return Untouched;
    }
    if runId !in market.runs {
      return WriteRaised;
    }
    var plan := ReadWindow(market, f.order.terms, f.segments, market.runs[runId], marketNow, closeTrailingGap);
    match plan
    case Nothing => return Untouched;
    case Broken => return WriteRaised;
    case Window(minutes, bars, barTo) =>
      var hash := ComputeSelectedDataHash(f.order.terms.Feed(), minutes, bars);
      if hash.None? || minutes == [] {
        return WriteRaised;
      }
      var r := m.runBars(state, bars, f.order.terms.context);
      var prepared := DedupeEvents(KnownOf(Plain(f.rows)), r.events, f.order.terms.context.start);
      if prepared.Refused? {
        return WriteRefused(prepared.error);
      }
      if exists g :: g in f.segments && g.runId == runId {
        return WriteRaised;
      }
      w := SaveResult(f, nextSeq, r, prepared.events, [SegmentRow(runId, minutes[0], barTo, hash.value, nextSeq, |prepared.events|)]);
  }

  function Joined(state: OrderState, events: seq<Event>, rest: Option<StepResult>): Option<StepResult> {
    match rest
    case None => None
    case Some(r) => Some(StepResult(r.state, events + r.events))
  }

  /** Run the parts of a command one after the other, collecting their events. */
  method ExecuteParts(m: FillModel, ctx: OrderContext, start: OrderState, parts: seq<Part>) returns (r: Option<StepResult>)
    ensures r == RunParts(m, ctx, start, parts)
  {
    var state, events, k := start, [], 0;
    assert forall rest: seq<Event> :: [] + rest == rest;
    assert parts[0..] == parts;
    while k < |parts|
      invariant 0 <= k <= |parts|
      invariant RunParts(m, ctx, start, parts) == Joined(state, events, RunParts(m, ctx, state, parts[k..]))
    {
      hide RunPart;
      assert parts[k..][1..] == parts[k + 1..];
      var next := RunPart(m, ctx, state, parts[k]);
      if next.None? {
        return None;
      }
      assert forall rest: seq<Event> :: events + (next.value.events + rest) == (events + next.value.events) + rest;
      state, events, k := next.value.state, events + next.value.events, k + 1;
    }
    assert events + [] == events;
    return Some(StepResult(state, events));
  }

  method CommandTransaction(m: FillModel, market: Market, f: OrderFile, c: Command) returns (w: WriteResult)
    ensures w == ApplyCommand(m, market, f, c)
  {
    hide PlanCommand, RunParts, ApplyTo;
    if f.order.replay {
      return WriteRaised;
    }
    if f.projection.None? {
      return WriteRefused(ProjectionMissing);
    }
    var plan := PlanCommand(market, f, f.projection.value.state, c);
    match plan
    case PlanRaised => return WriteRaised;
    case PlanRefused(error) => return WriteRefused(error);
    case Parts(parts) =>
      var r := ExecuteParts(m, f.order.terms.context, f.projection.value.state, parts);
      if r.None? {
        return WriteRaised;
      }
      w := AppendResult(f, r.value);
  }

  method RebuildTransaction(m: FillModel, market: Market, f: OrderFile) returns (w: WriteResult)
    requires f.order.terms.context.Valid()
    ensures w == Rebuild(m, market, f)
  {
    hide Regenerate;
    var o := RegenerateHistory(m, f.order.terms, market, f.rows, f.segments);
    match o
    case Raised => return WriteRaised;
    case Diverged(_) => return WriteRefused(ProjectionIntegrity);
    case Regenerated(h) =>
      var rebuilt := ProjectionRow(h.state, h.nextSeq, f.rows);
      if f.projection.None? {
        return Written(f.(projection := Some(rebuilt)));
      }
      if f.projection.value != rebuilt {
        return WriteRefused(ProjectionIntegrity);
      }
      return Untouched;
  }
}
