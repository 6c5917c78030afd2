/** The transactions that write one order, as functions on its rows: evaluation, commands, freezes, rebuilding. */
module Writers {
  import opened Prelude
  import opened Calendar
  import opened BarStore
  import opened Domain
  import opened Events
  import opened History
  import opened HistoryLaws
  import opened FillContract
  import opened Ledger

  /** WriteRefused is a LedgerIntegrityError, WriteRaised any other exception; both roll the transaction back. */
  datatype WriteResult = Written(file: OrderFile) | Untouched | WriteRefused(error: LedgerError) | WriteRaised

  /** Insert the fresh events from `nextSeq` on and overwrite the projection; (order, seq) is unique in the log. */
  function ApplyResult(f: OrderFile, nextSeq: nat, r: StepResult, events: seq<Event>, segments: seq<SegmentRow>): WriteResult {
    if exists row :: row in f.rows && nextSeq <= row.seqNo < nextSeq + |events| then WriteRaised
    else
      var rows := f.rows + Numbered(events, nextSeq);
      Written(OrderFile(f.order, rows, f.segments + segments, Some(ProjectionRow(r.state, nextSeq + |events|, rows))))
  }

  lemma ApplyIsAppend(f: OrderFile, r: StepResult, events: seq<Event>, segments: seq<SegmentRow>)
    requires Contiguous(f.rows)
    ensures ApplyResult(f, |f.rows| + 1, r, events, segments) == Written(Append(f, events, r.state, segments))
  {
    assert forall row :: row in f.rows ==> row.seqNo <= |f.rows|;
  }

  // ---- live evaluation --------------------------------------------------------------------------------------

  function LastSegmentEnd(segments: seq<SegmentRow>): (r: Option<int>)
    ensures r.None? <==> segments == []
    ensures r.Some? ==> (forall g :: g in segments ==> g.barTo <= r.value) && exists g :: g in segments && g.barTo == r.value
  {
    if segments == [] then None
    else
      match LastSegmentEnd(segments[1..])
      case None =>
        assert segments[0] in segments;
        Some(segments[0].barTo)
      case Some(later) =>
        assert segments[0] in segments;
        Some(Max(segments[0].barTo, later))
  }

  lemma LastSegmentIsLast(segments: seq<SegmentRow>)
    requires InOrder(segments) && segments != [] && forall g :: g in segments ==> g.barFrom <= g.barTo
    ensures LastSegmentEnd(segments) == Some(segments[|segments| - 1].barTo)
  {
    hide LastSegmentEnd, InOrder;
    var last := segments[|segments| - 1];
    assert last in segments;
    forall g | g in segments ensures g.barTo <= last.barTo {
      var i :| 0 <= i < |segments| && segments[i] == g;
      EndsByTheLast(segments, i);
    }
  }

  lemma EndsByTheLast(segments: seq<SegmentRow>, i: nat)
    requires InOrder(segments) && i < |segments| && segments[|segments| - 1].barFrom <= segments[|segments| - 1].barTo
    ensures segments[i].barTo <= segments[|segments| - 1].barTo
  {
  }

  /** The first minute not yet evaluated; None is a CalendarRangeError. */
  function ResumeFrom(ctx: OrderContext, segments: seq<SegmentRow>): Option<int>
    requires ctx.Valid()
  {
    match LastSegmentEnd(segments)
    case None => Some(ctx.start)
    case Some(last) => ctx.calendar.NextExpectedMinute(last)
  }

  function BarTo(minutes: seq<int>, bars: seq<Bar>, closeTrailingGap: bool): Option<int> {
    if closeTrailingGap then (if minutes == [] then None else Some(minutes[|minutes| - 1]))
    else if bars == [] then None else Some(bars[|bars| - 1].ts)
  }

  function UpTo(limit: int): int -> bool { m => m <= limit }

  function BarsUpTo(limit: int): Bar -> bool { (b: Bar) => b.ts <= limit }

  /** What one evaluation reads and decides before it runs the model. */
  datatype Plan = Nothing | Broken | Window(minutes: seq<int>, bars: seq<Bar>, barTo: int)

  function PlanWindow(market: Market, order: Terms, segments: seq<SegmentRow>, asOf: int, marketNow: int,
                      closeTrailingGap: bool): Plan
    requires order.context.Valid()
  {
    var ctx := order.context;
    var horizon := Min(ctx.until, FloorMinute(marketNow));
    match ResumeFrom(ctx, segments)
    case None => Broken
    case Some(start) =>
      if start >= horizon then Nothing
      else
        var minutes := ctx.calendar.ExpectedMinutesSpec(start, horizon);
        var bars := BarsInMinutes(ReadAsOf(market.batches, order.Feed(), start, horizon, asOf), minutes);
        match BarTo(minutes, bars, closeTrailingGap)
        case None => Nothing
        case Some(barTo) =>
          Window(Filter(minutes, UpTo(barTo)), Filter(bars, BarsUpTo(barTo)), barTo)
  }

  /** One locked evaluation of one order by one run; a run records at most one segment per order. */
  function Evaluate(m: FillModel, market: Market, f: OrderFile, runId: nat, marketNow: int, closeTrailingGap: bool): (w: WriteResult)
    requires f.order.terms.context.Valid()
    ensures w.WriteRefused? ==> !w.error.Diverges()
  {
    if f.projection.None? then WriteRefused(ProjectionMissing)
    else
      var state := f.projection.value.state;
      if f.order.replay || state.Final() || state.frozen then Untouched
      else if runId !in market.runs then WriteRaised
      else
        match PlanWindow(market, f.order.terms, f.segments, market.runs[runId], marketNow, closeTrailingGap)
        case Nothing => Untouched
        case Broken => WriteRaised
        case Window(minutes, bars, barTo) =>
          match SelectedDataHash(f.order.terms.Feed(), minutes, bars)
          case None => WriteRaised
          case Some(hash) =>
            if minutes == [] then WriteRaised
            else WriteSegment(m, f, runId, minutes, bars, barTo, hash)
  }

  /** Run the model over the window's bars, and write its new events, the segment and the projection together. */
  function WriteSegment(m: FillModel, f: OrderFile, runId: nat, minutes: seq<int>, bars: seq<Bar>, barTo: int, hash: seq<DataEntry>)
    : (w: WriteResult)
    requires f.projection.Some? && minutes != []
    ensures w.WriteRefused? ==> !w.error.Diverges()
  {
    var r, nextSeq := m.runBars(f.projection.value.state, bars, f.order.terms.context), f.projection.value.nextSeq;
    match Dedupe(KnownOf(Plain(f.rows)), r.events, f.order.terms.context.start)
    case Refused(error) => WriteRefused(error)
    case Fresh(events, _) =>
      if exists g :: g in f.segments && g.runId == runId then WriteRaised
      else ApplyResult(f, nextSeq, r, events, [SegmentRow(runId, minutes[0], barTo, hash, nextSeq, |events|)])
  }

  /** The window of an evaluation, re-derived from its first and last minute alone. */
  lemma WindowRederived(calendar: SessionCalendar, start: int, horizon: int, barTo: int)
    requires calendar.Valid() && calendar.Expected(start)
    requires barTo in calendar.ExpectedMinutesSpec(start, horizon)
    ensures var window := Filter(calendar.ExpectedMinutesSpec(start, horizon), UpTo(barTo));
            && window == calendar.ExpectedMinutesSpec(start, barTo + MINUTE)
            && window != [] && window[0] == start
            && StrictlyIncreasing(window) && forall m :: m in window ==> start <= m < barTo + MINUTE
  {
    var minutes := calendar.ExpectedMinutesSpec(start, horizon);
    var window, again := Filter(minutes, UpTo(barTo)), calendar.ExpectedMinutesSpec(start, barTo + MINUTE);
    calendar.MinutesCharacterized(start, horizon);
    calendar.MinutesCharacterized(start, barTo + MINUTE);
    FilterIncreasing(minutes, UpTo(barTo));
    hide SessionCalendar.ExpectedMinutesSpec, SessionCalendar.Valid;
    forall m ensures m in window <==> m in again {
      if m in again && barTo < m { MinutesApart(barTo, m); }
    }
    SameMembersSameList(window, again);
    assert start in window;
    assert window[0] in window;
    var i :| 0 <= i < |window| && window[i] == start;
  }

  lemma BarToIsExpected(calendar: SessionCalendar, batches: seq<Batch>, feed: Feed, start: int, horizon: int, asOf: int, close: bool)
    requires calendar.Valid()
    ensures var minutes := calendar.ExpectedMinutesSpec(start, horizon);
            var bars := BarsInMinutes(ReadAsOf(batches, feed, start, horizon, asOf), minutes);
            && bars == BarsAt(batches, feed, asOf, minutes)
            && (BarTo(minutes, bars, close).Some? ==>
                  var barTo := BarTo(minutes, bars, close).value;
                  barTo in minutes && calendar.Expected(barTo) && start <= barTo < horizon)
  {
    var minutes := calendar.ExpectedMinutesSpec(start, horizon);
    var bars := BarsInMinutes(ReadAsOf(batches, feed, start, horizon, asOf), minutes);
    calendar.MinutesCharacterized(start, horizon);
    hide SessionCalendar.ExpectedMinutesSpec, SessionCalendar.Valid, SessionCalendar.Expected, ReadAsOf, BarsInMinutes;
    ReadSelected(batches, feed, start, horizon, asOf, minutes);
    BarsAtMembers(batches, feed, asOf, minutes);
    assert bars != [] ==> bars[|bars| - 1] in bars;
    assert minutes != [] ==> minutes[|minutes| - 1] in minutes;
  }

  lemma CutBars(batches: seq<Batch>, feed: Feed, asOf: int, minutes: seq<int>, barTo: int)
    ensures Filter(BarsAt(batches, feed, asOf, minutes), BarsUpTo(barTo))
         == BarsAt(batches, feed, asOf, Filter(minutes, UpTo(barTo)))
  {
    BarsAtFiltered(batches, feed, asOf, minutes, UpTo(barTo));
    FilterAgree(BarsAt(batches, feed, asOf, minutes), BarsUpTo(barTo), (b: Bar) => UpTo(barTo)(b.ts));
  }

  lemma PlanParts(market: Market, order: Terms, segments: seq<SegmentRow>, asOf: int, marketNow: int, close: bool,
                  start: int, minutes: seq<int>, bars: seq<Bar>, barTo: int) returns (horizon: int)
    requires order.context.Valid() && ResumeFrom(order.context, segments) == Some(start)
    requires PlanWindow(market, order, segments, asOf, marketNow, close) == Window(minutes, bars, barTo)
    ensures horizon <= order.context.until
    ensures var all := order.context.calendar.ExpectedMinutesSpec(start, horizon);
            var read := BarsInMinutes(ReadAsOf(market.batches, order.Feed(), start, horizon, asOf), all);
            && BarTo(all, read, close) == Some(barTo)
            && minutes == Filter(all, UpTo(barTo)) && bars == Filter(read, BarsUpTo(barTo))
  {
    hide SessionCalendar.ExpectedMinutesSpec, ReadAsOf, BarsInMinutes, ResumeFrom, UpTo, BarsUpTo, Filter, BarTo, FloorMinute;
    horizon := Min(order.context.until, FloorMinute(marketNow));
  }

  /** A planned window names exactly the bars regeneration will read back from its bounds. */
  lemma PlannedBars(market: Market, order: Terms, segments: seq<SegmentRow>, asOf: int, marketNow: int, close: bool,
                    start: int, minutes: seq<int>, bars: seq<Bar>, barTo: int)
    requires order.context.Valid() && order.context.calendar.Expected(start)
    requires ResumeFrom(order.context, segments) == Some(start)
    requires PlanWindow(market, order, segments, asOf, marketNow, close) == Window(minutes, bars, barTo)
    ensures minutes == order.context.calendar.ExpectedMinutesSpec(start, barTo + MINUTE)
    ensures minutes != [] && minutes[0] == start
    ensures bars == BarsInMinutes(ReadAsOf(market.batches, order.Feed(), start, barTo + MINUTE, asOf), minutes)
    ensures order.context.calendar.Expected(barTo) && start <= barTo < order.context.until
  {
    var calendar, feed := order.context.calendar, order.Feed();
    var horizon := PlanParts(market, order, segments, asOf, marketNow, close, start, minutes, bars, barTo);
    assert calendar.Valid();
    hide *;
    BarToIsExpected(calendar, market.batches, feed, start, horizon, asOf, close);
    WindowRederived(calendar, start, horizon, barTo);
    CutBars(market.batches, feed, asOf, calendar.ExpectedMinutesSpec(start, horizon), barTo);
    ReadSelected(market.batches, feed, start, barTo + MINUTE, asOf, minutes);
  }

  /** Where an honest file resumes is an expected minute, and the next tile of its segments. */
  lemma ResumeIsNextTile(m: FillModel, coupled: Coupling, market: Market, f: OrderFile, start: int)
    requires Honest(m, coupled, market, f) && ResumeFrom(f.order.terms.context, f.segments) == Some(start)
    ensures f.order.terms.context.calendar.Expected(start) && f.order.terms.context.start <= start
    ensures if f.segments == [] then start == f.order.terms.context.start
            else f.order.terms.context.calendar.NextExpectedMinute(f.segments[|f.segments| - 1].barTo) == Some(start)
  {
    var ctx, segments := f.order.terms.context, f.segments;
    assert SegmentsOk(market, f);
    hide Honest, RegenerateRows;
    if segments != [] {
      var last := segments[|segments| - 1];
      assert last in segments;
      LastSegmentIsLast(segments);
      ctx.calendar.NextExpectedIsLeast(last.barTo);
    }
  }

  /** The pieces of a written evaluation. */
  lemma EvaluatedParts(m: FillModel, market: Market, f: OrderFile, runId: nat, marketNow: int, close: bool, g: OrderFile)
    returns (start: int, minutes: seq<int>, bars: seq<Bar>, barTo: int, hash: seq<DataEntry>, r: StepResult, d: Deduped)
    requires f.order.terms.context.Valid() && Evaluate(m, market, f, runId, marketNow, close) == Written(g)
    ensures f.projection.Some? && runId in market.runs && minutes != [] && d.Fresh?
    ensures ResumeFrom(f.order.terms.context, f.segments) == Some(start)
    ensures PlanWindow(market, f.order.terms, f.segments, market.runs[runId], marketNow, close) == Window(minutes, bars, barTo)
    ensures SelectedDataHash(f.order.terms.Feed(), minutes, bars) == Some(hash)
    ensures r == m.runBars(f.projection.value.state, bars, f.order.terms.context)
    ensures d == Dedupe(KnownOf(Plain(f.rows)), r.events, f.order.terms.context.start)
    ensures var nextSeq := f.projection.value.nextSeq;
            ApplyResult(f, nextSeq, r, d.events, [SegmentRow(runId, minutes[0], barTo, hash, nextSeq, |d.events|)]) == Written(g)
    ensures !f.order.replay && !f.projection.value.state.Final() && !f.projection.value.state.frozen
    ensures forall x :: x in f.segments ==> x.runId != runId
  {
    hide ResumeFrom, SelectedDataHash, Dedupe, KnownOf, ApplyResult;
    var w := PlanWindow(market, f.order.terms, f.segments, market.runs[runId], marketNow, close);
    start := ResumeFrom(f.order.terms.context, f.segments).value;
    minutes, bars, barTo := w.minutes, w.bars, w.barTo;
    hash := SelectedDataHash(f.order.terms.Feed(), minutes, bars).value;
    r := m.runBars(f.projection.value.state, bars, f.order.terms.context);
    d := Dedupe(KnownOf(Plain(f.rows)), r.events, f.order.terms.context.start);
  }

  lemma EvaluationIsRecorded(m: FillModel, market: Market, f: OrderFile, g: SegmentRow, minutes: seq<int>, bars: seq<Bar>,
                             d: Deduped, r: StepResult)
    requires f.order.terms.context.calendar.sessions != [] && RegenerateRows(SourceOf(m, market, f)).Regenerated?
    requires g.runId in market.runs
    requires minutes == f.order.terms.context.calendar.ExpectedMinutesSpec(g.barFrom, g.barTo + MINUTE)
    requires bars == BarsInMinutes(ReadAsOf(market.batches, f.order.terms.Feed(), g.barFrom, g.barTo + MINUTE, market.runs[g.runId]), minutes)
    requires SelectedDataHash(f.order.terms.Feed(), minutes, bars) == Some(g.dataHash)
    requires r == m.runBars(Regained(m, market, f), bars, f.order.terms.context)
    requires d == Dedupe(KnownOf(Plain(f.rows)), r.events, f.order.terms.context.start) && d.Fresh?
    requires g.firstSeq == |f.rows| + 1 && g.eventCount == |d.events|
    ensures Recorded(m, market, f, g, bars, d, r)
  {
    hide SelectedDataHash, Dedupe, RegenerateRows, ReadAsOf, BarsInMinutes, SessionCalendar.ExpectedMinutesSpec, KnownOf, Plain;
  }

  lemma CachedIsRegained(m: FillModel, coupled: Coupling, market: Market, f: OrderFile)
    requires Honest(m, coupled, market, f) && f.projection.Some?
    ensures f.projection.value.state == Regained(m, market, f) && f.projection.value.nextSeq == |f.rows| + 1
    ensures Contiguous(f.rows) && f.order.terms.context.Valid()
  {
  }

  /** Every evaluation that writes keeps the file honest: the cache moves exactly as regeneration will. */
  lemma EvaluateKeepsHonest(m: FillModel, coupled: Coupling, market: Market, f: OrderFile, runId: nat, marketNow: int,
                            close: bool, g: OrderFile)
    requires WellBehaved(m, coupled) && Honest(m, coupled, market, f)
    requires Evaluate(m, market, f, runId, marketNow, close) == Written(g)
    ensures Honest(m, coupled, market, g)
  {
    hide *;
    HonestIsValid(m, coupled, market, f);
    var start, minutes, bars, barTo, hash, r, d := EvaluatedParts(m, market, f, runId, marketNow, close, g);
    CachedIsRegained(m, coupled, market, f);
    ResumeIsNextTile(m, coupled, market, f, start);
    PlannedBars(market, f.order.terms, f.segments, market.runs[runId], marketNow, close, start, minutes, bars, barTo);
    var segment := SegmentRow(runId, minutes[0], barTo, hash, |f.rows| + 1, |d.events|);
    assert segment.barFrom == start && segment.barTo == barTo;
    EvaluationIsRecorded(m, market, f, segment, minutes, bars, d, r);
    ApplyIsAppend(f, r, d.events, [segment]);
    assert NextTile(f.order.terms.context, f.segments, segment) by {
      TileFacts(f.order.terms.context, f.segments, segment, start);
    }
    SegmentKeepsHonest(m, coupled, market, f, segment, bars, d, r);
  }

  lemma TileFacts(ctx: OrderContext, segments: seq<SegmentRow>, g: SegmentRow, start: int)
    requires ctx.Valid() && g.barFrom == start && ctx.calendar.Expected(start) && ctx.calendar.Expected(g.barTo)
    requires ctx.start <= start <= g.barTo < ctx.until
    requires if segments == [] then start == ctx.start
             else ctx.calendar.NextExpectedMinute(segments[|segments| - 1].barTo) == Some(start)
    ensures NextTile(ctx, segments, g)
  {
  }

  // ---- commands ---------------------------------------------------------------------------------------------

  datatype ReviewFlag = ReviewFlag(reason: string, ref: string)

  datatype Gap = Gap(start: int, minutes: nat)

  /** The operations that reach an order through the locked command path. */
  datatype Command =
    | CancelOrder(at: int, requestedBy: string)
    | FinalizeValidity(now: int)
    | FreezeOrder(reason: string, ref: string)
    | FlagOrderReview(reason: string, ref: string)
    | CreditDividend(exDate: int, amount: real, validated: bool, tolerance: real, confirmedBy: int)
    | DividendUnverifiable(exDate: int, confirmedBy: int)
    | SessionQuality(day: int, expected: nat, missing: nat, gaps: seq<Gap>, flags: seq<ReviewFlag>)

  datatype CommandPlan = Parts(parts: seq<Part>) | PlanRefused(error: LedgerError) | PlanRaised

  function QualityKey(day: int): string { "DATA_QUALITY:" + Text(day) }

  function QualityEvent(day: int, expected: nat, missing: nat): Event {
    Event(DataQuality, QualityKey(day), None, None, None, None, QualityPayload(day, expected, missing))
  }

  function GapEvent(gap: Gap): Event {
    Event(DataGap, "DATA_GAP:" + Text(gap.start), None, None, None, None, GapPayload(gap.start, gap.minutes))
  }

  function GapParts(gaps: seq<Gap>): (r: seq<Part>)
    ensures forall p :: p in r ==> p.RecordPart? && p.event.kind.Record()
  {
    if gaps == [] then [] else [RecordPart(GapEvent(gaps[0]))] + GapParts(gaps[1..])
  }

  function FlagParts(flags: seq<ReviewFlag>): (r: seq<Part>)
    ensures forall p :: p in r ==> p.ReviewPart?
  {
    if flags == [] then [] else [ReviewPart(flags[0].reason, flags[0].ref)] + FlagParts(flags[1..])
  }

  function SegmentContaining(segments: seq<SegmentRow>, ts: int): Option<SegmentRow> {
    if segments == [] then None
    else if segments[0].barFrom <= ts <= segments[0].barTo then Some(segments[0])
    else SegmentContaining(segments[1..], ts)
  }

  /** The version of the bar at `ts` that the segment holding it was evaluated on. */
  function ProcessedBar(market: Market, f: OrderFile, ts: int): Option<Bar> {
    match SegmentContaining(f.segments, ts)
    case None => None
    case Some(g) =>
      if g.runId !in market.runs then None
      else
        var bars := ReadAsOf(market.batches, f.order.terms.Feed(), ts, ts + MINUTE, market.runs[g.runId]);
        if bars == [] then None else Some(bars[0])
  }

  predicate PositionConfirmed(segments: seq<SegmentRow>, confirmedBy: int) {
    LastSegmentEnd(segments).Some? && LastSegmentEnd(segments).value >= confirmedBy
  }

  function PlanCommand(market: Market, f: OrderFile, state: OrderState, c: Command): CommandPlan {
    var known := KnownOf(Plain(f.rows));
    match c
    case CancelOrder(at, who) => if state.Final() then PlanRaised else Parts([CancelPart(at, who)])
    case FinalizeValidity(now) =>
      if (state.status.Open? || state.status.PartiallyClosed?) && state.lastBarTs.Some? then
        match ProcessedBar(market, f, state.lastBarTs.value)
        case None => PlanRefused(ProcessedBarMissing(state.lastBarTs.value))
        case Some(bar) => Parts([ValidityPart(Some(bar), now)])
      else Parts([ValidityPart(None, now)])
    case FreezeOrder(reason, ref) => Parts([FreezePart(reason, ref)])
    case FlagOrderReview(reason, ref) => Parts([ReviewPart(reason, ref)])
    case CreditDividend(exDate, amount, validated, tolerance, confirmedBy) =>
      if DividendKey(exDate) in known then Parts([])
      else if !PositionConfirmed(f.segments, confirmedBy) then Parts([ReviewPart("DIVIDEND_POSITION_UNCONFIRMED", Text(exDate))])
      else if state.qtyOpen <= 0.0 then Parts([])
      else if f.order.terms.context.config.dividendTolerance != tolerance
      then Parts([ReviewPart("DIVIDEND_TOLERANCE_MISMATCH", Text(exDate))])
      else Parts([DividendPart(exDate, amount, validated)])
    case DividendUnverifiable(exDate, confirmedBy) =>
      if state.Final() || state.frozen || DividendKey(exDate) in known then Parts([])
      else if !PositionConfirmed(f.segments, confirmedBy) then Parts([ReviewPart("DIVIDEND_POSITION_UNCONFIRMED", Text(exDate))])
      else if state.qtyOpen <= 0.0 then Parts([])
      else Parts([ReviewPart("DIVIDEND_UNVERIFIED", Text(exDate))])
    case SessionQuality(day, expected, missing, gaps, flags) =>
      if QualityKey(day) in known then Parts([])
      else Parts([RecordPart(QualityEvent(day, expected, missing))] + GapParts(gaps) + FlagParts(flags))
  }

  /** Append a result's fresh events to an order and overwrite its projection. */
  function ApplyTo(f: OrderFile, r: StepResult): (w: WriteResult)
    requires f.projection.Some?
    ensures !w.Untouched? && (w.WriteRefused? ==> !w.error.Diverges())
  {
    match Dedupe(KnownOf(Plain(f.rows)), r.events, f.order.terms.context.start)
    case Refused(error) => WriteRefused(error)
    case Fresh(events, _) => ApplyResult(f, f.projection.value.nextSeq, r, events, [])
  }

  /** Every command transaction: refused on replays, then planned, run, deduplicated and applied in one step. */
  function ApplyCommand(m: FillModel, market: Market, f: OrderFile, c: Command): (w: WriteResult)
    ensures w.WriteRefused? ==> !w.error.Diverges()
  {
    if f.order.replay then WriteRaised
    else if f.projection.None? then WriteRefused(ProjectionMissing)
    else
      match PlanCommand(market, f, f.projection.value.state, c)
      case PlanRaised => WriteRaised
      case PlanRefused(error) => WriteRefused(error)
      case Parts(parts) =>
        match RunParts(m, f.order.terms.context, f.projection.value.state, parts)
        case None => WriteRaised
        case Some(r) => ApplyTo(f, r)
  }

  lemma ProcessedBarNamed(market: Market, f: OrderFile, ts: int)
    requires UniqueIds(market.batches) && ProcessedBar(market, f, ts).Some?
    ensures var bar := ProcessedBar(market, f, ts).value;
            ReadVersion(market.batches, f.order.terms.Feed(), bar.ts, bar.batch) == Some(bar)
  {
    var g, feed := SegmentContaining(f.segments, ts).value, f.order.terms.Feed();
    var asOf := market.runs[g.runId];
    var bar := ProcessedBar(market, f, ts).value;
    var minutes := Ascending(set m | m in StoredMinutes(market.batches, feed, asOf) && ts <= m < ts + MINUTE);
    BarsAtMembers(market.batches, feed, asOf, minutes);
    assert bar in ReadAsOf(market.batches, feed, ts, ts + MINUTE, asOf);
    VersionRecoverable(market.batches, feed, bar.ts, asOf);
  }

  lemma PlannedPartsOk(market: Market, f: OrderFile, state: OrderState, c: Command, parts: seq<Part>)
    requires UniqueIds(market.batches) && KeyedDividends(KnownOf(Plain(f.rows)))
    requires PlanCommand(market, f, state, c) == Parts(parts)
    ensures PartsOk(market, f.order.terms.Feed(), KnownOf(Plain(f.rows)), parts)
  {
    hide KnownOf, ProcessedBar, ReadVersion, UniqueIds;
    if c.FinalizeValidity? && (state.status.Open? || state.status.PartiallyClosed?) && state.lastBarTs.Some? {
      ProcessedBarNamed(market, f, state.lastBarTs.value);
    }
  }

  lemma HonestIsKeyed(m: FillModel, coupled: Coupling, market: Market, f: OrderFile)
    requires WellBehaved(m, coupled) && Honest(m, coupled, market, f)
    ensures KeyedDividends(KnownOf(Plain(f.rows)))
  {
    var o := RegenerateRows(SourceOf(m, market, f));
    assert coupled(o.value.state, KnownOf(Plain(f.rows)));
    hide RegenerateRows, KnownOf, HeadFirst, SegmentsKeep, CreationReplays, Honest;
  }

  lemma CommandParts(m: FillModel, market: Market, f: OrderFile, c: Command, g: OrderFile)
    returns (parts: seq<Part>, r: StepResult, d: Deduped)
    requires ApplyCommand(m, market, f, c) == Written(g)
    ensures f.projection.Some? && !f.order.replay && d.Fresh?
    ensures PlanCommand(market, f, f.projection.value.state, c) == Parts(parts)
    ensures RunParts(m, f.order.terms.context, f.projection.value.state, parts) == Some(r)
    ensures d == Dedupe(KnownOf(Plain(f.rows)), r.events, f.order.terms.context.start)
    ensures ApplyResult(f, f.projection.value.nextSeq, r, d.events, []) == Written(g)
  {
    hide PlanCommand, RunParts, Dedupe, ApplyResult;
    parts := PlanCommand(market, f, f.projection.value.state, c).parts;
    r := RunParts(m, f.order.terms.context, f.projection.value.state, parts).value;
    d := Dedupe(KnownOf(Plain(f.rows)), r.events, f.order.terms.context.start);
  }

  /** Every command that writes keeps the file honest. */
  lemma CommandWriteKeepsHonest(m: FillModel, coupled: Coupling, market: Market, f: OrderFile, c: Command, g: OrderFile)
    requires WellBehaved(m, coupled) && Honest(m, coupled, market, f) && UniqueIds(market.batches)
    requires ApplyCommand(m, market, f, c) == Written(g)
    ensures Honest(m, coupled, market, g)
  {
    hide *;
    var parts, r, d := CommandParts(m, market, f, c, g);
    HonestIsValid(m, coupled, market, f);
    CachedIsRegained(m, coupled, market, f);
    HonestIsKeyed(m, coupled, market, f);
    PlannedPartsOk(market, f, f.projection.value.state, c, parts);
    ApplyIsAppend(f, r, d.events, []);
    PartsKeepHonest(m, coupled, market, f, parts, r, d);
  }

  // ---- one command at a time ---------------------------------------------------------------------------------

  /** A single command appended through `ApplyTo` keeps the file honest and leaves its segments alone. */
  lemma AppliedPart(m: FillModel, coupled: Coupling, market: Market, f: OrderFile, part: Part, r: StepResult, g: OrderFile)
    requires WellBehaved(m, coupled) && Honest(m, coupled, market, f) && f.projection.Some?
    requires PartOk(market, f.order.terms.Feed(), KnownOf(Plain(f.rows)), part)
    requires RunPart(m, f.order.terms.context, f.projection.value.state, part) == Some(r)
    requires ApplyTo(f, r) == Written(g)
    ensures Honest(m, coupled, market, g) && g.order == f.order && g.segments == f.segments && g.projection.Some?
    ensures Dedupe(KnownOf(Plain(f.rows)), r.events, f.order.terms.context.start).Fresh?
    ensures KnownOf(Plain(g.rows)) == Dedupe(KnownOf(Plain(f.rows)), r.events, f.order.terms.context.start).known
    ensures g.projection.value.state == r.state
  {
    hide *;
    var d := AppliedParts(f, r, g);
    CachedIsRegained(m, coupled, market, f);
    ApplyIsAppend(f, r, d.events, []);
    PartKeepsHonest(m, coupled, market, f, part, r, d);
    AfterAppend(m, coupled, market, f, r.events, d, r.state);
    AppendShape(f, d.events, r.state);
  }

  lemma AppendShape(f: OrderFile, events: seq<Event>, state: OrderState)
    ensures var g := Append(f, events, state, []);
            g.segments == f.segments && g.projection.Some? && g.projection.value.state == state
  {
    assert f.segments + [] == f.segments;
  }

  lemma AppliedParts(f: OrderFile, r: StepResult, g: OrderFile) returns (d: Deduped)
    requires f.projection.Some? && ApplyTo(f, r) == Written(g)
    ensures d == Dedupe(KnownOf(Plain(f.rows)), r.events, f.order.terms.context.start) && d.Fresh?
    ensures ApplyResult(f, f.projection.value.nextSeq, r, d.events, []) == Written(g)
  {
    hide Dedupe, ApplyResult;
    d := Dedupe(KnownOf(Plain(f.rows)), r.events, f.order.terms.context.start);
  }

  // ---- quarantine, rebuilding, creation ---------------------------------------------------------------------

  /** The second transaction of a quarantine: freeze the order, unless it is a replay or has no projection. */
  function FreezeStep(m: FillModel, f: OrderFile, errorKind: string): WriteResult {
    if f.order.replay || f.projection.None? then Untouched
    else ApplyTo(f, m.freeze(f.projection.value.state, "INTEGRITY", errorKind))
  }

  lemma FreezeKeepsHonest(m: FillModel, coupled: Coupling, market: Market, f: OrderFile, errorKind: string, g: OrderFile)
    requires WellBehaved(m, coupled) && Honest(m, coupled, market, f) && FreezeStep(m, f, errorKind) == Written(g)
    ensures Honest(m, coupled, market, g)
  {
    hide WellBehaved, Honest, ApplyTo, KnownOf;
    AppliedPart(m, coupled, market, f, FreezePart("INTEGRITY", errorKind), m.freeze(f.projection.value.state, "INTEGRITY", errorKind), g);
  }

  /** Compare the cache with what the history regenerates; restore it only when it is missing. */
  function Rebuild(m: FillModel, market: Market, f: OrderFile): WriteResult
    requires f.order.terms.context.Valid()
  {
    match Regenerate(m, f.order.terms, market, f.rows, f.segments)
    case Raised => WriteRaised
    case Diverged(_) => WriteRefused(ProjectionIntegrity)
    case Regenerated(h) =>
      var rebuilt := ProjectionRow(h.state, h.nextSeq, f.rows);
      if f.projection.None? then Written(f.(projection := Some(rebuilt)))
      else if f.projection.value != rebuilt then WriteRefused(ProjectionIntegrity)
      else Untouched
  }

  /** On an honest file a rebuild never reports a mismatch: it confirms the cache, or restores it when it was dropped. */
  lemma RebuildAgrees(m: FillModel, coupled: Coupling, market: Market, f: OrderFile)
    requires Honest(m, coupled, market, f)
    ensures f.projection.Some? ==> Rebuild(m, market, f) == Untouched
    ensures f.projection.None? ==> Rebuild(m, market, f).Written? && Honest(m, coupled, market, Rebuild(m, market, f).file)
  {
    hide Honest, Regenerate, RegenerateRows, ProjectionRow, SourceOf;
    HonestIsValid(m, coupled, market, f);
    HonestIsOrdered(m, coupled, market, f);
    HonestEnds(m, coupled, market, f);
    var state := Regained(m, market, f);
    RestoredIsHonest(m, coupled, market, f, ProjectionRow(state, |f.rows| + 1, f.rows));
  }

  /**
   * A cache that drifted never passes. On an honest file a rebuild compares every column: it confirms the cache if and only if
   * it is what the history regenerates, and reports an integrity error otherwise.
   */
  lemma DriftIsRefused(m: FillModel, coupled: Coupling, market: Market, f: OrderFile, cache: Projection)
    requires Honest(m, coupled, market, f)
    ensures var agrees := cache.state == Regained(m, market, f) && cache.nextSeq == |f.rows| + 1
                          && cache.expectedBars == ExpectedTotal(Plain(f.rows)) && cache.missingBars == MissingTotal(Plain(f.rows));
            Rebuild(m, market, f.(projection := Some(cache))) == if agrees then Untouched else WriteRefused(ProjectionIntegrity)
  {
    hide Honest, Regenerate, RegenerateRows, SourceOf, OrderContext.Valid, ExpectedTotal, MissingTotal;
    HonestIsValid(m, coupled, market, f);
    HonestIsOrdered(m, coupled, market, f);
    HonestEnds(m, coupled, market, f);
  }

  /** The verdict of a rebuild on any file at all, honest or corrupted. */
  lemma RebuildConfirmsOnlyTheTruth(m: FillModel, market: Market, f: OrderFile)
    requires f.order.terms.context.Valid()
    ensures var o, w := Regenerate(m, f.order.terms, market, f.rows, f.segments), Rebuild(m, market, f);
            && (w.Untouched? || w.Written? ==> o.Regenerated?)
            && (w.Untouched? ==> f.projection.Some? && f.projection.value.state == o.value.state
                                 && f.projection.value.nextSeq == o.value.nextSeq)
            && (w.Written? ==> f.projection.None? && w.file.projection.Some? && w.file.(projection := None) == f
                               && w.file.projection.value.state == o.value.state && w.file.projection.value.nextSeq == o.value.nextSeq)
            && (w.WriteRaised? <==> o.Raised?)
            && (w.WriteRefused? ==> w.error == ProjectionIntegrity)
  {
    hide Regenerate, ExpectedTotal, MissingTotal;
  }

  lemma RestoredIsHonest(m: FillModel, coupled: Coupling, market: Market, f: OrderFile, cache: Projection)
    requires Honest(m, coupled, market, f)
    ensures f.projection.Some? ==> f.projection.value == ProjectionRow(Regained(m, market, f), |f.rows| + 1, f.rows)
    ensures (cache == ProjectionRow(Regained(m, market, f), |f.rows| + 1, f.rows)) ==>
              Honest(m, coupled, market, f.(projection := Some(cache)))
  {
    hide RegenerateRows, ProjectionRow, Tiled, InOrder, UniqueKeys, KnownOf, Contiguous, OrderContext.Valid;
    assert SourceOf(m, market, f.(projection := Some(cache))) == SourceOf(m, market, f);
  }

  lemma HonestEnds(m: FillModel, coupled: Coupling, market: Market, f: OrderFile)
    requires Honest(m, coupled, market, f)
    ensures RegenerateRows(SourceOf(m, market, f)).value.nextSeq == |f.rows| + 1
  {
    AcceptedAccountsForAll(SourceOf(m, market, f));
  }

  lemma DroppingKeepsHonest(m: FillModel, coupled: Coupling, market: Market, f: OrderFile)
    requires Honest(m, coupled, market, f)
    ensures Honest(m, coupled, market, f.(projection := None))
  {
    assert SourceOf(m, market, f.(projection := None)) == SourceOf(m, market, f);
  }

  /** A new order: its row, its ORDER_CREATED event and its first projection, in one transaction. */
  function Create(m: FillModel, order: OrderRow, inherited: Option<GatingState>, extra: map<string, string>): (w: WriteResult)
    ensures !w.Untouched? && (w.WriteRefused? ==> !w.error.Diverges())
  {
    match m.newOrderState(order.terms.context, inherited, extra)
    case None => WriteRaised
    case Some(r) =>
      match Dedupe(map[], r.events, order.terms.context.start)
      case Refused(error) => WriteRefused(error)
      case Fresh(events, _) => ApplyResult(OrderFile(order, [], [], None), 1, r, events, [])
  }

  lemma CreatedRows(m: FillModel, coupled: Coupling, order: OrderRow, inherited: Option<GatingState>,
                    extra: map<string, string>, g: OrderFile) returns (r: StepResult, e: Event)
    requires order.terms.context.Valid() && CreationReplays(m, order.terms.context, coupled, inherited, extra)
    requires Create(m, order, inherited, extra) == Written(g)
    ensures m.newOrderState(order.terms.context, inherited, extra) == Some(r) && r.events == [e]
    ensures e.kind == OrderCreated && RegenerateCreated(m, order.terms.context, e.payload) == Some(r)
    ensures coupled(r.state, map[e.key := e])
    ensures Dedupe(map[], r.events, order.terms.context.start) == Fresh([e], map[e.key := e])
    ensures g == OrderFile(order, [StoredEvent(1, e)], [], Some(ProjectionRow(r.state, 2, [StoredEvent(1, e)])))
  {
    hide OrderContext.Valid, SessionCalendar.Window, ProjectionRow;
    r := m.newOrderState(order.terms.context, inherited, extra).value;
    e := r.events[0];
    assert r.events == [e];
    CreationIsFresh(e, order.terms.context.start);
    assert [] + Numbered([e], 1) == [StoredEvent(1, e)];
  }

  lemma CreationIsFresh(e: Event, start: int)
    requires e.kind == OrderCreated && !BeforeStart(e, start)
    ensures Dedupe(map[], [e], start) == Fresh([e], map[e.key := e])
  {
    assert [e][1..] == [];
  }

  lemma CreatedRegenerates(s: Source, r: StepResult, e: Event)
    requires s.order.context.calendar.sessions != [] && s.rows == [e] && s.segments == []
    requires e.kind == OrderCreated && RegenerateCreated(s.model, s.order.context, e.payload) == Some(r)
    requires Dedupe(map[], r.events, s.order.context.start) == Fresh([e], map[e.key := e])
    ensures RegenerateRows(s) == Regenerated(RegeneratedHistory(r.state, [HistoryItem(CreatedItem, [e], None)], 2))
  {
    hide Dedupe, RegenerateCreated;
    assert Slice([e], 1, 1) == [e];
    assert Begin(s) == Regenerated(Cursor(2, 0, r.state, map[e.key := e], [HistoryItem(CreatedItem, [e], None)]));
    assert Advance(s, Begin(s).value) == AtEnd;
  }

  lemma CreateIsHonest(m: FillModel, coupled: Coupling, market: Market, order: OrderRow, inherited: Option<GatingState>,
                       extra: map<string, string>, g: OrderFile)
    requires WellBehaved(m, coupled) && order.terms.context.Valid() && Create(m, order, inherited, extra) == Written(g)
    ensures Honest(m, coupled, market, g) && g.order == order && g.segments == [] && g.projection.Some?
    ensures m.newOrderState(order.terms.context, inherited, extra).Some?
    ensures g.projection.value.state == m.newOrderState(order.terms.context, inherited, extra).value.state
    ensures NoDividends(Plain(g.rows))
  {
    hide *;
    CreationContract(m, coupled, order.terms.context, inherited, extra);
    var r, e := CreatedRows(m, coupled, order, inherited, extra, g);
    CreatedIsHonest(m, coupled, market, order, r, e, g);
  }

  lemma CreationContract(m: FillModel, coupled: Coupling, ctx: OrderContext, inherited: Option<GatingState>, extra: map<string, string>)
    requires WellBehaved(m, coupled) && ctx.Valid()
    ensures CreationReplays(m, ctx, coupled, inherited, extra)
  {
    hide CreationReplays, OrderContext.Valid, HeadFirst, SegmentsKeep, KeyedDividends, NoDividendFor, DividendsOnlyFor, NoDividends;
  }

  lemma CreatedIsHonest(m: FillModel, coupled: Coupling, market: Market, order: OrderRow, r: StepResult, e: Event, g: OrderFile)
    requires order.terms.context.Valid() && e.kind == OrderCreated && RegenerateCreated(m, order.terms.context, e.payload) == Some(r)
    requires coupled(r.state, map[e.key := e])
    requires Dedupe(map[], r.events, order.terms.context.start) == Fresh([e], map[e.key := e])
    requires g == OrderFile(order, [StoredEvent(1, e)], [], Some(ProjectionRow(r.state, 2, [StoredEvent(1, e)])))
    ensures Honest(m, coupled, market, g) && NoDividends(Plain(g.rows)) && g.projection.value.state == r.state
  {
    hide RegenerateRows, ExpectedTotal, MissingTotal, KnownOf, RegenerateCreated, Dedupe;
    assert Plain(g.rows) == [e];
    OneKnown(e);
    CreatedRegenerates(SourceOf(m, market, g), r, e);
    assert Tiled(order.terms.context, []);
  }

  lemma OneKnown(e: Event)
    ensures KnownOf([e]) == map[e.key := e]
  {
    assert [e][..0] == [];
  }
}
