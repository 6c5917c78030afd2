/** The writers of an order's log as functions on the order's rows, and the invariant each of them keeps. */
module Ledger {
  import opened Prelude
  import opened Calendar
  import opened BarStore
  import opened Domain
  import opened Events
  import opened History
  import opened HistoryLaws
  import opened FillContract

  /** The cached projection row: the state, the next sequence number and the quality totals of the log. */
  datatype Projection = Projection(state: OrderState, nextSeq: nat, expectedBars: nat, missingBars: nat)

  datatype OrderRow = OrderRow(terms: Terms, version: string, replay: bool)

  /** One order's rows across the orders, events, segments and projection tables. */
  datatype OrderFile = OrderFile(order: OrderRow, rows: seq<StoredEvent>, segments: seq<SegmentRow>,
                                 projection: Option<Projection>)

  function ExpectedTotal(log: seq<Event>): nat {
    if log == [] then 0
    else ExpectedTotal(log[..|log| - 1])
         + (if log[|log| - 1].kind == DataQuality && log[|log| - 1].payload.QualityPayload?
            then log[|log| - 1].payload.expectedBars else 0)
  }

  function MissingTotal(log: seq<Event>): nat {
    if log == [] then 0
    else MissingTotal(log[..|log| - 1])
         + (if log[|log| - 1].kind == DataQuality && log[|log| - 1].payload.QualityPayload?
            then log[|log| - 1].payload.missingBars else 0)
  }

  function ProjectionRow(state: OrderState, nextSeq: nat, rows: seq<StoredEvent>): Projection {
    Projection(state, nextSeq, ExpectedTotal(Plain(rows)), MissingTotal(Plain(rows)))
  }

  function SourceOf(m: FillModel, market: Market, f: OrderFile): Source {
    Source(m, f.order.terms, market, Plain(f.rows), f.segments)
  }

  // ---- the invariant ----------------------------------------------------------------------------------------

  /** Segments follow each other without a gap: each starts at the expected minute after the previous one's end. */
  ghost predicate Tiled(ctx: OrderContext, segments: seq<SegmentRow>) {
    && ctx.Valid()
    && (forall g :: g in segments ==>
          ctx.calendar.Expected(g.barFrom) && ctx.calendar.Expected(g.barTo) && ctx.start <= g.barFrom <= g.barTo < ctx.until)
    && (segments != [] ==> segments[0].barFrom == ctx.start)
    && (forall i :: 0 < i < |segments| ==>
          ctx.calendar.NextExpectedMinute(segments[i - 1].barTo) == Some(segments[i].barFrom))
  }

  ghost predicate InOrder(segments: seq<SegmentRow>) {
    forall i, j :: 0 <= i < j < |segments| ==>
      segments[i].firstSeq <= segments[j].firstSeq && segments[i].barTo < segments[j].barFrom
  }

  ghost predicate SegmentsOk(market: Market, f: OrderFile) {
    && Tiled(f.order.terms.context, f.segments)
    && InOrder(f.segments)
    && (forall g :: g in f.segments ==> g.runId in market.runs && g.firstSeq - 1 + g.eventCount <= |f.rows|)
  }

  /** The log regenerates, the regenerated state is coupled to it, and the cache (when present) is what it regenerates. */
  ghost predicate Honest(m: FillModel, coupled: Coupling, market: Market, f: OrderFile) {
    && f.order.terms.context.Valid()
    && Contiguous(f.rows) && UniqueKeys(Plain(f.rows))
    && SegmentsOk(market, f)
    && var o := RegenerateRows(SourceOf(m, market, f));
    && o.Regenerated?
    && coupled(o.value.state, KnownOf(Plain(f.rows)))
    && (f.projection.Some? ==> f.projection.value == ProjectionRow(o.value.state, |f.rows| + 1, f.rows))
  }

  ghost function Regained(m: FillModel, market: Market, f: OrderFile): OrderState
    requires f.order.terms.context.calendar.sessions != [] && RegenerateRows(SourceOf(m, market, f)).Regenerated?
  {
    RegenerateRows(SourceOf(m, market, f)).value.state
  }

  lemma HonestIsValid(m: FillModel, coupled: Coupling, market: Market, f: OrderFile)
    requires Honest(m, coupled, market, f)
    ensures f.order.terms.context.Valid() && f.order.terms.context.calendar.sessions != []
    ensures RegenerateRows(SourceOf(m, market, f)).Regenerated?
    ensures Contiguous(f.rows) && UniqueKeys(Plain(f.rows)) && SegmentsOk(market, f)
    ensures coupled(Regained(m, market, f), KnownOf(Plain(f.rows)))
  {
    hide RegenerateRows, Tiled, InOrder, UniqueKeys, KnownOf, Contiguous;
  }

  /** Honesty survives everything later ingestions and later runs do. */
  lemma HonestStable(m: FillModel, coupled: Coupling, market: Market, after: Market, later: seq<Batch>, f: OrderFile)
    requires Honest(m, coupled, market, f) && MarketGrows(market, after, later)
    ensures Honest(m, coupled, after, f) && Regained(m, after, f) == Regained(m, market, f)
  {
    RegenerationStable(SourceOf(m, market, f), after, later);
    hide RegenerateRows, OrderContext.Valid, Tiled, InOrder, UniqueKeys, KnownOf;
  }

  /** In an honest file both ORDER BY clauses leave the stored order alone. */
  lemma HonestIsOrdered(m: FillModel, coupled: Coupling, market: Market, f: OrderFile)
    requires Honest(m, coupled, market, f)
    ensures Regenerate(m, f.order.terms, market, f.rows, f.segments) == RegenerateRows(SourceOf(m, market, f))
  {
    hide RegenerateRows, Tiled;
    SortByFixed(f.rows, SeqKey);
    HonestListed(m, coupled, market, f);
  }

  lemma HonestListed(m: FillModel, coupled: Coupling, market: Market, f: OrderFile)
    requires Honest(m, coupled, market, f)
    ensures ListSegments(f.segments) == f.segments
  {
    hide RegenerateRows, Tiled, OrderContext.Valid;
    assert Listed(f.segments) by {
      forall i, j | 0 <= i < j < |f.segments| ensures InListOrder(f.segments[i], f.segments[j]) {
        SegmentForward(m, coupled, market, f, i);
      }
    }
    ListFixed(f.segments);
  }

  lemma SegmentForward(m: FillModel, coupled: Coupling, market: Market, f: OrderFile, i: nat)
    requires Honest(m, coupled, market, f) && i < |f.segments|
    ensures f.segments[i].barFrom <= f.segments[i].barTo
  {
    assert f.segments[i] in f.segments;
  }

  /** Where regeneration of an honest file ends. */
  lemma EndOfHistory(s: Source) returns (end: Cursor)
    requires s.order.context.calendar.sessions != [] && RegenerateRows(s).Regenerated? && UniqueKeys(s.rows)
    ensures InRange(s, end) && end.seqNo == |s.rows| + 1 && end.index == |s.segments|
    ensures end.known == KnownOf(s.rows) && end.state == RegenerateRows(s).value.state
    ensures Begin(s).Regenerated? && Loop(s, Begin(s).value) == Regenerated(end)
  {
    hide Begin, Loop, Accounts;
    BeginAccounts(s);
    LoopSound(s, Begin(s).value);
    end := Loop(s, Begin(s).value).value;
    AllRead(s, end);
  }

  lemma AllRead(s: Source, end: Cursor)
    requires Accounts(s, end) && end.seqNo == |s.rows| + 1 && UniqueKeys(s.rows)
    ensures InRange(s, end) && end.known == KnownOf(s.rows)
  {
    hide EventsOf, SegmentsOf, Renumbered, KnownOf, ItemOk, UniqueKeys;
    assert s.rows[..end.seqNo - 1] == s.rows;
  }

  /** If one more item takes the end of the old history to the end of the new one, the new one regenerates. */
  lemma OneMoreItemRegenerates(s: Source, t: Source, end: Cursor, next: Cursor)
    requires s.order.context.calendar.sessions != [] && Begin(s).Regenerated? && Loop(s, Begin(s).value) == Regenerated(end)
    requires InRange(s, end) && end.index == |s.segments| && Grows(s, t) && Fits(s)
    requires InRange(t, end) && Advance(t, end) == Moved(next)
    requires next.seqNo == |t.rows| + 1 && next.index == |t.segments|
    ensures RegenerateRows(t) == Regenerated(RegeneratedHistory(next.state, next.items, next.seqNo))
  {
    hide AdvanceSegment, AdvanceRecord, AdvanceCommand, Begin;
    BeginKept(s, t);
    LoopRetraces(s, t, Begin(s).value);
    assert Loop(t, end) == Loop(t, next);
    assert Advance(t, next) == AtEnd;
  }

  // ---- growing an honest file -------------------------------------------------------------------------------

  function Append(f: OrderFile, events: seq<Event>, state: OrderState, segments: seq<SegmentRow>): OrderFile {
    var rows := f.rows + Numbered(events, |f.rows| + 1);
    OrderFile(f.order, rows, f.segments + segments, Some(ProjectionRow(state, |rows| + 1, rows)))
  }

  lemma AppendedSource(m: FillModel, market: Market, f: OrderFile, events: seq<Event>, state: OrderState, segments: seq<SegmentRow>)
    requires Contiguous(f.rows)
    ensures var g := Append(f, events, state, segments);
            && Contiguous(g.rows)
            && SourceOf(m, market, g) == Source(m, f.order.terms, market, Plain(f.rows) + events, f.segments + segments)
  {
    AppendContiguous(f.rows, events);
  }

  lemma AppendedFits(market: Market, f: OrderFile)
    requires SegmentsOk(market, f)
    ensures forall m :: Fits(SourceOf(m, market, f))
  {
  }

  /** A recorded segment: the model run over exactly the bars its row names, from the current state. */
  ghost predicate Recorded(m: FillModel, market: Market, f: OrderFile, g: SegmentRow, bars: seq<Bar>, d: Deduped, r: StepResult)
    requires f.order.terms.context.calendar.sessions != [] && RegenerateRows(SourceOf(m, market, f)).Regenerated?
  {
    var ctx := f.order.terms.context;
    && g.runId in market.runs
    && bars == SegmentBars(SourceOf(m, market, f), g)
    && SelectedDataHash(f.order.terms.Feed(), SegmentMinutes(SourceOf(m, market, f), g), bars) == Some(g.dataHash)
    && r == m.runBars(Regained(m, market, f), bars, ctx)
    && d == Dedupe(KnownOf(Plain(f.rows)), r.events, ctx.start) && d.Fresh?
    && g.firstSeq == |f.rows| + 1 && g.eventCount == |d.events|
  }

  /** The next segment starts where the previous one ended. */
  ghost predicate NextTile(ctx: OrderContext, segments: seq<SegmentRow>, g: SegmentRow) {
    && ctx.Valid()
    && ctx.calendar.Expected(g.barFrom) && ctx.calendar.Expected(g.barTo) && ctx.start <= g.barFrom <= g.barTo < ctx.until
    && if segments == [] then g.barFrom == ctx.start
       else ctx.calendar.NextExpectedMinute(segments[|segments| - 1].barTo) == Some(g.barFrom)
  }

  lemma LastBefore(market: Market, f: OrderFile, g: SegmentRow)
    requires SegmentsOk(market, f) && NextTile(f.order.terms.context, f.segments, g)
    ensures forall x :: x in f.segments ==> x.barTo < g.barFrom
  {
    if f.segments != [] {
      var last := f.segments[|f.segments| - 1];
      assert last in f.segments;
      f.order.terms.context.calendar.NextExpectedIsLeast(last.barTo);
      assert last.barTo < g.barFrom;
      hide SessionCalendar.NextExpectedMinute, SessionCalendar.Expected, OrderContext.Valid, NextTile;
      forall x | x in f.segments ensures x.barTo < g.barFrom {
        var i :| 0 <= i < |f.segments| && f.segments[i] == x;
        if i < |f.segments| - 1 { assert x.barTo < last.barFrom; }
      }
    }
  }

  lemma OrderAppended(segments: seq<SegmentRow>, g: SegmentRow)
    requires InOrder(segments)
    requires forall x :: x in segments ==> x.barTo < g.barFrom && x.firstSeq <= g.firstSeq
    ensures InOrder(segments + [g])
  {
    forall i, j | 0 <= i < j < |segments + [g]|
      ensures (segments + [g])[i].firstSeq <= (segments + [g])[j].firstSeq && (segments + [g])[i].barTo < (segments + [g])[j].barFrom
    {
      assert segments[i] in segments;
    }
  }

  lemma TilesAppended(ctx: OrderContext, segments: seq<SegmentRow>, g: SegmentRow)
    requires Tiled(ctx, segments) && NextTile(ctx, segments, g)
    ensures Tiled(ctx, segments + [g])
  {
    hide SessionCalendar.NextExpectedMinute, SessionCalendar.Expected, OrderContext.Valid;
    forall x | x in segments + [g] ensures x in segments || x == g {}
  }

  lemma TileAppended(market: Market, f: OrderFile, g: SegmentRow, h: OrderFile)
    requires SegmentsOk(market, f) && NextTile(f.order.terms.context, f.segments, g)
    requires g.runId in market.runs && g.firstSeq == |f.rows| + 1 && g.firstSeq - 1 + g.eventCount <= |h.rows|
    requires h.order == f.order && h.segments == f.segments + [g] && |f.rows| <= |h.rows|
    ensures SegmentsOk(market, h)
  {
    hide Tiled, NextTile, InOrder;
    LastBefore(market, f, g);
    TilesAppended(f.order.terms.context, f.segments, g);
    FirstSeqBounds(market, f);
    OrderAppended(f.segments, g);
  }

  lemma FirstSeqBounds(market: Market, f: OrderFile)
    requires SegmentsOk(market, f)
    ensures forall x :: x in f.segments ==> x.firstSeq <= |f.rows| + 1
  {
  }

  /** What remains to check once the grown log is known to regenerate to the new state. */
  lemma AppendKeepsHonest(m: FillModel, coupled: Coupling, market: Market, f: OrderFile, produced: seq<Event>,
                          d: Deduped, state: OrderState, segments: seq<SegmentRow>)
    requires Honest(m, coupled, market, f)
    requires d == Dedupe(KnownOf(Plain(f.rows)), produced, f.order.terms.context.start) && d.Fresh?
    requires coupled(state, d.known)
    requires SegmentsOk(market, Append(f, d.events, state, segments))
    requires RegenerateRows(SourceOf(m, market, Append(f, d.events, state, segments))).Regenerated?
    requires Regained(m, market, Append(f, d.events, state, segments)) == state
    ensures Honest(m, coupled, market, Append(f, d.events, state, segments))
  {
    hide RegenerateRows, Dedupe, KnownOf, UniqueKeys, SegmentsOk, OrderContext.Valid;
    AppendedSource(m, market, f, d.events, state, segments);
    DedupeExtendsKnown(Plain(f.rows), produced, f.order.terms.context.start);
  }

  /** Writing a segment keeps the file honest. */
  lemma SegmentKeepsHonest(m: FillModel, coupled: Coupling, market: Market, f: OrderFile, g: SegmentRow,
                           bars: seq<Bar>, d: Deduped, r: StepResult)
    requires WellBehaved(m, coupled) && Honest(m, coupled, market, f)
    requires Recorded(m, market, f, g, bars, d, r) && NextTile(f.order.terms.context, f.segments, g)
    ensures Honest(m, coupled, market, Append(f, d.events, r.state, [g]))
    ensures Regained(m, market, Append(f, d.events, r.state, [g])) == r.state
  {
    SegmentRegenerates(m, coupled, market, f, g, bars, d, r);
    assert SegmentsKeep(m, f.order.terms.context, coupled, Regained(m, market, f), KnownOf(Plain(f.rows)), bars);
    TileAppended(market, f, g, Append(f, d.events, r.state, [g]));
    AppendKeepsHonest(m, coupled, market, f, r.events, d, r.state, [g]);
  }

  lemma TileInRange(ctx: OrderContext, segments: seq<SegmentRow>, g: SegmentRow)
    requires NextTile(ctx, segments, g)
    ensures ctx.calendar.sessions[0].open <= g.barFrom && g.barTo + MINUTE <= ctx.calendar.LastClose()
  {
    ctx.calendar.ExpectedInRange(g.barFrom);
    ctx.calendar.ExpectedInRange(g.barTo);
  }

  lemma SegmentRegenerates(m: FillModel, coupled: Coupling, market: Market, f: OrderFile, g: SegmentRow,
                           bars: seq<Bar>, d: Deduped, r: StepResult)
    requires Honest(m, coupled, market, f) && Recorded(m, market, f, g, bars, d, r)
    requires NextTile(f.order.terms.context, f.segments, g)
    ensures RegenerateRows(SourceOf(m, market, Append(f, d.events, r.state, [g]))).Regenerated?
    ensures Regained(m, market, Append(f, d.events, r.state, [g])) == r.state
  {
    hide Honest, RegenerateRows, Begin, Loop, Advance, Dedupe, SegmentBars, SegmentMinutes, SelectedDataHash, KnownOf, UniqueKeys,
         SegmentsOk, NextTile, OrderContext.Valid, Numbered, Fits;
    HonestIsValid(m, coupled, market, f);
    var s := SourceOf(m, market, f);
    var t := Source(m, f.order.terms, market, s.rows + d.events, f.segments + [g]);
    var end := EndOfHistory(s);
    AppendedSource(m, market, f, d.events, r.state, [g]);
    AppendedFits(market, f);
    SameSegmentBars(s, t, g);
    TileInRange(f.order.terms.context, f.segments, g);
    SegmentAdvances(s, t, end, g, bars, d, r);
    assert Grows(s, t);
    OneMoreItemRegenerates(s, t, end, Cursor(end.seqNo + |d.events|, end.index + 1, r.state, d.known,
                                             end.items + [HistoryItem(SegmentItem, d.events, Some(g))]));
  }

  lemma SameSegmentBars(s: Source, t: Source, g: SegmentRow)
    requires t.order == s.order && t.market == s.market && g.runId in s.market.runs
    ensures SegmentBars(t, g) == SegmentBars(s, g) && SegmentMinutes(t, g) == SegmentMinutes(s, g)
  {
  }

  lemma SegmentAdvances(s: Source, t: Source, end: Cursor, g: SegmentRow, bars: seq<Bar>, d: Deduped, r: StepResult)
    requires d.Fresh? && t == Source(s.model, s.order, s.market, s.rows + d.events, s.segments + [g])
    requires InRange(s, end) && end.seqNo == |s.rows| + 1 && end.index == |s.segments| && InRange(t, end)
    requires g.runId in t.market.runs && g.firstSeq == end.seqNo && g.eventCount == |d.events|
    requires t.order.context.calendar.sessions[0].open <= g.barFrom && g.barTo + MINUTE <= t.order.context.calendar.LastClose()
    requires bars == SegmentBars(t, g) && SelectedDataHash(t.order.Feed(), SegmentMinutes(t, g), bars) == Some(g.dataHash)
    requires r == t.model.runBars(end.state, bars, t.order.context)
    requires d == Dedupe(end.known, r.events, t.order.context.start)
    ensures Advance(t, end) == Moved(Cursor(end.seqNo + |d.events|, end.index + 1, r.state, d.known,
                                            end.items + [HistoryItem(SegmentItem, d.events, Some(g))]))
  {
    hide SegmentBars, SegmentMinutes, SelectedDataHash, Dedupe;
    assert Slice(t.rows, end.seqNo, |d.events|) == d.events;
  }

  // ---- commands ---------------------------------------------------------------------------------------------

  /** The elementary steps commands are made of; a quality check is a list of record events and review flags. */
  datatype Part =
    | RecordPart(event: Event)
    | CancelPart(at: int, requestedBy: string)
    | FreezePart(reason: string, ref: string)
    | ReviewPart(reason: string, ref: string)
    | DividendPart(exDate: int, amount: real, validated: bool)
    | ValidityPart(bar: Option<Bar>, now: int)

  function RunPart(m: FillModel, ctx: OrderContext, state: OrderState, part: Part): Option<StepResult> {
    match part
    case RecordPart(event) => Some(StepResult(state, [event]))
    case CancelPart(at, who) => Some(m.cancel(state, at, who))
    case FreezePart(reason, ref) => Some(m.freeze(state, reason, ref))
    case ReviewPart(reason, ref) => Some(m.flagReview(state, reason, ref))
    case DividendPart(exDate, amount, validated) => Some(m.applyDividend(state, ctx, exDate, amount, validated))
    case ValidityPart(bar, now) => m.applyValidityEnd(state, ctx, bar, now)
  }

  function RunParts(m: FillModel, ctx: OrderContext, state: OrderState, parts: seq<Part>): Option<StepResult>
    decreases |parts|
  {
    if parts == [] then Some(StepResult(state, []))
    else
      match RunPart(m, ctx, state, parts[0])
      case None => None
      case Some(r) =>
        match RunParts(m, ctx, r.state, parts[1..])
        case None => None
        case Some(rest) => Some(StepResult(rest.state, r.events + rest.events))
  }

  /** What a part may be, given what is already recorded and the bar versions that exist. */
  ghost predicate PartOk(market: Market, feed: Feed, known: Known, part: Part) {
    match part
    case RecordPart(event) => event.kind.Record()
    case DividendPart(exDate, _, _) => NoDividendFor(known, exDate)
    case ValidityPart(bar, _) => bar.Some? ==> ReadVersion(market.batches, feed, bar.value.ts, bar.value.batch) == bar
    case _ => true
  }

  /** A command's own events continue the history from where it ended. */
  lemma CommandAdvances(s: Source, t: Source, end: Cursor, r: StepResult, bar: Option<Bar>, d: Deduped, coupled: Coupling)
    requires t == s.(rows := t.rows) && d.Fresh? && t.rows == s.rows + d.events && d.events != []
    requires InRange(s, end) && InRange(t, end) && end.seqNo == |s.rows| + 1 && end.index == |s.segments|
    requires d == Dedupe(end.known, r.events, t.order.context.start)
    requires HeadFirst(t.model, t.order.context, coupled, end.state, end.known, r, bar)
    requires bar.Some? ==> ReadVersion(t.market.batches, t.order.Feed(), bar.value.ts, bar.value.batch) == bar
    ensures Advance(t, end) == Moved(Cursor(end.seqNo + |d.events|, end.index, r.state, d.known,
                                            end.items + [HistoryItem(CommandItem, d.events, None)]))
  {
    hide Dedupe, ReadVersion;
    var head := d.events[0];
    assert t.rows[end.seqNo - 1] == head;
    var named := NamedVersion(t.market.batches, t.order.Feed(), head);
    assert ReplayHead(t.model, t.order.context, end.state, head, named) == Regenerated(r) by {
      if head.kind.TimeExit? { assert named == bar; }
    }
    assert Slice(t.rows, end.seqNo, |d.events|) == d.events;
  }

  lemma SameSegmentsOk(market: Market, f: OrderFile, events: seq<Event>, state: OrderState)
    requires SegmentsOk(market, f)
    ensures SegmentsOk(market, Append(f, events, state, []))
  {
    assert f.segments + [] == f.segments;
    hide Tiled, InOrder;
  }

  lemma CommandRegenerates(m: FillModel, coupled: Coupling, market: Market, f: OrderFile, r: StepResult, bar: Option<Bar>, d: Deduped)
    requires Honest(m, coupled, market, f)
    requires HeadFirst(m, f.order.terms.context, coupled, Regained(m, market, f), KnownOf(Plain(f.rows)), r, bar)
    requires bar.Some? ==> ReadVersion(market.batches, f.order.terms.Feed(), bar.value.ts, bar.value.batch) == bar
    requires d == Dedupe(KnownOf(Plain(f.rows)), r.events, f.order.terms.context.start) && d.Fresh?
    ensures var g := Append(f, d.events, r.state, []);
            && RegenerateRows(SourceOf(m, market, g)).Regenerated?
            && Regained(m, market, g) == r.state
  {
    hide Honest, RegenerateRows, Begin, Loop, Advance, Dedupe, KnownOf, UniqueKeys, SegmentsOk, OrderContext.Valid, Numbered, Plain,
         Fits, ReadVersion;
    HonestIsValid(m, coupled, market, f);
    var s := SourceOf(m, market, f);
    var t := s.(rows := s.rows + d.events);
    AppendedSource(m, market, f, d.events, r.state, []);
    assert f.segments + [] == f.segments;
    AppendedFits(market, f);
    if d.events == [] {
      assert s.rows + [] == s.rows;
    } else {
      var end := EndOfHistory(s);
      CommandAdvances(s, t, end, r, bar, d, coupled);
      OneMoreItemRegenerates(s, t, end, Cursor(end.seqNo + |d.events|, end.index, r.state, d.known,
                                               end.items + [HistoryItem(CommandItem, d.events, None)]));
    }
  }

  /** A head-first command appended to an honest file keeps it honest and moves it to the command's state. */
  lemma CommandKeepsHonest(m: FillModel, coupled: Coupling, market: Market, f: OrderFile, r: StepResult, bar: Option<Bar>, d: Deduped)
    requires Honest(m, coupled, market, f)
    requires HeadFirst(m, f.order.terms.context, coupled, Regained(m, market, f), KnownOf(Plain(f.rows)), r, bar)
    requires bar.Some? ==> ReadVersion(market.batches, f.order.terms.Feed(), bar.value.ts, bar.value.batch) == bar
    requires d == Dedupe(KnownOf(Plain(f.rows)), r.events, f.order.terms.context.start) && d.Fresh?
    ensures Honest(m, coupled, market, Append(f, d.events, r.state, []))
    ensures Regained(m, market, Append(f, d.events, r.state, [])) == r.state
  {
    CommandRegenerates(m, coupled, market, f, r, bar, d);
    SameSegmentsOk(market, f, d.events, r.state);
    AppendKeepsHonest(m, coupled, market, f, r.events, d, r.state, []);
  }

  lemma RecordAdvances(s: Source, t: Source, end: Cursor, event: Event, d: Deduped)
    requires t == s.(rows := t.rows) && d.Fresh? && t.rows == s.rows + d.events && d.events != [] && event.kind.Record()
    requires InRange(s, end) && InRange(t, end) && end.seqNo == |s.rows| + 1 && end.index == |s.segments|
    requires d == Dedupe(end.known, [event], t.order.context.start)
    ensures Advance(t, end) == Moved(Cursor(end.seqNo + 1, end.index, end.state, d.known,
                                            end.items + [HistoryItem(RecordItem, d.events, None)]))
    ensures end.seqNo + 1 == |t.rows| + 1
  {
    DedupeOne(end.known, event, t.order.context.start);
    assert d.events == [event] && t.rows[end.seqNo - 1] == event;
  }

  lemma RecordRegenerates(m: FillModel, coupled: Coupling, market: Market, f: OrderFile, event: Event, d: Deduped)
    requires Honest(m, coupled, market, f) && event.kind.Record()
    requires d == Dedupe(KnownOf(Plain(f.rows)), [event], f.order.terms.context.start) && d.Fresh?
    ensures var g := Append(f, d.events, Regained(m, market, f), []);
            && RegenerateRows(SourceOf(m, market, g)).Regenerated?
            && Regained(m, market, g) == Regained(m, market, f)
  {
    hide Honest, RegenerateRows, Begin, Loop, Advance, Dedupe, KnownOf, UniqueKeys, SegmentsOk, OrderContext.Valid, Numbered, Plain,
         Fits, EventType.Record;
    HonestIsValid(m, coupled, market, f);
    var state := Regained(m, market, f);
    var s := SourceOf(m, market, f);
    var t := s.(rows := s.rows + d.events);
    AppendedSource(m, market, f, d.events, state, []);
    assert f.segments + [] == f.segments;
    AppendedFits(market, f);
    if d.events == [] {
      assert s.rows + [] == s.rows;
    } else {
      var end := EndOfHistory(s);
      RecordAdvances(s, t, end, event, d);
      OneMoreItemRegenerates(s, t, end, Cursor(end.seqNo + 1, end.index, state, d.known,
                                               end.items + [HistoryItem(RecordItem, d.events, None)]));
    }
  }

  lemma RecordKeepsHonest(m: FillModel, coupled: Coupling, market: Market, f: OrderFile, event: Event, d: Deduped)
    requires WellBehaved(m, coupled) && Honest(m, coupled, market, f) && event.kind.Record()
    requires d == Dedupe(KnownOf(Plain(f.rows)), [event], f.order.terms.context.start) && d.Fresh?
    ensures Honest(m, coupled, market, Append(f, d.events, Regained(m, market, f), []))
    ensures Regained(m, market, Append(f, d.events, Regained(m, market, f), [])) == Regained(m, market, f)
  {
    var state := Regained(m, market, f);
    RecordRegenerates(m, coupled, market, f, event, d);
    SameSegmentsOk(market, f, d.events, state);
    assert coupled(state, d.known) by { RecordCoupled(m, coupled, state, KnownOf(Plain(f.rows)), event, f.order.terms.context.start); }
    AppendKeepsHonest(m, coupled, market, f, [event], d, state, []);
  }

  lemma RecordCoupled(m: FillModel, coupled: Coupling, state: OrderState, known: Known, event: Event, start: int)
    requires WellBehaved(m, coupled) && coupled(state, known) && event.kind.Record()
    requires Dedupe(known, [event], start).Fresh?
    ensures coupled(state, Dedupe(known, [event], start).known)
  {
    DedupeOne(known, event, start);
    if event.key !in known { assert coupled(state, known[event.key := event]); }
  }

  lemma AppendAppend(f: OrderFile, a: seq<Event>, sa: OrderState, b: seq<Event>, sb: OrderState)
    ensures Append(Append(f, a, sa, []), b, sb, []) == Append(f, a + b, sb, [])
  {
    var n := |f.rows|;
    assert Numbered(a + b, n + 1) == Numbered(a, n + 1) + Numbered(b, n + |a| + 1);
    assert f.rows + Numbered(a + b, n + 1) == (f.rows + Numbered(a, n + 1)) + Numbered(b, n + |a| + 1);
  }

  ghost predicate PartsOk(market: Market, feed: Feed, known: Known, parts: seq<Part>) {
    && (forall p :: p in parts ==> PartOk(market, feed, known, p))
    && (|parts| > 1 ==> forall p :: p in parts ==> !p.DividendPart?)
  }

  function PartBar(part: Part): Option<Bar> {
    if part.ValidityPart? then part.bar else None
  }

  lemma PartKeepsHonest(m: FillModel, coupled: Coupling, market: Market, f: OrderFile, part: Part, r: StepResult, d: Deduped)
    requires WellBehaved(m, coupled) && Honest(m, coupled, market, f)
    requires PartOk(market, f.order.terms.Feed(), KnownOf(Plain(f.rows)), part)
    requires RunPart(m, f.order.terms.context, Regained(m, market, f), part) == Some(r)
    requires d == Dedupe(KnownOf(Plain(f.rows)), r.events, f.order.terms.context.start) && d.Fresh?
    ensures Honest(m, coupled, market, Append(f, d.events, r.state, []))
    ensures Regained(m, market, Append(f, d.events, r.state, [])) == r.state
  {
    var ctx, state, known := f.order.terms.context, Regained(m, market, f), KnownOf(Plain(f.rows));
    match part
    case RecordPart(event) => RecordKeepsHonest(m, coupled, market, f, event, d);
    case _ =>
      PartHeadFirst(m, coupled, market, f.order.terms.Feed(), ctx, state, known, part, r);
      CommandKeepsHonest(m, coupled, market, f, r, PartBar(part), d);
  }

  lemma PartHeadFirst(m: FillModel, coupled: Coupling, market: Market, feed: Feed, ctx: OrderContext, state: OrderState,
                      known: Known, part: Part, r: StepResult)
    requires WellBehaved(m, coupled) && ctx.Valid() && coupled(state, known) && !part.RecordPart?
    requires PartOk(market, feed, known, part) && RunPart(m, ctx, state, part) == Some(r)
    ensures HeadFirst(m, ctx, coupled, state, known, r, PartBar(part))
  {
    hide HeadFirst, OrderContext.Valid, CreationReplays, SegmentsKeep, KeyedDividends, DividendsOnlyFor, NoDividends;
  }

  /** A whole command, however many parts and however many of its events were already recorded, keeps the file honest. */
  lemma {:induction false} PartsKeepHonest(m: FillModel, coupled: Coupling, market: Market, f: OrderFile,
                                           parts: seq<Part>, r: StepResult, d: Deduped)
    requires WellBehaved(m, coupled) && Honest(m, coupled, market, f)
    requires PartsOk(market, f.order.terms.Feed(), KnownOf(Plain(f.rows)), parts)
    requires RunParts(m, f.order.terms.context, Regained(m, market, f), parts) == Some(r)
    requires d == Dedupe(KnownOf(Plain(f.rows)), r.events, f.order.terms.context.start) && d.Fresh?
    ensures Honest(m, coupled, market, Append(f, d.events, r.state, []))
    ensures Regained(m, market, Append(f, d.events, r.state, [])) == r.state
    decreases |parts|
  {
    var state, known := Regained(m, market, f), KnownOf(Plain(f.rows));
    hide *;
    if parts == [] {
      NoParts(m, f.order.terms.context, state, known, r, d);
      EmptyAppendKeepsHonest(m, coupled, market, f);
    } else {
      HonestIsValid(m, coupled, market, f);
      var first, rest, d0, d1 := SplitParts(m, f.order.terms.context, state, known, parts, r, d);
      PartsOkSplit(market, f.order.terms.Feed(), known, d0.known, parts);
      PartKeepsHonest(m, coupled, market, f, parts[0], first, d0);
      var g := Append(f, d0.events, first.state, []);
      AfterAppend(m, coupled, market, f, first.events, d0, first.state);
      PartsKeepHonest(m, coupled, market, g, parts[1..], rest, d1);
      AppendAppend(f, d0.events, first.state, d1.events, rest.state);
    }
  }

  lemma NoParts(m: FillModel, ctx: OrderContext, state: OrderState, known: Known, r: StepResult, d: Deduped)
    requires RunParts(m, ctx, state, []) == Some(r) && d == Dedupe(known, r.events, ctx.start)
    ensures d == Fresh([], known) && r.state == state
  {
  }

  lemma SplitParts(m: FillModel, ctx: OrderContext, state: OrderState, known: Known, parts: seq<Part>, r: StepResult, d: Deduped)
    returns (first: StepResult, rest: StepResult, d0: Deduped, d1: Deduped)
    requires parts != [] && RunParts(m, ctx, state, parts) == Some(r)
    requires d == Dedupe(known, r.events, ctx.start) && d.Fresh?
    ensures RunPart(m, ctx, state, parts[0]) == Some(first) && RunParts(m, ctx, first.state, parts[1..]) == Some(rest)
    ensures r.state == rest.state
    ensures d0 == Dedupe(known, first.events, ctx.start) && d0.Fresh?
    ensures d1 == Dedupe(d0.known, rest.events, ctx.start) && d1.Fresh?
    ensures d.events == d0.events + d1.events
  {
    first := RunPart(m, ctx, state, parts[0]).value;
    rest := RunParts(m, ctx, first.state, parts[1..]).value;
    DedupeConcat(known, first.events, rest.events, ctx.start);
    d0 := Dedupe(known, first.events, ctx.start);
    d1 := Dedupe(d0.known, rest.events, ctx.start);
  }

  lemma PartsOkSplit(market: Market, feed: Feed, known: Known, later: Known, parts: seq<Part>)
    requires parts != [] && PartsOk(market, feed, known, parts)
    ensures PartOk(market, feed, known, parts[0]) && PartsOk(market, feed, later, parts[1..])
  {
    assert parts[0] in parts;
    forall p | p in parts[1..] ensures PartOk(market, feed, later, p) && !p.DividendPart? { assert p in parts; }
  }

  lemma AfterAppend(m: FillModel, coupled: Coupling, market: Market, f: OrderFile, produced: seq<Event>, d: Deduped, state: OrderState)
    requires Honest(m, coupled, market, f)
    requires d == Dedupe(KnownOf(Plain(f.rows)), produced, f.order.terms.context.start) && d.Fresh?
    ensures var g := Append(f, d.events, state, []);
            g.order == f.order && KnownOf(Plain(g.rows)) == d.known
  {
    AppendedSource(m, market, f, d.events, state, []);
    DedupeExtendsKnown(Plain(f.rows), produced, f.order.terms.context.start);
    hide RegenerateRows, KnownOf, Dedupe, UniqueKeys;
  }

  lemma EmptyAppendKeepsHonest(m: FillModel, coupled: Coupling, market: Market, f: OrderFile)
    requires Honest(m, coupled, market, f)
    ensures Honest(m, coupled, market, Append(f, [], Regained(m, market, f), []))
    ensures Regained(m, market, Append(f, [], Regained(m, market, f), [])) == Regained(m, market, f)
  {
    assert f.rows + Numbered([], |f.rows| + 1) == f.rows;
    assert f.segments + [] == f.segments;
  }
}
