/** Regeneration of an order's authoritative history from its log, its segments and the bars as they were known. */
module History {
  import opened Prelude
  import opened Calendar
  import opened BarStore
  import opened Domain
  import opened Events

  /** What regeneration reads of an order's row: its context and where its prices come from. */
  datatype Terms = Terms(context: OrderContext, priceSource: string) {
    function Feed(): Feed { BarStore.Feed.Feed(priceSource, context.signal.ticker) }
  }

  datatype SegmentRow = SegmentRow(runId: nat, barFrom: int, barTo: int, dataHash: seq<DataEntry>,
                                   firstSeq: nat, eventCount: nat)

  /** What regeneration reads besides the order's own rows: bar versions, and the watermark of each run. */
  datatype Market = Market(batches: seq<Batch>, runs: map<nat, int>)

  datatype Source = Source(model: FillModel, order: Terms, market: Market, rows: seq<Event>, segments: seq<SegmentRow>)

  datatype ItemKind = CreatedItem | SegmentItem | CommandItem | RecordItem

  datatype HistoryItem = HistoryItem(kind: ItemKind, events: seq<Event>, segment: Option<SegmentRow>)

  datatype Divergence =
    | SeqNotContiguous | OrderCreatedMissing | RegeneratedRefused(error: LedgerError) | Differs(kind: ItemKind)
    | SelectedDataHashMismatch | TimeExitWithoutBar | TimeExitBarMissing | UnexpectedOutsideSegment
    | CommandProducedNoEvents | OrphanSegment

  /** Raised stands for every exception that is not a HistoryDivergence. */
  datatype Outcome<+T> = Regenerated(value: T) | Diverged(reason: Divergence) | Raised

  datatype Cursor = Cursor(seqNo: nat, index: nat, state: OrderState, known: Known, items: seq<HistoryItem>)

  datatype Move = Moved(cursor: Cursor) | AtEnd | Halt(outcome: Outcome<Cursor>)

  // ---- one item at a time -----------------------------------------------------------------------------------

  /** The stored rows an item must match: a slice that is cut off at the end of the log. */
  function Slice(rows: seq<Event>, seqNo: nat, count: nat): (r: seq<Event>)
    requires 1 <= seqNo <= |rows| + 1
    ensures |r| <= count && seqNo - 1 + |r| <= |rows|
  {
    rows[seqNo - 1..Min(seqNo - 1 + count, |rows|)]
  }

  function RegenerateCreated(model: FillModel, ctx: OrderContext, payload: Payload): Option<StepResult> {
    if payload.CreatedPayload? then model.newOrderState(ctx, payload.inherited, payload.extra) else None
  }

  /** Re-execute a command from the first event it recorded; `version` is the bar that event names. */
  function ReplayHead(model: FillModel, ctx: OrderContext, state: OrderState, head: Event, version: Option<Bar>)
    : Outcome<StepResult>
  {
    match head.kind
    case OrderCanceled =>
      if head.payload.CancelPayload? then Regenerated(model.cancel(state, head.payload.at, head.payload.requestedBy)) else Raised
    case OrderFrozen =>
      if head.payload.ReasonPayload? then Regenerated(model.freeze(state, head.payload.reason, head.payload.ref)) else Raised
    case NeedsReview =>
      if head.payload.ReasonPayload? then Regenerated(model.flagReview(state, head.payload.reason, head.payload.ref)) else Raised
    case DividendPaid =>
      if head.payload.DividendPayload?
      then Regenerated(model.applyDividend(state, ctx, head.payload.exDate, head.payload.amountPerShare, true)) else Raised
    case OrderExpired =>
      (match model.applyValidityEnd(state, ctx, None, ctx.until) case Some(r) => Regenerated(r) case None => Raised)
    case TimeExit =>
      if head.barTs.None? || head.batch.None? then Diverged(TimeExitWithoutBar)
      else if version.None? then Diverged(TimeExitBarMissing)
      else (match model.applyValidityEnd(state, ctx, version, ctx.until) case Some(r) => Regenerated(r) case None => Raised)
    case _ => Diverged(UnexpectedOutsideSegment)
  }

  function NamedVersion(batches: seq<Batch>, feed: Feed, head: Event): Option<Bar> {
    if head.barTs.None? || head.batch.None? then None else ReadVersion(batches, feed, head.barTs.value, head.batch.value)
  }

  /** The bars a segment used: its expected minutes, read as of its run's watermark. */
  function SegmentMinutes(s: Source, segment: SegmentRow): seq<int> {
    s.order.context.calendar.ExpectedMinutesSpec(segment.barFrom, segment.barTo + MINUTE)
  }

  function SegmentBars(s: Source, segment: SegmentRow): seq<Bar>
    requires segment.runId in s.market.runs
  {
    BarsInMinutes(ReadAsOf(s.market.batches, s.order.Feed(), segment.barFrom, segment.barTo + MINUTE,
                           s.market.runs[segment.runId]),
                  SegmentMinutes(s, segment))
  }

  /** Run the model over the segment's bars and compare with the stored rows. */
  function EvaluateSegment(s: Source, c: Cursor, segment: SegmentRow, bars: seq<Bar>): (m: Move)
    requires 1 <= c.seqNo <= |s.rows| + 1
    ensures !m.AtEnd?
    ensures m.Moved? ==> c.seqNo <= m.cursor.seqNo <= |s.rows| + 1 && m.cursor.index == c.index + 1
  {
    match SelectedDataHash(s.order.Feed(), SegmentMinutes(s, segment), bars)
    case None => Halt(Raised)
    case Some(hash) =>
      if hash != segment.dataHash then Halt(Diverged(SelectedDataHashMismatch))
      else AcceptSegment(s, c, segment, s.model.runBars(c.state, bars, s.order.context))
  }

  /** The model's fresh events must be the rows the segment announces. */
  function AcceptSegment(s: Source, c: Cursor, segment: SegmentRow, result: StepResult): (m: Move)
    requires 1 <= c.seqNo <= |s.rows| + 1
    ensures !m.AtEnd?
    ensures m.Moved? ==> c.seqNo <= m.cursor.seqNo <= |s.rows| + 1 && m.cursor.index == c.index + 1
  {
    match Dedupe(c.known, result.events, s.order.context.start)
    case Refused(error) => Halt(Diverged(RegeneratedRefused(error)))
    case Fresh(events, known) =>
      if Slice(s.rows, c.seqNo, segment.eventCount) != events then Halt(Diverged(Differs(SegmentItem)))
      else Moved(Cursor(c.seqNo + |events|, c.index + 1, result.state, known,
                        c.items + [HistoryItem(SegmentItem, events, Some(segment))]))
  }

  function AdvanceSegment(s: Source, c: Cursor): (m: Move)
    requires s.order.context.calendar.sessions != []
    requires 1 <= c.seqNo <= |s.rows| + 1 && c.index < |s.segments|
    ensures !m.AtEnd?
    ensures m.Moved? ==> c.seqNo <= m.cursor.seqNo <= |s.rows| + 1 && m.cursor.index == c.index + 1
  {
    var segment, calendar := s.segments[c.index], s.order.context.calendar;
    if segment.runId !in s.market.runs then Halt(Raised)
    else if segment.barFrom < calendar.sessions[0].open || segment.barTo + MINUTE > calendar.LastClose() then Halt(Raised)
    else EvaluateSegment(s, c, segment, SegmentBars(s, segment))
  }

  function AdvanceRecord(s: Source, c: Cursor): (m: Move)
    requires 1 <= c.seqNo <= |s.rows|
    ensures !m.AtEnd?
    ensures m.Moved? ==> m.cursor.seqNo == c.seqNo + 1 && m.cursor.index == c.index
  {
    match Dedupe(c.known, [s.rows[c.seqNo - 1]], s.order.context.start)
    case Refused(error) => Halt(Diverged(RegeneratedRefused(error)))
    case Fresh(events, known) =>
      Moved(Cursor(c.seqNo + 1, c.index, c.state, known, c.items + [HistoryItem(RecordItem, events, None)]))
  }

  function AdvanceCommand(s: Source, c: Cursor): (m: Move)
    requires 1 <= c.seqNo <= |s.rows|
    ensures !m.AtEnd?
    ensures m.Moved? ==> c.seqNo < m.cursor.seqNo <= |s.rows| + 1 && m.cursor.index == c.index
  {
    var head, ctx := s.rows[c.seqNo - 1], s.order.context;
    match ReplayHead(s.model, ctx, c.state, head, NamedVersion(s.market.batches, s.order.Feed(), head))
    case Raised => Halt(Raised)
    case Diverged(reason) => Halt(Diverged(reason))
    case Regenerated(result) =>
      match Dedupe(c.known, result.events, ctx.start)
      case Refused(error) => Halt(Diverged(RegeneratedRefused(error)))
      case Fresh(events, known) =>
        if events == [] then Halt(Diverged(CommandProducedNoEvents))
        else if Slice(s.rows, c.seqNo, |events|) != events then Halt(Diverged(Differs(CommandItem)))
        else Moved(Cursor(c.seqNo + |events|, c.index, result.state, known,
                          c.items + [HistoryItem(CommandItem, events, None)]))
  }

  predicate SegmentDue(s: Source, c: Cursor) {
    c.index < |s.segments| && s.segments[c.index].firstSeq == c.seqNo
  }

  ghost predicate InRange(s: Source, c: Cursor) {
    1 <= c.seqNo <= |s.rows| + 1 && c.index <= |s.segments| && s.order.context.calendar.sessions != []
  }

  function Advance(s: Source, c: Cursor): (m: Move)
    requires InRange(s, c)
    ensures m.Moved? ==> InRange(s, m.cursor) && c.seqNo <= m.cursor.seqNo && c.index <= m.cursor.index
                         && c.seqNo + c.index < m.cursor.seqNo + m.cursor.index
  {
    if SegmentDue(s, c) then AdvanceSegment(s, c)
    else if c.seqNo > |s.rows| then AtEnd
    else if s.rows[c.seqNo - 1].kind.Record() then AdvanceRecord(s, c)
    else AdvanceCommand(s, c)
  }

  /** Unread events plus unread segments: the loop ends on any stored log, honest or not. */
  function Remaining(s: Source, c: Cursor): nat
    requires InRange(s, c)
  {
    (|s.rows| + 1 - c.seqNo) + (|s.segments| - c.index)
  }

  function Loop(s: Source, c: Cursor): Outcome<Cursor>
    requires InRange(s, c)
    decreases Remaining(s, c)
  {
    match Advance(s, c)
    case Moved(next) => Loop(s, next)
    case AtEnd => Regenerated(c)
    case Halt(outcome) => outcome
  }

  /** The ORDER_CREATED row, re-derived from its own payload. */
  function Begin(s: Source): (o: Outcome<Cursor>)
    requires s.order.context.calendar.sessions != []
    ensures o.Regenerated? ==> InRange(s, o.value)
  {
    if s.rows == [] || s.rows[0].kind != OrderCreated then Diverged(OrderCreatedMissing)
    else
      match RegenerateCreated(s.model, s.order.context, s.rows[0].payload)
      case None => Raised
      case Some(created) =>
        match Dedupe(map[], created.events, s.order.context.start)
        case Refused(error) => Diverged(RegeneratedRefused(error))
        case Fresh(events, known) =>
          if Slice(s.rows, 1, 1) != events then Diverged(Differs(CreatedItem))
          else Regenerated(Cursor(2, 0, created.state, known, [HistoryItem(CreatedItem, events, None)]))
  }

  datatype RegeneratedHistory = RegeneratedHistory(state: OrderState, items: seq<HistoryItem>, nextSeq: nat)

  function RegenerateRows(s: Source): Outcome<RegeneratedHistory>
    requires s.order.context.calendar.sessions != []
  {
    match Begin(s)
    case Raised => Raised
    case Diverged(reason) => Diverged(reason)
    case Regenerated(first) =>
      match Loop(s, first)
      case Raised => Raised
      case Diverged(reason) => Diverged(reason)
      case Regenerated(c) =>
        if c.index < |s.segments| then Diverged(OrphanSegment)
        else Regenerated(RegeneratedHistory(c.state, c.items, c.seqNo))
  }

  function SeqKey(row: StoredEvent): int { row.seqNo }

  /** ORDER BY first_seq, bar_from. */
  predicate InListOrder(a: SegmentRow, b: SegmentRow) {
    a.firstSeq < b.firstSeq || (a.firstSeq == b.firstSeq && a.barFrom <= b.barFrom)
  }

  function InsertSegment(g: SegmentRow, segments: seq<SegmentRow>): (r: seq<SegmentRow>)
    ensures multiset(r) == multiset{g} + multiset(segments)
  {
    if segments == [] || InListOrder(g, segments[0]) then [g] + segments
    else
      assert segments == [segments[0]] + segments[1..];
      [segments[0]] + InsertSegment(g, segments[1..])
  }

  function ListSegments(segments: seq<SegmentRow>): (r: seq<SegmentRow>)
    ensures multiset(r) == multiset(segments)
  {
    if segments == [] then []
    else
      assert segments == [segments[0]] + segments[1..];
      InsertSegment(segments[0], ListSegments(segments[1..]))
  }

  ghost predicate Listed(segments: seq<SegmentRow>) {
    forall i, j :: 0 <= i < j < |segments| ==> InListOrder(segments[i], segments[j])
  }

  lemma {:induction false} InsertListed(g: SegmentRow, segments: seq<SegmentRow>)
    requires Listed(segments)
    ensures Listed(InsertSegment(g, segments))
  {
    if segments != [] && !InListOrder(g, segments[0]) {
      InsertListed(g, segments[1..]);
      var t := InsertSegment(g, segments[1..]);
      forall x | x in t ensures InListOrder(segments[0], x) {
        assert x in multiset(t);
        if x != g { assert x in multiset(segments[1..]); }
      }
    }
  }

  lemma {:induction false} ListedAfter(segments: seq<SegmentRow>)
    ensures Listed(ListSegments(segments))
  {
    if segments != [] {
      ListedAfter(segments[1..]);
      InsertListed(segments[0], ListSegments(segments[1..]));
    }
  }

  /** Listing segments that already are in order changes nothing. */
  lemma {:induction false} ListFixed(segments: seq<SegmentRow>)
    requires Listed(segments)
    ensures ListSegments(segments) == segments
  {
    if segments != [] { ListFixed(segments[1..]); }
  }

  predicate NumberedFromOne(rows: seq<StoredEvent>) {
    forall i :: 0 <= i < |rows| ==> rows[i].seqNo == i + 1
  }

  function Regenerate(model: FillModel, order: Terms, market: Market, rows: seq<StoredEvent>, segments: seq<SegmentRow>)
    : Outcome<RegeneratedHistory>
    requires order.context.calendar.sessions != []
  {
    var ordered := SortBy(rows, SeqKey);
    if !NumberedFromOne(ordered) then Diverged(SeqNotContiguous)
    else RegenerateRows(Source(model, order, market, Plain(ordered), ListSegments(segments)))
  }

  // ---- the imperative reader --------------------------------------------------------------------------------

  method ReadSegment(s: Source, c: Cursor) returns (m: Move)
    requires s.order.context.calendar.Valid()
    requires InRange(s, c) && c.index < |s.segments|
    ensures m == AdvanceSegment(s, c)
  {
    hide Dedupe, SelectedDataHash, SegmentBars, Slice, SessionCalendar.ExpectedMinutesSpec, SessionCalendar.Expected;
    var segment, ctx := s.segments[c.index], s.order.context;
    if segment.runId !in s.market.runs {
      return Halt(Raised);
    }
    var minutes := ctx.calendar.ExpectedMinutes(segment.barFrom, segment.barTo + MINUTE);
    if minutes.None? {
      return Halt(Raised);
    }
    var bars := SegmentBars(s, segment);
    var hash := ComputeSelectedDataHash(s.order.Feed(), minutes.value, bars);
    if hash.None? {
      return Halt(Raised);
    }
    if hash.value != segment.dataHash {
      return Halt(Diverged(SelectedDataHashMismatch));
    }
    var result := s.model.runBars(c.state, bars, ctx);
    var prepared := DedupeEvents(c.known, result.events, ctx.start);
    if prepared.Refused? {
      return Halt(Diverged(RegeneratedRefused(prepared.error)));
    }
    if Slice(s.rows, c.seqNo, segment.eventCount) != prepared.events {
      return Halt(Diverged(Differs(SegmentItem)));
    }
    return Moved(Cursor(c.seqNo + |prepared.events|, c.index + 1, result.state, prepared.known,
                        c.items + [HistoryItem(SegmentItem, prepared.events, Some(segment))]));
  }

  method ReadItem(s: Source, c: Cursor) returns (m: Move)
    requires s.order.context.calendar.Valid()
    requires InRange(s, c)
    ensures m == Advance(s, c)
  {
    hide AdvanceSegment, AdvanceRecord, AdvanceCommand, SessionCalendar.Valid;
    if SegmentDue(s, c) {
      m := ReadSegment(s, c);
    } else if c.seqNo > |s.rows| {
      m := AtEnd;
    } else if s.rows[c.seqNo - 1].kind.Record() {
      m := AdvanceRecord(s, c);
    } else {
      m := AdvanceCommand(s, c);
    }
  }

  /** The loop: segments first, then record events and commands, until neither rows nor due segments remain. */
  method ReadItems(s: Source, first: Cursor) returns (o: Outcome<Cursor>)
    requires s.order.context.calendar.Valid()
    requires InRange(s, first)
    ensures o == Loop(s, first)
  {
    hide Advance, SessionCalendar.Valid;
    var c := first;
    while true
      invariant InRange(s, c)
      invariant Loop(s, first) == Loop(s, c)
      decreases Remaining(s, c)
    {
      var move := ReadItem(s, c);
      match move
      case Halt(outcome) => return outcome;
      case AtEnd => return Regenerated(c);
      case Moved(next) => c := next;
    }
  }

  /** Regeneration over the rows and segments exactly as the two ordered queries return them. */
  method RegenerateHistory(model: FillModel, order: Terms, market: Market,
                           rows: seq<StoredEvent>, segments: seq<SegmentRow>)
    returns (r: Outcome<RegeneratedHistory>)
    requires order.context.calendar.Valid()
    ensures r == Regenerate(model, order, market, rows, segments)
  {
    var stored := SortBy(rows, SeqKey);
    if !NumberedFromOne(stored) {
      return Diverged(SeqNotContiguous);
    }
    var s := Source(model, order, market, Plain(stored), ListSegments(segments));
    var begun := Begin(s);
    if begun.Raised? {
      return Raised;
    }
    if begun.Diverged? {
      return Diverged(begun.reason);
    }
    var done := ReadItems(s, begun.value);
    hide Loop, Begin;
    if done.Raised? {
      return Raised;
    }
    if done.Diverged? {
      return Diverged(done.reason);
    }
    if done.value.index < |s.segments| {
      return Diverged(OrphanSegment);
    }
    return Regenerated(RegeneratedHistory(done.value.state, done.value.items, done.value.seqNo));
  }
}
