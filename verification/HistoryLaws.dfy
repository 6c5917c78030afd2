/** What an accepted history guarantees, on any log; and why growing a log or a market never unsettles it. */
module HistoryLaws {
  import opened Prelude
  import opened Calendar
  import opened BarStore
  import opened Domain
  import opened Events
  import opened History

  function EventsOf(items: seq<HistoryItem>): seq<Event> {
    if items == [] then [] else EventsOf(items[..|items| - 1]) + items[|items| - 1].events
  }

  function SegmentsOf(items: seq<HistoryItem>): seq<SegmentRow> {
    if items == [] then []
    else SegmentsOf(items[..|items| - 1])
         + (match items[|items| - 1].segment case Some(segment) => [segment] case None => [])
  }

  /** The segments of a copy whose events are numbered from one, as they come. */
  function Renumbered(items: seq<HistoryItem>): seq<SegmentRow> {
    if items == [] then []
    else
      var before := items[..|items| - 1];
      Renumbered(before)
      + (match items[|items| - 1].segment
         case Some(segment) => [segment.(firstSeq := |EventsOf(before)| + 1)]
         case None => [])
  }

  /** A segment item holds exactly the stored slice its row announces; a command item is never empty. */
  ghost predicate ItemOk(s: Source, item: HistoryItem) {
    match item.kind
    case SegmentItem =>
      && item.segment.Some?
      && 1 <= item.segment.value.firstSeq <= |s.rows| + 1
      && item.events == Slice(s.rows, item.segment.value.firstSeq, item.segment.value.eventCount)
    case CommandItem => item.segment.None? && item.events != []
    case CreatedItem => item.segment.None? && |item.events| == 1
    case RecordItem => item.segment.None? && |item.events| <= 1
  }

  ghost predicate Accounts(s: Source, c: Cursor) {
    && InRange(s, c) && c.items != [] && c.items[0].kind == CreatedItem
    && c.known == KnownOf(EventsOf(c.items))
    && UniqueKeys(EventsOf(c.items))
    && SegmentsOf(c.items) == s.segments[..c.index]
    && (forall item :: item in c.items ==> ItemOk(s, item))
    && (UniqueKeys(s.rows) ==> EventsOf(c.items) == s.rows[..c.seqNo - 1] && Renumbered(c.items) == SegmentsOf(c.items))
  }

  lemma OneMoreItem(s: Source, c: Cursor, next: Cursor, item: HistoryItem, produced: seq<Event>)
    requires Accounts(s, c) && InRange(s, next)
    requires Dedupe(c.known, produced, s.order.context.start) == Fresh(item.events, next.known)
    requires next.items == c.items + [item] && ItemOk(s, item)
    requires item.segment.Some? ==> SegmentDue(s, c) && item.segment.value == s.segments[c.index] && next.index == c.index + 1
    requires item.segment.None? ==> next.index == c.index
    requires UniqueKeys(s.rows) ==> s.rows[..next.seqNo - 1] == s.rows[..c.seqNo - 1] + item.events
    ensures Accounts(s, next)
  {
    hide EventsOf, SegmentsOf, Renumbered, UniqueKeys, KnownOf, Dedupe, ItemOk;
    AppendedItem(c.items, item);
    DedupeExtendsKnown(EventsOf(c.items), produced, s.order.context.start);
    assert item.segment.Some? ==> s.segments[..next.index] == s.segments[..c.index] + [s.segments[c.index]];
    AnnouncedWhereRead(s, c, item);
  }

  /** In a log without repeats a due segment announces exactly the place its events are read from. */
  lemma AnnouncedWhereRead(s: Source, c: Cursor, item: HistoryItem)
    requires item.segment.Some? ==> SegmentDue(s, c) && item.segment.value == s.segments[c.index]
    requires Accounts(s, c)
    ensures (UniqueKeys(s.rows) && item.segment.Some?) ==>
              item.segment.value.(firstSeq := |EventsOf(c.items)| + 1) == item.segment.value
  {
    hide EventsOf, SegmentsOf, Renumbered, UniqueKeys, KnownOf, ItemOk;
  }

  lemma AppendedItem(items: seq<HistoryItem>, item: HistoryItem)
    ensures EventsOf(items + [item]) == EventsOf(items) + item.events
    ensures SegmentsOf(items + [item]) == SegmentsOf(items) + (match item.segment case Some(g) => [g] case None => [])
    ensures Renumbered(items + [item]) == Renumbered(items)
              + (match item.segment case Some(g) => [g.(firstSeq := |EventsOf(items)| + 1)] case None => [])
  {
    assert (items + [item])[..|items|] == items;
  }

  lemma SliceSplits(rows: seq<Event>, seqNo: nat, count: nat)
    requires 1 <= seqNo <= |rows| + 1
    ensures var got := |Slice(rows, seqNo, count)|;
            rows[..seqNo - 1 + got] == rows[..seqNo - 1] + Slice(rows, seqNo, count)
  {
  }

  lemma EvaluatedSegment(s: Source, c: Cursor, segment: SegmentRow, bars: seq<Bar>) returns (produced: seq<Event>, item: HistoryItem)
    requires InRange(s, c) && SegmentDue(s, c) && segment == s.segments[c.index] && EvaluateSegment(s, c, segment, bars).Moved?
    ensures InRange(s, EvaluateSegment(s, c, segment, bars).cursor) && ItemOk(s, item)
    ensures var next := EvaluateSegment(s, c, segment, bars).cursor;
            && item.kind == SegmentItem && item.segment == Some(segment)
            && item.events == Slice(s.rows, c.seqNo, segment.eventCount)
            && Dedupe(c.known, produced, s.order.context.start) == Fresh(item.events, next.known)
            && next.items == c.items + [item] && next.index == c.index + 1 && next.seqNo == c.seqNo + |item.events|
  {
    hide SelectedDataHash, Dedupe, Slice;
    produced := s.model.runBars(c.state, bars, s.order.context).events;
    item := HistoryItem(SegmentItem, Dedupe(c.known, produced, s.order.context.start).events, Some(segment));
  }

  lemma EvaluateSound(s: Source, c: Cursor, segment: SegmentRow, bars: seq<Bar>)
    requires Accounts(s, c) && SegmentDue(s, c) && segment == s.segments[c.index] && EvaluateSegment(s, c, segment, bars).Moved?
    ensures Accounts(s, EvaluateSegment(s, c, segment, bars).cursor)
  {
    hide *;
    AccountsInRange(s, c);
    var produced, item := EvaluatedSegment(s, c, segment, bars);
    SliceSplits(s.rows, c.seqNo, segment.eventCount);
    OneMoreItem(s, c, EvaluateSegment(s, c, segment, bars).cursor, item, produced);
  }

  lemma AccountsInRange(s: Source, c: Cursor)
    requires Accounts(s, c)
    ensures InRange(s, c) && 1 <= c.seqNo <= |s.rows| + 1 && c.index <= |s.segments|
  {
  }

  lemma SegmentStepSound(s: Source, c: Cursor)
    requires Accounts(s, c) && SegmentDue(s, c) && AdvanceSegment(s, c).Moved?
    ensures Accounts(s, AdvanceSegment(s, c).cursor)
  {
    hide EvaluateSegment, Accounts;
    EvaluateSound(s, c, s.segments[c.index], SegmentBars(s, s.segments[c.index]));
  }

  lemma CommandStepSound(s: Source, c: Cursor)
    requires Accounts(s, c) && c.seqNo <= |s.rows| && AdvanceCommand(s, c).Moved?
    ensures Accounts(s, AdvanceCommand(s, c).cursor)
  {
    hide Accounts, OrderContext.Valid;
    AccountsInRange(s, c);
    var produced, item := ReplayedCommand(s, c);
    SliceSplits(s.rows, c.seqNo, |item.events|);
    OneMoreItem(s, c, AdvanceCommand(s, c).cursor, item, produced);
  }

  lemma ReplayedCommand(s: Source, c: Cursor) returns (produced: seq<Event>, item: HistoryItem)
    requires InRange(s, c) && c.seqNo <= |s.rows| && AdvanceCommand(s, c).Moved?
    ensures InRange(s, AdvanceCommand(s, c).cursor) && ItemOk(s, item)
    ensures var next := AdvanceCommand(s, c).cursor;
            && item.kind == CommandItem && item.segment.None?
            && item.events == Slice(s.rows, c.seqNo, |item.events|)
            && Dedupe(c.known, produced, s.order.context.start) == Fresh(item.events, next.known)
            && next.items == c.items + [item] && next.index == c.index && next.seqNo == c.seqNo + |item.events|
  {
    hide Dedupe, Slice, ReplayHead, NamedVersion;
    var head := s.rows[c.seqNo - 1];
    var version := NamedVersion(s.market.batches, s.order.Feed(), head);
    produced := ReplayHead(s.model, s.order.context, c.state, head, version).value.events;
    item := HistoryItem(CommandItem, Dedupe(c.known, produced, s.order.context.start).events, None);
  }

  lemma RecordStepSound(s: Source, c: Cursor)
    requires Accounts(s, c) && c.seqNo <= |s.rows| && AdvanceRecord(s, c).Moved?
    ensures Accounts(s, AdvanceRecord(s, c).cursor)
  {
    var head, next := s.rows[c.seqNo - 1], AdvanceRecord(s, c).cursor;
    var d := Dedupe(c.known, [head], s.order.context.start);
    DedupeOne(c.known, head, s.order.context.start);
    if UniqueKeys(s.rows) {
      KnownOfMembers(EventsOf(c.items));
      forall e | e in EventsOf(c.items) ensures e.key != head.key {
        var i :| 0 <= i < c.seqNo - 1 && s.rows[..c.seqNo - 1][i] == e;
        assert s.rows[i] == e;
      }
      assert head.key !in c.known;
      assert d.events == [head];
    }
    OneMoreItem(s, c, next, HistoryItem(RecordItem, d.events, None), [head]);
  }

  lemma {:induction false} LoopSound(s: Source, c: Cursor)
    requires Accounts(s, c) && Loop(s, c).Regenerated?
    ensures Accounts(s, Loop(s, c).value)
    ensures Loop(s, c).value.seqNo == |s.rows| + 1
    decreases Remaining(s, c)
  {
    assert InRange(s, c);
    hide AdvanceSegment, AdvanceRecord, AdvanceCommand, Accounts;
    match Advance(s, c)
    case Moved(next) =>
      if SegmentDue(s, c) { SegmentStepSound(s, c); }
      else if s.rows[c.seqNo - 1].kind.Record() { RecordStepSound(s, c); }
      else { CommandStepSound(s, c); }
      LoopSound(s, next);
    case AtEnd =>
    case Halt(_) => HaltIsNoSuccess(s, c);
  }

  lemma HaltIsNoSuccess(s: Source, c: Cursor)
    requires InRange(s, c) && Advance(s, c).Halt?
    ensures !Advance(s, c).outcome.Regenerated?
  {
  }

  lemma BeginAccounts(s: Source)
    requires s.order.context.calendar.sessions != [] && Begin(s).Regenerated?
    ensures Accounts(s, Begin(s).value) && Begin(s).value.seqNo == 2 && Begin(s).value.index == 0
  {
    hide Begin, Dedupe, EventsOf, SegmentsOf, Renumbered, KnownOf, UniqueKeys;
    var created, item := CreatedItemOf(s);
    NoEventsKnown();
    DedupeExtendsKnown([], created, s.order.context.start);
    assert [] + item.events == item.events;
    FirstItem(item);
  }

  /** What an accepted beginning holds: one item, the fresh creation events, equal to the first row. */
  lemma CreatedItemOf(s: Source) returns (created: seq<Event>, item: HistoryItem)
    requires s.order.context.calendar.sessions != [] && Begin(s).Regenerated?
    ensures var c := Begin(s).value;
            && InRange(s, c) && c.seqNo == 2 && c.index == 0 && c.items == [item]
            && item.kind == CreatedItem && item.segment.None? && item.events == s.rows[..1]
            && Dedupe(map[], created, s.order.context.start) == Fresh(item.events, c.known)
  {
    hide Dedupe, RegenerateCreated;
    created := RegenerateCreated(s.model, s.order.context, s.rows[0].payload).value.events;
    item := HistoryItem(CreatedItem, Dedupe(map[], created, s.order.context.start).events, None);
  }

  lemma NoEventsKnown()
    ensures KnownOf([]) == map[] && UniqueKeys([])
  {
  }

  lemma FirstItem(item: HistoryItem)
    requires item.segment.None?
    ensures EventsOf([item]) == item.events && SegmentsOf([item]) == [] && Renumbered([item]) == []
  {
    assert [item][..0] == [];
    assert [] + item.events == item.events;
  }

  /**
   * On any stored log and segment list the loop terminates (Loop is total), and when it accepts: every row was read,
   * every segment was consumed exactly once and in order, each segment item is the slice its row announces, and the
   * items' events are the stored rows one for one -- precisely when no stored key repeats.
   */
  lemma AcceptedAccountsForAll(s: Source)
    requires s.order.context.calendar.sessions != [] && RegenerateRows(s).Regenerated?
    ensures var h := RegenerateRows(s).value;
            && h.nextSeq == |s.rows| + 1
            && SegmentsOf(h.items) == s.segments
            && (forall item :: item in h.items ==> ItemOk(s, item))
            && (EventsOf(h.items) == s.rows <==> UniqueKeys(s.rows))
            && (UniqueKeys(s.rows) ==> Renumbered(h.items) == s.segments)
  {
    hide *;
    var c := AcceptedEnd(s);
    AccountsAtTheEnd(s, c);
  }

  lemma AcceptedEnd(s: Source) returns (c: Cursor)
    requires s.order.context.calendar.sessions != [] && RegenerateRows(s).Regenerated?
    ensures RegenerateRows(s).value == RegeneratedHistory(c.state, c.items, c.seqNo)
    ensures Accounts(s, c) && c.seqNo == |s.rows| + 1 && c.index == |s.segments|
  {
    hide Begin, Loop, Accounts;
    BeginAccounts(s);
    LoopSound(s, Begin(s).value);
    c := Loop(s, Begin(s).value).value;
    AccountsInRange(s, c);
  }

  lemma AccountsAtTheEnd(s: Source, c: Cursor)
    requires Accounts(s, c) && c.seqNo == |s.rows| + 1 && c.index == |s.segments|
    ensures SegmentsOf(c.items) == s.segments && forall item :: item in c.items ==> ItemOk(s, item)
    ensures EventsOf(c.items) == s.rows <==> UniqueKeys(s.rows)
    ensures UniqueKeys(s.rows) ==> Renumbered(c.items) == s.segments
  {
    hide EventsOf, SegmentsOf, Renumbered, KnownOf, ItemOk, UniqueKeys;
    assert s.segments[..c.index] == s.segments;
    assert s.rows[..c.seqNo - 1] == s.rows;
  }

  /**
   * A segment whose row announces more events than the log still holds is accepted when it is the last thing in the
   * log: the comparison slice is cut off at the end. Everywhere else the announced count is exact.
   */
  lemma EventCountExactBeforeTheEnd(s: Source, item: HistoryItem)
    requires ItemOk(s, item) && item.kind == SegmentItem
    ensures |item.events| == item.segment.value.eventCount
       <==> item.segment.value.firstSeq - 1 + item.segment.value.eventCount <= |s.rows|
  {
  }

  lemma {:induction false} SegmentItems(items: seq<HistoryItem>, g: SegmentRow)
    ensures g in SegmentsOf(items) <==> exists item :: item in items && item.segment == Some(g)
  {
    if items != [] {
      var most, last := items[..|items| - 1], items[|items| - 1];
      SegmentItems(most, g);
      assert forall item :: item in items <==> item in most || item == last;
    }
  }

  /**
   * Of an accepted history, every segment's announced count is the number of events read for it if and only if no segment
   * reaches past the end of the log. That, and nothing else, is what the cut-off comparison lets through.
   */
  lemma CountsAreExactIffTheyFit(s: Source)
    requires s.order.context.calendar.sessions != [] && RegenerateRows(s).Regenerated?
    ensures (forall item :: item in RegenerateRows(s).value.items && item.segment.Some? ==>
               |item.events| == item.segment.value.eventCount)
       <==> Fits(s)
  {
    hide RegenerateRows, SegmentsOf, EventsOf, Renumbered, UniqueKeys, Slice;
    AcceptedAccountsForAll(s);
    var items := RegenerateRows(s).value.items;
    forall item | item in items && item.segment.Some?
      ensures |item.events| == item.segment.value.eventCount
         <==> item.segment.value.firstSeq - 1 + item.segment.value.eventCount <= |s.rows|
      ensures item.segment.value in s.segments
    {
      EventCountExactBeforeTheEnd(s, item);
      SegmentItems(items, item.segment.value);
    }
    forall g | g in s.segments ensures exists item :: item in items && item.segment == Some(g) {
      SegmentItems(items, g);
    }
  }

  // ---- growing the log --------------------------------------------------------------------------------------

  ghost predicate Fits(s: Source) {
    forall segment :: segment in s.segments ==> segment.firstSeq - 1 + segment.eventCount <= |s.rows|
  }

  /** `t` is `s` with more rows and at most segments that start right after the old log. */
  ghost predicate Grows(s: Source, t: Source) {
    && t.model == s.model && t.order == s.order && t.market == s.market
    && s.rows <= t.rows && s.segments <= t.segments
    && forall i :: |s.segments| <= i < |t.segments| ==> t.segments[i].firstSeq == |s.rows| + 1
  }

  lemma SliceKept(rows: seq<Event>, more: seq<Event>, seqNo: nat, count: nat)
    requires rows <= more && 1 <= seqNo && seqNo - 1 + count <= |rows|
    ensures Slice(more, seqNo, count) == Slice(rows, seqNo, count)
  {
  }

  lemma StepKept(s: Source, t: Source, c: Cursor)
    requires InRange(s, c) && Grows(s, t) && Fits(s)
    requires Advance(s, c).Moved?
    ensures InRange(t, c) && Advance(t, c) == Advance(s, c)
  {
    if SegmentDue(s, c) {
      var segment := s.segments[c.index];
      assert t.segments[c.index] == segment && segment in s.segments;
      SliceKept(s.rows, t.rows, c.seqNo, segment.eventCount);
      assert SegmentMinutes(t, segment) == SegmentMinutes(s, segment);
      assert SegmentBars(t, segment) == SegmentBars(s, segment);
      EvaluateSame(s, t, c, segment, SegmentBars(s, segment));
      hide EvaluateSegment, SegmentBars, SegmentMinutes, Slice;
    } else {
      assert !SegmentDue(t, c);
      assert t.rows[c.seqNo - 1] == s.rows[c.seqNo - 1];
      if !s.rows[c.seqNo - 1].kind.Record() { CommandKept(s, t, c); }
    }
  }

  lemma CommandKept(s: Source, t: Source, c: Cursor)
    requires InRange(s, c) && Grows(s, t) && c.seqNo <= |s.rows|
    requires AdvanceCommand(s, c).Moved?
    ensures AdvanceCommand(t, c) == AdvanceCommand(s, c)
  {
    var n := AdvanceCommand(s, c).cursor.seqNo - c.seqNo;
    assert t.rows[c.seqNo - 1] == s.rows[c.seqNo - 1];
    SliceKept(s.rows, t.rows, c.seqNo, n);
  }

  /** Regenerating a grown log first retraces the whole old history, then continues from where that one ended. */
  lemma {:induction false} LoopRetraces(s: Source, t: Source, c: Cursor)
    requires InRange(s, c) && Grows(s, t) && Fits(s)
    requires Loop(s, c).Regenerated? && Loop(s, c).value.index == |s.segments|
    ensures InRange(t, c) && InRange(t, Loop(s, c).value)
    ensures Loop(s, c).value.seqNo == |s.rows| + 1
    ensures Loop(t, c) == Loop(t, Loop(s, c).value)
    decreases Remaining(s, c)
  {
    hide AdvanceSegment, AdvanceRecord, AdvanceCommand;
    match Advance(s, c)
    case Moved(next) =>
      StepKept(s, t, c);
      LoopRetraces(s, t, next);
    case AtEnd =>
    case Halt(_) => HaltIsNoSuccess(s, c);
  }

  lemma BeginKept(s: Source, t: Source)
    requires s.order.context.calendar.sessions != [] && Grows(s, t) && Begin(s).Regenerated?
    ensures Begin(t) == Begin(s)
  {
    assert t.rows[0] == s.rows[0];
    SliceKept(s.rows, t.rows, 1, 1);
  }

  // ---- growing the market -----------------------------------------------------------------------------------

  /** Later batches are stamped after every watermark the order's segments were evaluated at. */
  ghost predicate MarketGrows(before: Market, after: Market, later: seq<Batch>) {
    && after.batches == before.batches + later
    && (forall r :: r in before.runs ==> r in after.runs && after.runs[r] == before.runs[r])
    && (forall b, r :: b in later && r in before.runs ==> before.runs[r] < b.ingestedAt)
  }

  lemma StepStable(s: Source, market: Market, later: seq<Batch>, c: Cursor)
    requires InRange(s, c) && MarketGrows(s.market, market, later) && Advance(s, c).Moved?
    ensures Advance(s.(market := market), c) == Advance(s, c)
  {
    var t := s.(market := market);
    hide AdvanceSegment, AdvanceCommand, MarketGrows;
    if SegmentDue(s, c) {
      SegmentStable(s, market, later, c);
    } else if !s.rows[c.seqNo - 1].kind.Record() {
      CommandStable(s, market, later, c);
    }
  }

  lemma SegmentBarsStable(s: Source, market: Market, later: seq<Batch>, segment: SegmentRow)
    requires MarketGrows(s.market, market, later) && segment.runId in s.market.runs
    ensures segment.runId in market.runs && SegmentBars(s.(market := market), segment) == SegmentBars(s, segment)
  {
    ReadStable(s.market.batches, later, s.order.Feed(), segment.barFrom, segment.barTo + MINUTE, s.market.runs[segment.runId]);
  }

  lemma SegmentStable(s: Source, market: Market, later: seq<Batch>, c: Cursor)
    requires InRange(s, c) && c.index < |s.segments| && MarketGrows(s.market, market, later) && AdvanceSegment(s, c).Moved?
    ensures AdvanceSegment(s.(market := market), c) == AdvanceSegment(s, c)
  {
    hide EvaluateSegment, SegmentBars, MarketGrows, Slice;
    var t, segment := s.(market := market), s.segments[c.index];
    SegmentBarsStable(s, market, later, segment);
    EvaluateSame(s, t, c, segment, SegmentBars(s, segment));
  }

  lemma EvaluateSame(s: Source, t: Source, c: Cursor, segment: SegmentRow, bars: seq<Bar>)
    requires t.model == s.model && t.order == s.order
    requires 1 <= c.seqNo <= |s.rows| + 1 && 1 <= c.seqNo <= |t.rows| + 1
    requires Slice(t.rows, c.seqNo, segment.eventCount) == Slice(s.rows, c.seqNo, segment.eventCount)
    ensures EvaluateSegment(t, c, segment, bars).Moved? == EvaluateSegment(s, c, segment, bars).Moved?
    ensures EvaluateSegment(s, c, segment, bars).Moved? ==>
              EvaluateSegment(t, c, segment, bars) == EvaluateSegment(s, c, segment, bars)
  {
    assert SegmentMinutes(t, segment) == SegmentMinutes(s, segment);
    hide SegmentMinutes, Slice, Dedupe, SelectedDataHash;
  }

  lemma CommandStable(s: Source, market: Market, later: seq<Batch>, c: Cursor)
    requires InRange(s, c) && c.seqNo <= |s.rows| && MarketGrows(s.market, market, later) && AdvanceCommand(s, c).Moved?
    ensures AdvanceCommand(s.(market := market), c) == AdvanceCommand(s, c)
  {
    var head := s.rows[c.seqNo - 1];
    if head.barTs.Some? && head.batch.Some? && NamedVersion(s.market.batches, s.order.Feed(), head).Some? {
      ReadVersionStable(s.market.batches, later, s.order.Feed(), head.barTs.value, head.batch.value);
    }
  }

  lemma {:induction false} LoopStable(s: Source, market: Market, later: seq<Batch>, c: Cursor)
    requires InRange(s, c) && MarketGrows(s.market, market, later) && Loop(s, c).Regenerated?
    ensures Loop(s.(market := market), c) == Loop(s, c)
    decreases Remaining(s, c)
  {
    hide AdvanceSegment, AdvanceRecord, AdvanceCommand, MarketGrows;
    match Advance(s, c)
    case Moved(next) =>
      StepStable(s, market, later, c);
      LoopStable(s, market, later, next);
    case AtEnd =>
    case Halt(_) => HaltIsNoSuccess(s, c);
  }

  /** An accepted history stays accepted, with the same result, whatever is ingested or started afterwards. */
  lemma RegenerationStable(s: Source, market: Market, later: seq<Batch>)
    requires s.order.context.calendar.sessions != []
    requires MarketGrows(s.market, market, later) && RegenerateRows(s).Regenerated?
    ensures RegenerateRows(s.(market := market)) == RegenerateRows(s)
  {
    var t := s.(market := market);
    assert Begin(t) == Begin(s);
    LoopStable(s, market, later, Begin(s).value);
  }
}
