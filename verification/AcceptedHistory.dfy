/** What an accepted history tells: the model, run again over exactly what the log's own rows and segments name. */
module AcceptedHistory {
  import opened Prelude
  import opened BarStore
  import opened Domain
  import opened Events
  import opened History
  import opened HistoryLaws

  /**
   * One item, run again from the state before it: a segment over the bars its run saw, provided their hash is the recorded one;
   * a command from its first event; a record changes nothing.
   */
  ghost function Rerun(s: Source, state: OrderState, item: HistoryItem): Option<StepResult> {
    match item.kind
    case CreatedItem => None
    case RecordItem => Some(StepResult(state, item.events))
    case CommandItem =>
      if item.events == [] then None
      else
        (match ReplayHead(s.model, s.order.context, state, item.events[0], NamedVersion(s.market.batches, s.order.Feed(), item.events[0]))
         case Regenerated(r) => Some(r)
         case _ => None)
    case SegmentItem =>
      if item.segment.Some? && item.segment.value.runId in s.market.runs
         && SelectedDataHash(s.order.Feed(), SegmentMinutes(s, item.segment.value), SegmentBars(s, item.segment.value))
            == Some(item.segment.value.dataHash)
      then Some(s.model.runBars(state, SegmentBars(s, item.segment.value), s.order.context)) else None
  }

  /** The state after some items, each run again and each recording exactly its own events on top of those before. */
  ghost function StateOf(s: Source, items: seq<HistoryItem>): Option<OrderState> {
    if items == [] then None
    else
      var most, last := items[..|items| - 1], items[|items| - 1];
      var again := if most != [] then (match StateOf(s, most) case Some(state) => Rerun(s, state, last) case None => None)
                   else if last.kind.CreatedItem? && last.events != []
                   then RegenerateCreated(s.model, s.order.context, last.events[0].payload) else None;
      if again.None? then None
      else
        match Dedupe(KnownOf(EventsOf(most)), again.value.events, s.order.context.start)
        case Refused(_) => None
        case Fresh(events, _) => if events == last.events then Some(again.value.state) else None
  }

  ghost predicate Told(s: Source, c: Cursor) { StateOf(s, c.items) == Some(c.state) }

  lemma OneMoreTold(s: Source, c: Cursor, next: Cursor, item: HistoryItem, r: StepResult)
    requires Accounts(s, c) && Told(s, c) && next.items == c.items + [item] && next.state == r.state
    requires Rerun(s, c.state, item) == Some(r)
    requires Dedupe(c.known, r.events, s.order.context.start) == Fresh(item.events, next.known)
    ensures Told(s, next)
  {
    hide Rerun, Dedupe, KnownOf, EventsOf;
    assert (c.items + [item])[..|c.items|] == c.items;
  }

  lemma SegmentTold(s: Source, c: Cursor)
    requires Accounts(s, c) && Told(s, c) && SegmentDue(s, c) && AdvanceSegment(s, c).Moved?
    ensures Told(s, AdvanceSegment(s, c).cursor)
  {
    hide Accounts, Told, Dedupe, SelectedDataHash, SegmentBars, SegmentMinutes, Slice;
    AccountsInRange(s, c);
    var g := s.segments[c.index];
    var r := s.model.runBars(c.state, SegmentBars(s, g), s.order.context);
    var item := HistoryItem(SegmentItem, Dedupe(c.known, r.events, s.order.context.start).events, Some(g));
    OneMoreTold(s, c, AdvanceSegment(s, c).cursor, item, r);
  }

  lemma CommandTold(s: Source, c: Cursor)
    requires Accounts(s, c) && Told(s, c) && c.seqNo <= |s.rows| && AdvanceCommand(s, c).Moved?
    ensures Told(s, AdvanceCommand(s, c).cursor)
  {
    hide Accounts, Told, Dedupe, ReplayHead, NamedVersion;
    AccountsInRange(s, c);
    var head := s.rows[c.seqNo - 1];
    var r := ReplayHead(s.model, s.order.context, c.state, head, NamedVersion(s.market.batches, s.order.Feed(), head)).value;
    var item := HistoryItem(CommandItem, Dedupe(c.known, r.events, s.order.context.start).events, None);
    assert item.events[0] == head;
    OneMoreTold(s, c, AdvanceCommand(s, c).cursor, item, r);
  }

  lemma RecordTold(s: Source, c: Cursor)
    requires Accounts(s, c) && Told(s, c) && c.seqNo <= |s.rows| && AdvanceRecord(s, c).Moved?
    ensures Told(s, AdvanceRecord(s, c).cursor)
  {
    hide Accounts, Told, KnownOf, EventsOf;
    AccountsInRange(s, c);
    var head, next := s.rows[c.seqNo - 1], AdvanceRecord(s, c).cursor;
    var d := Dedupe(c.known, [head], s.order.context.start);
    DedupeOne(c.known, head, s.order.context.start);
    DedupeAgain(c.known, [head], s.order.context.start);
    hide Dedupe;
    OneMoreTold(s, c, next, HistoryItem(RecordItem, d.events, None), StepResult(c.state, d.events));
  }

  /** Deduplicating what deduplication kept keeps all of it. */
  lemma {:induction false} DedupeAgain(known: Known, events: seq<Event>, start: int)
    requires Dedupe(known, events, start).Fresh?
    ensures Dedupe(known, Dedupe(known, events, start).events, start) == Dedupe(known, events, start)
    decreases |events|
  {
    if events != [] {
      var e := events[0];
      if e.key in known {
        DedupeAgain(known, events[1..], start);
      } else {
        DedupeAgain(known[e.key := e], events[1..], start);
        var rest := Dedupe(known[e.key := e], events[1..], start).events;
        assert ([e] + rest)[1..] == rest;
      }
    }
  }

  lemma {:induction false} LoopTold(s: Source, c: Cursor)
    requires Accounts(s, c) && Told(s, c) && Loop(s, c).Regenerated?
    ensures Told(s, Loop(s, c).value)
    decreases Remaining(s, c)
  {
    AccountsInRange(s, c);
    hide AdvanceSegment, AdvanceRecord, AdvanceCommand, Accounts, Told;
    match Advance(s, c)
    case Moved(next) =>
      if SegmentDue(s, c) { SegmentStepSound(s, c); SegmentTold(s, c); }
      else if s.rows[c.seqNo - 1].kind.Record() { RecordStepSound(s, c); RecordTold(s, c); }
      else { CommandStepSound(s, c); CommandTold(s, c); }
      LoopTold(s, next);
    case AtEnd =>
    case Halt(_) => HaltIsNoSuccess(s, c);
  }

  lemma BeginTold(s: Source)
    requires s.order.context.calendar.sessions != [] && Begin(s).Regenerated?
    ensures Told(s, Begin(s).value)
  {
    hide Dedupe, RegenerateCreated;
    var c := Begin(s).value;
    assert Slice(s.rows, 1, 1) == [s.rows[0]];
    assert c.items[..0] == [] && KnownOf(EventsOf([])) == map[];
  }

  /**
   * Acceptance is the model's own run. On any log, honest or corrupted, an accepted history ends in the state that running the
   * model again over its items gives: every segment over the bars its run saw, their hash being the recorded one, every
   * command from its first event, and every item recording exactly its own rows on top of those before it.
   */
  lemma AcceptedIsTheModelsRun(s: Source)
    requires s.order.context.calendar.sessions != [] && RegenerateRows(s).Regenerated?
    ensures StateOf(s, RegenerateRows(s).value.items) == Some(RegenerateRows(s).value.state)
  {
    hide Begin, Loop, Accounts, StateOf;
    BeginAccounts(s);
    BeginTold(s);
    LoopSound(s, Begin(s).value);
    LoopTold(s, Begin(s).value);
    assert Told(s, Loop(s, Begin(s).value).value);
  }

  lemma {:induction false} SegmentsMatch(s: Source, items: seq<HistoryItem>)
    requires StateOf(s, items).Some?
    ensures forall item :: item in items && item.kind.SegmentItem? && item.segment.Some? ==>
              var g := item.segment.value;
              g.runId in s.market.runs
              && SelectedDataHash(s.order.Feed(), SegmentMinutes(s, g), SegmentBars(s, g)) == Some(g.dataHash)
  {
    hide SelectedDataHash, Dedupe, ReplayHead, SegmentBars, SegmentMinutes;
    var most, last := items[..|items| - 1], items[|items| - 1];
    if most != [] { SegmentsMatch(s, most); }
    assert forall item :: item in items <==> item in most || item == last;
  }

  /** A segment whose bars no longer hash to what it recorded is never accepted, wherever it stands in the log. */
  lemma TamperedBarsAreRefused(s: Source, g: SegmentRow)
    requires s.order.context.calendar.sessions != [] && g in s.segments && g.runId in s.market.runs
    requires SelectedDataHash(s.order.Feed(), SegmentMinutes(s, g), SegmentBars(s, g)) != Some(g.dataHash)
    ensures !RegenerateRows(s).Regenerated?
  {
    hide SelectedDataHash, SegmentBars, SegmentMinutes, RegenerateRows, StateOf, SegmentsOf, EventsOf, Renumbered, UniqueKeys, Slice;
    if RegenerateRows(s).Regenerated? {
      AcceptedIsTheModelsRun(s);
      AcceptedAccountsForAll(s);
      SegmentItems(RegenerateRows(s).value.items, g);
      SegmentsMatch(s, RegenerateRows(s).value.items);
    }
  }
}
