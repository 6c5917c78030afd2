/** An accepted log whose last segment announces more events than the log holds, under the v1 fill model. */
module Overcount {
  import opened Prelude
  import opened Calendar
  import opened BarStore
  import opened Domain
  import opened Events
  import opened History
  import opened HistoryLaws
  import opened FillV1

  const SIGNAL := SignalSpec("ACME", Long, 10.0, 11.0, 9.0, 12.0, None, None)

  const CONFIG := FillConfig(100.0, 0.0, 0.0, 0.0, false, 0.0, 0.0, 0.0, false, 50.0, 0.0)

  /** Two short sessions: the order lives in the first. */
  const HOURS := SessionCalendar([Session(1, 0, 2 * MINUTE), Session(2, 10 * MINUTE, 12 * MINUTE)])

  const ORDER := Terms(OrderContext(SIGNAL, CONFIG, HOURS, 0, 2 * MINUTE), "feed")

  const RUNS: map<nat, int> := map[0 := 5 * MINUTE]

  /** The order's creation, as one event. */
  function Creation(): Event {
    Event(OrderCreated, "ORDER_CREATED", None, None, None, None,
          CreatedPayload(SIGNAL, CONFIG, 0, 2 * MINUTE, HOURS.Window(0, 2 * MINUTE), None, map[]))
  }

  const STARTED := FRESH.(initialStop := Some(9.0), stopCurrent := Some(9.0))

  /** The creation row alone, and one evaluated minute without a bar, announced as five events. */
  function Log(hash: seq<DataEntry>): Source {
    Source(V1, ORDER, Market([], RUNS), [Creation()], [SegmentRow(0, 0, 0, hash, 2, 5)])
  }

  lemma NothingStored(feed: Feed, start: int, end: int, asOf: int)
    ensures ReadAsOf([], feed, start, end, asOf) == []
  {
    var minutes := Ascending(set m | m in StoredMinutes([], feed, asOf) && start <= m < end);
    BarsAtMembers([], feed, asOf, minutes);
    var bars := BarsAt([], feed, asOf, minutes);
    MemberUnlessEmpty(bars);
  }

  lemma MemberUnlessEmpty(bars: seq<Bar>)
    ensures bars != [] ==> exists b :: b in bars
  {
    if bars != [] { assert bars[0] in bars; }
  }

  lemma NoBarsNoEvents(state: OrderState)
    ensures V1.runBars(state, [], ORDER.context) == StepResult(state, [])
  {
  }

  lemma OrderIsValid()
    ensures ORDER.context.Valid()
  {
    var sessions := HOURS.sessions;
    assert sessions[0].Valid() && sessions[1].Valid();
    assert InSession(sessions, 0, 0);
  }

  lemma CreationIsTheFirst()
    ensures V1.newOrderState(ORDER.context, None, map[]) == Some(StepResult(STARTED, [Creation()]))
  {
    OrderIsValid();
    hide SessionCalendar.Valid, SessionCalendar.Window;
  }

  function FirstCursor(): Cursor {
    Cursor(2, 0, STARTED, map["ORDER_CREATED" := Creation()], [HistoryItem(CreatedItem, [Creation()], None)])
  }

  function LastCursor(hash: seq<DataEntry>): Cursor {
    var c := FirstCursor();
    Cursor(2, 1, STARTED, c.known, c.items + [HistoryItem(SegmentItem, [], Some(SegmentRow(0, 0, 0, hash, 2, 5)))])
  }

  lemma CreationIsAccepted(hash: seq<DataEntry>)
    ensures Begin(Log(hash)) == Regenerated(FirstCursor())
  {
    CreationIsTheFirst();
    hide V1, SessionCalendar.Valid, SessionCalendar.Window;
    var e := Creation();
    assert [e][1..] == [];
    assert Slice([e], 1, 1) == [e];
  }

  lemma SegmentIsAccepted(hash: seq<DataEntry>)
    requires SelectedDataHash(ORDER.Feed(), SegmentMinutes(Log(hash), Log(hash).segments[0]), []) == Some(hash)
    ensures Advance(Log(hash), FirstCursor()) == Moved(LastCursor(hash))
  {
    var s, c, g := Log(hash), FirstCursor(), Log(hash).segments[0];
    NothingStored(ORDER.Feed(), 0, MINUTE, 5 * MINUTE);
    assert SegmentBars(s, g) == BarsInMinutes([], SegmentMinutes(s, g)) == [];
    NoBarsNoEvents(STARTED);
    hide V1, SegmentMinutes, SelectedDataHash, SegmentBars;
    assert Slice(s.rows, 2, 5) == [];
    assert Dedupe(c.known, [], 0) == Fresh([], c.known);
  }

  /**
   * A concrete log that is accepted although its only segment announces five events and holds none: the order is valid,
   * its log holds the creation row alone, and the announced rows lie past its end.
   */
  lemma OverlongCountIsAccepted() returns (s: Source)
    ensures s.order.context.Valid() && s.model == V1 && UniqueKeys(s.rows)
    ensures |s.rows| == 1 && |s.segments| == 1 && s.segments[0].eventCount == 5
    ensures RegenerateRows(s).Regenerated? && RegenerateRows(s).value.nextSeq == 2 && !Fits(s)
  {
    var minutes := HOURS.ExpectedMinutesSpec(0, MINUTE);
    var hash := SelectedDataHash(ORDER.Feed(), minutes, []).value;
    s := Log(hash);
    OrderIsValid();
    CreationIsAccepted(hash);
    SegmentIsAccepted(hash);
    hide Begin, V1, SelectedDataHash, AdvanceSegment, SessionCalendar.Valid, SessionCalendar.ExpectedMinutesSpec;
    var last := LastCursor(hash);
    assert Advance(s, last) == AtEnd;
    assert Loop(s, FirstCursor()) == Loop(s, last) == Regenerated(last);
    assert s.segments[0] in s.segments;
  }
}
