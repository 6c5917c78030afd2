/** The calendar an order is loaded with: any one with the recorded window hash regenerates the same history. */
module ReloadedCalendar {
  import opened Prelude
  import opened Calendar
  import opened BarStore
  import opened Domain
  import opened Events
  import opened History
  import opened HistoryLaws
  import opened Ledger
  import opened FillV1

  // ---- loading --------------------------------------------------------------------------------------------------

  /** OutOfRange is a CalendarRangeError: no session of the loaded calendar opens after the order's end. */
  datatype Loaded = Ready(context: OrderContext) | Mismatched(error: LedgerError) | OutOfRange

  /** Build the context on a freshly loaded calendar and compare its window with the one recorded at creation. */
  function LoadContext(recorded: OrderContext, calendar: SessionCalendar): Loaded
    requires recorded.calendar.Valid() && calendar.Valid()
  {
    if calendar.Window(recorded.start, recorded.until).None? then OutOfRange
    else if calendar.Window(recorded.start, recorded.until) != recorded.calendar.Window(recorded.start, recorded.until)
    then Mismatched(CalendarMismatch)
    else Ready(recorded.(calendar := calendar))
  }

  /** The same order on two calendars with the same window hash. */
  ghost predicate Alike(c: OrderContext, d: OrderContext) {
    && c.Valid() && d.Valid() && d == c.(calendar := d.calendar)
    && c.calendar.Window(c.start, c.until).Some? && c.calendar.Window(c.start, c.until) == d.calendar.Window(c.start, c.until)
  }

  /** A model whose results depend on no more of the calendar than the two contexts share. */
  ghost predicate Blind(m: FillModel, c: OrderContext, d: OrderContext) {
    && (forall inherited, extra :: m.newOrderState(c, inherited, extra) == m.newOrderState(d, inherited, extra))
    && (forall s, bars :: m.runBars(s, bars, c) == m.runBars(s, bars, d))
    && (forall s, exDate, amount, validated ::
          m.applyDividend(s, c, exDate, amount, validated) == m.applyDividend(s, d, exDate, amount, validated))
    && (forall s, bar, now :: m.applyValidityEnd(s, c, bar, now) == m.applyValidityEnd(s, d, bar, now))
  }

  // ---- regeneration ---------------------------------------------------------------------------------------------

  ghost predicate WithinOrder(ctx: OrderContext, segments: seq<SegmentRow>) {
    forall g :: g in segments ==> ctx.start <= g.barFrom && g.barTo + MINUTE <= ctx.until
  }

  function On(s: Source, d: OrderContext): Source { s.(order := s.order.(context := d)) }

  lemma SegmentAlike(s: Source, d: OrderContext, c: Cursor)
    requires Alike(s.order.context, d) && Blind(s.model, s.order.context, d) && WithinOrder(s.order.context, s.segments)
    requires InRange(s, c) && c.index < |s.segments|
    ensures d.calendar.sessions != [] && AdvanceSegment(On(s, d), c) == AdvanceSegment(s, c)
  {
    hide Alike, Blind, EvaluateSegment, SegmentBars, SegmentMinutes;
    var g, e := s.segments[c.index], s.order.context;
    AlikeCalendars(e, d);
    assert g in s.segments;
    MinutesAlike(s, d, g);
    if g.runId in s.market.runs { EvaluateAlike(s, d, c, g, SegmentBars(s, g)); }
  }

  lemma MinutesAlike(s: Source, d: OrderContext, g: SegmentRow)
    requires Alike(s.order.context, d) && s.order.context.start <= g.barFrom && g.barTo + MINUTE <= s.order.context.until
    ensures SegmentMinutes(On(s, d), g) == SegmentMinutes(s, g) && On(s, d).order.Feed() == s.order.Feed()
    ensures g.runId in s.market.runs ==> SegmentBars(On(s, d), g) == SegmentBars(s, g)
    ensures d.calendar.sessions != [] && s.order.context.calendar.sessions != []
    ensures d.calendar.sessions[0].open <= g.barFrom && g.barTo + MINUTE <= d.calendar.LastClose()
    ensures s.order.context.calendar.sessions[0].open <= g.barFrom && g.barTo + MINUTE <= s.order.context.calendar.LastClose()
  {
    hide OrderContext.Valid, SessionCalendar.ExpectedMinutesSpec, SessionCalendar.Valid, SessionCalendar.Window, ReadAsOf, BarsInMinutes;
    var e := s.order.context;
    AlikeCalendars(e, d);
    EqualWindowsSameMinutes(e.calendar, d.calendar, e.start, e.until, g.barFrom, g.barTo + MINUTE);
  }

  lemma EvaluateAlike(s: Source, d: OrderContext, c: Cursor, g: SegmentRow, bars: seq<Bar>)
    requires Alike(s.order.context, d) && Blind(s.model, s.order.context, d) && InRange(s, c)
    requires s.order.context.start <= g.barFrom && g.barTo + MINUTE <= s.order.context.until
    ensures EvaluateSegment(On(s, d), c, g, bars) == EvaluateSegment(s, c, g, bars)
  {
    hide OrderContext.Valid, SessionCalendar.Window, SegmentMinutes, SelectedDataHash, Dedupe, Slice;
    MinutesAlike(s, d, g);
  }

  lemma AlikeCalendars(c: OrderContext, d: OrderContext)
    requires Alike(c, d)
    ensures c.calendar.Valid() && d.calendar.Valid() && c.start < c.until && c.calendar.sessions != [] && d.calendar.sessions != []
    ensures c.calendar.Expected(c.start) && d.calendar.Expected(c.start) && Whole(c.until)
  {
    hide SessionCalendar.Window, SessionCalendar.Expected;
    var i :| 0 <= i < |c.calendar.sessions| && c.calendar.sessions[i].close == c.until;
    assert c.calendar.sessions[i].Valid();
  }

  lemma ReplayAlike(m: FillModel, c: OrderContext, d: OrderContext, state: OrderState, head: Event, version: Option<Bar>)
    requires Alike(c, d) && Blind(m, c, d)
    ensures ReplayHead(m, c, state, head, version) == ReplayHead(m, d, state, head, version)
  {
    hide OrderContext.Valid, SessionCalendar.Window, SessionCalendar.Valid;
  }

  lemma StepAlike(s: Source, d: OrderContext, c: Cursor)
    requires Alike(s.order.context, d) && Blind(s.model, s.order.context, d) && WithinOrder(s.order.context, s.segments)
    requires InRange(s, c)
    ensures InRange(On(s, d), c) && Advance(On(s, d), c) == Advance(s, c)
  {
    hide OrderContext.Valid, SessionCalendar.Valid, SessionCalendar.Window, AdvanceSegment, ReplayHead, Dedupe, Slice, Blind, WithinOrder;
    AlikeCalendars(s.order.context, d);
    if SegmentDue(s, c) {
      SegmentAlike(s, d, c);
    } else if c.seqNo <= |s.rows| {
      var head := s.rows[c.seqNo - 1];
      ReplayAlike(s.model, s.order.context, d, c.state, head, NamedVersion(s.market.batches, s.order.Feed(), head));
    }
  }

  lemma {:induction false} LoopAlike(s: Source, d: OrderContext, c: Cursor)
    requires Alike(s.order.context, d) && Blind(s.model, s.order.context, d) && WithinOrder(s.order.context, s.segments)
    requires InRange(s, c)
    ensures InRange(On(s, d), c) && Loop(On(s, d), c) == Loop(s, c)
    decreases Remaining(s, c)
  {
    hide Alike, Blind, WithinOrder, Advance;
    StepAlike(s, d, c);
    match Advance(s, c)
    case Moved(next) => LoopAlike(s, d, next);
    case AtEnd =>
    case Halt(_) =>
  }

  lemma BeginAlike(s: Source, d: OrderContext)
    requires Alike(s.order.context, d) && Blind(s.model, s.order.context, d) && s.order.context.calendar.sessions != []
    ensures d.calendar.sessions != [] && Begin(On(s, d)) == Begin(s)
  {
    hide OrderContext.Valid, SessionCalendar.Valid, SessionCalendar.Window, Dedupe, Slice;
    AlikeCalendars(s.order.context, d);
  }

  /** Whatever the outcome, regenerating on either calendar gives it. */
  lemma RegeneratesAlike(s: Source, d: OrderContext)
    requires Alike(s.order.context, d) && Blind(s.model, s.order.context, d) && WithinOrder(s.order.context, s.segments)
    ensures s.order.context.calendar.sessions != [] && d.calendar.sessions != []
    ensures RegenerateRows(On(s, d)) == RegenerateRows(s)
  {
    hide Alike, Blind, WithinOrder, Begin, Loop;
    AlikeCalendars(s.order.context, d);
    BeginAlike(s, d);
    if Begin(s).Regenerated? { LoopAlike(s, d, Begin(s).value); }
  }

  // ---- v1 ---------------------------------------------------------------------------------------------------------

  /** A bar's minute has reached the minute after `t` exactly when it is later than the minute of `t`: no calendar needed. */
  lemma NextMinuteReached(ctx: OrderContext, t: int, ts: int)
    requires ctx.Valid() && ctx.start <= ts < ctx.until && ctx.calendar.Expected(ts)
    ensures ts >= NextMinute(ctx, t) <==> FloorMinute(t) + MINUTE <= ts
  {
    hide SessionCalendar.FirstExpectedAtOrAfter, SessionCalendar.Valid, SessionCalendar.Expected, OrderContext.Valid, Whole;
    ContextBounds(ctx);
    var m := FloorMinute(t) + MINUTE;
    ctx.calendar.FirstExpectedIsLeast(m);
    ctx.calendar.ExpectedInRange(ts);
    ExpectedWhole(ctx.calendar, ts);
    WholeOrder(FloorMinute(t), ts);
    WholeOrder(ts, ctx.until);
  }

  lemma ContextBounds(ctx: OrderContext)
    requires ctx.Valid()
    ensures ctx.calendar.Valid() && Whole(ctx.until) && ctx.until + MINUTE <= ctx.calendar.LastClose()
    ensures ctx.calendar.Expected(ctx.start) && ctx.calendar.sessions[0].open <= ctx.start
  {
    hide SessionCalendar.Expected;
    var i :| 0 <= i < |ctx.calendar.sessions| && ctx.calendar.sessions[i].close == ctx.until;
    assert ctx.calendar.sessions[i].Valid();
    ctx.calendar.LastCloseWhole();
    MinutesApart(ctx.until, ctx.calendar.LastClose());
    ctx.calendar.ExpectedInRange(ctx.start);
  }

  lemma WholeOrder(a: int, b: int)
    requires Whole(a) && Whole(b)
    ensures a < b <==> a + MINUTE <= b
  {
  }

  lemma ExpectedWhole(calendar: SessionCalendar, m: int)
    requires calendar.Expected(m)
    ensures Whole(m)
  {
  }

  lemma IsExpectedIsExpected(ctx: OrderContext, ts: int)
    requires ctx.Valid() && ctx.start <= ts < ctx.until
    ensures IsExpected(ctx, ts) <==> ctx.calendar.Expected(ts)
  {
    hide OrderContext.Valid, Whole, SessionCalendar.Valid;
    ContextBounds(ctx);
    var found := ctx.calendar.SessionContaining(ts);
    if found.Found? {
      var i :| 0 <= i < |ctx.calendar.sessions| && ctx.calendar.sessions[i] == found.value;
      assert Whole(ts) ==> InSession(ctx.calendar.sessions, i, ts);
    }
  }

  /** What v1 asks of the calendar at an evaluated minute has the same answers on both. */
  lemma MinuteAlike(c: OrderContext, d: OrderContext, ts: int)
    requires Alike(c, d) && c.start <= ts < c.until
    ensures IsExpected(c, ts) == IsExpected(d, ts)
    ensures IsExpected(c, ts) ==> NextMinute(c, ts) == NextMinute(d, ts)
  {
    hide OrderContext.Valid, SessionCalendar.Valid, SessionCalendar.Window, SessionCalendar.NextExpectedMinute, SessionCalendar.Expected,
         IsExpected;
    AlikeCalendars(c, d);
    IsExpectedIsExpected(c, ts);
    IsExpectedIsExpected(d, ts);
    c.calendar.WindowEndsAfter(c.start, c.until);
    EqualWindowsAgreeAt(c.calendar, d.calendar, c.start, c.until, ts);
    if c.calendar.Expected(ts) { EqualWindowsSameNext(c.calendar, d.calendar, c.start, c.until, ts); }
  }

  lemma LastAlike(c: OrderContext, d: OrderContext, ts: int)
    requires Alike(c, d)
    ensures LastMinute(c, ts) == LastMinute(d, ts)
  {
    hide *;
    AlikeSpan(c, d);
    var m := LastInOrder(c);
    var n := LastInOrder(d);
    EqualWindowsAgreeAt(c.calendar, d.calendar, c.start, c.until, m);
    EqualWindowsAgreeAt(c.calendar, d.calendar, c.start, c.until, n);
    LastMinuteIs(c, ts);
    LastMinuteIs(d, ts);
  }

  lemma AlikeSpan(c: OrderContext, d: OrderContext)
    requires Alike(c, d)
    ensures d == c.(calendar := d.calendar) && c.Valid() && d.Valid()
    ensures c.calendar.Valid() && d.calendar.Valid() && c.calendar.Window(c.start, c.until).Some?
    ensures c.calendar.Window(c.start, c.until) == d.calendar.Window(c.start, c.until)
    ensures c.calendar.Window(c.start, c.until).value != [] && c.until < Last(c.calendar.Window(c.start, c.until).value).close
  {
    hide SessionCalendar.Expected, SessionCalendar.Valid, SessionCalendar.IsSessionClose;
    c.calendar.WindowEndsAfter(c.start, c.until);
  }

  lemma LastMinuteIs(ctx: OrderContext, ts: int)
    requires ctx.calendar.Valid()
    ensures LastMinute(ctx, ts) <==> ctx.calendar.LastExpectedBefore(ctx.until) == Some(ts)
  {
  }

  lemma LastInOrder(ctx: OrderContext) returns (m: int)
    requires ctx.Valid()
    ensures ctx.calendar.Valid() && ctx.calendar.LastExpectedBefore(ctx.until) == Some(m)
    ensures ctx.start <= m < ctx.until && ctx.calendar.Expected(m)
    ensures forall k :: ctx.calendar.Expected(k) && k < ctx.until ==> k <= m
  {
    hide SessionCalendar.LastExpectedBefore, SessionCalendar.Expected, SessionCalendar.IsSessionClose, SessionCalendar.Valid;
    ctx.calendar.LastExpectedIsGreatest(ctx.until);
    m := ctx.calendar.LastExpectedBefore(ctx.until).value;
  }

  lemma EligibleAlike(c: OrderContext, d: OrderContext, state: OrderState, bar: Bar, signal: SignalSpec)
    requires Alike(c, d) && c.start <= bar.ts < c.until && IsExpected(c, bar.ts)
    ensures Eligible(state, bar, signal, c) == Eligible(state, bar, signal, d)
  {
    hide OrderContext.Valid, SessionCalendar.Window, SessionCalendar.Valid, SessionCalendar.Expected, IsExpected, NextMinute, FloorMinute;
    MinuteAlike(c, d, bar.ts);
    IsExpectedIsExpected(c, bar.ts);
    IsExpectedIsExpected(d, bar.ts);
    if state.triggerHitAt.Some? {
      NextMinuteReached(c, state.triggerHitAt.value, bar.ts);
      NextMinuteReached(d, state.triggerHitAt.value, bar.ts);
    }
  }

  lemma CostAlike(c: OrderContext, d: OrderContext, price: real, qty: real, leg: Leg)
    requires d == c.(calendar := d.calendar)
    ensures ExecutionCost(c, price, qty, leg) == ExecutionCost(d, price, qty, leg)
  {
  }

  lemma CloseAlike(c: OrderContext, d: OrderContext, s: OrderState, b: Bar, kind: EventType, key: string, price: real,
                   reason: CloseReason, note: string, level: Option<real>, raw: Option<real>)
    requires d == c.(calendar := d.calendar)
    ensures Close(s, b, c, kind, key, price, reason, note, level, raw) == Close(s, b, d, kind, key, price, reason, note, level, raw)
  {
    hide ExecutionCost;
    CostAlike(c, d, price, s.qtyOpen, ExitLeg);
  }

  lemma FillAlike(c: OrderContext, d: OrderContext, s: OrderState, b: Bar, signal: SignalSpec, raw: real, rule: string)
    requires d == c.(calendar := d.calendar)
    ensures Fill(s, b, signal, c, raw, rule) == Fill(s, b, signal, d, raw, rule)
  {
    hide ExecutionCost, AdverseBuy;
    var price := AdverseBuy(raw, c.config.entrySlippageBps);
    CostAlike(c, d, price, if price == signal.stop then 0.0 else c.config.riskAmount / (price - signal.stop), EntryLeg);
  }

  lemma TimeOutAlike(c: OrderContext, d: OrderContext, s: OrderState, b: Bar)
    requires d == c.(calendar := d.calendar)
    ensures TimeOut(s, b, c) == TimeOut(s, b, d)
  {
    hide Close, AdverseSell;
    CloseAlike(c, d, s, b, TimeExit, "TIME_EXIT", AdverseSell(b.values.close, c.config.stopSlippageBps), ByTime, "", None, Some(b.values.close));
  }

  lemma ScaleOutAlike(c: OrderContext, d: OrderContext, s: OrderState, b: Bar, signal: SignalSpec)
    requires d == c.(calendar := d.calendar) && NextMinute(c, b.ts) == NextMinute(d, b.ts)
    ensures ScaleOut(s, b, signal, c) == ScaleOut(s, b, signal, d)
  {
    hide ExecutionCost, NextMinute, TakeOff, PartToSell;
    CostAlike(c, d, signal.target1, PartToSell(s, c.config), ExitLeg);
  }

  lemma SecondTargetAlike(c: OrderContext, d: OrderContext, s: OrderState, b: Bar, signal: SignalSpec)
    requires d == c.(calendar := d.calendar)
    ensures SecondTarget(s, b, signal, c) == SecondTarget(s, b, signal, d)
  {
    hide Close;
    if signal.target2.Some? {
      CloseAlike(c, d, s, b, Target2Hit, "TARGET2_HIT", signal.target2.value, ByTarget, "FINAL", None, None);
    }
  }

  lemma ExitAlike(c: OrderContext, d: OrderContext, state: OrderState, bar: Bar, signal: SignalSpec, entryBar: bool)
    requires d == c.(calendar := d.calendar) && NextMinute(c, bar.ts) == NextMinute(d, bar.ts)
    ensures ExitPhase(state, bar, signal, c, entryBar) == ExitPhase(state, bar, signal, d, entryBar)
  {
    hide NextMinute, Close, ScaleOut, SecondTarget, ActiveStop, AdverseSell, HigherOf, LowerOf, MinReal;
    var stop := ActiveStop(state, bar);
    var triggered := bar.values.low <= stop;
    var marked := state.(bestPrice := if entryBar || triggered then state.bestPrice else HigherOf(state.bestPrice, bar.values.high),
                         worstPrice := LowerOf(state.worstPrice, bar.values.low));
    var raw := MinReal(bar.values.open, stop);
    CloseAlike(c, d, marked, bar, Stopped, "STOPPED", AdverseSell(raw, c.config.stopSlippageBps), ByStop,
               if marked.t1Done then "BREAKEVEN" else "INITIAL", Some(stop), Some(raw));
    CloseAlike(c, d, marked, bar, Target1Hit, "TARGET1_HIT", signal.target1, ByTarget, "FINAL", None, None);
    ScaleOutAlike(c, d, marked, bar, signal);
    SecondTargetAlike(c, d, marked, bar, signal);
    SecondTargetAlike(c, d, ScaleOut(marked, bar, signal, c).state, bar, signal);
  }

  lemma GatingAlike(c: OrderContext, d: OrderContext, state: OrderState, bar: Bar, signal: SignalSpec)
    requires Alike(c, d) && c.start <= bar.ts < c.until && IsExpected(c, bar.ts)
    ensures GatingRules(state, bar, signal, c) == GatingRules(state, bar, signal, d)
  {
    hide OrderContext.Valid, SessionCalendar.Window, IsExpected, NextMinute, Invalidate, TriggerRule, ZoneRule;
    MinuteAlike(c, d, bar.ts);
  }

  lemma EntryAlike(c: OrderContext, d: OrderContext, state: OrderState, bar: Bar, signal: SignalSpec)
    requires Alike(c, d) && c.start <= bar.ts < c.until && IsExpected(c, bar.ts)
    ensures EntryPhase(state, bar, signal, c) == EntryPhase(state, bar, signal, d)
  {
    hide OrderContext.Valid, SessionCalendar.Window, IsExpected, NextMinute, Eligible, ExitPhase, GatingRules, Fill, Invalidate, EntryPrice;
    EligibleAlike(c, d, state, bar, signal);
    MinuteAlike(c, d, bar.ts);
    GatingAlike(c, d, state, bar, signal);
    if EntryPrice(bar, signal).Some? {
      var entry := EntryPrice(bar, signal).value;
      FillAlike(c, d, state, bar, signal, entry.0, entry.1);
      ExitAlike(c, d, Fill(state, bar, signal, c, entry.0, entry.1).state, bar, signal, true);
    }
  }

  lemma LongStepAlike(c: OrderContext, d: OrderContext, state: OrderState, bar: Bar, signal: SignalSpec)
    requires Alike(c, d) && c.start <= bar.ts < c.until && IsExpected(c, bar.ts)
    ensures LongStep(state, bar, signal, c) == LongStep(state, bar, signal, d)
  {
    hide OrderContext.Valid, SessionCalendar.Window, IsExpected, NextMinute, EntryPhase, ExitPhase, LastMinute, TimeOut;
    MinuteAlike(c, d, bar.ts);
    EntryAlike(c, d, state, bar, signal);
    ExitAlike(c, d, state, bar, signal, false);
    LastAlike(c, d, bar.ts);
    var phase := if state.status.Pending? then EntryPhase(state, bar, signal, c) else ExitPhase(state, bar, signal, c, false);
    TimeOutAlike(c, d, phase.state.(lastBarTs := Some(bar.ts)), bar);
  }

  lemma BarAlike(c: OrderContext, d: OrderContext, state: OrderState, bar: Bar)
    requires Alike(c, d)
    ensures Step(state, bar, c) == Step(state, bar, d)
  {
    hide OrderContext.Valid, SessionCalendar.Window, IsExpected, LongStep, Mirrored, MirrorState, MirrorSignal, Fill, Close;
    if c.start <= bar.ts < c.until {
      MinuteAlike(c, d, bar.ts);
      if IsExpected(c, bar.ts) {
        LongStepAlike(c, d, state, bar, c.signal);
        LongStepAlike(c, d, MirrorState(state), MirrorBar(bar), MirrorSignal(c.signal));
      }
    }
  }

  lemma {:induction false} FoldAlike(c: OrderContext, d: OrderContext, state: OrderState, bars: seq<Bar>)
    requires Alike(c, d)
    ensures Fold(state, bars, c) == Fold(state, bars, d)
    decreases |bars|
  {
    hide Alike, Step;
    if bars != [] {
      BarAlike(c, d, state, bars[0]);
      FoldAlike(c, d, Step(state, bars[0], c).state, bars[1..]);
    }
  }

  /** v1 sees no more of the calendar than the order window. */
  lemma V1IsBlind(c: OrderContext, d: OrderContext)
    requires Alike(c, d)
    ensures Blind(V1, c, d)
  {
    hide OrderContext.Valid, SessionCalendar.Window, SessionCalendar.Valid, Fold, SortBy, LastMinute, TimeOut, Mirrored, FlagReview;
    AlikeCalendars(c, d);
    forall s, bars ensures V1.runBars(s, bars, c) == V1.runBars(s, bars, d) { FoldAlike(c, d, s, SortBy(bars, BarTs)); }
    forall s, bar, now ensures V1.applyValidityEnd(s, c, bar, now) == V1.applyValidityEnd(s, d, bar, now) {
      ValidityAlike(c, d, s, bar, now);
    }
  }

  lemma ValidityAlike(c: OrderContext, d: OrderContext, state: OrderState, bar: Option<Bar>, now: int)
    requires Alike(c, d)
    ensures ApplyValidityEnd(state, c, bar, now) == ApplyValidityEnd(state, d, bar, now)
  {
    hide OrderContext.Valid, SessionCalendar.Window, LastMinute, TimeOut, Mirrored, FlagReview, MirrorState, MirrorBar;
    if bar.Some? {
      LastAlike(c, d, bar.value.ts);
      TimeOutAlike(c, d, state, bar.value);
      TimeOutAlike(c, d, MirrorState(state), MirrorBar(bar.value));
    }
  }

  /** A valid context has a window unless its last loaded session opens exactly at the order's end. */
  lemma WindowMissingIff(ctx: OrderContext)
    requires ctx.Valid()
    ensures ctx.calendar.Window(ctx.start, ctx.until).None? <==> Last(ctx.calendar.sessions).open == ctx.until
  {
    var c := ctx.calendar;
    var j :| 0 <= j < |c.sessions| && c.sessions[j].close == ctx.until;
    hide SessionCalendar.Window, SessionCalendar.Expected, SessionCalendar.SessionContaining;
    StartIsInside(c, ctx.start);
    WindowMissing(c, ctx.start, ctx.until);
    assert Last(c.sessions) == c.sessions[|c.sessions| - 1] && j < |c.sessions| - 1;
  }

  lemma StartIsInside(c: SessionCalendar, start: int)
    requires c.Valid() && c.Expected(start)
    ensures c.SessionContaining(start).Found?
  {
    hide Whole, SessionCalendar.SessionContaining;
    var i :| InSession(c.sessions, i, start);
    c.ExpectedInRange(start);
    assert c.sessions[i] in c.sessions;
  }

  lemma WindowMissing(c: SessionCalendar, start: int, until: int)
    requires c.Valid() && c.SessionContaining(start).Found? && start < until
    ensures c.Window(start, until).None? <==> Last(c.sessions).open <= until
  {
    hide SessionCalendar.SessionContaining, ClosedBy, OpenedBefore, Session.Valid;
    var first, last, s := ClosedBy(c.sessions, start), OpenedBefore(c.sessions, until + 1), c.SessionContaining(start).value;
    c.OpensSorted();
    var i :| 0 <= i < |c.sessions| && c.sessions[i] == s;
    assert first <= i && i < last;
    if last < |c.sessions| { assert c.sessions[last].open <= Last(c.sessions).open; }
  }

  /**
   * Loading an order on any calendar that passes the identity check regenerates exactly the history it had on the calendar
   * it was created with, whatever else that calendar holds; any other calendar is refused before anything is read. A valid
   * context whose last loaded session opens exactly at the order's end has no window to compare and is refused as well.
   */
  lemma ReloadedHistoryIsTheSame(market: Market, f: OrderFile, calendar: SessionCalendar)
    requires f.order.terms.context.Valid() && SegmentsOk(market, f) && f.order.terms.context.(calendar := calendar).Valid()
    ensures var ctx := f.order.terms.context;
            match LoadContext(ctx, calendar)
            case Ready(loaded) =>
              loaded.calendar == calendar
              && RegenerateRows(On(SourceOf(V1, market, f), loaded)) == RegenerateRows(SourceOf(V1, market, f))
            case Mismatched(error) =>
              error == CalendarMismatch
              && calendar.Window(ctx.start, ctx.until) != ctx.calendar.Window(ctx.start, ctx.until)
            case OutOfRange =>
              calendar.Window(ctx.start, ctx.until).None? && Last(calendar.sessions).open == ctx.until
  {
    hide OrderContext.Valid, SessionCalendar.Window, RegenerateRows, Blind, Tiled;
    var ctx := f.order.terms.context;
    var loaded := ctx.(calendar := calendar);
    ContextBounds(ctx);
    ContextBounds(loaded);
    WindowMissingIff(loaded);
    if LoadContext(ctx, calendar).Ready? {
      V1IsBlind(ctx, loaded);
      TiledWithin(ctx, f.segments);
      RegeneratesAlike(SourceOf(V1, market, f), loaded);
    }
  }

  lemma TiledWithin(ctx: OrderContext, segments: seq<SegmentRow>)
    requires Tiled(ctx, segments)
    ensures WithinOrder(ctx, segments)
  {
    hide SessionCalendar.NextExpectedMinute, SessionCalendar.Expected, OrderContext.Valid, Whole;
    ContextBounds(ctx);
    forall g | g in segments ensures ctx.start <= g.barFrom && g.barTo + MINUTE <= ctx.until {
      ExpectedWhole(ctx.calendar, g.barTo);
      WholeOrder(g.barTo, ctx.until);
    }
  }
}
