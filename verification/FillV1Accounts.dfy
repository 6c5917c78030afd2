/** What v1 orders owe their bars: segmentation is irrelevant, repeats are harmless, and the events account for the money. */
module FillV1Accounts {
  import opened Prelude
  import opened Calendar
  import opened BarStore
  import opened Domain
  import opened FillV1
  import opened FillV1Laws

  // ---- segmentation ---------------------------------------------------------------------------------------------

  function Joined(first: StepResult, second: StepResult): StepResult { StepResult(second.state, first.events + second.events) }

  lemma {:induction false} FoldConcat(state: OrderState, a: seq<Bar>, b: seq<Bar>, ctx: OrderContext)
    ensures Fold(state, a + b, ctx) == Joined(Fold(state, a, ctx), Fold(Fold(state, a, ctx).state, b, ctx))
    decreases |a|
  {
    hide Step;
    if a == [] {
      assert a + b == b;
    } else {
      assert (a + b)[1..] == a[1..] + b;
      FoldConcat(Step(state, a[0], ctx).state, a[1..], b, ctx);
    }
  }

  /** Evaluate bars that arrive in consecutive segments. */
  function RunSegments(state: OrderState, segments: seq<seq<Bar>>, ctx: OrderContext): StepResult
    decreases |segments|
  {
    if segments == [] then StepResult(state, [])
    else
      var r := RunBars(state, segments[0], ctx);
      Joined(r, RunSegments(r.state, segments[1..], ctx))
  }

  function Flat(segments: seq<seq<Bar>>): seq<Bar> {
    if segments == [] then [] else segments[0] + Flat(segments[1..])
  }

  ghost predicate Chronological(segments: seq<seq<Bar>>) {
    segments == [] || ((forall x, y :: x in segments[0] && y in Flat(segments[1..]) ==> x.ts <= y.ts) && Chronological(segments[1..]))
  }

  /** However the bars of an order are cut into segments, the events and the final state are those of one evaluation. */
  lemma {:induction false} SegmentationIsIrrelevant(state: OrderState, segments: seq<seq<Bar>>, ctx: OrderContext)
    requires Chronological(segments)
    ensures RunSegments(state, segments, ctx) == RunBars(state, Flat(segments), ctx)
    decreases |segments|
  {
    hide Fold;
    if segments == [] {
      FoldNothing(state, ctx);
    } else {
      var head, rest := segments[0], Flat(segments[1..]);
      SegmentationIsIrrelevant(RunBars(state, head, ctx).state, segments[1..], ctx);
      SortByConcat(head, rest, BarTs);
      FoldConcat(state, SortBy(head, BarTs), SortBy(rest, BarTs), ctx);
    }
  }

  lemma FoldNothing(state: OrderState, ctx: OrderContext)
    ensures Fold(state, [], ctx) == StepResult(state, [])
  {
  }

  // ---- repeated delivery ------------------------------------------------------------------------------------------

  lemma LongStepSees(state: OrderState, bar: Bar, signal: SignalSpec, ctx: OrderContext)
    ensures LongStep(state, bar, signal, ctx).state.lastBarTs == Some(bar.ts)
  {
    hide EntryPhase, ExitPhase, LastMinute, ExecutionCost;
  }

  /** A bar that is skipped stays skipped after any other bar, and a bar just evaluated is skipped from then on. */
  lemma SkipsKept(state: OrderState, bar: Bar, other: Bar, ctx: OrderContext)
    requires Skips(state, bar, ctx) || bar == other
    ensures Skips(Step(state, other, ctx).state, bar, ctx)
  {
    StepKeeps(state, other, ctx);
    LongStepSees(state, other, ctx.signal, ctx);
    LongStepSees(MirrorState(state), MirrorBar(other), MirrorSignal(ctx.signal), ctx);
    hide LongStep, IsExpected;
  }

  lemma {:induction false} SkipsAfterFold(state: OrderState, bars: seq<Bar>, bar: Bar, ctx: OrderContext)
    requires Skips(state, bar, ctx) || bar in bars
    ensures Skips(Fold(state, bars, ctx).state, bar, ctx)
    decreases |bars|
  {
    hide Step, Skips;
    if bars != [] {
      var next := Step(state, bars[0], ctx).state;
      if bar == bars[0] || Skips(state, bar, ctx) { SkipsKept(state, bar, bars[0], ctx); }
      SkipsAfterFold(next, bars[1..], bar, ctx);
    }
  }

  lemma {:induction false} FoldSkips(state: OrderState, bars: seq<Bar>, ctx: OrderContext)
    requires forall b :: b in bars ==> Skips(state, b, ctx)
    ensures Fold(state, bars, ctx) == StepResult(state, [])
    decreases |bars|
  {
    if bars != [] { FoldSkips(state, bars[1..], ctx); }
  }

  /** Evaluating bars again, all or some of them, in any order, adds no event and changes nothing. */
  lemma RepeatedBarsAreHarmless(state: OrderState, bars: seq<Bar>, again: seq<Bar>, ctx: OrderContext)
    requires forall b :: b in again ==> b in bars
    ensures var done := RunBars(state, bars, ctx).state;
            RunBars(done, again, ctx) == StepResult(done, [])
  {
    hide Fold, Skips, SortBy;
    var done := RunBars(state, bars, ctx).state;
    MultisetMembers(SortBy(bars, BarTs), bars);
    MultisetMembers(SortBy(again, BarTs), again);
    forall b | b in SortBy(again, BarTs) ensures Skips(done, b, ctx) {
      SkipsAfterFold(state, SortBy(bars, BarTs), b, ctx);
    }
    FoldSkips(done, SortBy(again, BarTs), ctx);
  }

  // ---- accounts ---------------------------------------------------------------------------------------------------

  /** The profit, the cost and the change of the open quantity an event reports. */
  function Pnl(e: Event): real {
    match e.payload
    case ScaleOutPayload(pnl, _, _, _) => pnl
    case ExitPayload(_, _, _, pnl, _) => pnl
    case _ => 0.0
  }

  function Cost(e: Event): real {
    match e.payload
    case FillPayload(_, _, _, cost) => cost
    case ScaleOutPayload(_, cost, _, _) => cost
    case ExitPayload(_, _, _, _, cost) => cost
    case _ => 0.0
  }

  function Quantity(e: Event): real {
    match e.payload
    case FillPayload(_, _, _, _) => if e.qty.Some? then e.qty.value else 0.0
    case ScaleOutPayload(_, _, _, _) => if e.qty.Some? then -e.qty.value else 0.0
    case ExitPayload(_, _, _, _, _) => if e.qty.Some? then -e.qty.value else 0.0
    case _ => 0.0
  }

  function Total(events: seq<Event>, amount: Event -> real): real {
    if events == [] then 0.0 else amount(events[0]) + Total(events[1..], amount)
  }

  lemma {:induction false} TotalConcat(a: seq<Event>, b: seq<Event>, amount: Event -> real)
    ensures Total(a + b, amount) == Total(a, amount) + Total(b, amount)
  {
    if a == [] {
      assert a + b == b;
    } else {
      assert (a + b)[1..] == a[1..] + b;
      TotalConcat(a[1..], b, amount);
    }
  }

  /** A pending order holds nothing; a closed one holds nothing any more. */
  predicate Sane(state: OrderState) { (state.status.Pending? || state.status.Closed?) ==> state.qtyOpen == 0.0 }

  /** The events of a result are exactly the difference between the two states. */
  predicate Accounted(before: OrderState, r: StepResult) {
    && r.state.realizedPnl == before.realizedPnl + Total(r.events, Pnl)
    && r.state.costs == before.costs + Total(r.events, Cost)
    && r.state.qtyOpen == before.qtyOpen + Total(r.events, Quantity)
    && Sane(r.state)
  }

  lemma TotalNone(amount: Event -> real)
    ensures Total([], amount) == 0.0
  {
  }

  lemma TotalOne(e: Event, amount: Event -> real)
    ensures Total([e], amount) == amount(e)
  {
    assert [e][1..] == [];
  }

  lemma AccountedThen(before: OrderState, first: StepResult, second: StepResult)
    requires Accounted(before, first) && Accounted(first.state, second)
    ensures Accounted(before, Joined(first, second))
  {
    TotalConcat(first.events, second.events, Pnl);
    TotalConcat(first.events, second.events, Cost);
    TotalConcat(first.events, second.events, Quantity);
  }

  /** One event, whose amounts are the difference. */
  lemma AccountedOne(before: OrderState, r: StepResult, e: Event)
    requires r.events == [e] && Sane(r.state)
    requires r.state.realizedPnl == before.realizedPnl + Pnl(e) && r.state.costs == before.costs + Cost(e)
    requires r.state.qtyOpen == before.qtyOpen + Quantity(e)
    ensures Accounted(before, r)
  {
    TotalOne(e, Pnl);
    TotalOne(e, Cost);
    TotalOne(e, Quantity);
  }

  lemma AccountedNone(before: OrderState, after: OrderState)
    requires Sane(after) && after.realizedPnl == before.realizedPnl && after.costs == before.costs && after.qtyOpen == before.qtyOpen
    ensures Accounted(before, StepResult(after, []))
  {
    TotalNone(Pnl);
    TotalNone(Cost);
    TotalNone(Quantity);
  }

  lemma CloseAccounts(state: OrderState, bar: Bar, ctx: OrderContext, kind: EventType, key: string, price: real,
                      reason: CloseReason, note: string, level: Option<real>, raw: Option<real>)
    ensures Accounted(state, Close(state, bar, ctx, kind, key, price, reason, note, level, raw))
  {
    var r := Close(state, bar, ctx, kind, key, price, reason, note, level, raw);
    hide ExecutionCost, Carried, Total;
    AccountedOne(state, r, r.events[0]);
  }

  lemma ScaleOutAccounts(state: OrderState, bar: Bar, signal: SignalSpec, ctx: OrderContext)
    ensures Accounted(state, ScaleOut(state, bar, signal, ctx))
  {
    var r := ScaleOut(state, bar, signal, ctx);
    hide ExecutionCost, Carried, Total, NextMinute;
    AccountedOne(state, r, r.events[0]);
  }

  lemma SecondTargetAccounts(state: OrderState, bar: Bar, signal: SignalSpec, ctx: OrderContext)
    requires Sane(state)
    ensures Accounted(state, SecondTarget(state, bar, signal, ctx))
  {
    hide Close, Total;
    if state.t1Done && signal.target2.Some? && bar.values.high >= signal.target2.value {
      CloseAccounts(state, bar, ctx, Target2Hit, "TARGET2_HIT", signal.target2.value, ByTarget, "FINAL", None, None);
    } else {
      AccountedNone(state, state);
    }
  }

  lemma ExitAccounts(state: OrderState, bar: Bar, signal: SignalSpec, ctx: OrderContext, entryBar: bool)
    requires Sane(state)
    ensures Accounted(state, ExitPhase(state, bar, signal, ctx, entryBar))
  {
    var stop := ActiveStop(state, bar);
    var triggered := bar.values.low <= stop;
    var marked := state.(bestPrice := if entryBar || triggered then state.bestPrice else HigherOf(state.bestPrice, bar.values.high),
                         worstPrice := LowerOf(state.worstPrice, bar.values.low));
    var r := ExitPhase(state, bar, signal, ctx, entryBar);
    hide Close, ScaleOut, SecondTarget, Total, ActiveStop, AdverseSell, HigherOf, LowerOf;
    MarkedAccounts(state, marked, r);
    if triggered {
      var raw := MinReal(bar.values.open, stop);
      CloseAccounts(marked, bar, ctx, Stopped, "STOPPED", AdverseSell(raw, ctx.config.stopSlippageBps), ByStop,
                    if marked.t1Done then "BREAKEVEN" else "INITIAL", Some(stop), Some(raw));
    } else if entryBar {
      AccountedNone(marked, marked);
    } else if !marked.t1Done && bar.values.high >= signal.target1 {
      if signal.target2.None? {
        CloseAccounts(marked, bar, ctx, Target1Hit, "TARGET1_HIT", signal.target1, ByTarget, "FINAL", None, None);
      } else {
        ScaleOutAccounts(marked, bar, signal, ctx);
        var scaled := ScaleOut(marked, bar, signal, ctx);
        SecondTargetAccounts(scaled.state, bar, signal, ctx);
        AccountedThen(marked, scaled, SecondTarget(scaled.state, bar, signal, ctx));
      }
    } else {
      SecondTargetAccounts(marked, bar, signal, ctx);
    }
  }

  /** Marking the best and worst price moves no money. */
  lemma MarkedAccounts(state: OrderState, marked: OrderState, r: StepResult)
    requires marked == state.(bestPrice := marked.bestPrice, worstPrice := marked.worstPrice)
    ensures Accounted(marked, r) == Accounted(state, r) && (Sane(state) ==> Sane(marked))
  {
  }

  lemma FillAccounts(state: OrderState, bar: Bar, signal: SignalSpec, ctx: OrderContext, raw: real, rule: string)
    requires state.status.Pending? && Sane(state)
    ensures Accounted(state, Fill(state, bar, signal, ctx, raw, rule))
  {
    var r := Fill(state, bar, signal, ctx, raw, rule);
    hide ExecutionCost, AdverseBuy, Total;
    AccountedOne(state, r, r.events[0]);
  }

  lemma GatingAccounts(state: OrderState, bar: Bar, signal: SignalSpec, ctx: OrderContext)
    requires Sane(state) && state.status.Pending?
    ensures Accounted(state, GatingRules(state, bar, signal, ctx))
  {
    hide Accounted, ZoneRule, ReclaimRule, TriggerRule, Invalidate, Sane;
    var zone := ZoneRule(state, bar, signal);
    var reclaim := ReclaimRule(zone.state, bar, signal, ctx);
    var trigger := TriggerRule(reclaim.state, bar, signal);
    ZoneAccounts(state, bar, signal);
    InvalidateAccounts(zone.state, bar, "ZONE_LOST_CANCEL");
    AccountedThen(state, zone, Invalidate(zone.state, bar, "ZONE_LOST_CANCEL"));
    ReclaimAccounts(zone.state, bar, signal, ctx);
    TriggerAccounts(reclaim.state, bar, signal);
    AccountedThen(state, zone, reclaim);
    AccountedThen(state, Joined(zone, reclaim), trigger);
  }

  lemma ZoneAccounts(state: OrderState, bar: Bar, signal: SignalSpec)
    requires Sane(state)
    ensures Accounted(state, ZoneRule(state, bar, signal)) && Sane(ZoneRule(state, bar, signal).state)
  {
    hide Total;
    var r := ZoneRule(state, bar, signal);
    if r.events == [] { AccountedNone(state, r.state); } else { AccountedOne(state, r, r.events[0]); }
  }

  lemma ReclaimAccounts(state: OrderState, bar: Bar, signal: SignalSpec, ctx: OrderContext)
    requires Sane(state)
    ensures Accounted(state, ReclaimRule(state, bar, signal, ctx)) && Sane(ReclaimRule(state, bar, signal, ctx).state)
  {
    hide Total, NextMinute;
    var r := ReclaimRule(state, bar, signal, ctx);
    if r.events == [] { AccountedNone(state, r.state); } else { AccountedOne(state, r, r.events[0]); }
  }

  lemma TriggerAccounts(state: OrderState, bar: Bar, signal: SignalSpec)
    requires Sane(state)
    ensures Accounted(state, TriggerRule(state, bar, signal))
  {
    hide Total;
    var r := TriggerRule(state, bar, signal);
    if r.events == [] { AccountedNone(state, r.state); } else { AccountedOne(state, r, r.events[0]); }
  }

  lemma EntryAccounts(state: OrderState, bar: Bar, signal: SignalSpec, ctx: OrderContext)
    requires Sane(state) && state.status.Pending?
    ensures Accounted(state, EntryPhase(state, bar, signal, ctx))
  {
    hide GatingRules, Total, Fill, ExitPhase, Eligible;
    GatingAccounts(state, bar, signal, ctx);
    InvalidateAccounts(state, bar, "OPEN_AT_OR_THROUGH_STOP");
    InvalidateAccounts(state, bar, "STOP_TOUCHED_WITHOUT_POSITION");
    if EntryPrice(bar, signal).Some? {
      var entry := EntryPrice(bar, signal).value;
      FillAccounts(state, bar, signal, ctx, entry.0, entry.1);
      var filled := Fill(state, bar, signal, ctx, entry.0, entry.1);
      ExitAccounts(filled.state, bar, signal, ctx, true);
      AccountedThen(state, filled, ExitPhase(filled.state, bar, signal, ctx, true));
    }
    hide Invalidate, Accounted, EntryPrice;
  }

  lemma InvalidateAccounts(state: OrderState, bar: Bar, why: string)
    requires Sane(state)
    ensures Accounted(state, Invalidate(state, bar, why))
  {
    hide Total;
    AccountedOne(state, Invalidate(state, bar, why), Invalidate(state, bar, why).events[0]);
  }

  lemma ValidityAccounts(state: OrderState, bar: Bar, ctx: OrderContext)
    requires Sane(state)
    ensures Accounted(state, ValidityEnd(state, bar, ctx))
  {
    hide Total, Close, AdverseSell;
    if state.status.Pending? {
      AccountedOne(state, Expire(state, ctx), ExpireEvent(ctx));
    } else {
      CloseAccounts(state, bar, ctx, TimeExit, "TIME_EXIT", AdverseSell(bar.values.close, ctx.config.stopSlippageBps), ByTime, "",
                    None, Some(bar.values.close));
    }
  }

  lemma LongStepAccounts(state: OrderState, bar: Bar, signal: SignalSpec, ctx: OrderContext)
    requires Sane(state)
    ensures Accounted(state, LongStep(state, bar, signal, ctx))
  {
    var phase := if state.status.Pending? then EntryPhase(state, bar, signal, ctx) else ExitPhase(state, bar, signal, ctx, false);
    if state.status.Pending? { EntryAccounts(state, bar, signal, ctx); } else { ExitAccounts(state, bar, signal, ctx, false); }
    var seen := phase.(state := phase.state.(lastBarTs := Some(bar.ts)));
    assert Accounted(state, seen);
    hide EntryPhase, ExitPhase, Total, LastMinute, ValidityEnd;
    if !seen.state.Final() && LastMinute(ctx, bar.ts) {
      ValidityAccounts(seen.state, bar, ctx);
      AccountedThen(state, seen, ValidityEnd(seen.state, bar, ctx));
    }
  }

  lemma {:induction false} TotalMirrored(events: seq<Event>, amount: Event -> real)
    requires forall e :: amount(MirrorEvent(e)) == amount(e)
    ensures Total(Map(events, MirrorEvent), amount) == Total(events, amount)
  {
    if events != [] {
      assert Map(events, MirrorEvent)[1..] == Map(events[1..], MirrorEvent);
      TotalMirrored(events[1..], amount);
    }
  }

  /** Negating prices changes no profit, cost or quantity: a SHORT order's accounts are its mirrored LONG order's. */
  lemma MirrorAccounts(state: OrderState, r: StepResult)
    requires Accounted(MirrorState(state), r)
    ensures Accounted(state, Mirrored(r))
  {
    TotalMirrored(r.events, Pnl);
    TotalMirrored(r.events, Cost);
    TotalMirrored(r.events, Quantity);
  }

  lemma StepAccounts(state: OrderState, bar: Bar, ctx: OrderContext)
    requires Sane(state)
    ensures Accounted(state, Step(state, bar, ctx))
  {
    hide LongStep, Skips, Total;
    if Skips(state, bar, ctx) {
      AccountedNone(state, state);
    } else if ctx.signal.direction.Long? {
      LongStepAccounts(state, bar, ctx.signal, ctx);
    } else {
      LongStepAccounts(MirrorState(state), MirrorBar(bar), MirrorSignal(ctx.signal), ctx);
      MirrorAccounts(state, LongStep(MirrorState(state), MirrorBar(bar), MirrorSignal(ctx.signal), ctx));
    }
  }

  lemma {:induction false} FoldAccounts(state: OrderState, bars: seq<Bar>, ctx: OrderContext)
    requires Sane(state)
    ensures Accounted(state, Fold(state, bars, ctx))
    decreases |bars|
  {
    hide Step, Total;
    if bars == [] {
      AccountedNone(state, state);
    } else {
      StepAccounts(state, bars[0], ctx);
      FoldAccounts(Step(state, bars[0], ctx).state, bars[1..], ctx);
      AccountedThen(state, Step(state, bars[0], ctx), Fold(Step(state, bars[0], ctx).state, bars[1..], ctx));
    }
  }

  /**
   * Conservation over a whole life: evaluate a new order, LONG or SHORT, on any bars. Its realized profit, costs and open
   * quantity are exactly what its events report, and once it is closed everything bought has been sold.
   */
  lemma EventsAccountForTheOrder(ctx: OrderContext, inherited: Option<GatingState>, extra: map<string, string>, bars: seq<Bar>)
    requires NewOrderState(ctx, inherited, extra).Some?
    ensures var r := RunBars(NewOrderState(ctx, inherited, extra).value.state, bars, ctx);
            && r.state.realizedPnl == Total(r.events, Pnl)
            && r.state.costs == Total(r.events, Cost)
            && r.state.qtyOpen == Total(r.events, Quantity)
            && (r.state.status.Closed? ==> Total(r.events, Quantity) == 0.0)
  {
    var s := NewOrderState(ctx, inherited, extra).value.state;
    assert s.qtyOpen == 0.0 && s.realizedPnl == 0.0 && s.costs == 0.0;
    hide Fold, Total;
    FoldAccounts(s, SortBy(bars, BarTs), ctx);
  }
}
