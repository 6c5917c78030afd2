/** What the events of a bar say: prices as they were on the market, on both sides of it. */
module FillV1Events {
  import opened Prelude
  import opened BarStore
  import opened Domain
  import opened FillV1
  import opened FillV1Rules

  /** The price before slippage at which a bar takes a stop out: the stop, or a worse open. */
  function StopRaw(d: Direction, bar: Bar, level: real): real {
    if Gain(d, level, bar.values.open) < 0.0 then bar.values.open else level
  }

  /**
   * What an event of this bar says. A lost zone names its far edge, a fill the raw entry price, a partial exit the breakeven stop,
   * a stop its level and the raw price there, a time exit the close, and a trigger its own price.
   */
  ghost predicate Tells(e: Event, state: OrderState, bar: Bar, signal: SignalSpec) {
    && (e.kind.TriggerHit? ==> e.price == signal.trigger)
    && match e.payload
       case ZonePayload(level) => level == Far(signal)
       case FillPayload(_, _, raw, _) => raw == RawEntry(bar, signal)
       case ScaleOutPayload(_, _, stop, _) => state.avgEntry.Some? ==> stop == state.avgEntry.value
       case ExitPayload(_, level, raw, _, _) =>
         && (level.Some? ==> raw == Some(StopRaw(signal.direction, bar, level.value)))
         && (level.None? && raw.Some? ==> raw == Some(bar.values.close))
       case _ => true
  }

  /** The same in LONG terms, of a signal as the engine's rules read it. */
  ghost predicate LongTells(e: Event, state: OrderState, bar: Bar, signal: SignalSpec) {
    && (e.kind.TriggerHit? ==> e.price == signal.trigger)
    && match e.payload
       case ZonePayload(level) => level == signal.zoneLow
       case FillPayload(_, _, raw, _) => EntryPrice(bar, signal).Some? && raw == EntryPrice(bar, signal).value.0
       case ScaleOutPayload(_, _, stop, _) => state.avgEntry.Some? ==> stop == state.avgEntry.value
       case ExitPayload(_, level, raw, _, _) =>
         && (level.Some? ==> raw == Some(MinReal(bar.values.open, level.value)))
         && (level.None? && raw.Some? ==> raw == Some(bar.values.close))
       case _ => true
  }

  ghost predicate AllTell(events: seq<Event>, state: OrderState, bar: Bar, signal: SignalSpec) {
    forall e :: e in events ==> LongTells(e, state, bar, signal)
  }

  lemma AllThen(a: seq<Event>, b: seq<Event>, state: OrderState, bar: Bar, signal: SignalSpec)
    requires AllTell(a, state, bar, signal) && AllTell(b, state, bar, signal)
    ensures AllTell(a + b, state, bar, signal)
  {
    hide LongTells;
  }

  lemma CloseTells(state: OrderState, bar: Bar, signal: SignalSpec, ctx: OrderContext, kind: EventType, key: string, price: real,
                   reason: CloseReason, note: string, level: Option<real>, raw: Option<real>, from: OrderState)
    requires !kind.TriggerHit? && (level.Some? ==> raw == Some(MinReal(bar.values.open, level.value)))
    requires level.None? && raw.Some? ==> raw == Some(bar.values.close)
    ensures AllTell(Close(state, bar, ctx, kind, key, price, reason, note, level, raw).events, from, bar, signal)
  {
    hide ExecutionCost, MinReal, EntryPrice;
  }

  lemma SecondTells(state: OrderState, bar: Bar, signal: SignalSpec, ctx: OrderContext, from: OrderState)
    ensures AllTell(SecondTarget(state, bar, signal, ctx).events, from, bar, signal)
  {
    hide Close, LongTells;
    if signal.target2.Some? {
      CloseTells(state, bar, signal, ctx, Target2Hit, "TARGET2_HIT", signal.target2.value, ByTarget, "FINAL", None, None, from);
    }
  }

  lemma ScaleTells(state: OrderState, bar: Bar, signal: SignalSpec, ctx: OrderContext, from: OrderState)
    requires from.avgEntry == state.avgEntry
    ensures AllTell(ScaleOut(state, bar, signal, ctx).events, from, bar, signal)
  {
    hide ExecutionCost, NextMinute, EntryPrice;
  }

  lemma ExitTells(state: OrderState, bar: Bar, signal: SignalSpec, ctx: OrderContext, entryBar: bool, from: OrderState)
    requires entryBar || from.avgEntry == state.avgEntry
    ensures AllTell(ExitPhase(state, bar, signal, ctx, entryBar).events, from, bar, signal)
  {
    var stop := ActiveStop(state, bar);
    var triggered := bar.values.low <= stop;
    var marked := state.(bestPrice := if entryBar || triggered then state.bestPrice else HigherOf(state.bestPrice, bar.values.high),
                         worstPrice := LowerOf(state.worstPrice, bar.values.low));
    var raw := MinReal(bar.values.open, stop);
    CloseTells(marked, bar, signal, ctx, Stopped, "STOPPED", AdverseSell(raw, ctx.config.stopSlippageBps), ByStop,
               if marked.t1Done then "BREAKEVEN" else "INITIAL", Some(stop), Some(raw), from);
    CloseTells(marked, bar, signal, ctx, Target1Hit, "TARGET1_HIT", signal.target1, ByTarget, "FINAL", None, None, from);
    SecondTells(marked, bar, signal, ctx, from);
    if !entryBar {
      ScaleTells(marked, bar, signal, ctx, from);
      SecondTells(ScaleOut(marked, bar, signal, ctx).state, bar, signal, ctx, from);
      AllThen(ScaleOut(marked, bar, signal, ctx).events, SecondTarget(ScaleOut(marked, bar, signal, ctx).state, bar, signal, ctx).events,
              from, bar, signal);
    }
    hide Close, ScaleOut, SecondTarget, ActiveStop, LowerOf, HigherOf, AdverseSell, MinReal, LongTells;
  }

  lemma GatingTells(state: OrderState, bar: Bar, signal: SignalSpec, ctx: OrderContext, from: OrderState)
    ensures AllTell(GatingRules(state, bar, signal, ctx).events, from, bar, signal)
  {
    hide EntryPrice, NextMinute;
  }

  lemma EntryTells(state: OrderState, bar: Bar, signal: SignalSpec, ctx: OrderContext)
    ensures AllTell(EntryPhase(state, bar, signal, ctx).events, state, bar, signal)
  {
    GatingTells(state, bar, signal, ctx, state);
    InvalidTells(state, bar, signal, "OPEN_AT_OR_THROUGH_STOP");
    InvalidTells(state, bar, signal, "STOP_TOUCHED_WITHOUT_POSITION");
    var entry := EntryPrice(bar, signal);
    if entry.Some? {
      var f := Fill(state, bar, signal, ctx, entry.value.0, entry.value.1);
      FillTells(state, bar, signal, ctx);
      ExitTells(f.state, bar, signal, ctx, true, state);
      AllThen(f.events, ExitPhase(f.state, bar, signal, ctx, true).events, state, bar, signal);
    }
    hide GatingRules, Invalidate, EntryPrice, Fill, ExitPhase, Eligible, AllTell;
  }

  lemma InvalidTells(state: OrderState, bar: Bar, signal: SignalSpec, why: string)
    ensures AllTell(Invalidate(state, bar, why).events, state, bar, signal)
  {
  }

  lemma FillTells(state: OrderState, bar: Bar, signal: SignalSpec, ctx: OrderContext)
    requires EntryPrice(bar, signal).Some?
    ensures var entry := EntryPrice(bar, signal).value; AllTell(Fill(state, bar, signal, ctx, entry.0, entry.1).events, state, bar, signal)
  {
    hide ExecutionCost, AdverseBuy, EntryPrice;
  }

  lemma EndTells(state: OrderState, bar: Bar, signal: SignalSpec, ctx: OrderContext, from: OrderState)
    ensures AllTell(ValidityEnd(state, bar, ctx).events, from, bar, signal)
  {
    CloseTells(state, bar, signal, ctx, TimeExit, "TIME_EXIT", AdverseSell(bar.values.close, ctx.config.stopSlippageBps), ByTime, "", None,
               Some(bar.values.close), from);
    hide Close, AdverseSell, EntryPrice;
  }

  lemma LongStepTells(state: OrderState, bar: Bar, signal: SignalSpec, ctx: OrderContext)
    ensures AllTell(LongStep(state, bar, signal, ctx).events, state, bar, signal)
  {
    EntryTells(state, bar, signal, ctx);
    ExitTells(state, bar, signal, ctx, false, state);
    var phase := if state.status.Pending? then EntryPhase(state, bar, signal, ctx) else ExitPhase(state, bar, signal, ctx, false);
    var seen := phase.state.(lastBarTs := Some(bar.ts));
    EndTells(seen, bar, signal, ctx, state);
    AllThen(phase.events, ValidityEnd(seen, bar, ctx).events, state, bar, signal);
    hide EntryPhase, ExitPhase, ValidityEnd, LastMinute, AllTell;
  }

  lemma TellsLong(e: Event, state: OrderState, bar: Bar, signal: SignalSpec, ctx: OrderContext)
    requires signal.direction.Long? && signal == ctx.signal && LongTells(e, state, bar, signal)
    ensures Tells(e, state, bar, signal)
  {
    EntryPriceIs(bar, ctx);
    hide EntryPrice, RawEntry;
  }

  lemma TellsShort(e: Event, state: OrderState, bar: Bar, ctx: OrderContext)
    requires ctx.signal.direction.Short? && LongTells(e, MirrorState(state), MirrorBar(bar), MirrorSignal(ctx.signal))
    ensures Tells(MirrorEvent(e), state, bar, ctx.signal)
  {
    EntryPriceIs(bar, ctx);
    hide EntryPrice, RawEntry;
  }

  /** Every event of a bar, of a LONG or a SHORT order, tells prices as they were on the market. */
  lemma EventsTellMarketPrices(state: OrderState, bar: Bar, ctx: OrderContext, e: Event)
    requires e in Step(state, bar, ctx).events
    ensures Tells(e, state, bar, ctx.signal)
  {
    hide LongStep, Skips, Tells, LongTells, MirrorEvent, MirrorState;
    if ctx.signal.direction.Long? {
      LongStepTells(state, bar, ctx.signal, ctx);
      TellsLong(e, state, bar, ctx.signal, ctx);
    } else {
      var r := LongStep(MirrorState(state), MirrorBar(bar), MirrorSignal(ctx.signal), ctx);
      LongStepTells(MirrorState(state), MirrorBar(bar), MirrorSignal(ctx.signal), ctx);
      MirroredEvents(r);
      var i :| 0 <= i < |r.events| && Mirrored(r).events[i] == e;
      assert r.events[i] in r.events;
      TellsShort(r.events[i], state, bar, ctx);
    }
  }
}
