/** The rules of the v1 engine, bar by bar, for both sides of the market: when an order fills, stops, takes profit or ends, and at what price. */
module FillV1Rules {
  import opened Prelude
  import opened Calendar
  import opened BarStore
  import opened Domain
  import opened FillV1

  /** What a move from one price to another earns per share. */
  function Gain(d: Direction, from: real, to: real): real { if d.Long? then to - from else from - to }

  /** The edge of the entry zone the price comes from, the far edge, and the extremes of a bar, from the order's side. */
  function Near(s: SignalSpec): real { if s.direction.Long? then s.zoneHigh else s.zoneLow }

  function Far(s: SignalSpec): real { if s.direction.Long? then s.zoneLow else s.zoneHigh }

  function Worst(d: Direction, v: Ohlcv): real { if d.Long? then v.low else v.high }

  function Best(d: Direction, v: Ohlcv): real { if d.Long? then v.high else v.low }

  function Magnitude(x: real): real { if x >= 0.0 then x else 0.0 - x }

  /** Slippage in basis points of a price. */
  function Slippage(price: real, bps: real): real { Magnitude(price) * bps / 10000.0 }

  /** What one execution costs: the commission, and on sales, where fees are on, a rate on the amount and a capped fee per share. */
  function CostOf(config: FillConfig, sells: bool, price: real, qty: real): real {
    var perShare := qty * config.tafFeePerShare;
    config.commission
    + if config.feesEnabled && sells
      then Magnitude(price) * qty * config.secFeeRate + (if perShare < config.tafFeeMax then perShare else config.tafFeeMax)
      else 0.0
  }

  /** Opening a SHORT order and closing a LONG one are the sales. */
  lemma CostIs(ctx: OrderContext, price: real, qty: real, leg: Leg)
    ensures ExecutionCost(ctx, price, qty, leg) == CostOf(ctx.config, leg.ExitLeg? == ctx.signal.direction.Long?, price, qty)
  {
  }

  lemma CostEven(config: FillConfig, sells: bool, price: real, qty: real)
    ensures CostOf(config, sells, -price, qty) == CostOf(config, sells, price, qty)
  {
    assert Magnitude(-price) == Magnitude(price);
    hide Magnitude;
  }

  /** The zone holds, a reclaim has had its minute, and a trigger, where there is one, was hit before this minute. */
  ghost predicate Ready(state: OrderState, bar: Bar, ctx: OrderContext) {
    && !state.zoneLost
    && (forall from :: state.entryEligibleFrom == Some(from) ==> from <= bar.ts)
    && (ctx.signal.trigger.Some? ==> exists hit :: state.triggerHitAt == Some(hit) && NextMinute(ctx, hit) <= bar.ts)
  }

  /** The bar opens inside the zone, or opens before it and trades past its near edge. */
  ghost predicate Enters(bar: Bar, s: SignalSpec) {
    || s.zoneLow <= bar.values.open <= s.zoneHigh
    || (Gain(s.direction, Near(s), bar.values.open) > 0.0 && Gain(s.direction, Near(s), Worst(s.direction, bar.values)) < 0.0)
  }

  /** A pending order fills on this bar. */
  ghost predicate Fills(state: OrderState, bar: Bar, ctx: OrderContext) {
    && Gain(ctx.signal.direction, ctx.signal.stop, bar.values.open) > 0.0
    && Ready(state, bar, ctx) && Enters(bar, ctx.signal)
  }

  /** The price before slippage: the open, or the near edge of the zone when the bar only trades into it. */
  function RawEntry(bar: Bar, s: SignalSpec): real {
    if s.zoneLow <= bar.values.open <= s.zoneHigh then bar.values.open else Near(s)
  }

  // ---- the two sides ------------------------------------------------------------------------------------------------

  /** What a step does with a bar it does not skip, before the end of the order's validity. */
  function Phase(state: OrderState, bar: Bar, signal: SignalSpec, ctx: OrderContext): StepResult {
    if state.status.Pending? then EntryPhase(state, bar, signal, ctx) else ExitPhase(state, bar, signal, ctx, false)
  }

  function Sided(state: OrderState, bar: Bar, ctx: OrderContext): StepResult {
    if ctx.signal.direction.Long? then Phase(state, bar, ctx.signal, ctx)
    else Mirrored(Phase(MirrorState(state), MirrorBar(bar), MirrorSignal(ctx.signal), ctx))
  }

  lemma SidedIs(state: OrderState, bar: Bar, ctx: OrderContext)
    ensures Sided(state, bar, ctx)
         == if ctx.signal.direction.Long? then Phase(state, bar, ctx.signal, ctx)
            else Mirrored(Phase(MirrorState(state), MirrorBar(bar), MirrorSignal(ctx.signal), ctx))
    ensures MirrorBar(bar).ts == bar.ts && (ctx.signal.direction.Long? || ctx.signal.direction.Short?)
  {
    hide Phase;
  }

  lemma MirrorTwice(s: OrderState)
    ensures MirrorState(MirrorState(s)) == s
  {
  }

  /** A step is that, then the bar is marked as seen, and only on the last expected minute a live order ends. */
  lemma StepIs(state: OrderState, bar: Bar, ctx: OrderContext)
    requires !Skips(state, bar, ctx)
    ensures var r, p := Step(state, bar, ctx), Sided(state, bar, ctx);
            && p.events <= r.events && r.state.lastBarTs == Some(bar.ts)
            && (p.state.Final() || !LastMinute(ctx, bar.ts) ==> r == StepResult(p.state.(lastBarTs := Some(bar.ts)), p.events))
            && (LastMinute(ctx, bar.ts) ==> r.state.Final())
  {
    hide EntryPhase, ExitPhase, LastMinute, Skips, ExecutionCost, MirrorPayload, AdverseSell;
    if ctx.signal.direction.Long? {
      LongStepIs(state, bar, ctx.signal, ctx);
    } else {
      LongStepIs(MirrorState(state), MirrorBar(bar), MirrorSignal(ctx.signal), ctx);
    }
  }

  lemma LongStepIs(state: OrderState, bar: Bar, signal: SignalSpec, ctx: OrderContext)
    ensures var r, p := LongStep(state, bar, signal, ctx), Phase(state, bar, signal, ctx);
            && p.events <= r.events && r.state.lastBarTs == Some(bar.ts)
            && (p.state.Final() || !LastMinute(ctx, bar.ts) ==> r == StepResult(p.state.(lastBarTs := Some(bar.ts)), p.events))
            && (LastMinute(ctx, bar.ts) ==> r.state.Final())
  {
    hide EntryPhase, ExitPhase, LastMinute, ExecutionCost, AdverseSell;
  }

  // ---- entries ------------------------------------------------------------------------------------------------------

  lemma ReadyIsEligible(state: OrderState, bar: Bar, ctx: OrderContext)
    ensures Ready(state, bar, ctx) <==> Eligible(state, bar, ctx.signal, ctx)
    ensures Ready(state, bar, ctx) <==> Eligible(MirrorState(state), MirrorBar(bar), MirrorSignal(ctx.signal), ctx)
  {
    hide NextMinute;
  }

  lemma EntryPriceIs(bar: Bar, ctx: OrderContext)
    ensures var s := ctx.signal;
            var p := if s.direction.Long? then EntryPrice(bar, s) else EntryPrice(MirrorBar(bar), MirrorSignal(s));
            && (p.Some? <==> Enters(bar, s))
            && (p.Some? ==> p.value.0 == if s.direction.Long? then RawEntry(bar, s) else -RawEntry(bar, s))
  {
  }

  lemma EntryFills(state: OrderState, bar: Bar, signal: SignalSpec, ctx: OrderContext)
    requires state.status.Pending?
    ensures var p, entry := EntryPhase(state, bar, signal, ctx), EntryPrice(bar, signal);
            var filled := bar.values.open > signal.stop && Eligible(state, bar, signal, ctx) && entry.Some?;
            && (filled <==> p.events != [] && p.events[0].kind.Filled?)
            && (filled ==> var f := Fill(state, bar, signal, ctx, entry.value.0, entry.value.1);
                           p == Then(f, s => ExitPhase(s, bar, signal, ctx, true)) && p.events[0] == f.events[0])
  {
    hide Eligible, EntryPrice, ExitPhase, Fill, NextMinute;
    FillIsOne(state, bar, signal, ctx);
  }

  lemma FillIsOne(state: OrderState, bar: Bar, signal: SignalSpec, ctx: OrderContext)
    ensures forall raw, rule :: |Fill(state, bar, signal, ctx, raw, rule).events| == 1
                                && Fill(state, bar, signal, ctx, raw, rule).events[0].kind.Filled?
  {
  }

  /**
   * When a pending order fills: if and only if the bar opens on the profitable side of the stop, the order is ready, and the
   * bar enters the zone. The fill is the first thing that happens on the bar.
   */
  lemma FillsIffReadyInTheZone(state: OrderState, bar: Bar, ctx: OrderContext)
    requires state.status.Pending? && !Skips(state, bar, ctx)
    ensures var r := Step(state, bar, ctx);
            Fills(state, bar, ctx) <==> r.events != [] && r.events[0].kind.Filled?
  {
    StepIs(state, bar, ctx);
    NoFillLater(state, bar, ctx);
    SidedFills(state, bar, ctx);
    hide Step, Skips, Sided, Fills, LastMinute;
  }

  lemma SidedFills(state: OrderState, bar: Bar, ctx: OrderContext)
    requires state.status.Pending?
    ensures Fills(state, bar, ctx) <==> Sided(state, bar, ctx).events != [] && Sided(state, bar, ctx).events[0].kind.Filled?
  {
    SidedPending(state, bar, ctx);
    ReadyIsEligible(state, bar, ctx);
    EntryPriceIs(bar, ctx);
    hide Sided, EntryPhase, Eligible, EntryPrice, Ready, Enters, Mirrored, MirrorState, Fill;
    if ctx.signal.direction.Long? {
      EntryFills(state, bar, ctx.signal, ctx);
    } else {
      MirrorKeeps(state);
      EntryFills(MirrorState(state), MirrorBar(bar), MirrorSignal(ctx.signal), ctx);
      MirroredEvents(EntryPhase(MirrorState(state), MirrorBar(bar), MirrorSignal(ctx.signal), ctx));
    }
  }

  /** Only a fill can be the first event of a bar that fills; where the phase says nothing, the end of validity is no fill. */
  lemma NoFillLater(state: OrderState, bar: Bar, ctx: OrderContext)
    requires !Skips(state, bar, ctx)
    ensures var r, p := Step(state, bar, ctx), Sided(state, bar, ctx);
            forall i :: |p.events| <= i < |r.events| ==> r.events[i].kind.OrderExpired? || r.events[i].kind.TimeExit?
  {
    hide EntryPhase, ExitPhase, LastMinute, Skips, ExecutionCost, MirrorPayload, AdverseSell;
  }

  /**
   * What a fill pays and buys: the raw price made worse by the slippage, a quantity that risks exactly the configured amount
   * down to the stop, and a position opened now, at that price, guarded by the signal's stop.
   */
  lemma FillPaysSlippage(state: OrderState, bar: Bar, ctx: OrderContext)
    requires state.status.Pending? && !Skips(state, bar, ctx) && Fills(state, bar, ctx)
    ensures OpenedSided(Step(state, bar, ctx), state, bar, ctx)
  {
    FillsIffReadyInTheZone(state, bar, ctx);
    ReadyIsEligible(state, bar, ctx);
    EntryPriceIs(bar, ctx);
    hide *;
    FillsMeans(state, bar, ctx);
    StepSides(state, bar, ctx);
    if ctx.signal.direction.Long? {
      LongFill(state, bar, ctx.signal, ctx);
      FillSeenLong(LongStep(state, bar, ctx.signal, ctx), state, bar, ctx);
    } else {
      LongFill(MirrorState(state), MirrorBar(bar), MirrorSignal(ctx.signal), ctx);
      FillSeenShort(LongStep(MirrorState(state), MirrorBar(bar), MirrorSignal(ctx.signal), ctx), state, bar, ctx);
    }
  }

  /** The position an event opened, in LONG terms. */
  ghost predicate OpenedBy(e: Event, x: OrderState, state: OrderState, bar: Bar, signal: SignalSpec, ctx: OrderContext, raw: real) {
    && e.price.Some? && e.qty.Some?
    && var price, qty := e.price.value, e.qty.value;
    && price == raw + Slippage(raw, ctx.config.entrySlippageBps)
    && (price != signal.stop ==> qty * (price - signal.stop) == ctx.config.riskAmount)
    && e.payload.FillPayload? && e.payload.fillCost == CostOf(ctx.config, ctx.signal.direction.Short?, price, qty)
    && x.avgEntry == Some(price) && x.qtyTotal == qty && x.openedAt == Some(bar.ts)
    && x.initialStop == Some(signal.stop) && x.stopCurrent == Some(signal.stop)
    && x.entryPath == Some(if state.zoneEverLost then Reclaimed else Direct)
  }

  /** What a fill leaves, in LONG terms. */
  ghost predicate Opened(r: StepResult, state: OrderState, bar: Bar, signal: SignalSpec, ctx: OrderContext, raw: real) {
    && r.events != [] && OpenedBy(r.events[0], r.state, state, bar, signal, ctx, raw)
    && (bar.values.low <= signal.stop && state.stopActiveFrom.None? ==> r.state.closeReason == Some(ByStop) && r.state.status.Closed?)
  }

  /** The same, seen from the order's own side. */
  ghost predicate OpenedSided(r: StepResult, state: OrderState, bar: Bar, ctx: OrderContext) {
    var d, raw := ctx.signal.direction, RawEntry(bar, ctx.signal);
    && r.events != [] && r.events[0].price.Some? && r.events[0].qty.Some?
    && var price, qty := r.events[0].price.value, r.events[0].qty.value;
    && Gain(d, raw, price) == Slippage(raw, ctx.config.entrySlippageBps)
    && (price != ctx.signal.stop ==> qty * Gain(d, ctx.signal.stop, price) == ctx.config.riskAmount)
    && r.events[0].payload.FillPayload?
    && r.events[0].payload.fillCost == CostOf(ctx.config, ctx.signal.direction.Short?, price, qty)
    && r.state.avgEntry == Some(price) && r.state.qtyTotal == qty && r.state.openedAt == Some(bar.ts)
    && r.state.initialStop == Some(ctx.signal.stop) && r.state.stopCurrent == Some(ctx.signal.stop)
    && r.state.entryPath == Some(if state.zoneEverLost then Reclaimed else Direct)
    && (Gain(d, ctx.signal.stop, Worst(d, bar.values)) <= 0.0 && state.stopActiveFrom.None? ==>
          r.state.closeReason == Some(ByStop) && r.state.status.Closed?)
  }

  lemma FillSeenLong(r: StepResult, state: OrderState, bar: Bar, ctx: OrderContext)
    requires ctx.signal.direction.Long? && Opened(r, state, bar, ctx.signal, ctx, RawEntry(bar, ctx.signal))
    ensures OpenedSided(r, state, bar, ctx)
  {
    hide RawEntry, Slippage, CostOf;
  }

  lemma FillSeenShort(r: StepResult, state: OrderState, bar: Bar, ctx: OrderContext)
    requires ctx.signal.direction.Short?
    requires Opened(r, MirrorState(state), MirrorBar(bar), MirrorSignal(ctx.signal), ctx, -RawEntry(bar, ctx.signal))
    ensures OpenedSided(Mirrored(r), state, bar, ctx)
  {
    hide RawEntry;
    SlippageEven(RawEntry(bar, ctx.signal), ctx.config.entrySlippageBps);
    var price, qty := r.events[0].price.value, r.events[0].qty.value;
    assert Mirrored(r).events[0] == MirrorEvent(r.events[0]);
    assert price - MirrorSignal(ctx.signal).stop == Gain(Short, ctx.signal.stop, -price);
    CostEven(ctx.config, true, price, qty);
    hide Slippage, CostOf;
  }

  lemma SlippageEven(price: real, bps: real)
    ensures Slippage(-price, bps) == Slippage(price, bps)
  {
  }

  lemma FillsMeans(state: OrderState, bar: Bar, ctx: OrderContext)
    requires Fills(state, bar, ctx)
    ensures Ready(state, bar, ctx) && Enters(bar, ctx.signal)
    ensures if ctx.signal.direction.Long? then bar.values.open > ctx.signal.stop
            else MirrorBar(bar).values.open > MirrorSignal(ctx.signal).stop
  {
    hide Ready, Enters;
  }

  lemma StepSides(state: OrderState, bar: Bar, ctx: OrderContext)
    requires !Skips(state, bar, ctx)
    ensures Step(state, bar, ctx)
         == if ctx.signal.direction.Long? then LongStep(state, bar, ctx.signal, ctx)
            else Mirrored(LongStep(MirrorState(state), MirrorBar(bar), MirrorSignal(ctx.signal), ctx))
    ensures MirrorState(state).status == state.status && MirrorState(state).zoneEverLost == state.zoneEverLost
    ensures MirrorState(state).stopActiveFrom == state.stopActiveFrom
  {
    hide LongStep, Skips;
  }

  lemma LongFill(state: OrderState, bar: Bar, signal: SignalSpec, ctx: OrderContext)
    requires state.status.Pending? && bar.values.open > signal.stop && Eligible(state, bar, signal, ctx) && EntryPrice(bar, signal).Some?
    ensures Opened(LongStep(state, bar, signal, ctx), state, bar, signal, ctx, EntryPrice(bar, signal).value.0)
  {
    hide *;
    var entry := EntryPrice(bar, signal).value;
    var f, p := Fill(state, bar, signal, ctx, entry.0, entry.1), EntryPhase(state, bar, signal, ctx);
    FillIs(state, bar, signal, ctx, entry.0, entry.1);
    EntryFills(state, bar, signal, ctx);
    ThenIs(f, s => ExitPhase(s, bar, signal, ctx, true));
    ExitOnEntry(f.state, bar, signal, ctx);
    PositionCarries(f.events[0], f.state, p.state, state, bar, signal, ctx, entry.0);
    PhaseIs(state, bar, signal, ctx);
    LongStepIs(state, bar, signal, ctx);
    EndKeepsPosition(state, bar, signal, ctx);
    PositionCarries(f.events[0], p.state, LongStep(state, bar, signal, ctx).state, state, bar, signal, ctx, entry.0);
    if f.state.stopActiveFrom.None? { EntryStop(f.state, bar, signal); }
    OpenedIs(LongStep(state, bar, signal, ctx), p, state, bar, signal, ctx, entry.0);
  }

  lemma ThenIs(r: StepResult, next: OrderState -> StepResult)
    ensures Then(r, next).state == next(r.state).state && Then(r, next).events == r.events + next(r.state).events
  {
  }

  lemma PhaseIs(state: OrderState, bar: Bar, signal: SignalSpec, ctx: OrderContext)
    requires state.status.Pending?
    ensures Phase(state, bar, signal, ctx) == EntryPhase(state, bar, signal, ctx)
  {
    hide EntryPhase;
  }

  lemma PositionCarries(e: Event, x: OrderState, y: OrderState, state: OrderState, bar: Bar, signal: SignalSpec, ctx: OrderContext, raw: real)
    requires OpenedBy(e, x, state, bar, signal, ctx, raw) && SamePosition(y, x)
    ensures OpenedBy(e, y, state, bar, signal, ctx, raw)
  {
    hide Slippage, CostOf;
  }

  lemma EntryStop(x: OrderState, bar: Bar, signal: SignalSpec)
    requires x.stopCurrent == Some(signal.stop) && x.stopActiveFrom.None?
    ensures ActiveStop(x, bar) == signal.stop
  {
  }

  lemma OpenedIs(r: StepResult, p: StepResult, state: OrderState, bar: Bar, signal: SignalSpec, ctx: OrderContext, raw: real)
    requires p.events != [] && p.events <= r.events && OpenedBy(p.events[0], r.state, state, bar, signal, ctx, raw)
    requires bar.values.low <= signal.stop && state.stopActiveFrom.None? ==> p.state.status.Closed? && p.state.closeReason == Some(ByStop)
    requires p.state.Final() ==> r.state.status == p.state.status && r.state.closeReason == p.state.closeReason
    ensures Opened(r, state, bar, signal, ctx, raw)
  {
    hide OpenedBy;
  }

  lemma FillIs(state: OrderState, bar: Bar, signal: SignalSpec, ctx: OrderContext, raw: real, rule: string)
    ensures var f := Fill(state, bar, signal, ctx, raw, rule);
            && |f.events| == 1 && OpenedBy(f.events[0], f.state, state, bar, signal, ctx, raw)
            && f.state.status.Open? && f.state.stopActiveFrom == state.stopActiveFrom && f.state.stopCurrent == Some(signal.stop)
  {
    var price := AdverseBuy(raw, ctx.config.entrySlippageBps);
    CostIs(ctx, price, if price == signal.stop then 0.0 else ctx.config.riskAmount / (price - signal.stop), EntryLeg);
    hide ExecutionCost, CostOf;
    if price != signal.stop { Undivide(ctx.config.riskAmount, price - signal.stop); }
  }

  lemma Undivide(a: real, b: real)
    requires b != 0.0
    ensures a / b * b == a
  {
  }

  /** On the entry bar only the stop can close the position, and nothing about how it was opened changes. */
  lemma ExitOnEntry(state: OrderState, bar: Bar, signal: SignalSpec, ctx: OrderContext)
    requires state.status.Open?
    ensures var x := ExitPhase(state, bar, signal, ctx, true).state;
            && SamePosition(x, state)
            && (bar.values.low <= ActiveStop(state, bar) ==> x.status.Closed? && x.closeReason == Some(ByStop))
            && (bar.values.low > ActiveStop(state, bar) ==> x.status.Open?)
  {
    hide ExecutionCost, AdverseSell, ActiveStop;
  }

  ghost predicate SamePosition(x: OrderState, p: OrderState) {
    && x.avgEntry == p.avgEntry && x.qtyTotal == p.qtyTotal && x.openedAt == p.openedAt && x.initialStop == p.initialStop
    && x.stopCurrent == p.stopCurrent && x.entryPath == p.entryPath && x.zoneLost == p.zoneLost
    && x.entryEligibleFrom == p.entryEligibleFrom && x.triggerHitAt == p.triggerHitAt
  }

  lemma ValidityEndKeeps(p: OrderState, bar: Bar, ctx: OrderContext)
    ensures SamePosition(ValidityEnd(p, bar, ctx).state, p)
  {
    hide ExecutionCost, AdverseSell;
  }

  lemma EndKeepsPosition(state: OrderState, bar: Bar, signal: SignalSpec, ctx: OrderContext)
    ensures var x, p := LongStep(state, bar, signal, ctx).state, Phase(state, bar, signal, ctx).state;
            SamePosition(x, p) && (p.Final() ==> x.status == p.status && x.closeReason == p.closeReason)
  {
    var p := Phase(state, bar, signal, ctx).state;
    ValidityEndKeeps(p.(lastBarTs := Some(bar.ts)), bar, ctx);
    hide EntryPhase, ExitPhase, LastMinute, ValidityEnd;
  }

  // ---- exits --------------------------------------------------------------------------------------------------------

  ghost predicate Live(state: OrderState) { state.status.Open? || state.status.PartiallyClosed? }

  /** The stop in force at a minute: until a moved stop becomes active, the one before it. */
  ghost predicate StopAt(state: OrderState, ts: int, level: real) {
    (if state.stopActiveFrom.Some? && ts < state.stopActiveFrom.value then state.stopPrevious else state.stopCurrent) == Some(level)
  }

  /** The whole open quantity is sold at a price, and the profit and the order's end are booked, in LONG terms. */
  ghost predicate ClosedAt(x: OrderState, e: Event, state: OrderState, bar: Bar, price: real, ctx: OrderContext) {
    && x.status.Closed? && x.qtyOpen == 0.0 && x.closedAt == Some(bar.ts) && x.finalEventTs == Some(bar.ts)
    && e.price == Some(price) && e.qty == Some(state.qtyOpen) && e.barTs == Some(bar.ts) && e.batch == Some(bar.batch)
    && (state.avgEntry.Some? ==> x.realizedPnl == state.realizedPnl + (price - state.avgEntry.value) * state.qtyOpen)
    && x.costs == state.costs + CostOf(ctx.config, ctx.signal.direction.Long?, price, state.qtyOpen)
  }

  lemma CloseIs(state: OrderState, bar: Bar, ctx: OrderContext, kind: EventType, key: string, price: real, reason: CloseReason,
                note: string, level: Option<real>, raw: Option<real>)
    ensures var r := Close(state, bar, ctx, kind, key, price, reason, note, level, raw);
            && |r.events| == 1 && r.events[0].kind == kind && r.state.closeReason == Some(reason)
            && ClosedAt(r.state, r.events[0], state, bar, price, ctx)
  {
    CostIs(ctx, price, state.qtyOpen, ExitLeg);
    hide ExecutionCost, CostOf;
  }

  /** A bar that trades through the stop closes everything there and does nothing else, in LONG terms. */
  lemma LongStopped(state: OrderState, bar: Bar, signal: SignalSpec, ctx: OrderContext, level: real)
    requires Live(state) && StopAt(state, bar.ts, level) && bar.values.low <= level
    ensures var r, raw := ExitPhase(state, bar, signal, ctx, false), if bar.values.open < level then bar.values.open else level;
            && |r.events| == 1 && r.events[0].kind.Stopped? && r.state.closeReason == Some(ByStop)
            && ClosedAt(r.state, r.events[0], state, bar, raw - Slippage(raw, ctx.config.stopSlippageBps), ctx)
  {
    var r := ExitPhase(state, bar, signal, ctx, false);
    var raw := MinReal(bar.values.open, level);
    assert ActiveStop(state, bar) == level;
    var marked := state.(worstPrice := LowerOf(state.worstPrice, bar.values.low));
    CloseIs(marked, bar, ctx, Stopped, "STOPPED", AdverseSell(raw, ctx.config.stopSlippageBps), ByStop,
            if marked.t1Done then "BREAKEVEN" else "INITIAL", Some(level), Some(raw));
    SellIs(raw, ctx.config.stopSlippageBps);
    hide Close, SecondTarget, ScaleOut, AdverseSell, Slippage;
    assert r == Close(marked, bar, ctx, Stopped, "STOPPED", AdverseSell(raw, ctx.config.stopSlippageBps), ByStop,
                      if marked.t1Done then "BREAKEVEN" else "INITIAL", Some(level), Some(raw));
  }

  lemma SellIs(price: real, bps: real)
    ensures AdverseSell(price, bps) == price - Slippage(price, bps)
  {
  }

  /** Seen from the order's own side, `x` is `state` closed at a price. */
  ghost predicate ClosedSided(x: OrderState, e: Event, state: OrderState, bar: Bar, d: Direction, price: real, ctx: OrderContext) {
    && x.status.Closed? && x.qtyOpen == 0.0 && x.closedAt == Some(bar.ts) && x.finalEventTs == Some(bar.ts)
    && e.price == Some(price) && e.qty == Some(state.qtyOpen) && e.barTs == Some(bar.ts) && e.batch == Some(bar.batch)
    && (state.avgEntry.Some? ==> x.realizedPnl == state.realizedPnl + Gain(d, state.avgEntry.value, price) * state.qtyOpen)
    && x.costs == state.costs + CostOf(ctx.config, ctx.signal.direction.Long?, price, state.qtyOpen)
  }

  lemma ClosedSeen(x: OrderState, e: Event, state: OrderState, bar: Bar, price: real, ctx: OrderContext)
    requires ClosedAt(x, e, state, bar, price, ctx)
    ensures ClosedSided(x, e, state, bar, Long, price, ctx)
  {
    hide CostOf;
  }

  lemma ClosedSeenShort(x: OrderState, e: Event, state: OrderState, bar: Bar, price: real, ctx: OrderContext)
    requires ClosedAt(x, e, MirrorState(state), MirrorBar(bar), price, ctx)
    ensures ClosedSided(MirrorState(x), MirrorEvent(e), state, bar, Short, -price, ctx)
  {
    CostEven(ctx.config, ctx.signal.direction.Long?, price, state.qtyOpen);
    hide MirrorPayload, CostOf;
    if state.avgEntry.Some? { assert price - -state.avgEntry.value == Gain(Short, state.avgEntry.value, -price); }
  }

  lemma SidedLong(state: OrderState, bar: Bar, ctx: OrderContext)
    requires Live(state) && ctx.signal.direction.Long?
    ensures Sided(state, bar, ctx) == ExitPhase(state, bar, ctx.signal, ctx, false)
  {
    hide ExitPhase;
  }

  lemma SidedShort(state: OrderState, bar: Bar, ctx: OrderContext)
    requires Live(state) && ctx.signal.direction.Short?
    ensures Live(MirrorState(state))
    ensures Sided(state, bar, ctx) == Mirrored(ExitPhase(MirrorState(state), MirrorBar(bar), MirrorSignal(ctx.signal), ctx, false))
    ensures forall level :: StopAt(state, bar.ts, level) ==> StopAt(MirrorState(state), MirrorBar(bar).ts, -level)
  {
    hide ExitPhase;
  }

  lemma MirroredEvents(r: StepResult)
    ensures Mirrored(r).state == MirrorState(r.state) && |Mirrored(r).events| == |r.events|
    ensures forall i :: 0 <= i < |r.events| ==> Mirrored(r).events[i] == MirrorEvent(r.events[i])
    ensures forall i :: 0 <= i < |r.events| ==> Mirrored(r).events[i].kind == r.events[i].kind
  {
    hide MirrorPayload, MirrorState;
  }

  /** The price a position closes at: the raw price made worse by the slippage. */
  function ClosingPrice(d: Direction, raw: real, bps: real): real {
    if d.Long? then raw - Slippage(raw, bps) else raw + Slippage(raw, bps)
  }

  /** Everything open is closed at the stop, or at a worse open, less slippage, and that is all that happens on the bar. */
  ghost predicate StoppedOut(r: StepResult, state: OrderState, bar: Bar, ctx: OrderContext, level: real) {
    var d := ctx.signal.direction;
    var raw := if Gain(d, level, bar.values.open) < 0.0 then bar.values.open else level;
    && |r.events| == 1 && r.events[0].kind.Stopped? && r.state.closeReason == Some(ByStop)
    && ClosedSided(r.state, r.events[0], state, bar, d, ClosingPrice(d, raw, ctx.config.stopSlippageBps), ctx)
  }

  lemma SidedStopped(state: OrderState, bar: Bar, ctx: OrderContext, level: real)
    requires Live(state) && StopAt(state, bar.ts, level)
    requires Gain(ctx.signal.direction, level, Worst(ctx.signal.direction, bar.values)) <= 0.0
    ensures StoppedOut(Sided(state, bar, ctx), state, bar, ctx, level)
  {
    hide ExitPhase, Sided, Slippage, StopAt, ClosedAt, ClosedSided, MirrorState, MirrorEvent, Mirrored;
    var bps := ctx.config.stopSlippageBps;
    if ctx.signal.direction.Long? {
      SidedLong(state, bar, ctx);
      LongStopped(state, bar, ctx.signal, ctx, level);
      var r := ExitPhase(state, bar, ctx.signal, ctx, false);
      var raw := if bar.values.open < level then bar.values.open else level;
      ClosedSeen(r.state, r.events[0], state, bar, raw - Slippage(raw, bps), ctx);
    } else {
      SidedShort(state, bar, ctx);
      var s, b := MirrorState(state), MirrorBar(bar);
      LongStopped(s, b, MirrorSignal(ctx.signal), ctx, -level);
      var r := ExitPhase(s, b, MirrorSignal(ctx.signal), ctx, false);
      var raw := if bar.values.open > level then bar.values.open else level;
      SlippageEven(raw, bps);
      MirroredEvents(r);
      MirrorKeeps(r.state);
      ClosedSeenShort(r.state, r.events[0], state, bar, -raw - Slippage(raw, bps), ctx);
    }
  }

  /**
   * The stop comes first. A live order whose bar trades at or through the stop in force is closed there, whatever else the bar
   * reached: everything open, at the stop or at a worse open, made worse by the slippage, as the bar's only event.
   */
  lemma StopComesFirst(state: OrderState, bar: Bar, ctx: OrderContext, level: real)
    requires Live(state) && !Skips(state, bar, ctx) && StopAt(state, bar.ts, level)
    requires Gain(ctx.signal.direction, level, Worst(ctx.signal.direction, bar.values)) <= 0.0
    ensures StoppedOut(Step(state, bar, ctx), state, bar, ctx, level)
  {
    SidedStopped(state, bar, ctx, level);
    StepIs(state, bar, ctx);
    hide Step, Sided, Skips, StopAt, Gain, ClosingPrice;
  }

  lemma GainIs(d: Direction)
    ensures forall a, b :: Gain(d, a, b) == if d.Long? then b - a else a - b
    ensures forall v :: Worst(d, v) == (if d.Long? then v.low else v.high) && Best(d, v) == if d.Long? then v.high else v.low
    ensures d.Long? || d.Short?
  {
  }

  lemma MirrorBarIs(bar: Bar)
    ensures MirrorBar(bar).values.open == -bar.values.open && MirrorBar(bar).values.low == -bar.values.high
    ensures MirrorBar(bar).values.high == -bar.values.low && MirrorBar(bar).values.close == -bar.values.close
    ensures MirrorBar(bar).ts == bar.ts && MirrorBar(bar).batch == bar.batch
  {
  }

  lemma MirrorKeeps(x: OrderState)
    ensures var m := MirrorState(x);
            && m.status == x.status && m.closeReason == x.closeReason && m.qtyOpen == x.qtyOpen && m.t1Done == x.t1Done
            && m.stopActiveFrom == x.stopActiveFrom && m.zoneLost == x.zoneLost && m.zoneEverLost == x.zoneEverLost
            && m.entryEligibleFrom == x.entryEligibleFrom && m.triggerHitAt == x.triggerHitAt && m.realizedPnl == x.realizedPnl
            && m.finalEventTs == x.finalEventTs && m.stopCurrent == Neg(x.stopCurrent) && m.stopPrevious == Neg(x.stopPrevious)
            && m.avgEntry == Neg(x.avgEntry) && m.qtyTotal == x.qtyTotal && m.lastBarTs == x.lastBarTs
            && m.bestPrice == Neg(x.bestPrice) && m.worstPrice == Neg(x.worstPrice) && m.Final() == x.Final()
  {
  }

  // ---- targets ------------------------------------------------------------------------------------------------------

  /** A mark moved to the extreme of the bar when that is further out, and stayed where it was otherwise. */
  ghost predicate Marked(mark: Option<real>, before: Option<real>, extreme: real, d: Direction) {
    && mark.Some? && Gain(d, extreme, mark.value) >= 0.0 && (mark.value == extreme || mark == before)
    && (before.Some? ==> Gain(d, before.value, mark.value) >= 0.0)
  }

  function Opposite(d: Direction): Direction { if d.Long? then Short else Long }

  function Part(state: OrderState, config: FillConfig): real { state.qtyTotal * config.scaleOutPct / 100.0 }

  ghost predicate AtFirstTarget(e: Event, state: OrderState, s: SignalSpec, ctx: OrderContext) {
    e.kind.Target1Hit? && e.price == Some(s.target1) && e.qty == Some(Part(state, ctx.config))
  }

  /** A part was taken off at the first target; breakeven is the stop from the next expected minute, the old one until then. */
  ghost predicate ScaledOut(x: OrderState, state: OrderState, bar: Bar, s: SignalSpec, ctx: OrderContext, d: Direction) {
    && x.status.PartiallyClosed? && x.t1Done && x.qtyOpen == state.qtyOpen - Part(state, ctx.config)
    && x.stopCurrent == state.avgEntry && x.stopPrevious == state.stopCurrent && x.stopActiveFrom == Some(NextMinute(ctx, bar.ts))
    && (state.avgEntry.Some? ==>
          x.realizedPnl == state.realizedPnl + Gain(d, state.avgEntry.value, s.target1) * Part(state, ctx.config))
    && x.costs == state.costs + CostOf(ctx.config, ctx.signal.direction.Long?, s.target1, Part(state, ctx.config))
  }

  /** The position is closed at its only target. */
  ghost predicate ClosedAtFirst(r: StepResult, state: OrderState, bar: Bar, s: SignalSpec, ctx: OrderContext, d: Direction) {
    |r.events| == 1 && r.events[0].kind.Target1Hit? && r.state.closeReason == Some(ByTarget)
    && ClosedSided(r.state, r.events[0], state, bar, d, s.target1, ctx)
  }

  /** One bar reached both targets: a part at the first, the rest at the second. */
  ghost predicate TookBoth(r: StepResult, state: OrderState, s: SignalSpec, ctx: OrderContext) {
    |r.events| == 2 && AtFirstTarget(r.events[0], state, s, ctx) && r.events[1].kind.Target2Hit?
    && r.state.closeReason == Some(ByTarget) && r.state.status.Closed? && r.state.qtyOpen == 0.0
    && r.events[1].price == s.target2 && r.events[1].qty == Some(state.qtyOpen - Part(state, ctx.config))
  }

  ghost predicate TookPart(r: StepResult, state: OrderState, bar: Bar, s: SignalSpec, ctx: OrderContext, d: Direction) {
    |r.events| == 1 && AtFirstTarget(r.events[0], state, s, ctx) && ScaledOut(r.state, state, bar, s, ctx, d)
  }

  ghost predicate ClosedAtSecond(r: StepResult, state: OrderState, bar: Bar, s: SignalSpec, ctx: OrderContext, d: Direction)
    requires s.target2.Some?
  {
    |r.events| == 1 && r.events[0].kind.Target2Hit? && r.state.closeReason == Some(ByTarget)
    && ClosedSided(r.state, r.events[0], state, bar, d, s.target2.value, ctx)
  }

  ghost predicate OnlyMarked(r: StepResult, state: OrderState) {
    r.events == [] && r.state == state.(bestPrice := r.state.bestPrice, worstPrice := r.state.worstPrice)
  }

  /** What follows from which of the two targets the bar reached. */
  ghost predicate Takes(r: StepResult, state: OrderState, bar: Bar, s: SignalSpec, ctx: OrderContext, d: Direction, first: bool, second: bool) {
    if first && s.target2.None? then ClosedAtFirst(r, state, bar, s, ctx, d)
    else if first && second then TookBoth(r, state, s, ctx)
    else if first then TookPart(r, state, bar, s, ctx, d)
    else if state.t1Done && second && s.target2.Some? then ClosedAtSecond(r, state, bar, s, ctx, d)
    else OnlyMarked(r, state)
  }

  ghost predicate ReachesFirst(state: OrderState, bar: Bar, s: SignalSpec, d: Direction) {
    !state.t1Done && Gain(d, s.target1, Best(d, bar.values)) >= 0.0
  }

  ghost predicate ReachesSecond(bar: Bar, s: SignalSpec, d: Direction) {
    s.target2.Some? && Gain(d, s.target2.value, Best(d, bar.values)) >= 0.0
  }

  /** What a bar that leaves the stop alone does to a live order, from its side of the market. */
  ghost predicate TargetsTaken(r: StepResult, state: OrderState, bar: Bar, s: SignalSpec, ctx: OrderContext, d: Direction) {
    && Marked(r.state.worstPrice, state.worstPrice, Worst(d, bar.values), Opposite(d))
    && Marked(r.state.bestPrice, state.bestPrice, Best(d, bar.values), d)
    && Takes(r, state, bar, s, ctx, d, ReachesFirst(state, bar, s, d), ReachesSecond(bar, s, d))
  }

  lemma MarkedHigh(before: Option<real>, extreme: real)
    ensures Marked(HigherOf(before, extreme), before, extreme, Long) && Marked(LowerOf(before, extreme), before, extreme, Short)
  {
  }

  lemma ClosedMarked(state: OrderState, marked: OrderState, x: OrderState, e: Event, bar: Bar, price: real, ctx: OrderContext)
    requires marked == state.(bestPrice := marked.bestPrice, worstPrice := marked.worstPrice) && ClosedAt(x, e, marked, bar, price, ctx)
    ensures ClosedSided(x, e, state, bar, Long, price, ctx)
  {
    hide CostOf;
  }

  lemma CloseKeepsMarks(state: OrderState, bar: Bar, ctx: OrderContext, kind: EventType, key: string, price: real, reason: CloseReason,
                        note: string, level: Option<real>, raw: Option<real>)
    ensures var x := Close(state, bar, ctx, kind, key, price, reason, note, level, raw).state;
            x.bestPrice == state.bestPrice && x.worstPrice == state.worstPrice
  {
    hide ExecutionCost;
  }

  lemma ScaleOutIs(state: OrderState, bar: Bar, signal: SignalSpec, ctx: OrderContext)
    ensures var r := ScaleOut(state, bar, signal, ctx);
            && |r.events| == 1 && AtFirstTarget(r.events[0], state, signal, ctx) && ScaledOut(r.state, state, bar, signal, ctx, Long)
            && r.state.bestPrice == state.bestPrice && r.state.worstPrice == state.worstPrice
  {
    CostIs(ctx, signal.target1, Part(state, ctx.config), ExitLeg);
    hide ExecutionCost, NextMinute, CostOf;
  }

  lemma LongTargets(state: OrderState, bar: Bar, signal: SignalSpec, ctx: OrderContext, level: real)
    requires Live(state) && StopAt(state, bar.ts, level) && bar.values.low > level
    ensures TargetsTaken(ExitPhase(state, bar, signal, ctx, false), state, bar, signal, ctx, Long)
  {
    var r := ExitPhase(state, bar, signal, ctx, false);
    assert ActiveStop(state, bar) == level;
    var marked := state.(bestPrice := HigherOf(state.bestPrice, bar.values.high), worstPrice := LowerOf(state.worstPrice, bar.values.low));
    MarkedHigh(state.bestPrice, bar.values.high);
    MarkedHigh(state.worstPrice, bar.values.low);
    hide Close, ScaleOut, HigherOf, LowerOf, ActiveStop, AdverseSell, Marked, ClosedSided, ClosedAt, ScaledOut, AtFirstTarget, StopAt;
    if !state.t1Done && bar.values.high >= signal.target1 {
      if signal.target2.None? {
        CloseIs(marked, bar, ctx, Target1Hit, "TARGET1_HIT", signal.target1, ByTarget, "FINAL", None, None);
        CloseKeepsMarks(marked, bar, ctx, Target1Hit, "TARGET1_HIT", signal.target1, ByTarget, "FINAL", None, None);
        ClosedMarked(state, marked, r.state, r.events[0], bar, signal.target1, ctx);
      } else {
        ScaledBar(state, marked, bar, signal, ctx);
      }
    } else if state.t1Done && signal.target2.Some? && bar.values.high >= signal.target2.value {
      CloseIs(marked, bar, ctx, Target2Hit, "TARGET2_HIT", signal.target2.value, ByTarget, "FINAL", None, None);
      CloseKeepsMarks(marked, bar, ctx, Target2Hit, "TARGET2_HIT", signal.target2.value, ByTarget, "FINAL", None, None);
      ClosedMarked(state, marked, r.state, r.events[0], bar, signal.target2.value, ctx);
    }
  }

  lemma MarksDoNotMatter(state: OrderState, marked: OrderState, bar: Bar, signal: SignalSpec, ctx: OrderContext)
    requires marked == state.(bestPrice := marked.bestPrice, worstPrice := marked.worstPrice)
    ensures Part(marked, ctx.config) == Part(state, ctx.config)
    ensures forall e :: AtFirstTarget(e, marked, signal, ctx) <==> AtFirstTarget(e, state, signal, ctx)
    ensures forall x :: ScaledOut(x, marked, bar, signal, ctx, Long) <==> ScaledOut(x, state, bar, signal, ctx, Long)
  {
    assert Part(marked, ctx.config) == Part(state, ctx.config);
    hide Part, NextMinute, CostOf;
  }

  lemma ScaledBar(state: OrderState, marked: OrderState, bar: Bar, signal: SignalSpec, ctx: OrderContext)
    requires marked == state.(bestPrice := marked.bestPrice, worstPrice := marked.worstPrice) && signal.target2.Some?
    ensures var r := Then(ScaleOut(marked, bar, signal, ctx), s => SecondTarget(s, bar, signal, ctx));
            && r.state.bestPrice == marked.bestPrice && r.state.worstPrice == marked.worstPrice
            && r.events != [] && AtFirstTarget(r.events[0], state, signal, ctx)
            && (bar.values.high >= signal.target2.value ==>
                  |r.events| == 2 && r.events[1].kind.Target2Hit? && r.state.closeReason == Some(ByTarget) && r.state.status.Closed?
                  && r.state.qtyOpen == 0.0 && r.events[1].price == signal.target2
                  && r.events[1].qty == Some(state.qtyOpen - Part(state, ctx.config)))
            && (bar.values.high < signal.target2.value ==> |r.events| == 1 && ScaledOut(r.state, state, bar, signal, ctx, Long))
  {
    ScaleOutIs(marked, bar, signal, ctx);
    MarksDoNotMatter(state, marked, bar, signal, ctx);
    var f := ScaleOut(marked, bar, signal, ctx);
    CloseIs(f.state, bar, ctx, Target2Hit, "TARGET2_HIT", signal.target2.value, ByTarget, "FINAL", None, None);
    CloseKeepsMarks(f.state, bar, ctx, Target2Hit, "TARGET2_HIT", signal.target2.value, ByTarget, "FINAL", None, None);
    hide Close, ScaleOut, NextMinute, Part, AtFirstTarget;
  }

  lemma MarkedShort(mark: Option<real>, before: Option<real>, extreme: real, d: Direction)
    requires Marked(mark, Neg(before), -extreme, d)
    ensures Marked(Neg(mark), before, extreme, Opposite(d))
  {
  }

  lemma ScaledShort(x: OrderState, state: OrderState, bar: Bar, s: SignalSpec, ctx: OrderContext)
    requires ScaledOut(x, MirrorState(state), MirrorBar(bar), MirrorSignal(s), ctx, Long)
    ensures ScaledOut(MirrorState(x), state, bar, s, ctx, Short)
  {
    PartSame(state, ctx.config);
    CostEven(ctx.config, ctx.signal.direction.Long?, s.target1, Part(state, ctx.config));
    hide Part, NextMinute, CostOf;
    if state.avgEntry.Some? { assert Gain(Long, -state.avgEntry.value, -s.target1) == Gain(Short, state.avgEntry.value, s.target1); }
  }

  lemma FirstShort(e: Event, state: OrderState, s: SignalSpec, ctx: OrderContext)
    requires AtFirstTarget(e, MirrorState(state), MirrorSignal(s), ctx)
    ensures AtFirstTarget(MirrorEvent(e), state, s, ctx)
  {
    PartSame(state, ctx.config);
    hide MirrorPayload, Part;
  }

  lemma FirstClosedShort(r: StepResult, state: OrderState, bar: Bar, s: SignalSpec, ctx: OrderContext)
    requires ClosedAtFirst(r, MirrorState(state), MirrorBar(bar), MirrorSignal(s), ctx, Long)
    ensures ClosedAtFirst(Mirrored(r), state, bar, s, ctx, Short)
  {
    MirroredEvents(r);
    MirrorKeeps(r.state);
    ShortClosed(r, state, bar, s.target1, ctx);
    hide ClosedSided, Mirrored, MirrorState, MirrorEvent, MirrorBar;
  }

  lemma SecondClosedShort(r: StepResult, state: OrderState, bar: Bar, s: SignalSpec, ctx: OrderContext)
    requires s.target2.Some? && ClosedAtSecond(r, MirrorState(state), MirrorBar(bar), MirrorSignal(s), ctx, Long)
    ensures ClosedAtSecond(Mirrored(r), state, bar, s, ctx, Short)
  {
    MirroredEvents(r);
    MirrorKeeps(r.state);
    ShortClosed(r, state, bar, s.target2.value, ctx);
    hide ClosedSided, Mirrored, MirrorState, MirrorEvent, MirrorBar;
  }

  lemma BothShort(r: StepResult, state: OrderState, s: SignalSpec, ctx: OrderContext)
    requires TookBoth(r, MirrorState(state), MirrorSignal(s), ctx)
    ensures TookBoth(Mirrored(r), state, s, ctx)
  {
    MirroredEvents(r);
    MirrorKeeps(r.state);
    FirstShort(r.events[0], state, s, ctx);
    PartSame(state, ctx.config);
    MirrorKeeps(state);
    SecondShort(r, s);
    hide AtFirstTarget, Mirrored, MirrorState, MirrorEvent, Part, MirrorSignal;
  }

  lemma PartShort(r: StepResult, state: OrderState, bar: Bar, s: SignalSpec, ctx: OrderContext)
    requires TookPart(r, MirrorState(state), MirrorBar(bar), MirrorSignal(s), ctx, Long)
    ensures TookPart(Mirrored(r), state, bar, s, ctx, Short)
  {
    MirroredEvents(r);
    FirstShort(r.events[0], state, s, ctx);
    ScaledShort(r.state, state, bar, s, ctx);
    hide AtFirstTarget, ScaledOut, Mirrored, MirrorState, MirrorEvent;
  }

  lemma TakesShort(r: StepResult, state: OrderState, bar: Bar, s: SignalSpec, ctx: OrderContext, first: bool, second: bool)
    requires Takes(r, MirrorState(state), MirrorBar(bar), MirrorSignal(s), ctx, Long, first, second)
    ensures Takes(Mirrored(r), state, bar, s, ctx, Short, first, second)
  {
    MirrorKeeps(state);
    SecondShort(r, s);
    if first && s.target2.None? { FirstClosedShort(r, state, bar, s, ctx); }
    else if first && second { BothShort(r, state, s, ctx); }
    else if first { PartShort(r, state, bar, s, ctx); }
    else if state.t1Done && second && s.target2.Some? { SecondClosedShort(r, state, bar, s, ctx); }
    else { MirroredEvents(r); UnchangedShort(r.state, state); }
    hide ClosedAtFirst, TookBoth, TookPart, ClosedAtSecond, Mirrored, MirrorState, MirrorEvent, MirrorBar, MirrorSignal;
  }

  lemma TargetsSeenShort(r: StepResult, state: OrderState, bar: Bar, s: SignalSpec, ctx: OrderContext)
    requires TargetsTaken(r, MirrorState(state), MirrorBar(bar), MirrorSignal(s), ctx, Long)
    ensures TargetsTaken(Mirrored(r), state, bar, s, ctx, Short)
  {
    MirroredEvents(r);
    MirrorKeeps(r.state);
    MirrorKeeps(state);
    MarkedShort(r.state.worstPrice, state.worstPrice, Worst(Short, bar.values), Short);
    MarkedShort(r.state.bestPrice, state.bestPrice, Best(Short, bar.values), Long);
    ReachedAlike(state, bar, s);
    TakesShort(r, state, bar, s, ctx, ReachesFirst(state, bar, s, Short), ReachesSecond(bar, s, Short));
    hide Takes, Mirrored, Marked, MirrorState, MirrorEvent, Gain, Best, Worst, Opposite, MirrorBar, MirrorSignal, ReachesFirst, ReachesSecond;
  }

  /** The mirrored bar reaches the mirrored targets exactly when the bar reaches the targets. */
  lemma ReachedAlike(state: OrderState, bar: Bar, s: SignalSpec)
    ensures ReachesFirst(MirrorState(state), MirrorBar(bar), MirrorSignal(s), Long) == ReachesFirst(state, bar, s, Short)
    ensures ReachesSecond(MirrorBar(bar), MirrorSignal(s), Long) == ReachesSecond(bar, s, Short)
    ensures Best(Long, MirrorBar(bar).values) == -Best(Short, bar.values) && Worst(Long, MirrorBar(bar).values) == -Worst(Short, bar.values)
    ensures Opposite(Long) == Short && Opposite(Short) == Long
  {
  }

  lemma SecondShort(r: StepResult, s: SignalSpec)
    ensures forall i :: 0 <= i < |r.events| ==>
              MirrorEvent(r.events[i]).qty == r.events[i].qty && MirrorEvent(r.events[i]).price == Neg(r.events[i].price)
    ensures MirrorSignal(s).target2 == Neg(s.target2) && Neg(Neg(s.target2)) == s.target2
    ensures MirrorSignal(s).target1 == -s.target1
  {
    hide MirrorPayload;
  }

  lemma UnchangedShort(x: OrderState, state: OrderState)
    ensures x == MirrorState(state).(bestPrice := x.bestPrice, worstPrice := x.worstPrice) ==>
              MirrorState(x) == state.(bestPrice := MirrorState(x).bestPrice, worstPrice := MirrorState(x).worstPrice)
  {
  }

  lemma PartSame(state: OrderState, config: FillConfig)
    ensures Part(MirrorState(state), config) == Part(state, config)
  {
  }

  lemma ShortClosed(r: StepResult, state: OrderState, bar: Bar, price: real, ctx: OrderContext)
    ensures r.events != [] && ClosedSided(r.state, r.events[0], MirrorState(state), MirrorBar(bar), Long, -price, ctx) ==>
              ClosedSided(MirrorState(r.state), MirrorEvent(r.events[0]), state, bar, Short, price, ctx)
  {
    if r.events != [] && ClosedSided(r.state, r.events[0], MirrorState(state), MirrorBar(bar), Long, -price, ctx) {
      hide CostOf;
      assert ClosedAt(r.state, r.events[0], MirrorState(state), MirrorBar(bar), -price, ctx);
      ClosedSeenShort(r.state, r.events[0], state, bar, -price, ctx);
    }
  }

  lemma SidedTargets(state: OrderState, bar: Bar, ctx: OrderContext, level: real)
    requires Live(state) && StopAt(state, bar.ts, level)
    requires Gain(ctx.signal.direction, level, Worst(ctx.signal.direction, bar.values)) > 0.0
    ensures TargetsTaken(Sided(state, bar, ctx), state, bar, ctx.signal, ctx, ctx.signal.direction)
  {
    hide ExitPhase, Sided, StopAt, TargetsTaken, MirrorState, Mirrored;
    if ctx.signal.direction.Long? {
      SidedLong(state, bar, ctx);
      LongTargets(state, bar, ctx.signal, ctx, level);
    } else {
      SidedShort(state, bar, ctx);
      LongTargets(MirrorState(state), MirrorBar(bar), MirrorSignal(ctx.signal), ctx, -level);
      TargetsSeenShort(ExitPhase(MirrorState(state), MirrorBar(bar), MirrorSignal(ctx.signal), ctx, false), state, bar, ctx.signal, ctx);
    }
  }

  /**
   * What a live order does on a bar that leaves its stop alone: targets that are reached are taken at their own price, the
   * first one in part when there is a second, and where none is reached nothing happens but the marks. Before the last
   * expected minute that is all.
   */
  lemma TargetsAreTaken(state: OrderState, bar: Bar, ctx: OrderContext, level: real)
    requires Live(state) && !Skips(state, bar, ctx) && StopAt(state, bar.ts, level) && !LastMinute(ctx, bar.ts)
    requires Gain(ctx.signal.direction, level, Worst(ctx.signal.direction, bar.values)) > 0.0
    ensures var r := Step(state, bar, ctx);
            && r.state.lastBarTs == Some(bar.ts)
            && TargetsTaken(StepResult(r.state.(lastBarTs := state.lastBarTs), r.events), state, bar, ctx.signal, ctx, ctx.signal.direction)
  {
    SidedTargets(state, bar, ctx, level);
    StepIs(state, bar, ctx);
    PhaseKeepsSeen(state, bar, ctx);
    hide Step, Skips, StopAt, Gain, TargetsTaken, Sided, LastMinute;
    var r, p := Step(state, bar, ctx), Sided(state, bar, ctx);
    assert r.state.(lastBarTs := state.lastBarTs) == p.state;
  }

  /** The phase itself does not mark the bar as seen. */
  lemma PhaseKeepsSeen(state: OrderState, bar: Bar, ctx: OrderContext)
    requires Live(state)
    ensures Sided(state, bar, ctx).state.lastBarTs == state.lastBarTs
  {
    hide Sided, ExitPhase, MirrorPayload;
    if ctx.signal.direction.Long? {
      SidedLong(state, bar, ctx);
      ExitKeepsSeen(state, bar, ctx.signal, ctx);
    } else {
      SidedShort(state, bar, ctx);
      ExitKeepsSeen(MirrorState(state), MirrorBar(bar), MirrorSignal(ctx.signal), ctx);
    }
  }

  lemma CloseKeepsSeen(state: OrderState, bar: Bar, ctx: OrderContext)
    ensures forall kind, key, price, reason, note, level, raw ::
              Close(state, bar, ctx, kind, key, price, reason, note, level, raw).state.lastBarTs == state.lastBarTs
  {
    hide ExecutionCost;
  }

  lemma SecondKeepsSeen(state: OrderState, bar: Bar, signal: SignalSpec, ctx: OrderContext)
    ensures SecondTarget(state, bar, signal, ctx).state.lastBarTs == state.lastBarTs
  {
    CloseKeepsSeen(state, bar, ctx);
    hide Close;
  }

  lemma ExitKeepsSeen(state: OrderState, bar: Bar, signal: SignalSpec, ctx: OrderContext)
    ensures ExitPhase(state, bar, signal, ctx, false).state.lastBarTs == state.lastBarTs
  {
    var marked := state.(bestPrice := if bar.values.low <= ActiveStop(state, bar) then state.bestPrice else HigherOf(state.bestPrice, bar.values.high),
                         worstPrice := LowerOf(state.worstPrice, bar.values.low));
    CloseKeepsSeen(marked, bar, ctx);
    SecondKeepsSeen(marked, bar, signal, ctx);
    ScaleKeepsSeen(marked, bar, signal, ctx);
    SecondKeepsSeen(ScaleOut(marked, bar, signal, ctx).state, bar, signal, ctx);
    hide Close, SecondTarget, ScaleOut, HigherOf, LowerOf, ActiveStop, AdverseSell, MinReal;
  }

  lemma ScaleKeepsSeen(state: OrderState, bar: Bar, signal: SignalSpec, ctx: OrderContext)
    ensures ScaleOut(state, bar, signal, ctx).state.lastBarTs == state.lastBarTs
  {
    hide ExecutionCost, NextMinute;
  }

  // ---- waiting ------------------------------------------------------------------------------------------------------

  /** The bar opens or closes on the wrong side of the zone. */
  ghost predicate Leaves(bar: Bar, s: SignalSpec) {
    Gain(s.direction, Far(s), bar.values.open) < 0.0 || Gain(s.direction, Far(s), bar.values.close) < 0.0
  }

  /** A pending order that does not fill is given up: the stop was crossed without a position, or the zone was lost for good. */
  ghost predicate GivenUp(state: OrderState, bar: Bar, ctx: OrderContext) {
    || Gain(ctx.signal.direction, ctx.signal.stop, bar.values.open) <= 0.0
    || Gain(ctx.signal.direction, ctx.signal.stop, Worst(ctx.signal.direction, bar.values)) <= 0.0
    || (ctx.config.cancelOnZoneLost && !state.zoneLost && Leaves(bar, ctx.signal))
  }

  /** What one more bar of waiting leaves: the zone is lost exactly when the bar closed outside it. */
  ghost predicate Waited(x: OrderState, state: OrderState, bar: Bar, s: SignalSpec, ctx: OrderContext) {
    var back := Gain(s.direction, Far(s), bar.values.close) >= 0.0;
    && x.status.Pending? && (x.zoneLost <==> !back)
    && (x.zoneEverLost <==> state.zoneEverLost || (!state.zoneLost && Leaves(bar, s)))
    && x.entryEligibleFrom == (if back && (state.zoneLost || Leaves(bar, s)) then Some(NextMinute(ctx, bar.ts)) else state.entryEligibleFrom)
    && x.triggerHitAt == (if state.triggerHitAt.None? && s.trigger.Some? && Gain(s.direction, s.trigger.value, Best(s.direction, bar.values)) >= 0.0
                          then Some(bar.ts) else state.triggerHitAt)
  }

  function KindsOf(events: seq<Event>): seq<EventType> { Map(events, (e: Event) => e.kind) }

  /** The events of such a bar, in order. */
  ghost function WaitKinds(state: OrderState, bar: Bar, s: SignalSpec): seq<EventType> {
    var back := Gain(s.direction, Far(s), bar.values.close) >= 0.0;
    (if !state.zoneLost && Leaves(bar, s) then [ZoneLost] else [])
    + (if back && (state.zoneLost || Leaves(bar, s)) then [ZoneReclaimed] else [])
    + (if state.triggerHitAt.None? && s.trigger.Some? && Gain(s.direction, s.trigger.value, Best(s.direction, bar.values)) >= 0.0
       then [TriggerHit] else [])
  }

  lemma KindsThen(r: StepResult, f: OrderState -> StepResult)
    ensures KindsOf(Then(r, f).events) == KindsOf(r.events) + KindsOf(f(r.state).events) && Then(r, f).state == f(r.state).state
  {
  }

  lemma ZoneRuleIs(state: OrderState, bar: Bar, signal: SignalSpec)
    ensures var r, lost := ZoneRule(state, bar, signal), !state.zoneLost && (bar.values.open < signal.zoneLow || bar.values.close < signal.zoneLow);
            && KindsOf(r.events) == (if lost then [ZoneLost] else []) && (r.events != [] <==> lost)
            && r.state == state.(zoneLost := state.zoneLost || lost, zoneEverLost := state.zoneEverLost || lost)
  {
  }

  lemma ReclaimRuleIs(state: OrderState, bar: Bar, signal: SignalSpec, ctx: OrderContext)
    ensures var r, again := ReclaimRule(state, bar, signal, ctx), state.zoneLost && bar.values.close >= signal.zoneLow;
            && KindsOf(r.events) == (if again then [ZoneReclaimed] else [])
            && r.state == state.(zoneLost := state.zoneLost && !again,
                                 entryEligibleFrom := if again then Some(NextMinute(ctx, bar.ts)) else state.entryEligibleFrom)
  {
    hide NextMinute;
  }

  lemma TriggerRuleIs(state: OrderState, bar: Bar, signal: SignalSpec)
    ensures var r, hit := TriggerRule(state, bar, signal), state.triggerHitAt.None? && signal.trigger.Some? && bar.values.high >= signal.trigger.value;
            && KindsOf(r.events) == (if hit then [TriggerHit] else [])
            && r.state == state.(triggerHitAt := if hit then Some(bar.ts) else state.triggerHitAt)
  {
  }

  /** A waiting bar in LONG terms. */
  lemma LongWaits(state: OrderState, bar: Bar, signal: SignalSpec, ctx: OrderContext)
    requires state.status.Pending? && bar.values.open > signal.stop && bar.values.low > signal.stop
    requires !(Eligible(state, bar, signal, ctx) && EntryPrice(bar, signal).Some?)
    ensures var p := EntryPhase(state, bar, signal, ctx);
            if ctx.config.cancelOnZoneLost && !state.zoneLost && (bar.values.open < signal.zoneLow || bar.values.close < signal.zoneLow)
            then p.state.status.Invalidated? && p.state.finalEventTs == Some(bar.ts) && KindsOf(p.events) == [ZoneLost, OrderInvalidated]
            else LongWaited(p, state, bar, signal, ctx)
  {
    var zone := ZoneRule(state, bar, signal);
    ZoneRuleIs(state, bar, signal);
    KindsThen(zone, s => Invalidate(s, bar, "ZONE_LOST_CANCEL"));
    KindsThen(zone, s => ReclaimRule(s, bar, signal, ctx));
    ReclaimRuleIs(zone.state, bar, signal, ctx);
    var two := Then(zone, s => ReclaimRule(s, bar, signal, ctx));
    KindsThen(two, s => TriggerRule(s, bar, signal));
    TriggerRuleIs(two.state, bar, signal);
    InvalidateIs(zone.state, bar);
    hide Eligible, EntryPrice, NextMinute, ZoneRule, ReclaimRule, TriggerRule, KindsOf, Invalidate, Then;
  }

  lemma InvalidateIs(state: OrderState, bar: Bar)
    ensures var r := Invalidate(state, bar, "ZONE_LOST_CANCEL");
            r.state.status.Invalidated? && r.state.finalEventTs == Some(bar.ts) && KindsOf(r.events) == [OrderInvalidated]
  {
  }

  lemma LongCrossed(state: OrderState, bar: Bar, signal: SignalSpec, ctx: OrderContext)
    requires state.status.Pending? && (bar.values.open <= signal.stop || bar.values.low <= signal.stop)
    requires bar.values.open <= signal.stop || !(Eligible(state, bar, signal, ctx) && EntryPrice(bar, signal).Some?)
    ensures var p := EntryPhase(state, bar, signal, ctx);
            p.state.status.Invalidated? && p.state.finalEventTs == Some(bar.ts) && KindsOf(p.events) == [OrderInvalidated]
  {
    hide Eligible, EntryPrice, NextMinute;
  }

  lemma KindsMirrored(r: StepResult)
    ensures KindsOf(Mirrored(r).events) == KindsOf(r.events)
  {
    hide MirrorPayload, MirrorState;
  }

  lemma SidedPending(state: OrderState, bar: Bar, ctx: OrderContext)
    requires state.status.Pending?
    ensures Sided(state, bar, ctx)
         == if ctx.signal.direction.Long? then EntryPhase(state, bar, ctx.signal, ctx)
            else Mirrored(EntryPhase(MirrorState(state), MirrorBar(bar), MirrorSignal(ctx.signal), ctx))
  {
    hide EntryPhase;
  }

  /** What a pending order that does not fill makes of a bar, from its own side. */
  ghost predicate GaveUpOrWaited(r: StepResult, state: OrderState, bar: Bar, ctx: OrderContext) {
    if GivenUp(state, bar, ctx)
    then r.state.status.Invalidated? && r.state.finalEventTs == Some(bar.ts) && r.events != []
         && r.events[|r.events| - 1].kind.OrderInvalidated?
    else Waited(r.state, state, bar, ctx.signal, ctx) && KindsOf(r.events) == WaitKinds(state, bar, ctx.signal)
  }

  lemma LongGaveUp(state: OrderState, bar: Bar, signal: SignalSpec, ctx: OrderContext)
    requires state.status.Pending?
    requires bar.values.open <= signal.stop || !(Eligible(state, bar, signal, ctx) && EntryPrice(bar, signal).Some?)
    ensures LongOutcome(EntryPhase(state, bar, signal, ctx), state, bar, signal, ctx)
  {
    LastKind(EntryPhase(state, bar, signal, ctx));
    if bar.values.open <= signal.stop || bar.values.low <= signal.stop { LongCrossed(state, bar, signal, ctx); }
    else { LongWaits(state, bar, signal, ctx); }
    hide EntryPhase, Eligible, EntryPrice, NextMinute, KindsOf;
  }

  ghost predicate LongWaited(p: StepResult, state: OrderState, bar: Bar, signal: SignalSpec, ctx: OrderContext) {
    var leaves, back := bar.values.open < signal.zoneLow || bar.values.close < signal.zoneLow, bar.values.close >= signal.zoneLow;
    var lost, again := !state.zoneLost && leaves, back && (state.zoneLost || leaves);
    var hit := state.triggerHitAt.None? && signal.trigger.Some? && bar.values.high >= signal.trigger.value;
    && p.state.status.Pending? && (p.state.zoneLost <==> !back) && (p.state.zoneEverLost <==> state.zoneEverLost || lost)
    && p.state.entryEligibleFrom == (if again then Some(NextMinute(ctx, bar.ts)) else state.entryEligibleFrom)
    && p.state.triggerHitAt == (if hit then Some(bar.ts) else state.triggerHitAt)
    && KindsOf(p.events) == (if lost then [ZoneLost] else []) + (if again then [ZoneReclaimed] else []) + (if hit then [TriggerHit] else [])
  }

  /** The outcome of `LongGaveUp`. */
  ghost predicate LongOutcome(p: StepResult, state: OrderState, bar: Bar, signal: SignalSpec, ctx: OrderContext) {
    var leaves := bar.values.open < signal.zoneLow || bar.values.close < signal.zoneLow;
    if bar.values.open <= signal.stop || bar.values.low <= signal.stop || (ctx.config.cancelOnZoneLost && !state.zoneLost && leaves)
    then p.state.status.Invalidated? && p.state.finalEventTs == Some(bar.ts) && p.events != []
         && KindsOf(p.events)[|p.events| - 1].OrderInvalidated?
    else LongWaited(p, state, bar, signal, ctx)
  }

  lemma OutcomeSeen(p: StepResult, state: OrderState, bar: Bar, ctx: OrderContext)
    requires ctx.signal.direction.Long? && LongOutcome(p, state, bar, ctx.signal, ctx)
    ensures GaveUpOrWaited(p, state, bar, ctx)
  {
    LastKind(p);
    hide KindsOf, NextMinute;
  }

  lemma OutcomeSeenShort(p: StepResult, state: OrderState, bar: Bar, ctx: OrderContext)
    requires ctx.signal.direction.Short? && LongOutcome(p, MirrorState(state), MirrorBar(bar), MirrorSignal(ctx.signal), ctx)
    ensures GaveUpOrWaited(Mirrored(p), state, bar, ctx)
  {
    LastKind(p);
    MirroredEvents(p);
    KindsMirrored(p);
    MirrorKeeps(p.state);
    MirrorKeeps(state);
    hide KindsOf, NextMinute, Mirrored, MirrorState, MirrorEvent;
  }

  lemma SidedGaveUp(state: OrderState, bar: Bar, ctx: OrderContext)
    requires state.status.Pending? && !Fills(state, bar, ctx)
    ensures GaveUpOrWaited(Sided(state, bar, ctx), state, bar, ctx)
  {
    SidedPending(state, bar, ctx);
    ReadyIsEligible(state, bar, ctx);
    EntryPriceIs(bar, ctx);
    MirrorKeeps(state);
    hide EntryPhase, Eligible, EntryPrice, Ready, Enters, NextMinute, Sided, Mirrored, MirrorState, KindsOf, LongWaited, GaveUpOrWaited;
    if ctx.signal.direction.Long? {
      LongGaveUp(state, bar, ctx.signal, ctx);
      OutcomeSeen(EntryPhase(state, bar, ctx.signal, ctx), state, bar, ctx);
    } else {
      LongGaveUp(MirrorState(state), MirrorBar(bar), MirrorSignal(ctx.signal), ctx);
      OutcomeSeenShort(EntryPhase(MirrorState(state), MirrorBar(bar), MirrorSignal(ctx.signal), ctx), state, bar, ctx);
    }
  }

  lemma LastKind(r: StepResult)
    ensures |KindsOf(r.events)| == |r.events| && (r.events != [] ==> KindsOf(r.events)[|r.events| - 1] == r.events[|r.events| - 1].kind)
  {
  }

  /**
   * A pending order that does not fill on a bar is given up if and only if the bar opened or traded at or through its stop, or
   * it left the zone and the order does not wait for it to be reclaimed. Otherwise it waits: the zone counts as lost exactly
   * when the bar closed outside it, and a reclaim or a trigger is good from the next expected minute on, never on its own bar.
   */
  lemma GivenUpOrWaits(state: OrderState, bar: Bar, ctx: OrderContext)
    requires state.status.Pending? && !Skips(state, bar, ctx) && !Fills(state, bar, ctx) && !LastMinute(ctx, bar.ts)
    ensures GaveUpOrWaited(Step(state, bar, ctx), state, bar, ctx)
  {
    SidedGaveUp(state, bar, ctx);
    StepIs(state, bar, ctx);
    hide Step, Sided, Skips, Fills, LastMinute, GivenUp, KindsOf, WaitKinds, NextMinute;
  }

  // ---- the end of validity ------------------------------------------------------------------------------------------

  /** How what the bar's own rules left (`p`) ends on the last minute (`r`), from the given side. */
  ghost predicate Ended(r: StepResult, p: StepResult, bar: Bar, d: Direction, ctx: OrderContext) {
    && (p.state.status.Pending? ==> r.state.status.Expired? && r.state.finalEventTs == Some(ctx.until)
                                    && |r.events| == |p.events| + 1 && r.events[|p.events|].kind.OrderExpired?)
    && (Live(p.state) ==>
          && |r.events| == |p.events| + 1 && r.events[|p.events|].kind.TimeExit? && r.state.closeReason == Some(ByTime)
          && ClosedSided(r.state, r.events[|p.events|], p.state, bar, d, ClosingPrice(d, bar.values.close, ctx.config.stopSlippageBps), ctx))
  }

  lemma LongStepEnds(state: OrderState, bar: Bar, signal: SignalSpec, ctx: OrderContext)
    requires LastMinute(ctx, bar.ts) && !Phase(state, bar, signal, ctx).state.Final()
    ensures var p := Phase(state, bar, signal, ctx);
            var seen := p.(state := p.state.(lastBarTs := Some(bar.ts)));
            LongStep(state, bar, signal, ctx) == Then(seen, s => ValidityEnd(s, bar, ctx))
  {
    hide EntryPhase, ExitPhase, LastMinute, ValidityEnd;
  }

  lemma ValidityEnded(state: OrderState, bar: Bar, ctx: OrderContext)
    requires !state.Final()
    ensures var v := ValidityEnd(state, bar, ctx);
            && |v.events| == 1
            && (state.status.Pending? ==>
                  v.state.status.Expired? && v.state.finalEventTs == Some(ctx.until) && v.events[0].kind.OrderExpired?)
            && (Live(state) ==>
                  v.events[0].kind.TimeExit? && v.state.closeReason == Some(ByTime)
                  && ClosedAt(v.state, v.events[0], state, bar, ClosingPrice(Long, bar.values.close, ctx.config.stopSlippageBps), ctx))
  {
    SellIs(bar.values.close, ctx.config.stopSlippageBps);
    CloseIs(state, bar, ctx, TimeExit, "TIME_EXIT", AdverseSell(bar.values.close, ctx.config.stopSlippageBps), ByTime, "", None,
            Some(bar.values.close));
    hide Close, AdverseSell, Slippage, CostOf, ClosedAt;
  }

  lemma SeenIsTheSame(x: OrderState, e: Event, state: OrderState, bar: Bar, price: real, ctx: OrderContext)
    requires ClosedAt(x, e, state.(lastBarTs := Some(bar.ts)), bar, price, ctx)
    ensures ClosedSided(x, e, state, bar, Long, price, ctx)
  {
    hide CostOf;
  }

  lemma LongEnds(state: OrderState, bar: Bar, signal: SignalSpec, ctx: OrderContext)
    requires LastMinute(ctx, bar.ts)
    ensures Ended(LongStep(state, bar, signal, ctx), Phase(state, bar, signal, ctx), bar, Long, ctx)
  {
    var p := Phase(state, bar, signal, ctx);
    if !p.state.Final() {
      LongStepEnds(state, bar, signal, ctx);
      var seen := p.state.(lastBarTs := Some(bar.ts));
      ValidityEnded(seen, bar, ctx);
      var v := ValidityEnd(seen, bar, ctx);
      var price := ClosingPrice(Long, bar.values.close, ctx.config.stopSlippageBps);
      if Live(p.state) { SeenIsTheSame(v.state, v.events[0], p.state, bar, price, ctx); }
      assert (p.events + v.events)[|p.events|] == v.events[0];
    }
    hide Phase, LongStep, LastMinute, ValidityEnd, ClosedAt, ClosedSided, ClosingPrice;
  }

  lemma EndedShort(r: StepResult, p: StepResult, bar: Bar, ctx: OrderContext)
    requires Ended(r, p, MirrorBar(bar), Long, ctx)
    ensures Ended(Mirrored(r), Mirrored(p), bar, Short, ctx)
  {
    MirroredEvents(r);
    MirroredEvents(p);
    MirrorKeeps(r.state);
    MirrorKeeps(p.state);
    MirrorTwice(p.state);
    SlippageEven(bar.values.close, ctx.config.stopSlippageBps);
    hide ClosedSided, Slippage, MirrorState, MirrorEvent, Mirrored;
    if Live(p.state) {
      ClosedSidedShort(r.state, r.events[|p.events|], MirrorState(p.state), bar, ClosingPrice(Short, bar.values.close, ctx.config.stopSlippageBps), ctx);
    }
  }

  lemma ClosedSidedShort(x: OrderState, e: Event, state: OrderState, bar: Bar, price: real, ctx: OrderContext)
    requires ClosedSided(x, e, MirrorState(state), MirrorBar(bar), Long, -price, ctx)
    ensures ClosedSided(MirrorState(x), MirrorEvent(e), state, bar, Short, price, ctx)
  {
    hide CostOf;
    assert ClosedAt(x, e, MirrorState(state), MirrorBar(bar), -price, ctx);
    ClosedSeenShort(x, e, state, bar, -price, ctx);
  }

  /**
   * The last expected minute ends every order. What the bar's own rules leave pending expires at the end of validity; what they
   * leave open is closed at the bar's close, made worse by the slippage.
   */
  lemma LastMinuteEnds(state: OrderState, bar: Bar, ctx: OrderContext)
    requires !Skips(state, bar, ctx) && LastMinute(ctx, bar.ts)
    ensures Step(state, bar, ctx).state.Final()
    ensures Ended(Step(state, bar, ctx), Sided(state, bar, ctx), bar, ctx.signal.direction, ctx)
  {
    hide *;
    StepIs(state, bar, ctx);
    StepSides(state, bar, ctx);
    SidedIs(state, bar, ctx);
    if ctx.signal.direction.Long? {
      LongEnds(state, bar, ctx.signal, ctx);
    } else {
      var s, b, g := MirrorState(state), MirrorBar(bar), MirrorSignal(ctx.signal);
      LongEnds(s, b, g, ctx);
      EndedShort(LongStep(s, b, g, ctx), Phase(s, b, g, ctx), bar, ctx);
    }
  }

  // ---- which bars count ---------------------------------------------------------------------------------------------

  /** A bar counts if and only if the order still runs and the bar is a new expected minute of its validity; others change nothing. */
  lemma BarCountsIff(state: OrderState, bar: Bar, ctx: OrderContext)
    requires ctx.Valid()
    ensures !Skips(state, bar, ctx)
       <==> (state.status.Pending? || Live(state)) && !state.frozen && ctx.start <= bar.ts < ctx.until
            && ctx.calendar.Expected(bar.ts) && (forall seen :: state.lastBarTs == Some(seen) ==> seen < bar.ts)
    ensures Skips(state, bar, ctx) ==> Step(state, bar, ctx) == StepResult(state, [])
  {
    ExpectedIff(ctx.calendar, bar.ts);
    hide LongStep, SessionCalendar.SessionContaining, SessionCalendar.Expected, Whole, SessionCalendar.Valid;
  }

  lemma ExpectedIff(c: SessionCalendar, ts: int)
    requires c.Valid()
    ensures c.Expected(ts) <==> Whole(ts) && c.SessionContaining(ts).Found?
  {
    hide Whole, SessionCalendar.SessionContaining;
    if c.Expected(ts) {
      var i :| InSession(c.sessions, i, ts);
      c.ExpectedInRange(ts);
      assert c.sessions[i] in c.sessions;
    }
    if c.SessionContaining(ts).Found? {
      var s := c.SessionContaining(ts).value;
      var i :| 0 <= i < |c.sessions| && c.sessions[i] == s;
      assert InSession(c.sessions, i, ts);
    }
  }

  // ---- commands -----------------------------------------------------------------------------------------------------

  /** Creation is refused for a signal that is past pending or a reserved key; otherwise the order starts flat, with the signal's gating. */
  lemma CreatedFlat(ctx: OrderContext, inherited: Option<GatingState>, extra: map<string, string>)
    ensures NewOrderState(ctx, inherited, extra).None?
       <==> (inherited.Some? && inherited.value.status != Pending) || exists key :: key in extra && key in RESERVED
    ensures NewOrderState(ctx, inherited, extra).Some? ==>
              var s := NewOrderState(ctx, inherited, extra).value.state;
              && s.status.Pending? && !s.frozen && s.qtyOpen == s.qtyTotal == s.realizedPnl == s.costs == s.dividends == 0.0
              && s.avgEntry.None? && s.lastBarTs.None? && s.stopActiveFrom.None? && !s.t1Done
              && s.stopCurrent == s.initialStop == Some(ctx.signal.stop)
              && (inherited.None? ==> !s.zoneLost && !s.zoneEverLost && s.entryEligibleFrom.None? && s.triggerHitAt.None?)
              && (inherited.Some? ==>
                    var g := inherited.value;
                    && s.zoneLost == g.zoneLost && s.entryEligibleFrom == g.entryEligibleFrom && s.triggerHitAt == g.triggerHitAt
                    && (s.zoneEverLost <==> g.zoneLost || g.entryEligibleFrom.Some?))
  {
  }

  /** Canceling ends a running order where it stands and reports its open quantity; an ended one is left alone. */
  lemma CancelEnds(state: OrderState, at: int, who: string)
    ensures var r := Cancel(state, at, who);
            if state.status.Pending? || Live(state)
            then r.state == state.(status := Canceled, finalEventTs := Some(at)) && |r.events| == 1 && r.events[0].kind.OrderCanceled?
                 && r.events[0].payload == CancelPayload(at, who, state.qtyOpen)
            else r == StepResult(state, [])
  {
  }

  /** A freeze stops a running order for good: it is listed with its reason, reported once per reason, and no bar counts any more. */
  lemma FreezeStops(state: OrderState, reason: string, ref: string, bar: Bar, ctx: OrderContext)
    ensures var r := Freeze(state, reason, ref);
            && (state.status.Pending? || Live(state) ==>
                  r.state.frozen && (!state.frozen || reason !in state.frozenReasons ==>
                    reason in r.state.frozenReasons && reason in r.state.reviewReasons && KindsOf(r.events) == [OrderFrozen, NeedsReview])
                  && (state.frozen && reason in state.frozenReasons ==> r == StepResult(state, []))
                  && Step(r.state, bar, ctx) == StepResult(r.state, []))
            && (state.Final() ==> r == StepResult(state, []))
            && r.state == state.(frozen := r.state.frozen, frozenReasons := r.state.frozenReasons, reviewReasons := r.state.reviewReasons)
  {
    hide LongStep, IsExpected;
  }

  /** A validated dividend is paid to a LONG position and charged to a SHORT one, per open share; anything else pays nothing. */
  lemma DividendFollowsThePosition(state: OrderState, ctx: OrderContext, exDate: int, amount: real, validated: bool)
    ensures var r := ApplyDividend(state, ctx, exDate, amount, validated);
            var held := (state.status.Pending? || Live(state)) && !state.frozen && state.qtyOpen > 0.0;
            && (held && validated ==>
                  && r.state.dividends == state.dividends
                                          + (if ctx.signal.direction.Long? then amount * state.qtyOpen else -(amount * state.qtyOpen))
                  && KindsOf(r.events) == [DividendPaid] && r.events[0].qty == Some(state.qtyOpen))
            && (held && !validated ==> KindsOf(r.events) == [NeedsReview] && "DIVIDEND_UNVERIFIED" in r.state.reviewReasons)
            && (!held ==> r == StepResult(state, []))
            && (!(held && validated) ==> r.state.dividends == state.dividends)
  {
    var q := state.qtyOpen;
    assert 1.0 * amount * q == amount * q && -1.0 * amount * q == -(amount * q);
  }

  /**
   * The end of validity as a command: nothing before its time; a pending order expires; a live one is closed at the close of its
   * latest evaluated bar and, if that was not the last expected minute, flagged for review; with no such bar it is only flagged.
   */
  lemma ValidityCommand(state: OrderState, ctx: OrderContext, lastBar: Option<Bar>, now: int)
    ensures var r := ApplyValidityEnd(state, ctx, lastBar, now);
            var due := now >= ctx.until && (state.status.Pending? || Live(state)) && !state.frozen;
            && (r.None? <==> due && Live(state) && lastBar.Some? && state.lastBarTs != Some(lastBar.value.ts))
            && (!due ==> r == Some(StepResult(state, [])))
            && (due && state.status.Pending? ==> r.value.state.status.Expired? && KindsOf(r.value.events) == [OrderExpired])
            && (due && Live(state) && lastBar.None? ==>
                  r.value.state.status == state.status && "NO_EXIT_BAR" in r.value.state.reviewReasons && KindsOf(r.value.events) == [NeedsReview])
            && (due && Live(state) && lastBar.Some? && r.Some? ==>
                  var d, b := ctx.signal.direction, lastBar.value;
                  && r.value.state.closeReason == Some(ByTime) && r.value.events != []
                  && ClosedSided(r.value.state, r.value.events[0], state, b, d, ClosingPrice(d, b.values.close, ctx.config.stopSlippageBps), ctx)
                  && KindsOf(r.value.events) == if LastMinute(ctx, b.ts) then [TimeExit] else [TimeExit, NeedsReview])
  {
    hide LastMinute, ClosedSided, ClosingPrice, TimeOut, MirrorState, MirrorBar, Mirrored, MirrorEvent;
    if now >= ctx.until && Live(state) && !state.frozen && lastBar.Some? {
      TimeOutSided(state, lastBar.value, ctx);
      var ended := if ctx.signal.direction.Long? then TimeOut(state, lastBar.value, ctx)
                   else Mirrored(TimeOut(MirrorState(state), MirrorBar(lastBar.value), ctx));
      ReviewKeeps(ended.state, state, lastBar.value, ctx, ended.events[0]);
    }
  }

  lemma TimeOutSided(state: OrderState, bar: Bar, ctx: OrderContext)
    requires Live(state)
    ensures var d := ctx.signal.direction;
            var ended := if d.Long? then TimeOut(state, bar, ctx) else Mirrored(TimeOut(MirrorState(state), MirrorBar(bar), ctx));
            && |ended.events| == 1 && ended.events[0].kind.TimeExit? && ended.state.closeReason == Some(ByTime)
            && ClosedSided(ended.state, ended.events[0], state, bar, d, ClosingPrice(d, bar.values.close, ctx.config.stopSlippageBps), ctx)
  {
    var s, b := MirrorState(state), MirrorBar(bar);
    MirrorKeeps(state);
    ValidityEnded(state, bar, ctx);
    ValidityEnded(s, b, ctx);
    var r := TimeOut(s, b, ctx);
    MirroredEvents(r);
    MirrorKeeps(r.state);
    SlippageEven(bar.values.close, ctx.config.stopSlippageBps);
    hide TimeOut, Slippage, ClosedAt, ClosedSided, Mirrored, MirrorState, MirrorEvent;
    if ctx.signal.direction.Long? {
      ClosedSeen(TimeOut(state, bar, ctx).state, TimeOut(state, bar, ctx).events[0], state, bar,
                 ClosingPrice(Long, bar.values.close, ctx.config.stopSlippageBps), ctx);
    } else {
      ClosedSeenShort(r.state, r.events[0], state, bar, ClosingPrice(Long, b.values.close, ctx.config.stopSlippageBps), ctx);
    }
  }

  lemma ReviewKeeps(x: OrderState, state: OrderState, bar: Bar, ctx: OrderContext, e: Event)
    ensures var y := FlagReview(x, "STALE_EXIT_BAR", Text(ctx.until)).state;
            && y.closeReason == x.closeReason
            && forall d, price :: ClosedSided(x, e, state, bar, d, price, ctx) ==> ClosedSided(y, e, state, bar, d, price, ctx)
  {
    hide CostOf, Text;
  }
}
