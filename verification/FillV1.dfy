/** The v1 fill model: LONG rules on bars, SHORT orders by negating prices. Amounts are exact reals. */
module FillV1 {
  import opened Prelude
  import opened Calendar
  import opened BarStore
  import opened Domain

  // ---- mirroring --------------------------------------------------------------------------------------------

  function Neg(x: Option<real>): Option<real> {
    match x case None => None case Some(v) => Some(-v)
  }

  function MirrorBar(b: Bar): Bar {
    b.(values := Ohlcv(-b.values.open, -b.values.low, -b.values.high, -b.values.close, b.values.volume))
  }

  function MirrorSignal(s: SignalSpec): SignalSpec {
    s.(zoneLow := -s.zoneHigh, zoneHigh := -s.zoneLow, stop := -s.stop, target1 := -s.target1, target2 := Neg(s.target2),
       trigger := Neg(s.trigger))
  }

  function MirrorState(s: OrderState): OrderState {
    s.(avgEntry := Neg(s.avgEntry), initialStop := Neg(s.initialStop), stopCurrent := Neg(s.stopCurrent),
       stopPrevious := Neg(s.stopPrevious), bestPrice := Neg(s.bestPrice), worstPrice := Neg(s.worstPrice))
  }

  /** Only the prices and levels of a payload are negated; profits, costs and quantities are not. */
  function MirrorPayload(p: Payload): Payload {
    match p
    case ZonePayload(level) => ZonePayload(-level)
    case FillPayload(rule, path, raw, cost) => FillPayload(rule, path, -raw, cost)
    case ScaleOutPayload(pnl, cost, stop, from) => ScaleOutPayload(pnl, cost, -stop, from)
    case ExitPayload(note, level, raw, pnl, cost) => ExitPayload(note, Neg(level), Neg(raw), pnl, cost)
    case _ => p
  }

  function MirrorEvent(e: Event): Event { e.(price := Neg(e.price), payload := MirrorPayload(e.payload)) }

  // ---- prices and costs -------------------------------------------------------------------------------------

  function Abs(x: real): real { if x < 0.0 then -x else x }

  function MinReal(a: real, b: real): real { if a <= b then a else b }

  function AdverseBuy(price: real, bps: real): real { price + Abs(price) * bps / 10000.0 }

  function AdverseSell(price: real, bps: real): real { price - Abs(price) * bps / 10000.0 }

  function LowerOf(current: Option<real>, value: real): Option<real> {
    Some(if current.None? || value < current.value then value else current.value)
  }

  function HigherOf(current: Option<real>, value: real): Option<real> {
    Some(if current.None? || value > current.value then value else current.value)
  }

  datatype Leg = EntryLeg | ExitLeg

  function ExecutionCost(ctx: OrderContext, price: real, qty: real, leg: Leg): real {
    var config := ctx.config;
    var sells := if ctx.signal.direction.Long? then leg.ExitLeg? else leg.EntryLeg?;
    config.commission
    + (if config.feesEnabled && sells
       then Abs(price) * qty * config.secFeeRate + MinReal(qty * config.tafFeePerShare, config.tafFeeMax) else 0.0)
  }

  /** A price an open order always carries; zero stands where the source would fail on a missing value. */
  function Carried(x: Option<real>): real { if x.Some? then x.value else 0.0 }

  function NextMinute(ctx: OrderContext, ts: int): int {
    if ctx.calendar.Valid() && ctx.calendar.NextExpectedMinute(ts).Some? then ctx.calendar.NextExpectedMinute(ts).value else ts
  }

  predicate IsExpected(ctx: OrderContext, ts: int) {
    Whole(ts) && ctx.calendar.Valid() && ctx.calendar.SessionContaining(ts).Found?
  }

  predicate LastMinute(ctx: OrderContext, ts: int) {
    ctx.calendar.Valid() && ctx.calendar.LastExpectedBefore(ctx.until) == Some(ts)
  }

  // ---- the rules, for LONG ----------------------------------------------------------------------------------

  function BarEvent(kind: EventType, key: string, bar: Bar, price: Option<real>, qty: Option<real>, payload: Payload): Event {
    Event(kind, key, Some(bar.ts), price, qty, Some(bar.batch), payload)
  }

  function Invalidate(state: OrderState, bar: Bar, why: string): StepResult {
    StepResult(state.(status := Invalidated, finalEventTs := Some(bar.ts)),
               [BarEvent(OrderInvalidated, "INVALIDATED", bar, None, None, InvalidPayload(why))])
  }

  predicate Eligible(state: OrderState, bar: Bar, signal: SignalSpec, ctx: OrderContext) {
    && !state.zoneLost
    && (state.entryEligibleFrom.Some? ==> bar.ts >= state.entryEligibleFrom.value)
    && (signal.trigger.Some? ==> state.triggerHitAt.Some? && bar.ts >= NextMinute(ctx, state.triggerHitAt.value))
  }

  function Fill(state: OrderState, bar: Bar, signal: SignalSpec, ctx: OrderContext, raw: real, rule: string): StepResult {
    var price := AdverseBuy(raw, ctx.config.entrySlippageBps);
    var qty := if price == signal.stop then 0.0 else ctx.config.riskAmount / (price - signal.stop);
    var cost := ExecutionCost(ctx, price, qty, EntryLeg);
    var path := if state.zoneEverLost then Reclaimed else Direct;
    StepResult(state.(status := Open, avgEntry := Some(price), initialStop := Some(signal.stop), stopCurrent := Some(signal.stop),
                      qtyTotal := qty, qtyOpen := qty, costs := state.costs + cost, entryPath := Some(path),
                      openedAt := Some(bar.ts), bestPrice := Some(price)),
               [BarEvent(Filled, "FILLED", bar, Some(price), Some(qty), FillPayload(rule, path, raw, cost))])
  }

  function Close(state: OrderState, bar: Bar, ctx: OrderContext, kind: EventType, key: string, price: real, reason: CloseReason,
                 note: string, level: Option<real>, raw: Option<real>): StepResult
  {
    var qty := state.qtyOpen;
    var pnl := (price - Carried(state.avgEntry)) * qty;
    var cost := ExecutionCost(ctx, price, qty, ExitLeg);
    StepResult(state.(status := Closed, qtyOpen := 0.0, realizedPnl := state.realizedPnl + pnl, costs := state.costs + cost,
                      closeReason := Some(reason), closedAt := Some(bar.ts), finalEventTs := Some(bar.ts)),
               [BarEvent(kind, key, bar, Some(price), Some(qty), ExitPayload(note, level, raw, pnl, cost))])
  }

  function ActiveStop(state: OrderState, bar: Bar): real {
    if state.stopActiveFrom.Some? && bar.ts < state.stopActiveFrom.value then Carried(state.stopPrevious)
    else Carried(state.stopCurrent)
  }

  function PartToSell(state: OrderState, config: FillConfig): real { state.qtyTotal * config.scaleOutPct / 100.0 }

  /** Take a part of the position off at the first target; breakeven becomes the stop from `activeFrom` on. */
  function TakeOff(state: OrderState, bar: Bar, signal: SignalSpec, qty: real, cost: real, activeFrom: int): StepResult {
    var pnl := (signal.target1 - Carried(state.avgEntry)) * qty;
    StepResult(state.(status := PartiallyClosed, t1Done := true, qtyOpen := state.qtyOpen - qty,
                      realizedPnl := state.realizedPnl + pnl, costs := state.costs + cost, stopPrevious := state.stopCurrent,
                      stopCurrent := state.avgEntry, stopActiveFrom := Some(activeFrom)),
               [BarEvent(Target1Hit, "TARGET1_HIT", bar, Some(signal.target1), Some(qty),
                         ScaleOutPayload(pnl, cost, Carried(state.avgEntry), activeFrom))])
  }

  /** The first target takes a part of the position off and moves the stop to breakeven from the next minute. */
  function ScaleOut(state: OrderState, bar: Bar, signal: SignalSpec, ctx: OrderContext): StepResult {
    var qty := PartToSell(state, ctx.config);
    TakeOff(state, bar, signal, qty, ExecutionCost(ctx, signal.target1, qty, ExitLeg), NextMinute(ctx, bar.ts))
  }

  function SecondTarget(state: OrderState, bar: Bar, signal: SignalSpec, ctx: OrderContext): StepResult {
    if state.t1Done && signal.target2.Some? && bar.values.high >= signal.target2.value
    then Close(state, bar, ctx, Target2Hit, "TARGET2_HIT", signal.target2.value, ByTarget, "FINAL", None, None)
    else StepResult(state, [])
  }

  function ExitPhase(state: OrderState, bar: Bar, signal: SignalSpec, ctx: OrderContext, entryBar: bool): StepResult {
    var stop := ActiveStop(state, bar);
    var triggered := bar.values.low <= stop;
    var marked := state.(bestPrice := if entryBar || triggered then state.bestPrice else HigherOf(state.bestPrice, bar.values.high),
                         worstPrice := LowerOf(state.worstPrice, bar.values.low));
    if triggered then
      var raw := MinReal(bar.values.open, stop);
      Close(marked, bar, ctx, Stopped, "STOPPED", AdverseSell(raw, ctx.config.stopSlippageBps), ByStop,
            if marked.t1Done then "BREAKEVEN" else "INITIAL", Some(stop), Some(raw))
    else if entryBar then StepResult(marked, [])
    else if !marked.t1Done && bar.values.high >= signal.target1 then
      if signal.target2.None?
      then Close(marked, bar, ctx, Target1Hit, "TARGET1_HIT", signal.target1, ByTarget, "FINAL", None, None)
      else Then(ScaleOut(marked, bar, signal, ctx), s => SecondTarget(s, bar, signal, ctx))
    else SecondTarget(marked, bar, signal, ctx)
  }

  /** Continue from a result, keeping the events of both parts. */
  function Then(r: StepResult, next: OrderState -> StepResult): StepResult {
    StepResult(next(r.state).state, r.events + next(r.state).events)
  }

  function ZoneRule(state: OrderState, bar: Bar, signal: SignalSpec): StepResult {
    if !state.zoneLost && (bar.values.open < signal.zoneLow || bar.values.close < signal.zoneLow)
    then StepResult(state.(zoneLost := true, zoneEverLost := true),
                    [BarEvent(ZoneLost, "ZONE_LOST:" + Text(bar.ts), bar, None, None, ZonePayload(signal.zoneLow))])
    else StepResult(state, [])
  }

  function ReclaimRule(state: OrderState, bar: Bar, signal: SignalSpec, ctx: OrderContext): StepResult {
    if state.zoneLost && bar.values.close >= signal.zoneLow then
      var from := NextMinute(ctx, bar.ts);
      StepResult(state.(zoneLost := false, entryEligibleFrom := Some(from)),
                 [BarEvent(ZoneReclaimed, "ZONE_RECLAIMED:" + Text(bar.ts), bar, None, None, ReclaimPayload(from))])
    else StepResult(state, [])
  }

  function TriggerRule(state: OrderState, bar: Bar, signal: SignalSpec): StepResult {
    if signal.trigger.Some? && state.triggerHitAt.None? && bar.values.high >= signal.trigger.value
    then StepResult(state.(triggerHitAt := Some(bar.ts)), [BarEvent(TriggerHit, "TRIGGER_HIT", bar, signal.trigger, None, NoPayload)])
    else StepResult(state, [])
  }

  /** The price and rule of an entry on this bar, if it enters the zone. */
  function EntryPrice(bar: Bar, signal: SignalSpec): Option<(real, string)> {
    if signal.zoneLow <= bar.values.open <= signal.zoneHigh then Some((bar.values.open, "ZONE_OPEN"))
    else if bar.values.open > signal.zoneHigh && bar.values.low < signal.zoneHigh then Some((signal.zoneHigh, "ZONE_CROSS"))
    else None
  }

  function GatingRules(state: OrderState, bar: Bar, signal: SignalSpec, ctx: OrderContext): StepResult {
    var zone := ZoneRule(state, bar, signal);
    if zone.events != [] && ctx.config.cancelOnZoneLost then Then(zone, s => Invalidate(s, bar, "ZONE_LOST_CANCEL"))
    else Then(Then(zone, s => ReclaimRule(s, bar, signal, ctx)), s => TriggerRule(s, bar, signal))
  }

  function EntryPhase(state: OrderState, bar: Bar, signal: SignalSpec, ctx: OrderContext): StepResult {
    if bar.values.open <= signal.stop then Invalidate(state, bar, "OPEN_AT_OR_THROUGH_STOP")
    else
      var entry := EntryPrice(bar, signal);
      if Eligible(state, bar, signal, ctx) && entry.Some?
      then Then(Fill(state, bar, signal, ctx, entry.value.0, entry.value.1), s => ExitPhase(s, bar, signal, ctx, true))
      else if bar.values.low <= signal.stop then Invalidate(state, bar, "STOP_TOUCHED_WITHOUT_POSITION")
      else GatingRules(state, bar, signal, ctx)
  }

  function ExpireEvent(ctx: OrderContext): Event {
    Event(OrderExpired, "EXPIRED", None, None, None, None, ExpiryPayload(ctx.until))
  }

  function Expire(state: OrderState, ctx: OrderContext): StepResult {
    StepResult(state.(status := Expired, finalEventTs := Some(ctx.until)), [ExpireEvent(ctx)])
  }

  function TimeOut(state: OrderState, bar: Bar, ctx: OrderContext): StepResult {
    Close(state, bar, ctx, TimeExit, "TIME_EXIT", AdverseSell(bar.values.close, ctx.config.stopSlippageBps), ByTime, "", None,
          Some(bar.values.close))
  }

  function ValidityEnd(state: OrderState, bar: Bar, ctx: OrderContext): StepResult {
    if state.status.Pending? then Expire(state, ctx) else TimeOut(state, bar, ctx)
  }

  function LongStep(state: OrderState, bar: Bar, signal: SignalSpec, ctx: OrderContext): StepResult {
    var phase := if state.status.Pending? then EntryPhase(state, bar, signal, ctx) else ExitPhase(state, bar, signal, ctx, false);
    var seen := phase.(state := phase.state.(lastBarTs := Some(bar.ts)));
    if !seen.state.Final() && LastMinute(ctx, bar.ts) then Then(seen, s => ValidityEnd(s, bar, ctx)) else seen
  }

  // ---- the interface ----------------------------------------------------------------------------------------

  function Mirrored(r: StepResult): StepResult { StepResult(MirrorState(r.state), Map(r.events, MirrorEvent)) }

  predicate Skips(state: OrderState, bar: Bar, ctx: OrderContext) {
    || state.Final() || state.frozen
    || bar.ts < ctx.start || bar.ts >= ctx.until
    || (state.lastBarTs.Some? && bar.ts <= state.lastBarTs.value)
    || !IsExpected(ctx, bar.ts)
  }

  function Step(state: OrderState, bar: Bar, ctx: OrderContext): StepResult {
    if Skips(state, bar, ctx) then StepResult(state, [])
    else if ctx.signal.direction.Long? then LongStep(state, bar, ctx.signal, ctx)
    else Mirrored(LongStep(MirrorState(state), MirrorBar(bar), MirrorSignal(ctx.signal), ctx))
  }

  function Fold(state: OrderState, bars: seq<Bar>, ctx: OrderContext): StepResult
    decreases |bars|
  {
    if bars == [] then StepResult(state, [])
    else
      var r := Step(state, bars[0], ctx);
      var rest := Fold(r.state, bars[1..], ctx);
      StepResult(rest.state, r.events + rest.events)
  }

  function BarTs(b: Bar): int { b.ts }

  function RunBars(state: OrderState, bars: seq<Bar>, ctx: OrderContext): StepResult { Fold(state, SortBy(bars, BarTs), ctx) }

  /** The evaluation loop over the sorted bars. */
  method RunSortedBars(state: OrderState, bars: seq<Bar>, ctx: OrderContext) returns (r: StepResult)
    ensures r == RunBars(state, bars, ctx)
  {
    hide Step;
    var ordered := SortBy(bars, BarTs);
    var current, events, k := state, [], 0;
    assert forall rest: seq<Event> :: [] + rest == rest;
    assert ordered[0..] == ordered;
    while k < |ordered|
      invariant 0 <= k <= |ordered|
      invariant Fold(state, ordered, ctx)
             == StepResult(Fold(current, ordered[k..], ctx).state, events + Fold(current, ordered[k..], ctx).events)
    {
      assert ordered[k..][1..] == ordered[k + 1..];
      var next := Step(current, ordered[k], ctx);
      assert forall rest: seq<Event> :: events + (next.events + rest) == (events + next.events) + rest;
      current, events, k := next.state, events + next.events, k + 1;
    }
    assert events + [] == events;
    return StepResult(current, events);
  }

  const FRESH := OrderState(Pending, false, false, None, None, None, None, None, None, None, None, false, 0.0, 0.0, 0.0, 0.0,
                            0.0, None, None, None, None, None, None, None, false, [], [])

  const RESERVED: set<string> := {"fill_model_version", "signal", "config", "evaluation_start_ts", "valid_until_ts",
                                  "calendar_sessions_hash", "inherited_signal_state", "inherited_signal_state_hash"}

  function NewOrderState(ctx: OrderContext, inherited: Option<GatingState>, extra: map<string, string>): Option<StepResult> {
    if inherited.Some? && !inherited.value.status.Pending? then None
    else if exists key :: key in extra && key in RESERVED then None
    else
      var base := FRESH.(initialStop := Some(ctx.signal.stop), stopCurrent := Some(ctx.signal.stop));
      var state :=
        match inherited
        case None => base
        case Some(g) =>
          base.(zoneLost := g.zoneLost, zoneEverLost := g.zoneLost || g.entryEligibleFrom.Some?,
                entryEligibleFrom := g.entryEligibleFrom, triggerHitAt := g.triggerHitAt);
      var window := if ctx.calendar.Valid() then ctx.calendar.Window(ctx.start, ctx.until) else None;
      Some(StepResult(state, [Event(OrderCreated, "ORDER_CREATED", None, None, None, None,
                                    CreatedPayload(ctx.signal, ctx.config, ctx.start, ctx.until, window, inherited, extra))]))
  }

  function ReviewKey(reason: string, ref: string): string { "NEEDS_REVIEW:" + reason + ":" + ref }

  function ReviewEvent(reason: string, ref: string): Event {
    Event(NeedsReview, ReviewKey(reason, ref), None, None, None, None, ReasonPayload(reason, ref))
  }

  function FlagReview(state: OrderState, reason: string, ref: string): StepResult {
    StepResult(if reason in state.reviewReasons then state else state.(reviewReasons := state.reviewReasons + [reason]),
               [ReviewEvent(reason, ref)])
  }

  function Cancel(state: OrderState, at: int, requestedBy: string): StepResult {
    if state.Final() then StepResult(state, [])
    else StepResult(state.(status := Canceled, finalEventTs := Some(at)),
                    [Event(OrderCanceled, "CANCELED", None, None, None, None, CancelPayload(at, requestedBy, state.qtyOpen))])
  }

  function Freeze(state: OrderState, reason: string, ref: string): StepResult {
    if state.Final() || (state.frozen && reason in state.frozenReasons) then StepResult(state, [])
    else
      var review := FlagReview(state.(frozen := true, frozenReasons := state.frozenReasons + [reason]), reason, ref);
      StepResult(review.state,
                 [Event(OrderFrozen, "FROZEN:" + reason, None, None, None, None, ReasonPayload(reason, ref))] + review.events)
  }

  function ApplyDividend(state: OrderState, ctx: OrderContext, exDate: int, amount: real, validated: bool): StepResult {
    if state.Final() || state.frozen || state.qtyOpen <= 0.0 then StepResult(state, [])
    else if !validated then FlagReview(state, "DIVIDEND_UNVERIFIED", Text(exDate))
    else
      var cash := (if ctx.signal.direction.Long? then 1.0 else -1.0) * amount * state.qtyOpen;
      StepResult(state.(dividends := state.dividends + cash),
                 [Event(DividendPaid, DividendKey(exDate), None, None, Some(state.qtyOpen), None, DividendPayload(exDate, amount, cash))])
  }

  function ApplyValidityEnd(state: OrderState, ctx: OrderContext, lastBar: Option<Bar>, now: int): Option<StepResult> {
    if now < ctx.until || state.Final() || state.frozen then Some(StepResult(state, []))
    else if state.status.Pending? then Some(Expire(state, ctx))
    else if lastBar.None? then Some(FlagReview(state, "NO_EXIT_BAR", Text(ctx.until)))
    else if Some(lastBar.value.ts) != state.lastBarTs then None
    else
      var ended := if ctx.signal.direction.Long? then TimeOut(state, lastBar.value, ctx)
                   else Mirrored(TimeOut(MirrorState(state), MirrorBar(lastBar.value), ctx));
      Some(if LastMinute(ctx, lastBar.value.ts) then ended
           else Then(ended, s => FlagReview(s, "STALE_EXIT_BAR", Text(ctx.until))))
  }

  const V1 := FillModel(NewOrderState, RunBars, Cancel, Freeze, FlagReview, ApplyDividend, ApplyValidityEnd)
}
