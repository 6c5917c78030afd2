/** The v1 fill model meets the ledger's contract, and its events account for its state. */
module FillV1Laws {
  import opened Prelude
  import opened Calendar
  import opened BarStore
  import opened Domain
  import opened Events
  import opened History
  import opened FillContract
  import opened FillV1

  // ---- the coupling between a state and its recorded events -----------------------------------------------------

  /** What one recorded event says about the state: reviews and freezes are on its lists, terminal commands ended it. */
  predicate Reflected(state: OrderState, key: string, e: Event) {
    match e.kind
    case NeedsReview =>
      e.payload.ReasonPayload? && key == ReviewKey(e.payload.reason, e.payload.ref) && e.payload.reason in state.reviewReasons
    case OrderFrozen => e.payload.ReasonPayload? && state.frozen && e.payload.reason in state.frozenReasons
    case DividendPaid => e.payload.DividendPayload? && key == DividendKey(e.payload.exDate)
    case _ => (e.kind.OrderCanceled? || e.kind.OrderExpired? || e.kind.TimeExit?) ==> state.Final()
  }

  function Coupled(): Coupling {
    (state: OrderState, known: Known) => forall k :: k in known ==> Reflected(state, k, known[k])
  }

  /** The state only ever moves forward: reasons stay listed, a freeze stays, a final order stays final. */
  predicate Onward(before: OrderState, after: OrderState) {
    && (forall r :: r in before.reviewReasons ==> r in after.reviewReasons)
    && (forall r :: r in before.frozenReasons ==> r in after.frozenReasons)
    && (before.frozen ==> after.frozen)
    && (before.Final() ==> after.Final())
  }

  lemma ReflectedOnward(before: OrderState, after: OrderState, key: string, e: Event)
    requires Reflected(before, key, e) && Onward(before, after)
    ensures Reflected(after, key, e)
  {
  }

  /** Recording events the new state reflects keeps state and log coupled. */
  lemma CoupledAfter(before: OrderState, known: Known, r: StepResult, start: int)
    requires Coupled()(before, known) && Onward(before, r.state)
    requires forall e :: e in r.events ==> Reflected(r.state, e.key, e)
    requires Dedupe(known, r.events, start).Fresh?
    ensures Coupled()(r.state, Dedupe(known, r.events, start).known)
  {
    DedupeGrows(known, r.events, start);
    var all := Dedupe(known, r.events, start).known;
    DedupeKeepsKeys(known, r.events, start);
    forall k | k in all ensures Reflected(r.state, k, all[k]) {
      if k in known { ReflectedOnward(before, r.state, k, known[k]); }
    }
  }

  lemma {:induction false} DedupeKeepsKeys(known: Known, events: seq<Event>, start: int)
    requires Dedupe(known, events, start).Fresh?
    ensures forall k :: k in Dedupe(known, events, start).known && k !in known ==> Dedupe(known, events, start).known[k].key == k
    decreases |events|
  {
    if events != [] {
      var e := events[0];
      if e.key in known { DedupeKeepsKeys(known, events[1..], start); }
      else {
        DedupeKeepsKeys(known[e.key := e], events[1..], start);
        DedupeGrows(known[e.key := e], events[1..], start);
      }
    }
  }

  // ---- bars ---------------------------------------------------------------------------------------------------

  /** What evaluating bars may record: market events and an expiry, and an ending event only on a final state. */
  predicate BarEvents(state: OrderState, events: seq<Event>) {
    forall e :: e in events ==> (e.kind.Market() || e.kind.OrderExpired?) && (e.kind.OrderExpired? || e.kind.TimeExit? ==> state.Final())
  }

  /** Bars never touch the lists of reasons. */
  predicate SameReasons(before: OrderState, after: OrderState) {
    after.reviewReasons == before.reviewReasons && after.frozenReasons == before.frozenReasons && after.frozen == before.frozen
  }

  /** A bar rule's result: the reasons are as before, and every event is a market event that does not end the order by time. */
  predicate Quiet(before: OrderState, r: StepResult) {
    SameReasons(before, r.state) && forall e :: e in r.events ==> e.kind.Market() && !e.kind.TimeExit?
  }

  lemma QuietThen(before: OrderState, first: StepResult, second: StepResult)
    requires Quiet(before, first) && Quiet(first.state, second)
    ensures Quiet(before, StepResult(second.state, first.events + second.events))
  {
  }

  lemma CloseQuiet(state: OrderState, bar: Bar, ctx: OrderContext, kind: EventType, key: string, price: real,
                   reason: CloseReason, note: string, level: Option<real>, raw: Option<real>)
    requires kind.Market() && !kind.TimeExit?
    ensures Quiet(state, Close(state, bar, ctx, kind, key, price, reason, note, level, raw))
  {
    hide ExecutionCost, Carried;
  }

  lemma ScaleOutQuiet(state: OrderState, bar: Bar, signal: SignalSpec, ctx: OrderContext)
    ensures Quiet(state, ScaleOut(state, bar, signal, ctx))
  {
    hide ExecutionCost, Carried, NextMinute;
  }

  lemma SecondTargetQuiet(state: OrderState, bar: Bar, signal: SignalSpec, ctx: OrderContext)
    ensures Quiet(state, SecondTarget(state, bar, signal, ctx))
  {
    hide Close;
    if signal.target2.Some? {
      CloseQuiet(state, bar, ctx, Target2Hit, "TARGET2_HIT", signal.target2.value, ByTarget, "FINAL", None, None);
    }
  }

  lemma FillQuiet(state: OrderState, bar: Bar, signal: SignalSpec, ctx: OrderContext, raw: real, rule: string)
    ensures Quiet(state, Fill(state, bar, signal, ctx, raw, rule))
  {
    hide ExecutionCost, AdverseBuy;
  }

  lemma InvalidateQuiet(state: OrderState, bar: Bar, why: string)
    ensures Quiet(state, Invalidate(state, bar, why))
  {
  }

  lemma ZoneQuiet(state: OrderState, bar: Bar, signal: SignalSpec)
    ensures Quiet(state, ZoneRule(state, bar, signal))
  {
  }

  lemma ReclaimQuiet(state: OrderState, bar: Bar, signal: SignalSpec, ctx: OrderContext)
    ensures Quiet(state, ReclaimRule(state, bar, signal, ctx))
  {
    hide NextMinute;
  }

  lemma TriggerQuiet(state: OrderState, bar: Bar, signal: SignalSpec)
    ensures Quiet(state, TriggerRule(state, bar, signal))
  {
  }

  lemma GatingKeeps(state: OrderState, bar: Bar, signal: SignalSpec, ctx: OrderContext)
    ensures Quiet(state, GatingRules(state, bar, signal, ctx))
  {
    hide ZoneRule, ReclaimRule, TriggerRule, Invalidate, Quiet;
    var zone := ZoneRule(state, bar, signal);
    var reclaim := ReclaimRule(zone.state, bar, signal, ctx);
    var trigger := TriggerRule(reclaim.state, bar, signal);
    ZoneQuiet(state, bar, signal);
    ReclaimQuiet(zone.state, bar, signal, ctx);
    TriggerQuiet(reclaim.state, bar, signal);
    InvalidateQuiet(zone.state, bar, "ZONE_LOST_CANCEL");
    QuietThen(state, zone, Invalidate(zone.state, bar, "ZONE_LOST_CANCEL"));
    QuietThen(state, zone, reclaim);
    QuietThen(state, StepResult(reclaim.state, zone.events + reclaim.events), trigger);
  }

  /** Marking the best and worst price touches no reason. */
  lemma MarkedQuiet(state: OrderState, marked: OrderState, r: StepResult)
    requires marked == state.(bestPrice := marked.bestPrice, worstPrice := marked.worstPrice) && Quiet(marked, r)
    ensures Quiet(state, r)
  {
  }

  lemma ExitKeeps(state: OrderState, bar: Bar, signal: SignalSpec, ctx: OrderContext, entryBar: bool)
    ensures Quiet(state, ExitPhase(state, bar, signal, ctx, entryBar))
  {
    var stop := ActiveStop(state, bar);
    var triggered := bar.values.low <= stop;
    var marked := state.(bestPrice := if entryBar || triggered then state.bestPrice else HigherOf(state.bestPrice, bar.values.high),
                         worstPrice := LowerOf(state.worstPrice, bar.values.low));
    hide Close, ScaleOut, SecondTarget, Quiet, ActiveStop, AdverseSell, HigherOf, LowerOf;
    if triggered {
      var raw := MinReal(bar.values.open, stop);
      CloseQuiet(marked, bar, ctx, Stopped, "STOPPED", AdverseSell(raw, ctx.config.stopSlippageBps), ByStop,
                 if marked.t1Done then "BREAKEVEN" else "INITIAL", Some(stop), Some(raw));
    } else if entryBar {
      NothingQuiet(marked);
    } else if !marked.t1Done && bar.values.high >= signal.target1 {
      if signal.target2.None? {
        CloseQuiet(marked, bar, ctx, Target1Hit, "TARGET1_HIT", signal.target1, ByTarget, "FINAL", None, None);
      } else {
        var scaled := ScaleOut(marked, bar, signal, ctx);
        ScaleOutQuiet(marked, bar, signal, ctx);
        SecondTargetQuiet(scaled.state, bar, signal, ctx);
        QuietThen(marked, scaled, SecondTarget(scaled.state, bar, signal, ctx));
      }
    } else {
      SecondTargetQuiet(marked, bar, signal, ctx);
    }
    MarkedQuiet(state, marked, ExitPhase(state, bar, signal, ctx, entryBar));
  }

  lemma NothingQuiet(state: OrderState)
    ensures Quiet(state, StepResult(state, []))
  {
  }

  lemma EntryKeeps(state: OrderState, bar: Bar, signal: SignalSpec, ctx: OrderContext)
    ensures Quiet(state, EntryPhase(state, bar, signal, ctx))
  {
    hide GatingRules, ExitPhase, Fill, Invalidate, Quiet, Eligible, EntryPrice;
    InvalidateQuiet(state, bar, "OPEN_AT_OR_THROUGH_STOP");
    InvalidateQuiet(state, bar, "STOP_TOUCHED_WITHOUT_POSITION");
    GatingKeeps(state, bar, signal, ctx);
    if EntryPrice(bar, signal).Some? {
      var entry := EntryPrice(bar, signal).value;
      var filled := Fill(state, bar, signal, ctx, entry.0, entry.1);
      FillQuiet(state, bar, signal, ctx, entry.0, entry.1);
      ExitKeeps(filled.state, bar, signal, ctx, true);
      QuietThen(state, filled, ExitPhase(filled.state, bar, signal, ctx, true));
    }
  }

  lemma ValidityEndKeeps(state: OrderState, bar: Bar, ctx: OrderContext)
    ensures var r := ValidityEnd(state, bar, ctx);
            SameReasons(state, r.state) && BarEvents(r.state, r.events)
  {
    hide ExecutionCost, AdverseSell, Carried;
  }

  lemma LongStepKeeps(state: OrderState, bar: Bar, signal: SignalSpec, ctx: OrderContext)
    ensures var r := LongStep(state, bar, signal, ctx);
            SameReasons(state, r.state) && BarEvents(r.state, r.events)
  {
    hide EntryPhase, ExitPhase, ValidityEnd, LastMinute;
    EntryKeeps(state, bar, signal, ctx);
    ExitKeeps(state, bar, signal, ctx, false);
    var phase := if state.status.Pending? then EntryPhase(state, bar, signal, ctx) else ExitPhase(state, bar, signal, ctx, false);
    ValidityEndKeeps(phase.state.(lastBarTs := Some(bar.ts)), bar, ctx);
  }

  lemma MirroredKeeps(r: StepResult)
    requires BarEvents(r.state, r.events)
    ensures BarEvents(Mirrored(r).state, Mirrored(r).events)
  {
    var m := Mirrored(r);
    forall e | e in m.events
      ensures (e.kind.Market() || e.kind.OrderExpired?) && (e.kind.OrderExpired? || e.kind.TimeExit? ==> m.state.Final())
    {
      var i :| 0 <= i < |m.events| && m.events[i] == e;
      assert r.events[i] in r.events && e == MirrorEvent(r.events[i]);
    }
  }

  lemma StepKeeps(state: OrderState, bar: Bar, ctx: OrderContext)
    ensures var r := Step(state, bar, ctx);
            && SameReasons(state, r.state) && BarEvents(r.state, r.events)
            && (state.Final() ==> r == StepResult(state, []))
  {
    if !Skips(state, bar, ctx) {
      if ctx.signal.direction.Long? {
        LongStepKeeps(state, bar, ctx.signal, ctx);
      } else {
        LongStepKeeps(MirrorState(state), MirrorBar(bar), MirrorSignal(ctx.signal), ctx);
        MirroredKeeps(LongStep(MirrorState(state), MirrorBar(bar), MirrorSignal(ctx.signal), ctx));
      }
      hide LongStep, Skips;
    }
  }

  lemma {:induction false} FoldKeeps(state: OrderState, bars: seq<Bar>, ctx: OrderContext)
    ensures var r := Fold(state, bars, ctx);
            && SameReasons(state, r.state) && BarEvents(r.state, r.events)
            && (state.Final() ==> r == StepResult(state, []))
    decreases |bars|
  {
    hide Step;
    if bars != [] {
      StepKeeps(state, bars[0], ctx);
      FoldKeeps(Step(state, bars[0], ctx).state, bars[1..], ctx);
    }
  }

  lemma BarsAreReflected(state: OrderState, bars: seq<Bar>, ctx: OrderContext)
    ensures var r := RunBars(state, bars, ctx);
            Onward(state, r.state) && NoDividends(r.events) && forall e :: e in r.events ==> Reflected(r.state, e.key, e)
  {
    FoldKeeps(state, SortBy(bars, BarTs), ctx);
    hide Fold, SortBy;
  }

  // ---- commands -------------------------------------------------------------------------------------------------

  lemma SegmentsKeepV1(ctx: OrderContext, state: OrderState, known: Known, bars: seq<Bar>)
    requires Coupled()(state, known)
    ensures SegmentsKeep(V1, ctx, Coupled(), state, known, bars)
  {
    BarsAreReflected(state, bars, ctx);
    var r := RunBars(state, bars, ctx);
    hide RunBars, Coupled, Reflected, Onward, NoDividends;
    if Dedupe(known, r.events, ctx.start).Fresh? { CoupledAfter(state, known, r, ctx.start); }
  }

  /** If a command's first event is not yet recorded it is the head; if it is, the command had already happened. */
  lemma FirstFresh(known: Known, events: seq<Event>, start: int)
    requires events != [] && events[0].key !in known && Dedupe(known, events, start).Fresh?
    ensures Dedupe(known, events, start).events != [] && Dedupe(known, events, start).events[0] == events[0]
  {
  }

  lemma FirstRecorded(known: Known, e: Event, start: int)
    requires e.key in known && Dedupe(known, [e], start).Fresh?
    ensures known[e.key] == e && Dedupe(known, [e], start).events == []
  {
    DedupeOne(known, e, start);
  }

  /** A single event that is either new, or was recorded by a command that left the state as it is. */
  lemma OneEventHeads(ctx: OrderContext, state: OrderState, known: Known, r: StepResult, bar: Option<Bar>)
    requires Coupled()(state, known) && |r.events| == 1 && Onward(state, r.state)
    requires Reflected(r.state, r.events[0].key, r.events[0])
    requires r.events[0].key in known && known[r.events[0].key] == r.events[0] ==> r.state == state
    requires !r.events[0].kind.Record() && ReplayHead(V1, ctx, state, r.events[0], bar) == Regenerated(r)
    requires r.events[0].kind.TimeExit? ==>
               bar.Some? && r.events[0].barTs == Some(bar.value.ts) && r.events[0].batch == Some(bar.value.batch)
    ensures HeadFirst(V1, ctx, Coupled(), state, known, r, bar)
  {
    var e := r.events[0];
    assert r.events == [e];
    hide ReplayHead, Coupled, Reflected, Onward;
    if Dedupe(known, r.events, ctx.start).Fresh? {
      CoupledAfter(state, known, r, ctx.start);
      if e.key in known { FirstRecorded(known, e, ctx.start); } else { DedupeOne(known, e, ctx.start); }
    }
  }

  lemma NothingHeads(ctx: OrderContext, state: OrderState, known: Known, bar: Option<Bar>)
    requires Coupled()(state, known)
    ensures HeadFirst(V1, ctx, Coupled(), state, known, StepResult(state, []), bar)
  {
  }

  /** A command whose first event cannot have been recorded yet is replayed from that event. */
  lemma NewEventHeads(ctx: OrderContext, state: OrderState, known: Known, r: StepResult, bar: Option<Bar>)
    requires Coupled()(state, known) && r.events != [] && Onward(state, r.state)
    requires forall e :: e in r.events ==> Reflected(r.state, e.key, e)
    requires r.events[0].key in known ==> known[r.events[0].key] != r.events[0]
    requires !r.events[0].kind.Record() && ReplayHead(V1, ctx, state, r.events[0], bar) == Regenerated(r)
    requires r.events[0].kind.TimeExit? ==>
               bar.Some? && r.events[0].barTs == Some(bar.value.ts) && r.events[0].batch == Some(bar.value.batch)
    ensures HeadFirst(V1, ctx, Coupled(), state, known, r, bar)
  {
    hide ReplayHead, Coupled, Reflected, Onward;
    if Dedupe(known, r.events, ctx.start).Fresh? {
      CoupledAfter(state, known, r, ctx.start);
      FirstFresh(known, r.events, ctx.start);
    }
  }

  lemma CancelHeads(ctx: OrderContext, state: OrderState, known: Known, at: int, who: string)
    requires Coupled()(state, known)
    ensures HeadFirst(V1, ctx, Coupled(), state, known, V1.cancel(state, at, who), None)
  {
    if state.Final() {
      NothingHeads(ctx, state, known, None);
    } else {
      OneEventHeads(ctx, state, known, Cancel(state, at, who), None);
    }
  }

  lemma ReviewHeads(ctx: OrderContext, state: OrderState, known: Known, reason: string, ref: string)
    requires Coupled()(state, known)
    ensures HeadFirst(V1, ctx, Coupled(), state, known, V1.flagReview(state, reason, ref), None)
    ensures NoDividends(V1.flagReview(state, reason, ref).events)
  {
    var r := FlagReview(state, reason, ref);
    var e := ReviewEvent(reason, ref);
    if e.key in known && known[e.key] == e { assert Reflected(state, e.key, known[e.key]); }
    OneEventHeads(ctx, state, known, r, None);
  }

  lemma FreezeHeads(ctx: OrderContext, state: OrderState, known: Known, reason: string, ref: string)
    requires Coupled()(state, known)
    ensures HeadFirst(V1, ctx, Coupled(), state, known, V1.freeze(state, reason, ref), None)
    ensures NoDividends(V1.freeze(state, reason, ref).events)
  {
    hide Coupled, Reflected, Onward, HeadFirst;
    var r := Freeze(state, reason, ref);
    if r.events == [] {
      NothingHeads(ctx, state, known, None);
    } else {
      FreezeShape(state, reason, ref);
      FreezeIsNew(state, known, reason, ref);
      NewEventHeads(ctx, state, known, r, None);
    }
  }

  lemma FreezeShape(state: OrderState, reason: string, ref: string)
    requires Freeze(state, reason, ref).events != []
    ensures var r := Freeze(state, reason, ref);
            && Onward(state, r.state) && (forall e :: e in r.events ==> Reflected(r.state, e.key, e))
            && r.events[0].kind.OrderFrozen? && r.events[0].payload == ReasonPayload(reason, ref)
            && !state.Final() && !(state.frozen && reason in state.frozenReasons)
  {
  }

  /** A freeze that is already recorded has frozen the order for its reason. */
  lemma FreezeIsNew(state: OrderState, known: Known, reason: string, ref: string)
    requires Coupled()(state, known) && Freeze(state, reason, ref).events != []
    ensures var e := Freeze(state, reason, ref).events[0];
            e.key in known ==> known[e.key] != e
  {
    var e := Freeze(state, reason, ref).events[0];
    assert e.key in known ==> Reflected(state, e.key, known[e.key]);
  }

  lemma DividendHeads(ctx: OrderContext, state: OrderState, known: Known, exDate: int, amount: real, validated: bool)
    requires Coupled()(state, known) && NoDividendFor(known, exDate)
    ensures HeadFirst(V1, ctx, Coupled(), state, known, V1.applyDividend(state, ctx, exDate, amount, validated), None)
    ensures DividendsOnlyFor(V1.applyDividend(state, ctx, exDate, amount, validated).events, exDate)
  {
    var r := ApplyDividend(state, ctx, exDate, amount, validated);
    if r.events == [] {
      NothingHeads(ctx, state, known, None);
    } else if !validated {
      ReviewHeads(ctx, state, known, "DIVIDEND_UNVERIFIED", Text(exDate));
    } else {
      OneEventHeads(ctx, state, known, r, None);
    }
  }

  lemma ValidityHeads(ctx: OrderContext, state: OrderState, known: Known, bar: Option<Bar>, now: int)
    requires Coupled()(state, known) && V1.applyValidityEnd(state, ctx, bar, now).Some?
    ensures HeadFirst(V1, ctx, Coupled(), state, known, V1.applyValidityEnd(state, ctx, bar, now).value, bar)
  {
    var r := ApplyValidityEnd(state, ctx, bar, now).value;
    if now < ctx.until || state.Final() || state.frozen {
      NothingHeads(ctx, state, known, bar);
    } else if state.status.Pending? {
      OneEventHeads(ctx, state, known, r, bar);
    } else if bar.None? {
      ReviewHeads(ctx, state, known, "NO_EXIT_BAR", Text(ctx.until));
    } else {
      TimeOutHeads(ctx, state, known, bar.value, now, r);
    }
  }

  lemma TimeOutHeads(ctx: OrderContext, state: OrderState, known: Known, bar: Bar, now: int, r: StepResult)
    requires Coupled()(state, known) && now >= ctx.until && !state.Final() && !state.frozen && !state.status.Pending?
    requires ApplyValidityEnd(state, ctx, Some(bar), now) == Some(r)
    ensures HeadFirst(V1, ctx, Coupled(), state, known, r, Some(bar))
  {
    TimeOutShape(ctx, state, bar, now, r);
    var e := r.events[0];
    assert e.key in known ==> Reflected(state, e.key, known[e.key]);
    assert ReplayHead(V1, ctx, state, e, Some(bar)) == Regenerated(r) by { hide TimeOut, Mirrored; }
    hide ApplyValidityEnd, ReplayHead, Coupled;
    NewEventHeads(ctx, state, known, r, Some(bar));
  }

  /** A time exit closes the order on the given bar; a review flag may follow it. */
  lemma TimeOutShape(ctx: OrderContext, state: OrderState, bar: Bar, now: int, r: StepResult)
    requires now >= ctx.until && !state.Final() && !state.frozen && !state.status.Pending?
    requires ApplyValidityEnd(state, ctx, Some(bar), now) == Some(r)
    ensures r.events != [] && r.events[0].kind.TimeExit? && r.events[0].barTs == Some(bar.ts) && r.events[0].batch == Some(bar.batch)
    ensures r.state.Final() && Onward(state, r.state)
    ensures forall e :: e in r.events ==> Reflected(r.state, e.key, e)
  {
    hide TimeOut, Mirrored, LastMinute, FlagReview, Onward, Reflected;
    var ended := if ctx.signal.direction.Long? then TimeOut(state, bar, ctx) else Mirrored(TimeOut(MirrorState(state), MirrorBar(bar), ctx));
    EndedShape(ctx, state, bar);
    FlagKeeps(ended.state, "STALE_EXIT_BAR", Text(ctx.until));
    var flagged := FlagReview(ended.state, "STALE_EXIT_BAR", Text(ctx.until));
    OnwardThen(state, ended.state, flagged.state);
    forall e | e in ended.events ensures Reflected(flagged.state, e.key, e) {
      ReflectedOnward(ended.state, flagged.state, e.key, e);
    }
  }

  lemma EndedShape(ctx: OrderContext, state: OrderState, bar: Bar)
    ensures var ended := if ctx.signal.direction.Long? then TimeOut(state, bar, ctx)
                         else Mirrored(TimeOut(MirrorState(state), MirrorBar(bar), ctx));
            && |ended.events| == 1 && ended.events[0].kind.TimeExit?
            && ended.events[0].barTs == Some(bar.ts) && ended.events[0].batch == Some(bar.batch)
            && ended.state.Final() && Onward(state, ended.state)
            && forall e :: e in ended.events ==> Reflected(ended.state, e.key, e)
  {
    hide ExecutionCost, AdverseSell, Carried;
  }

  lemma FlagKeeps(state: OrderState, reason: string, ref: string)
    ensures var r := FlagReview(state, reason, ref);
            && Onward(state, r.state) && r.state.Final() == state.Final()
            && forall e :: e in r.events ==> Reflected(r.state, e.key, e)
  {
  }

  lemma OnwardThen(a: OrderState, b: OrderState, c: OrderState)
    requires Onward(a, b) && Onward(b, c)
    ensures Onward(a, c)
  {
  }

  /** v1 records creation as one event that re-creates the order. */
  lemma CreationReplaysV1(ctx: OrderContext, inherited: Option<GatingState>, extra: map<string, string>)
    requires ctx.Valid()
    ensures CreationReplays(V1, ctx, Coupled(), inherited, extra)
  {
    hide SessionCalendar.Window, SessionCalendar.Expected;
  }

  lemma RecordKeeps(state: OrderState, known: Known, e: Event)
    requires Coupled()(state, known) && e.kind.Record()
    ensures Coupled()(state, known[e.key := e])
  {
  }

  lemma CoupledIsKeyed(state: OrderState, known: Known)
    requires Coupled()(state, known)
    ensures KeyedDividends(known)
  {
    forall k | k in known ensures Reflected(state, k, known[k]) {}
  }

  /** The repository's own fill model meets the contract the ledger's theorems ask for. */
  lemma V1IsWellBehaved()
    ensures WellBehaved(V1, Coupled())
  {
    hide CreationReplays, HeadFirst, SegmentsKeep, KeyedDividends, NoDividendFor, DividendsOnlyFor, NoDividends,
         OrderContext.Valid, Coupled, EventType.Record;
    forall ctx: OrderContext, inherited, extra | ctx.Valid() ensures CreationReplays(V1, ctx, Coupled(), inherited, extra) {
      CreationReplaysV1(ctx, inherited, extra);
    }
    forall s, k | Coupled()(s, k) ensures KeyedDividends(k) { CoupledIsKeyed(s, k); }
    forall s, k, e: Event | Coupled()(s, k) && e.kind.Record() && e.key !in k ensures Coupled()(s, k[e.key := e]) {
      RecordKeeps(s, k, e);
    }
    forall ctx: OrderContext, s, k, bars | ctx.Valid() && Coupled()(s, k) ensures SegmentsKeep(V1, ctx, Coupled(), s, k, bars) {
      SegmentsKeepV1(ctx, s, k, bars);
    }
    forall ctx: OrderContext, s, k, at, who | ctx.Valid() && Coupled()(s, k)
      ensures HeadFirst(V1, ctx, Coupled(), s, k, V1.cancel(s, at, who), None)
    {
      CancelHeads(ctx, s, k, at, who);
    }
    forall ctx: OrderContext, s, k, reason, ref | ctx.Valid() && Coupled()(s, k)
      ensures HeadFirst(V1, ctx, Coupled(), s, k, V1.freeze(s, reason, ref), None) && NoDividends(V1.freeze(s, reason, ref).events)
    {
      FreezeHeads(ctx, s, k, reason, ref);
    }
    forall ctx: OrderContext, s, k, reason, ref | ctx.Valid() && Coupled()(s, k)
      ensures HeadFirst(V1, ctx, Coupled(), s, k, V1.flagReview(s, reason, ref), None) && NoDividends(V1.flagReview(s, reason, ref).events)
    {
      ReviewHeads(ctx, s, k, reason, ref);
    }
    forall ctx: OrderContext, s, k, exDate, amount, validated | ctx.Valid() && Coupled()(s, k) && NoDividendFor(k, exDate)
      ensures HeadFirst(V1, ctx, Coupled(), s, k, V1.applyDividend(s, ctx, exDate, amount, validated), None)
      ensures DividendsOnlyFor(V1.applyDividend(s, ctx, exDate, amount, validated).events, exDate)
    {
      DividendHeads(ctx, s, k, exDate, amount, validated);
    }
    forall ctx: OrderContext, s, k, bar, now | ctx.Valid() && Coupled()(s, k) && V1.applyValidityEnd(s, ctx, bar, now).Some?
      ensures HeadFirst(V1, ctx, Coupled(), s, k, V1.applyValidityEnd(s, ctx, bar, now).value, bar)
    {
      ValidityHeads(ctx, s, k, bar, now);
    }
  }
}
