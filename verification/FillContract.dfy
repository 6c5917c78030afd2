/** What the ledger needs from a fill model: replaying a command from its first recorded event repeats it. */
module FillContract {
  import opened Prelude
  import opened BarStore
  import opened Domain
  import opened Events
  import opened History

  /** A model's own relation between an order's state and the events already recorded for it. */
  type Coupling = (OrderState, Known) -> bool

  /**
   * Head-first replay. Recording the result `r` of a command from `state` keeps the coupling; if nothing fresh was
   * recorded the state did not change; otherwise the first fresh event names enough to run the same command again.
   */
  ghost predicate HeadFirst(m: FillModel, ctx: OrderContext, coupled: Coupling, state: OrderState, known: Known,
                            r: StepResult, bar: Option<Bar>)
  {
    var d := Dedupe(known, r.events, ctx.start);
    d.Fresh? ==>
      && coupled(r.state, d.known)
      && (d.events == [] ==> r.state == state)
      && (d.events != [] ==>
            var head := d.events[0];
            && !head.kind.Record()
            && ReplayHead(m, ctx, state, head, bar) == Regenerated(r)
            && (head.kind.TimeExit? ==> bar.Some? && head.barTs == Some(bar.value.ts) && head.batch == Some(bar.value.batch)))
  }

  /** No dividend of this ex-date has been recorded. */
  ghost predicate NoDividendFor(known: Known, exDate: int) {
    forall k :: k in known && known[k].kind.DividendPaid? && known[k].payload.DividendPayload?
                ==> known[k].payload.exDate != exDate
  }

  /** Recorded dividends carry their ex-date, in the payload and in the key. */
  ghost predicate KeyedDividends(known: Known) {
    forall k :: k in known && known[k].kind.DividendPaid? ==>
      known[k].payload.DividendPayload? && k == DividendKey(known[k].payload.exDate)
  }

  ghost predicate DividendsOnlyFor(events: seq<Event>, exDate: int) {
    forall e :: e in events && e.kind.DividendPaid? ==> e.payload.DividendPayload? && e.payload.exDate == exDate
  }

  ghost predicate NoDividends(events: seq<Event>) {
    forall e :: e in events ==> !e.kind.DividendPaid?
  }

  /** Creation records one ORDER_CREATED event carrying what re-creates the order, and the calendar window's identity. */
  ghost predicate CreationReplays(m: FillModel, ctx: OrderContext, coupled: Coupling,
                                  inherited: Option<GatingState>, extra: map<string, string>)
    requires ctx.Valid()
  {
    var r := m.newOrderState(ctx, inherited, extra);
    r.Some? ==>
      && |r.value.events| == 1
      && var e := r.value.events[0];
      && e.kind == OrderCreated && e.key == "ORDER_CREATED" && e.payload.CreatedPayload?
      && e.payload.inherited == inherited && e.payload.extra == extra
      && e.payload.window == ctx.calendar.Window(ctx.start, ctx.until)
      && coupled(r.value.state, map[e.key := e])
  }

  ghost predicate SegmentsKeep(m: FillModel, ctx: OrderContext, coupled: Coupling, state: OrderState, known: Known, bars: seq<Bar>)
  {
    var r := m.runBars(state, bars, ctx);
    && NoDividends(r.events)
    && (Dedupe(known, r.events, ctx.start).Fresh? ==> coupled(r.state, Dedupe(known, r.events, ctx.start).known))
  }

  ghost predicate WellBehaved(m: FillModel, coupled: Coupling) {
    && (forall ctx: OrderContext, inherited, extra :: ctx.Valid() ==> CreationReplays(m, ctx, coupled, inherited, extra))
    && (forall s, k :: coupled(s, k) ==> KeyedDividends(k))
    && (forall s, k, e: Event :: coupled(s, k) && e.kind.Record() && e.key !in k ==> coupled(s, k[e.key := e]))
    && (forall ctx: OrderContext, s, k, bars :: ctx.Valid() && coupled(s, k) ==> SegmentsKeep(m, ctx, coupled, s, k, bars))
    && (forall ctx: OrderContext, s, k, at, who :: ctx.Valid() && coupled(s, k) ==> HeadFirst(m, ctx, coupled, s, k, m.cancel(s, at, who), None))
    && (forall ctx: OrderContext, s, k, reason, ref :: ctx.Valid() && coupled(s, k) ==>
          HeadFirst(m, ctx, coupled, s, k, m.freeze(s, reason, ref), None) && NoDividends(m.freeze(s, reason, ref).events))
    && (forall ctx: OrderContext, s, k, reason, ref :: ctx.Valid() && coupled(s, k) ==>
          HeadFirst(m, ctx, coupled, s, k, m.flagReview(s, reason, ref), None) && NoDividends(m.flagReview(s, reason, ref).events))
    && (forall ctx: OrderContext, s, k, exDate, amount, validated :: ctx.Valid() && coupled(s, k) && NoDividendFor(k, exDate) ==>
          && HeadFirst(m, ctx, coupled, s, k, m.applyDividend(s, ctx, exDate, amount, validated), None)
          && DividendsOnlyFor(m.applyDividend(s, ctx, exDate, amount, validated).events, exDate))
    && (forall ctx: OrderContext, s, k, bar, now :: ctx.Valid() && coupled(s, k) && m.applyValidityEnd(s, ctx, bar, now).Some? ==>
          HeadFirst(m, ctx, coupled, s, k, m.applyValidityEnd(s, ctx, bar, now).value, bar))
  }
}
