/** What the laws of stopped and of recalculated orders ask of a fill model, and that the v1 engine gives it. */
module FillV1Contracts {
  import opened Prelude
  import opened BarStore
  import opened Domain
  import opened FillV1
  import opened FillV1Accounts
  import opened StoppedOrders
  import opened RecalculationLaws

  lemma CancelHolds(s: OrderState, at: int, who: string)
    ensures Held(s, Cancel(s, at, who).state)
  {
  }

  lemma FreezeHoldsV1(s: OrderState, reason: string, ref: string)
    ensures Held(s, Freeze(s, reason, ref).state) && Halted(Freeze(s, reason, ref).state)
    ensures Held(s, FlagReview(s, reason, ref).state)
  {
    hide ReviewEvent;
  }

  lemma DividendHolds(s: OrderState, ctx: OrderContext, exDate: int, amount: real, validated: bool)
    ensures Held(s, ApplyDividend(s, ctx, exDate, amount, validated).state)
  {
    hide FlagReview;
    HeldItself(s);
  }

  lemma ValidityHolds(s: OrderState, ctx: OrderContext, bar: Option<Bar>, now: int)
    ensures ApplyValidityEnd(s, ctx, bar, now).Some? ==> Held(s, ApplyValidityEnd(s, ctx, bar, now).value.state)
  {
    hide TimeOut, Expire, LastMinute, FlagReview, Mirrored, MirrorState, MirrorBar, Then;
    HeldItself(s);
  }

  lemma V1StandsStill()
    ensures StandsStill(V1)
  {
    hide Held, Halted, Cancel, Freeze, FlagReview, ApplyDividend, ApplyValidityEnd, NewOrderState, RunBars;
    forall s: OrderState, at, who ensures Held(s, V1.cancel(s, at, who).state) { CancelHolds(s, at, who); }
    forall s: OrderState, reason, ref
      ensures Held(s, V1.freeze(s, reason, ref).state) && Halted(V1.freeze(s, reason, ref).state)
      ensures Held(s, V1.flagReview(s, reason, ref).state)
    { FreezeHoldsV1(s, reason, ref); }
    forall s: OrderState, ctx, exDate, amount, validated ensures Held(s, V1.applyDividend(s, ctx, exDate, amount, validated).state) {
      DividendHolds(s, ctx, exDate, amount, validated);
    }
    forall s: OrderState, ctx, bar, now | V1.applyValidityEnd(s, ctx, bar, now).Some?
      ensures Held(s, V1.applyValidityEnd(s, ctx, bar, now).value.state)
    {
      ValidityHolds(s, ctx, bar, now);
    }
  }

  lemma CutIsIrrelevant(state: OrderState, a: seq<Bar>, b: seq<Bar>, ctx: OrderContext)
    requires forall x, y :: x in a && y in b ==> x.ts <= y.ts
    ensures RunBars(RunBars(state, a, ctx).state, b, ctx).state == RunBars(state, a + b, ctx).state
  {
    hide Fold, SortBy;
    SortByConcat(a, b, BarTs);
    FoldConcat(state, SortBy(a, BarTs), SortBy(b, BarTs), ctx);
  }

  lemma V1IsFoldable()
    ensures Foldable(V1)
  {
    hide RunBars;
    forall state, a: seq<Bar>, b: seq<Bar>, ctx | forall x, y :: x in a && y in b ==> x.ts <= y.ts
      ensures V1.runBars(V1.runBars(state, a, ctx).state, b, ctx).state == V1.runBars(state, a + b, ctx).state
    {
      CutIsIrrelevant(state, a, b, ctx);
    }
  }
}
