/** What a quarantine and an order's end leave behind: over every later run of the platform, the order's trade stays as it is. */
module StoppedOrders {
  import opened Prelude
  import opened BarStore
  import opened Domain
  import opened Events
  import opened History
  import opened HistoryLaws
  import opened FillContract
  import opened Ledger
  import opened Writers
  import opened Replay
  import opened Database
  import opened FrozenReads

  ghost predicate Ended(state: OrderState) { !state.status.Pending? && !state.status.Open? && !state.status.PartiallyClosed? }

  ghost predicate Halted(state: OrderState) { state.frozen || Ended(state) }

  /**
   * A stopped order stays stopped with the same trade: position, prices, profit, costs, dividends and marks are untouched. A
   * frozen one can still be canceled and collect reasons; an ended one can only be flagged for review.
   */
  ghost predicate Held(a: OrderState, b: OrderState) {
    Halted(a) ==>
      && Halted(b) && (a.frozen ==> b.frozen)
      && b == a.(status := b.status, finalEventTs := b.finalEventTs, frozen := b.frozen, frozenReasons := b.frozenReasons,
                 reviewReasons := b.reviewReasons)
      && (b.status.Canceled? || (b.status == a.status && b.finalEventTs == a.finalEventTs))
      && (Ended(a) ==> b == a.(reviewReasons := b.reviewReasons))
  }

  lemma HeldThen(a: OrderState, b: OrderState, c: OrderState)
    requires Held(a, b) && Held(b, c)
    ensures Held(a, c)
  {
  }

  /** A model that lets a stopped order stand still: no command moves its trade, and a freeze stops it. */
  ghost predicate StandsStill(m: FillModel) {
    && (forall s, at, who :: Held(s, m.cancel(s, at, who).state))
    && (forall s, reason, ref :: Held(s, m.freeze(s, reason, ref).state) && Halted(m.freeze(s, reason, ref).state))
    && (forall s, reason, ref :: Held(s, m.flagReview(s, reason, ref).state))
    && (forall s, ctx, exDate, amount, validated :: Held(s, m.applyDividend(s, ctx, exDate, amount, validated).state))
    && (forall s, ctx, bar, now :: m.applyValidityEnd(s, ctx, bar, now).Some? ==> Held(s, m.applyValidityEnd(s, ctx, bar, now).value.state))
  }

  lemma PartHolds(m: FillModel, ctx: OrderContext, state: OrderState, part: Part, r: StepResult)
    requires StandsStill(m) && RunPart(m, ctx, state, part) == Some(r)
    ensures Held(state, r.state)
  {
    HeldItself(state);
    hide Held, Halted;
  }

  lemma {:induction false} PartsHold(m: FillModel, ctx: OrderContext, state: OrderState, parts: seq<Part>, r: StepResult)
    requires StandsStill(m) && RunParts(m, ctx, state, parts) == Some(r)
    ensures Held(state, r.state)
    decreases |parts|
  {
    hide RunPart, Held, StandsStill;
    if parts == [] {
      HeldItself(state);
    } else {
      var first := RunPart(m, ctx, state, parts[0]).value;
      var rest := RunParts(m, ctx, first.state, parts[1..]).value;
      PartHolds(m, ctx, state, parts[0], first);
      PartsHold(m, ctx, first.state, parts[1..], rest);
      HeldThen(state, first.state, rest.state);
    }
  }

  lemma HeldItself(state: OrderState)
    ensures Held(state, state)
  {
  }

  // ---- one order's file --------------------------------------------------------------------------------------

  /** The same order in two markets: what its log regenerates to was held, and its row is the same. */
  ghost predicate FileHeld(m: FillModel, before: Market, f: OrderFile, after: Market, g: OrderFile) {
    && f.order == g.order && f.order.terms.context.Valid()
    && var o, p := Regenerate(m, f.order.terms, before, f.rows, f.segments), Regenerate(m, g.order.terms, after, g.rows, g.segments);
    o.Regenerated? && p.Regenerated? && Held(o.value.state, p.value.state)
  }

  lemma FileHeldThen(m: FillModel, a: Market, f: OrderFile, b: Market, g: OrderFile, c: Market, h: OrderFile)
    requires FileHeld(m, a, f, b, g) && FileHeld(m, b, g, c, h)
    ensures FileHeld(m, a, f, c, h)
  {
    var o, p := Regenerate(m, f.order.terms, a, f.rows, f.segments), Regenerate(m, g.order.terms, b, g.rows, g.segments);
    var q := Regenerate(m, h.order.terms, c, h.rows, h.segments);
    HeldThen(o.value.state, p.value.state, q.value.state);
    hide *;
  }

  ghost predicate Right(m: FillModel, coupled: Coupling, market: Market, f: OrderFile) { Honest(m, coupled, market, f) }

  lemma RightRegenerates(m: FillModel, coupled: Coupling, market: Market, f: OrderFile)
    requires Right(m, coupled, market, f)
    ensures f.order.terms.context.Valid() && f.order.terms.context.calendar.sessions != []
    ensures RegenerateRows(SourceOf(m, market, f)).Regenerated?
    ensures var o := Regenerate(m, f.order.terms, market, f.rows, f.segments);
            o.Regenerated? && o.value.state == Regained(m, market, f)
    ensures f.projection.Some? ==> f.projection.value.state == Regained(m, market, f)
  {
    hide *;
    RightIsHonest(m, coupled, market, f);
    HonestIsValid(m, coupled, market, f);
    RegeneratesHere(m, coupled, market, f);
    if f.projection.Some? { CachedIsRegained(m, coupled, market, f); }
  }

  lemma RightIsHonest(m: FillModel, coupled: Coupling, market: Market, f: OrderFile)
    requires Right(m, coupled, market, f)
    ensures Honest(m, coupled, market, f)
  {
    hide Honest;
  }

  /** Two right files of one order in one market: the regenerated states decide. */
  lemma HeldInPlace(m: FillModel, coupled: Coupling, market: Market, f: OrderFile, g: OrderFile)
    requires Right(m, coupled, market, f) && Right(m, coupled, market, g) && f.order == g.order
    requires f.projection.Some? && g.projection.Some? && Held(f.projection.value.state, g.projection.value.state)
    ensures FileHeld(m, market, f, market, g)
  {
    hide *;
    RightRegenerates(m, coupled, market, f);
    RightRegenerates(m, coupled, market, g);
    FileHeldIs(m, market, f, market, g);
  }

  lemma FileHeldIs(m: FillModel, before: Market, f: OrderFile, after: Market, g: OrderFile)
    requires f.order == g.order && f.order.terms.context.Valid()
    requires var o, p := Regenerate(m, f.order.terms, before, f.rows, f.segments), Regenerate(m, g.order.terms, after, g.rows, g.segments);
             o.Regenerated? && p.Regenerated? && Held(o.value.state, p.value.state)
    ensures FileHeld(m, before, f, after, g)
  {
    hide Regenerate, Held, OrderContext.Valid;
  }

  lemma SameLogHeld(m: FillModel, coupled: Coupling, market: Market, f: OrderFile, g: OrderFile)
    requires Right(m, coupled, market, f) && g.order == f.order && g.rows == f.rows && g.segments == f.segments
    ensures FileHeld(m, market, f, market, g)
  {
    hide *;
    RightRegenerates(m, coupled, market, f);
    HeldItself(Regained(m, market, f));
    FileHeldIs(m, market, f, market, g);
  }

  /** A market that grew regenerates the same. */
  lemma GrownHeld(m: FillModel, coupled: Coupling, before: Market, after: Market, f: OrderFile)
    requires Right(m, coupled, before, f) && Grew(before, after)
    ensures Right(m, coupled, after, f) && FileHeld(m, before, f, after, f)
  {
    hide Honest, Regenerate, Held, RegenerateRows;
    var later := after.batches[|before.batches|..];
    assert MarketGrows(before, after, later) by {
      assert after.batches == before.batches + later;
      forall b, r | b in later && r in before.runs ensures before.runs[r] < b.ingestedAt {
        var i :| 0 <= i < |later| && later[i] == b;
        assert after.batches[|before.batches| + i] == b;
      }
    }
    HonestStable(m, coupled, before, after, later, f);
    RightRegenerates(m, coupled, before, f);
    RightRegenerates(m, coupled, after, f);
    HeldItself(Regained(m, before, f));
    FileHeldIs(m, before, f, after, f);
  }

  // ---- the transactions of one order ----------------------------------------------------------------------------

  lemma EvaluationHolds(m: FillModel, coupled: Coupling, market: Market, f: OrderFile, runId: nat, marketNow: int, close: bool, g: OrderFile)
    requires WellBehaved(m, coupled)
    requires Right(m, coupled, market, f) && f.order.terms.context.Valid()
    requires Evaluate(m, market, f, runId, marketNow, close) == Written(g)
    ensures Right(m, coupled, market, g) && FileHeld(m, market, f, market, g)
  {
    hide *;
        RightIsHonest(m, coupled, market, f);
    var start, minutes, bars, barTo, hash, r, d := EvaluatedParts(m, market, f, runId, marketNow, close, g);
    EvaluateKeepsHonest(m, coupled, market, f, runId, marketNow, close, g);
    HonestIsRight(m, coupled, market, g);
    AppliedState(f, f.projection.value.nextSeq, r, d.events,
                 [SegmentRow(runId, minutes[0], barTo, hash, f.projection.value.nextSeq, |d.events|)], g);
    RunningIsHeld(f.projection.value.state, r.state);
    HeldInPlace(m, coupled, market, f, g);
  }

  lemma HonestIsRight(m: FillModel, coupled: Coupling, market: Market, f: OrderFile)
    requires Honest(m, coupled, market, f)
    ensures Right(m, coupled, market, f)
  {
    hide Honest;
  }

  lemma RunningIsHeld(a: OrderState, b: OrderState)
    requires !a.Final() && !a.frozen
    ensures Held(a, b)
  {
  }

  lemma AppliedState(f: OrderFile, nextSeq: nat, r: StepResult, events: seq<Event>, segments: seq<SegmentRow>, g: OrderFile)
    requires ApplyResult(f, nextSeq, r, events, segments) == Written(g)
    ensures g.order == f.order && g.projection.Some? && g.projection.value.state == r.state
  {
  }

  lemma CommandHolds(m: FillModel, coupled: Coupling, market: Market, f: OrderFile, c: Command, g: OrderFile)
    requires WellBehaved(m, coupled) && StandsStill(m)
    requires Right(m, coupled, market, f) && UniqueIds(market.batches) && ApplyCommand(m, market, f, c) == Written(g)
    ensures Right(m, coupled, market, g) && FileHeld(m, market, f, market, g)
  {
    hide *;
        RightIsHonest(m, coupled, market, f);
    var parts, r, d := CommandParts(m, market, f, c, g);
    CommandWriteKeepsHonest(m, coupled, market, f, c, g);
    HonestIsRight(m, coupled, market, g);
    AppliedState(f, f.projection.value.nextSeq, r, d.events, [], g);
    PartsHold(m, f.order.terms.context, f.projection.value.state, parts, r);
    HeldInPlace(m, coupled, market, f, g);
  }

  lemma FreezeHolds(m: FillModel, coupled: Coupling, market: Market, f: OrderFile, kind: string, g: OrderFile)
    requires WellBehaved(m, coupled) && StandsStill(m)
    requires Right(m, coupled, market, f) && FreezeStep(m, f, kind) == Written(g)
    ensures Right(m, coupled, market, g) && FileHeld(m, market, f, market, g)
    ensures g.projection.Some? && Halted(g.projection.value.state)
  {
    hide *;
        RightIsHonest(m, coupled, market, f);
    FreezeKeepsHonest(m, coupled, market, f, kind, g);
    HonestIsRight(m, coupled, market, g);
    var r := FreezeParts(m, f, kind, g);
    var d := AppliedParts(f, r, g);
    AppliedState(f, f.projection.value.nextSeq, r, d.events, [], g);
    HeldInPlace(m, coupled, market, f, g);
  }

  lemma FreezeParts(m: FillModel, f: OrderFile, kind: string, g: OrderFile) returns (r: StepResult)
    requires StandsStill(m) && FreezeStep(m, f, kind) == Written(g)
    ensures f.projection.Some? && ApplyTo(f, r) == Written(g) && Held(f.projection.value.state, r.state) && Halted(r.state)
  {
    hide ApplyTo;
    r := m.freeze(f.projection.value.state, "INTEGRITY", kind);
  }

  // ---- one step, any run ---------------------------------------------------------------------------------------

  ghost predicate Sane(m: FillModel, coupled: Coupling, db: Db) { Good(m, coupled, db) }

  lemma SaneFile(m: FillModel, coupled: Coupling, db: Db, id: nat)
    requires Sane(m, coupled, db) && id in db.files
    ensures Right(m, coupled, db.market, db.files[id])
  {
    hide *;
    SaneIsGood(m, coupled, db);
    GoodFile(m, coupled, db, id);
    HonestIsRight(m, coupled, db.market, db.files[id]);
  }

  lemma SaneIsGood(m: FillModel, coupled: Coupling, db: Db)
    requires Sane(m, coupled, db)
    ensures Good(m, coupled, db) && UniqueIds(db.market.batches)
  {
    GoodMarket(m, coupled, db);
    hide Good;
  }

  ghost predicate OrderHeld(m: FillModel, before: Db, after: Db, id: nat)
    requires id in before.files
  {
    id in after.files && FileHeld(m, before.market, before.files[id], after.market, after.files[id])
  }

  /** The quarantine of a transaction on an order: the freeze stops it, unless there is nothing to freeze or the freeze fails. */
  lemma QuarantineHolds(m: FillModel, coupled: Coupling, db: Db, id: nat, error: LedgerError)
    requires WellBehaved(m, coupled) && StandsStill(m) && Sane(m, coupled, db) && id in db.files
    ensures var after := Quarantine(m, db, id, error);
            && OrderHeld(m, db, after, id)
            && Incident(IntegrityError(error), Some(id)) in after.incidents
            && (forall i :: i in after.incidents ==>
                  i in db.incidents || i == Incident(IntegrityError(error), Some(id)) || i == Incident(FreezeFailed(error), Some(id)))
            && (forall i :: i in db.incidents ==> i in after.incidents)
            && (db.files[id].order.replay || db.files[id].projection.None? || Incident(FreezeFailed(error), Some(id)) in after.incidents
                || (after.files[id].projection.Some? && Halted(after.files[id].projection.value.state)))
  {
    hide WellBehaved, StandsStill, Sane, FreezeStep, KindOf, FileHeld, Halted;
    var f := db.files[id];
    SaneFile(m, coupled, db, id);
    SameLogHeld(m, coupled, db.market, f, f);
    var w := FreezeStep(m, f, KindOf(error));
    if w.Written? {
      FreezeHolds(m, coupled, db.market, f, KindOf(error), w.file);
    } else if w.Untouched? {
      FreezeUntouched(m, f, KindOf(error));
    }
  }

  lemma FreezeUntouched(m: FillModel, f: OrderFile, kind: string)
    requires FreezeStep(m, f, kind).Untouched?
    ensures f.order.replay || f.projection.None?
  {
    hide ApplyTo;
  }

  /** The order's log says it is stopped. */
  ghost predicate HaltedIn(m: FillModel, market: Market, f: OrderFile) {
    && f.order.terms.context.Valid()
    && var o := Regenerate(m, f.order.terms, market, f.rows, f.segments);
    o.Regenerated? && Halted(o.value.state)
  }

  /**
   * An integrity incident of an order is answered when the order is stopped. The exceptions are on record: a replay, a cache that
   * was missing, or a freeze that failed too.
   */
  ghost predicate Answered(m: FillModel, db: Db, i: Incident) {
    i.kind.IntegrityError? && i.order.Some? ==>
      var id := i.order.value;
      && id in db.files
      && (db.files[id].order.replay || i.kind.error == ProjectionMissing
          || Incident(FreezeFailed(i.kind.error), Some(id)) in db.incidents || HaltedIn(m, db.market, db.files[id]))
  }

  /** What one step keeps: every order is held, no incident is lost, and every new one is answered. */
  ghost predicate Stepped(m: FillModel, db: Db, after: Db) {
    && (forall id :: id in db.files ==> OrderHeld(m, db, after, id))
    && (forall i :: i in db.incidents ==> i in after.incidents)
    && (forall i :: i in after.incidents && i !in db.incidents ==> Answered(m, after, i))
  }

  lemma StoppedStays(m: FillModel, before: Market, f: OrderFile, after: Market, g: OrderFile)
    requires FileHeld(m, before, f, after, g)
    ensures HaltedIn(m, before, f) ==> HaltedIn(m, after, g)
  {
    hide Regenerate, OrderContext.Valid, Halted;
    hide Ended;
  }

  lemma AnsweredStays(m: FillModel, db: Db, after: Db, i: Incident)
    requires Stepped(m, db, after) && Answered(m, db, i)
    ensures Answered(m, after, i)
  {
    hide HaltedIn;
    if i.kind.IntegrityError? && i.order.Some? {
      var id := i.order.value;
      assert OrderHeld(m, db, after, id);
      OrderHeldParts(m, db, after, id);
      StoppedStays(m, db.market, db.files[id], after.market, after.files[id]);
    }
  }

  lemma OrderHeldParts(m: FillModel, db: Db, after: Db, id: nat)
    requires id in db.files && OrderHeld(m, db, after, id)
    ensures id in after.files && FileHeld(m, db.market, db.files[id], after.market, after.files[id])
    ensures after.files[id].order == db.files[id].order
  {
    hide Regenerate, OrderContext.Valid, Held;
  }

  lemma GuardedSteps(m: FillModel, coupled: Coupling, db: Db, id: nat, w: WriteResult)
    requires WellBehaved(m, coupled) && StandsStill(m) && Sane(m, coupled, db) && id in db.files
    requires w.Written? ==> FileHeld(m, db.market, db.files[id], db.market, w.file)
    requires w.WriteRefused? && db.files[id].projection.None? ==> w.error == ProjectionMissing
    ensures Stepped(m, db, Guarded(m, db, id, w))
  {
    hide WellBehaved, StandsStill, Sane, Quarantine, FileHeld, Halted, HaltedIn;
    var after := Guarded(m, db, id, w);
    GuardedMarket(m, db, id, w);
    GuardedOthers(m, db, id, w);
    forall other | other in db.files && other != id ensures OrderHeld(m, db, after, other) {
      SaneFile(m, coupled, db, other);
      SameLogHeld(m, coupled, db.market, db.files[other], db.files[other]);
    }
    if w.WriteRefused? {
      QuarantineHolds(m, coupled, db, id, w.error);
      QuarantineAnswers(m, coupled, db, id, w.error);
    } else {
      SaneFile(m, coupled, db, id);
      SameLogHeld(m, coupled, db.market, db.files[id], db.files[id]);
    }
  }

  lemma GuardedOthers(m: FillModel, db: Db, id: nat, w: WriteResult)
    requires id in db.files
    ensures forall other :: other in db.files && other != id ==>
              other in Guarded(m, db, id, w).files && Guarded(m, db, id, w).files[other] == db.files[other]
  {
    hide FreezeStep;
  }

  lemma QuarantineAnswers(m: FillModel, coupled: Coupling, db: Db, id: nat, error: LedgerError)
    requires WellBehaved(m, coupled) && StandsStill(m) && Sane(m, coupled, db) && id in db.files
    requires db.files[id].projection.None? ==> error == ProjectionMissing
    ensures var after := Quarantine(m, db, id, error);
            forall i :: i in after.incidents && i !in db.incidents ==> Answered(m, after, i)
  {
    hide WellBehaved, StandsStill, Sane, FreezeStep, KindOf, FileHeld, Halted, Regenerate, OrderContext.Valid;
    var f, after := db.files[id], Quarantine(m, db, id, error);
    QuarantineHolds(m, coupled, db, id, error);
    SaneFile(m, coupled, db, id);
    var w := FreezeStep(m, f, KindOf(error));
    if w.Written? {
      FreezeHolds(m, coupled, db.market, f, KindOf(error), w.file);
      RightRegenerates(m, coupled, db.market, w.file);
    } else if w.Untouched? {
      FreezeUntouched(m, f, KindOf(error));
    }
    OrderHeldParts(m, db, after, id);
  }

  lemma EvaluationSteps(m: FillModel, coupled: Coupling, db: Db, id: nat, runId: nat, marketNow: int, close: bool)
    requires WellBehaved(m, coupled) && StandsStill(m) && Sane(m, coupled, db) && id in db.files
    requires db.files[id].order.terms.context.Valid()
    ensures Stepped(m, db, Guarded(m, db, id, Evaluate(m, db.market, db.files[id], runId, marketNow, close)))
  {
    hide *;
    var w := Evaluate(m, db.market, db.files[id], runId, marketNow, close);
    SaneFile(m, coupled, db, id);
    if w.Written? { EvaluationHolds(m, coupled, db.market, db.files[id], runId, marketNow, close, w.file); }
    if db.files[id].projection.None? { EvaluationWithoutCache(m, db.market, db.files[id], runId, marketNow, close); }
    GuardedSteps(m, coupled, db, id, w);
  }

  lemma EvaluationWithoutCache(m: FillModel, market: Market, f: OrderFile, runId: nat, marketNow: int, close: bool)
    requires f.projection.None? && f.order.terms.context.Valid()
    ensures Evaluate(m, market, f, runId, marketNow, close) == WriteRefused(ProjectionMissing)
  {
    hide OrderContext.Valid, PlanWindow, SelectedDataHash, WriteSegment;
  }

  lemma CommandSteps(m: FillModel, coupled: Coupling, db: Db, id: nat, c: Command)
    requires WellBehaved(m, coupled) && StandsStill(m) && Sane(m, coupled, db) && id in db.files
    ensures Stepped(m, db, Guarded(m, db, id, ApplyCommand(m, db.market, db.files[id], c)))
  {
    hide *;
    var w := ApplyCommand(m, db.market, db.files[id], c);
    SaneFile(m, coupled, db, id);
    SaneIsGood(m, coupled, db);
    if w.Written? { CommandHolds(m, coupled, db.market, db.files[id], c, w.file); }
    if db.files[id].projection.None? { CommandWithoutCache(m, db.market, db.files[id], c); }
    GuardedSteps(m, coupled, db, id, w);
  }

  lemma CommandWithoutCache(m: FillModel, market: Market, f: OrderFile, c: Command)
    requires f.projection.None?
    ensures ApplyCommand(m, market, f, c) == if f.order.replay then WriteRaised else WriteRefused(ProjectionMissing)
  {
    hide PlanCommand, RunParts;
  }

  lemma RebuildSteps(m: FillModel, coupled: Coupling, db: Db, id: nat)
    requires WellBehaved(m, coupled) && StandsStill(m) && Sane(m, coupled, db) && id in db.files
    requires db.files[id].order.terms.context.Valid()
    ensures Stepped(m, db, Guarded(m, db, id, Rebuild(m, db.market, db.files[id])))
  {
    hide *;
    var f := db.files[id];
    SaneFile(m, coupled, db, id);
    RightIsHonest(m, coupled, db.market, f);
    RebuildAgrees(m, coupled, db.market, f);
    var w := Rebuild(m, db.market, f);
    RebuildConfirmsOnlyTheTruth(m, db.market, f);
    if w.Written? { SameLogHeld(m, coupled, db.market, f, w.file); }
    GuardedSteps(m, coupled, db, id, w);
  }

  /** A step that only grows the market, adds files or drops a cache. */
  lemma QuietSteps(m: FillModel, coupled: Coupling, db: Db, after: Db)
    requires Sane(m, coupled, db) && Grew(db.market, after.market)
    requires forall id :: id in db.files ==>
               id in after.files && after.files[id].(projection := None) == db.files[id].(projection := None)
    requires forall i :: i in after.incidents <==> i in db.incidents || (i in after.incidents && i.order.None?)
    ensures Stepped(m, db, after)
  {
    hide Sane, Grew, FileHeld, HaltedIn;
    forall id | id in db.files ensures OrderHeld(m, db, after, id) {
      SaneFile(m, coupled, db, id);
      GrownHeld(m, coupled, db.market, after.market, db.files[id]);
      SameLogHeld(m, coupled, after.market, db.files[id], after.files[id]);
      FileHeldThen(m, db.market, db.files[id], after.market, db.files[id], after.market, after.files[id]);
    }
  }

  lemma ReproduceSteps(m: FillModel, coupled: Coupling, db: Db, id: nat, copy: nat, version: string)
    requires WellBehaved(m, coupled) && Sane(m, coupled, db) && Enabled(db, ReproduceAs(id, copy, version))
    ensures Stepped(m, db, Step(m, db, ReproduceAs(id, copy, version)))
  {
    hide Honest, Sane, Reproduce, Guarded, OrderContext.Valid, Stepped, Grew;
    SaneFile(m, coupled, db, id);
    RightIsHonest(m, coupled, db.market, db.files[id]);
    ReproduceKeepsHonest(m, coupled, db.market, db.files[id], version);
    SameGrew(db.market);
    QuietSteps(m, coupled, db, Step(m, db, ReproduceAs(id, copy, version)));
  }

  lemma RecalculateSteps(m: FillModel, coupled: Coupling, db: Db, id: nat, copy: nat, order: OrderRow, asOf: int,
                         dividends: map<int, DividendRow>)
    requires WellBehaved(m, coupled) && Sane(m, coupled, db) && Enabled(db, RecalculateAs(id, copy, order, asOf, dividends))
    ensures Stepped(m, db, Step(m, db, RecalculateAs(id, copy, order, asOf, dividends)))
  {
    hide *;
    SaneIsGood(m, coupled, db);
    StepGrew(m, coupled, db, RecalculateAs(id, copy, order, asOf, dividends));
    RecalculateAdds(m, db, id, copy, order, asOf, dividends);
    QuietSteps(m, coupled, db, Step(m, db, RecalculateAs(id, copy, order, asOf, dividends)));
  }

  lemma RecalculateAdds(m: FillModel, db: Db, id: nat, copy: nat, order: OrderRow, asOf: int, dividends: map<int, DividendRow>)
    requires Enabled(db, RecalculateAs(id, copy, order, asOf, dividends))
    ensures var after := Step(m, db, RecalculateAs(id, copy, order, asOf, dividends));
            && (forall other :: other in db.files ==> other in after.files && after.files[other] == db.files[other])
            && (forall i :: i in after.incidents <==> i in db.incidents || (i in after.incidents && i.order.None?))
  {
    hide Recalculate, OrderContext.Valid, FreezeStep;
  }

  lemma OtherSteps(m: FillModel, coupled: Coupling, db: Db, a: Action)
    requires WellBehaved(m, coupled) && Sane(m, coupled, db) && Enabled(db, a)
    requires a.Ingest? || a.AcquireAsOf? || a.StartRun? || a.PlaceOrder? || a.DropProjection?
    ensures Stepped(m, db, Step(m, db, a))
  {
    hide WellBehaved, Sane, Good, Stepped, Grew, Store, Create, OrderContext.Valid, UniqueIds;
    SaneIsGood(m, coupled, db);
    StepGrew(m, coupled, db, a);
    QuietSteps(m, coupled, db, Step(m, db, a));
  }

  lemma EveryStep(m: FillModel, coupled: Coupling, db: Db, a: Action)
    requires WellBehaved(m, coupled) && StandsStill(m) && Sane(m, coupled, db) && Enabled(db, a)
    ensures Stepped(m, db, Step(m, db, a)) && Sane(m, coupled, Step(m, db, a))
  {
    hide WellBehaved, StandsStill, Sane, Good, Stepped, Guarded, Evaluate, ApplyCommand, Rebuild, Reproduce, Recalculate, Create, Store,
         OrderContext.Valid, Quarantine, UniqueIds;
    SaneIsGood(m, coupled, db);
    StepKeepsGood(m, coupled, db, a);
    GoodIsSane(m, coupled, Step(m, db, a));
    match a
    case EvaluateLive(id, runId, marketNow, close) => EvaluationSteps(m, coupled, db, id, runId, marketNow, close);
    case IssueCommand(id, command) => CommandSteps(m, coupled, db, id, command);
    case RebuildProjection(id) => RebuildSteps(m, coupled, db, id);
    case ReproduceAs(id, copy, version) => ReproduceSteps(m, coupled, db, id, copy, version);
    case RecalculateAs(id, copy, order, asOf, dividends) => RecalculateSteps(m, coupled, db, id, copy, order, asOf, dividends);
    case _ => OtherSteps(m, coupled, db, a);
  }

  lemma GoodIsSane(m: FillModel, coupled: Coupling, db: Db)
    requires Good(m, coupled, db)
    ensures Sane(m, coupled, db)
  {
    hide Good;
  }

  lemma {:induction false} RunHolds(m: FillModel, coupled: Coupling, db: Db, actions: seq<Action>, id: nat)
    requires WellBehaved(m, coupled) && StandsStill(m) && Sane(m, coupled, db) && RunFrom(m, db, actions) && id in db.files
    ensures OrderHeld(m, db, After(m, db, actions), id)
    decreases |actions|
  {
    hide WellBehaved, StandsStill, Sane, Enabled, Step, FileHeld;
    if actions == [] {
      SaneFile(m, coupled, db, id);
      SameLogHeld(m, coupled, db.market, db.files[id], db.files[id]);
    } else {
      var next := Step(m, db, actions[0]);
      EveryStep(m, coupled, db, actions[0]);
      assert OrderHeld(m, db, next, id);
      RunHolds(m, coupled, next, actions[1..], id);
      var after := After(m, next, actions[1..]);
      FileHeldThen(m, db.market, db.files[id], next.market, next.files[id], after.market, after.files[id]);
    }
  }

  lemma {:induction false} RunAnswers(m: FillModel, coupled: Coupling, db: Db, actions: seq<Action>)
    requires WellBehaved(m, coupled) && StandsStill(m) && Sane(m, coupled, db) && RunFrom(m, db, actions)
    requires forall i :: i in db.incidents ==> Answered(m, db, i)
    ensures forall i :: i in After(m, db, actions).incidents ==> Answered(m, After(m, db, actions), i)
    decreases |actions|
  {
    hide WellBehaved, StandsStill, Sane, Enabled, Step, Answered, OrderHeld;
    if actions != [] {
      var next := Step(m, db, actions[0]);
      EveryStep(m, coupled, db, actions[0]);
      forall i | i in next.incidents ensures Answered(m, next, i) {
        if i in db.incidents { AnsweredStays(m, db, next, i); }
      }
      RunAnswers(m, coupled, next, actions[1..]);
    }
  }

  // ---- the main results ----------------------------------------------------------------------------------------

  /**
   * A stopped order keeps its trade. Take any state a run of the platform reaches, any order in it whose log says it is frozen or
   * ended, and whatever happens next. Its log still says so, and position, entry, stops, profit, costs, dividends and marks are
   * those it stopped with: a frozen order can only still be canceled, an ended one only flagged.
   */
  lemma StoppedOrdersKeepTheirTrade(m: FillModel, coupled: Coupling, actions: seq<Action>, later: seq<Action>, id: nat)
    requires WellBehaved(m, coupled) && StandsStill(m)
    requires RunFrom(m, Empty, actions) && RunFrom(m, After(m, Empty, actions), later) && id in After(m, Empty, actions).files
    ensures OrderHeld(m, After(m, Empty, actions), After(m, After(m, Empty, actions), later), id)
  {
    hide *;
    EmptyIsGood(m, coupled);
    EveryRunIsGood(m, coupled, Empty, actions);
    GoodIsSane(m, coupled, After(m, Empty, actions));
    RunHolds(m, coupled, After(m, Empty, actions), later, id);
  }

  /** In every reachable state every integrity incident of an order has been answered: the order is stopped, for good. */
  lemma EveryIncidentStopsItsOrder(m: FillModel, coupled: Coupling, actions: seq<Action>)
    requires WellBehaved(m, coupled) && StandsStill(m) && RunFrom(m, Empty, actions)
    ensures forall i :: i in After(m, Empty, actions).incidents ==> Answered(m, After(m, Empty, actions), i)
  {
    hide WellBehaved, StandsStill, RunFrom, After, Answered, Good, Sane;
    EmptyIsGood(m, coupled);
    GoodIsSane(m, coupled, Empty);
    RunAnswers(m, coupled, Empty, actions);
  }
}
