/** The tables as one mutable object: every method is a committed transaction (or two, when it quarantines). */
module OrderLedger {
  import opened Prelude
  import opened Calendar
  import opened BarStore
  import opened Domain
  import opened Events
  import opened History
  import opened FillContract
  import opened Ledger
  import opened Writers
  import opened Transactions
  import opened Replay
  import opened Database

  class LedgerTables {
    const model: FillModel
    const bars: BarTables
    var runs: map<nat, int>
    var nextRun: nat
    var files: map<nat, OrderFile>
    var incidents: seq<Incident>

    constructor (model: FillModel, bars: BarTables)
      ensures this.model == model && this.bars == bars
      ensures runs == map[] && nextRun == 0 && files == map[] && incidents == []
    {
      this.model, this.bars := model, bars;
      runs, nextRun, files, incidents := map[], 0, map[], [];
    }

    ghost function State(): Db
      reads this, bars
    {
      Db(Market(bars.batches, runs), bars.clock, nextRun, files, incidents)
    }

    method Ingest(feed: Feed, start: int, end: int, fetched: seq<RawBar>, now: int, id: nat) returns (r: IngestResult)
      requires bars.Valid() && bars.clock < now && forall b :: b in bars.batches ==> b.id != id
      modifies bars
      ensures bars.Valid()
      ensures r.Refused? ==> State() == old(State())
      ensures !r.Refused? ==> State() == Step(model, old(State()), Database.Ingest(feed, now, id, Values(fetched)))
    {
      r := bars.StoreBatch(feed, start, end, fetched, now, id);
    }

    method AcquireDataAsOf(now: int) returns (asOf: int)
      requires bars.Valid() && bars.clock < now
      modifies bars
      ensures bars.Valid() && asOf == now && State() == Step(model, old(State()), AcquireAsOf(now))
    {
      asOf := bars.AcquireDataAsOf(now);
    }

    method StartRun(asOf: int) returns (runId: nat)
      requires asOf <= bars.clock
      modifies this
      ensures runId == old(nextRun) && State() == Step(model, old(State()), Database.StartRun(asOf))
    {
      runId := nextRun;
      runs, nextRun := runs[runId := asOf], runId + 1;
    }

    /** Record the incident, then freeze the order; a failing freeze is recorded too and never hides the first error. */
    method QuarantineOrder(id: nat, error: LedgerError)
      modifies this
      ensures State() == Quarantine(model, old(State()), id, error)
    {
      hide FreezeStep, ApplyTo;
      incidents := incidents + [Incident(IntegrityError(error), if id in files then Some(id) else None)];
      if id !in files {
        return;
      }
      var f := files[id];
      assert FreezeStep(model, f, KindOf(error))
             == (if f.order.replay || f.projection.None? then Untouched
                 else ApplyTo(f, model.freeze(f.projection.value.state, "INTEGRITY", KindOf(error)))) by { FreezeStepIs(model, f, KindOf(error)); }
      if f.order.replay || f.projection.None? {
        return;
      }
      var w := AppendResult(f, model.freeze(f.projection.value.state, "INTEGRITY", KindOf(error)));
      if w.Written? {
        files := files[id := w.file];
      } else {
        incidents := incidents + [Incident(FreezeFailed(error), Some(id))];
      }
    }

    /** Commit, quarantine or roll back, as the transaction ended. */
    method RunGuarded(id: nat, w: WriteResult)
      modifies this
      ensures State() == Guarded(model, old(State()), id, w)
    {
      hide Quarantine;
      match w
      case Written(file) => files := files[id := file];
      case WriteRefused(error) => QuarantineOrder(id, error);
      case Untouched =>
      case WriteRaised =>
    }

    method PlaceOrder(id: nat, order: OrderRow, inherited: Option<GatingState>, extra: map<string, string>)
      requires id !in files && order.terms.context.Valid()
      modifies this
      ensures State() == Step(model, old(State()), Database.PlaceOrder(id, order, inherited, extra))
    {
      hide Create, OrderContext.Valid;
      var w := Create(model, order, inherited, extra);
      if w.Written? {
        files := files[id := w.file];
      }
    }

    method EvaluateOrder(id: nat, runId: nat, marketNow: int, closeTrailingGap: bool)
      requires id in files && files[id].order.terms.context.Valid()
      modifies this
      ensures State() == Step(model, old(State()), EvaluateLive(id, runId, marketNow, closeTrailingGap))
    {
      hide Evaluate, OrderContext.Valid, Guarded;
      var w := EvaluateTransaction(model, Market(bars.batches, runs), files[id], runId, marketNow, closeTrailingGap);
      RunGuarded(id, w);
    }

    method IssueCommand(id: nat, command: Command)
      requires id in files
      modifies this
      ensures State() == Step(model, old(State()), Database.IssueCommand(id, command))
    {
      hide ApplyCommand, Guarded;
      var w := CommandTransaction(model, Market(bars.batches, runs), files[id], command);
      RunGuarded(id, w);
    }

    method DropProjection(id: nat)
      requires id in files
      modifies this
      ensures State() == Step(model, old(State()), Database.DropProjection(id))
    {
      files := files[id := files[id].(projection := None)];
    }

    method RebuildProjection(id: nat)
      requires id in files && files[id].order.terms.context.Valid()
      modifies this
      ensures State() == Step(model, old(State()), Database.RebuildProjection(id))
    {
      hide Rebuild, OrderContext.Valid, Guarded;
      var w := RebuildTransaction(model, Market(bars.batches, runs), files[id]);
      RunGuarded(id, w);
    }

    method Reproduce(id: nat, copy: nat, version: string)
      requires id in files && copy !in files && files[id].order.terms.context.Valid()
      modifies this
      ensures State() == Step(model, old(State()), ReproduceAs(id, copy, version))
    {
      hide Replay.Reproduce, OrderContext.Valid, Guarded;
      var w := ReproduceOrder(model, Market(bars.batches, runs), files[id], version);
      if w.Written? {
        files := files[copy := w.file];
      } else {
        RunGuarded(id, w);
      }
    }

    method Recalculate(id: nat, copy: nat, order: OrderRow, asOf: int, dividends: map<int, DividendRow>)
      requires Enabled(State(), RecalculateAs(id, copy, order, asOf, dividends))
      modifies this
      ensures State() == Step(model, old(State()), RecalculateAs(id, copy, order, asOf, dividends))
    {
      hide Replay.Recalculate, OrderContext.Valid, Quarantine;
      var r := RecalculateOrder(model, Market(bars.batches, runs), files[id], order, asOf, dividends, nextRun);
      match r
      case Going(p) => runs, nextRun, files := p.runs, p.nextRun, files[copy := p.file];
      case RecalculationRefused(error) => QuarantineOrder(copy, error);
      case RecalculationRaised =>
    }

    /** One live cycle: take a watermark, start a run, evaluate every open order in it; one failing order stops nothing. */
    method LiveCycle(orders: seq<nat>, now: int, marketNow: int, closeTrailingGap: bool, ghost coupled: Coupling)
      requires bars.Valid() && bars.clock < now && WellBehaved(model, coupled) && Good(model, coupled, State())
      requires forall i :: 0 <= i < |orders| ==> orders[i] in files
      modifies this, bars
      ensures Good(model, coupled, State())
      ensures var cycle := CycleActions(orders, now, old(nextRun), marketNow, closeTrailingGap);
              RunFrom(model, old(State()), cycle) && State() == After(model, old(State()), cycle)
    {
      hide Good, WellBehaved, Step, Enabled;
      ghost var before := State();
      ghost var done: seq<Action> := [AcquireAsOf(now), Database.StartRun(now)];
      AcquireShape(model, before, now);
      var asOf := AcquireDataAsOf(now);
      StartShape(model, State(), asOf);
      TwoSteps(model, before, AcquireAsOf(now), Database.StartRun(asOf));
      var runId := StartRun(asOf);
      EveryRunIsGood(model, coupled, before, done);
      var k := 0;
      while k < |orders|
        invariant 0 <= k <= |orders| && Good(model, coupled, State())
        invariant forall i :: 0 <= i < |orders| ==> orders[i] in files
        invariant done == [AcquireAsOf(now), Database.StartRun(now)] + Evaluations(orders[..k], runId, marketNow, closeTrailingGap)
        invariant RunFrom(model, before, done) && State() == After(model, before, done)
      {
        ghost var action := EvaluateLive(orders[k], runId, marketNow, closeTrailingGap);
        EvaluateShape(model, coupled, State(), orders[k], runId, marketNow, closeTrailingGap);
        StepKeepsGood(model, coupled, State(), action);
        OneMoreAction(model, before, done, action);
        EvaluateOrder(orders[k], runId, marketNow, closeTrailingGap);
        assert orders[..k + 1][..k] == orders[..k];
        done := done + [action];
        k := k + 1;
      }
      assert orders[..k] == orders;
    }
  }

  ghost function Evaluations(orders: seq<nat>, runId: nat, marketNow: int, closeTrailingGap: bool): seq<Action> {
    if orders == [] then []
    else Evaluations(orders[..|orders| - 1], runId, marketNow, closeTrailingGap)
         + [EvaluateLive(orders[|orders| - 1], runId, marketNow, closeTrailingGap)]
  }

  ghost function CycleActions(orders: seq<nat>, now: int, runId: nat, marketNow: int, closeTrailingGap: bool): seq<Action> {
    [AcquireAsOf(now), Database.StartRun(now)] + Evaluations(orders, runId, marketNow, closeTrailingGap)
  }

  lemma {:induction false} OneMoreAction(m: FillModel, db: Db, actions: seq<Action>, a: Action)
    requires RunFrom(m, db, actions) && Enabled(After(m, db, actions), a)
    ensures RunFrom(m, db, actions + [a]) && After(m, db, actions + [a]) == Step(m, After(m, db, actions), a)
    decreases |actions|
  {
    hide Enabled, Step;
    if actions != [] {
      assert (actions + [a])[1..] == actions[1..] + [a];
      OneMoreAction(m, Step(m, db, actions[0]), actions[1..], a);
    }
  }

  lemma TwoSteps(m: FillModel, db: Db, a: Action, b: Action)
    requires Enabled(db, a) && Enabled(Step(m, db, a), b)
    ensures RunFrom(m, db, [a, b]) && After(m, db, [a, b]) == Step(m, Step(m, db, a), b)
  {
    hide Enabled, Step;
    assert [a, b][1..] == [b] && [b][1..] == [];
    assert RunFrom(m, Step(m, Step(m, db, a), b), []);
    assert RunFrom(m, Step(m, db, a), [b]);
    assert After(m, Step(m, db, a), [b]) == After(m, Step(m, Step(m, db, a), b), []);
  }

  lemma AcquireShape(m: FillModel, db: Db, now: int)
    requires db.clock < now
    ensures Enabled(db, AcquireAsOf(now)) && Step(m, db, AcquireAsOf(now)) == db.(clock := now)
  {
  }

  lemma StartShape(m: FillModel, db: Db, asOf: int)
    requires asOf <= db.clock
    ensures Enabled(db, Database.StartRun(asOf)) && Step(m, db, Database.StartRun(asOf)).files == db.files
  {
  }

  lemma FreezeStepIs(m: FillModel, f: OrderFile, kind: string)
    ensures FreezeStep(m, f, kind)
         == if f.order.replay || f.projection.None? then Untouched
            else ApplyTo(f, m.freeze(f.projection.value.state, "INTEGRITY", kind))
  {
  }

  /** Evaluating a known order is always possible, and never adds or removes an order. */
  lemma EvaluateShape(m: FillModel, coupled: Coupling, db: Db, id: nat, runId: nat, marketNow: int, closeTrailingGap: bool)
    requires Good(m, coupled, db) && id in db.files
    ensures db.files[id].order.terms.context.Valid()
    ensures Enabled(db, EvaluateLive(id, runId, marketNow, closeTrailingGap))
    ensures Step(m, db, EvaluateLive(id, runId, marketNow, closeTrailingGap)).files.Keys == db.files.Keys
  {
    hide *;
    GoodFile(m, coupled, db, id);
    HonestIsValid(m, coupled, db.market, db.files[id]);
    EvaluateLiveIs(m, db, id, runId, marketNow, closeTrailingGap);
    GuardedKeepsOrders(m, db, id, Evaluate(m, db.market, db.files[id], runId, marketNow, closeTrailingGap));
  }

  lemma EvaluateLiveIs(m: FillModel, db: Db, id: nat, runId: nat, marketNow: int, closeTrailingGap: bool)
    requires id in db.files && db.files[id].order.terms.context.Valid()
    ensures Enabled(db, EvaluateLive(id, runId, marketNow, closeTrailingGap))
    ensures Step(m, db, EvaluateLive(id, runId, marketNow, closeTrailingGap))
         == Guarded(m, db, id, Evaluate(m, db.market, db.files[id], runId, marketNow, closeTrailingGap))
  {
    hide Evaluate, Guarded;
  }

  lemma GuardedKeepsOrders(m: FillModel, db: Db, id: nat, w: WriteResult)
    requires id in db.files
    ensures Guarded(m, db, id, w).files.Keys == db.files.Keys
  {
    hide FreezeStep;
  }
}
