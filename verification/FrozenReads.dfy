/** What a run of the whole platform fixes for good: the reads as of a run's watermark, and the verdict of every rebuild. */
module FrozenReads {
  import opened Prelude
  import opened BarStore
  import opened Domain
  import opened Events
  import opened History
  import opened FillContract
  import opened Ledger
  import opened Writers
  import opened Replay
  import opened ReplayLaws
  import opened Database

  /** Nothing is lost, runs keep their watermarks, and every new batch is stamped after all of them. */
  ghost predicate Grew(before: Market, after: Market) {
    && before.batches <= after.batches
    && (forall r :: r in before.runs ==> r in after.runs && after.runs[r] == before.runs[r])
    && (forall i, r :: |before.batches| <= i < |after.batches| && r in before.runs ==> before.runs[r] < after.batches[i].ingestedAt)
  }

  lemma GrewThen(a: Market, b: Market, c: Market)
    requires Grew(a, b) && Grew(b, c)
    ensures Grew(a, c)
  {
    forall i, r | |a.batches| <= i < |c.batches| && r in a.runs ensures a.runs[r] < c.batches[i].ingestedAt {
      if i < |b.batches| { assert c.batches[i] == b.batches[i]; }
    }
  }

  lemma SameGrew(m: Market)
    ensures Grew(m, m)
  {
  }

  lemma GuardedMarket(m: FillModel, db: Db, id: nat, w: WriteResult)
    ensures Guarded(m, db, id, w).market == db.market
  {
    hide FreezeStep;
  }

  lemma IngestGrew(m: FillModel, db: Db, feed: Feed, now: int, batch: nat, fetched: map<int, Ohlcv>)
    requires MarketOk(db) && Enabled(db, Ingest(feed, now, batch, fetched))
    ensures Grew(db.market, Step(m, db, Ingest(feed, now, batch, fetched)).market)
  {
    hide Delta, UniqueIds;
  }

  lemma StartGrew(m: FillModel, db: Db, asOf: int)
    requires MarketOk(db) && Enabled(db, StartRun(asOf))
    ensures Grew(db.market, Step(m, db, StartRun(asOf)).market)
  {
    hide UniqueIds;
  }

  lemma RecalculateGrew(m: FillModel, coupled: Coupling, db: Db, id: nat, copy: nat, order: OrderRow, asOf: int,
                        dividends: map<int, DividendRow>)
    requires WellBehaved(m, coupled) && Good(m, coupled, db) && Enabled(db, RecalculateAs(id, copy, order, asOf, dividends))
    ensures Grew(db.market, Step(m, db, RecalculateAs(id, copy, order, asOf, dividends)).market)
  {
    hide WellBehaved, Good, Step, Recalculate, Honest, OrderContext.Valid, Quarantine, Enabled;
    GoodMarket(m, coupled, db);
    var r := RecalculateStep(m, db, id, copy, order, asOf, dividends);
    if r.Going? {
      RecalculateIsHonest(m, coupled, db.market, db.files[id], order, asOf, dividends, db.nextRun, r.progress);
    } else if r.RecalculationRefused? {
      GuardedMarket(m, db, copy, WriteRefused(r.error));
    }
  }

  /** A step that touches orders only leaves bars and runs alone. */
  lemma OrderStepMarket(m: FillModel, db: Db, a: Action)
    requires Enabled(db, a) && !a.Ingest? && !a.StartRun? && !a.RecalculateAs?
    ensures Step(m, db, a).market == db.market
  {
    hide Guarded, Evaluate, ApplyCommand, Create, Rebuild, Reproduce, OrderContext.Valid;
    match a
    case EvaluateLive(id, runId, marketNow, close) =>
      GuardedMarket(m, db, id, Evaluate(m, db.market, db.files[id], runId, marketNow, close));
    case IssueCommand(id, command) => GuardedMarket(m, db, id, ApplyCommand(m, db.market, db.files[id], command));
    case RebuildProjection(id) => GuardedMarket(m, db, id, Rebuild(m, db.market, db.files[id]));
    case ReproduceAs(id, copy, version) => GuardedMarket(m, db, id, Reproduce(m, db.market, db.files[id], version));
    case _ =>
  }

  lemma StepGrew(m: FillModel, coupled: Coupling, db: Db, a: Action)
    requires WellBehaved(m, coupled) && Good(m, coupled, db) && Enabled(db, a)
    ensures Grew(db.market, Step(m, db, a).market)
  {
    hide *;
    MarketIsOk(m, coupled, db);
    match a
    case Ingest(feed, now, batch, fetched) => IngestGrew(m, db, feed, now, batch, fetched);
    case StartRun(asOf) => StartGrew(m, db, asOf);
    case RecalculateAs(id, copy, order, asOf, dividends) => RecalculateGrew(m, coupled, db, id, copy, order, asOf, dividends);
    case _ =>
      OrderStepMarket(m, db, a);
      SameGrew(db.market);
  }

  lemma MarketIsOk(m: FillModel, coupled: Coupling, db: Db)
    requires Good(m, coupled, db)
    ensures MarketOk(db)
  {
    hide MarketOk, FilesHonest;
  }

  lemma {:induction false} RunGrew(m: FillModel, coupled: Coupling, db: Db, actions: seq<Action>)
    requires WellBehaved(m, coupled) && Good(m, coupled, db) && RunFrom(m, db, actions)
    ensures Grew(db.market, After(m, db, actions).market)
    decreases |actions|
  {
    hide Good, WellBehaved, Enabled, Step, Grew;
    if actions == [] {
      SameGrew(db.market);
    } else {
      var next := Step(m, db, actions[0]);
      StepGrew(m, coupled, db, actions[0]);
      StepKeepsGood(m, coupled, db, actions[0]);
      RunGrew(m, coupled, next, actions[1..]);
      GrewThen(db.market, next.market, After(m, next, actions[1..]).market);
    }
  }

  /**
   * Reads as of a run's watermark are frozen. Take any run of the platform, any run row it holds, and whatever happens
   * next -- ingestions, watermarks, other runs, orders, commands, quarantines, replays. The row keeps its watermark, every
   * batch committed since is stamped after it, and every read as of it returns the same bars and batch ids.
   */
  lemma ReadsAsOfARunAreFrozen(m: FillModel, coupled: Coupling, before: seq<Action>, later: seq<Action>, runId: nat,
                               feed: Feed, start: int, end: int)
    requires WellBehaved(m, coupled) && RunFrom(m, Empty, before) && RunFrom(m, After(m, Empty, before), later)
    requires runId in After(m, Empty, before).market.runs
    ensures var now, after := After(m, Empty, before).market, After(m, After(m, Empty, before), later).market;
            && runId in after.runs && after.runs[runId] == now.runs[runId] && now.batches <= after.batches
            && (forall i :: |now.batches| <= i < |after.batches| ==> now.runs[runId] < after.batches[i].ingestedAt)
            && ReadAsOf(after.batches, feed, start, end, now.runs[runId]) == ReadAsOf(now.batches, feed, start, end, now.runs[runId])
  {
    hide Good, WellBehaved, Enabled, Step, ReadAsOf, RunFrom, After;
    EmptyIsGood(m, coupled);
    EveryRunIsGood(m, coupled, Empty, before);
    var db := After(m, Empty, before);
    RunGrew(m, coupled, db, later);
    var now, after := db.market, After(m, db, later).market;
    var tail := after.batches[|now.batches|..];
    assert after.batches == now.batches + tail;
    forall b | b in tail ensures now.runs[runId] < b.ingestedAt {
      var i :| 0 <= i < |tail| && tail[i] == b;
      assert after.batches[|now.batches| + i] == b;
    }
    ReadStable(now.batches, tail, feed, start, end, now.runs[runId]);
  }

  /** No rebuild, at any point of any run, is refused or raised: it confirms the cache or restores a dropped one. */
  lemma NoRebuildEverMismatches(m: FillModel, coupled: Coupling, actions: seq<Action>, id: nat)
    requires WellBehaved(m, coupled) && RunFrom(m, Empty, actions) && id in After(m, Empty, actions).files
    ensures var db := After(m, Empty, actions);
            && db.files[id].order.terms.context.Valid()
            && var w := Rebuild(m, db.market, db.files[id]);
            && !w.WriteRefused? && !w.WriteRaised?
            && (db.files[id].projection.Some? <==> w.Untouched?)
  {
    hide WellBehaved, RunFrom, After, Rebuild, Regenerate, OrderContext.Valid;
    ProjectionIsHistory(m, coupled, actions, id);
  }

  lemma RefusalIsAnIncident(m: FillModel, db: Db, id: nat, error: LedgerError)
    requires id in db.files
    ensures var after := Guarded(m, db, id, WriteRefused(error));
            && db.incidents + [Incident(IntegrityError(error), Some(id))] <= after.incidents
            && after.market == db.market && after.files.Keys == db.files.Keys
            && forall other :: other in db.files && other != id ==> after.files[other] == db.files[other]
  {
    hide FreezeStep, KindOf;
  }

  /**
   * Drift never goes unnoticed. Take any state any run of the platform can reach and let the cache of one order drift from
   * what its log regenerates, in its state or its next sequence number: the next rebuild of that order records an
   * incident with an integrity error, and leaves bars, runs and every other order alone.
   */
  lemma DriftIsAlwaysCaught(m: FillModel, coupled: Coupling, actions: seq<Action>, id: nat, cache: Projection)
    requires WellBehaved(m, coupled) && RunFrom(m, Empty, actions) && id in After(m, Empty, actions).files
    ensures var db := After(m, Empty, actions);
            var f := db.files[id];
            && f.order.terms.context.Valid()
            && var truth := Regenerate(m, f.order.terms, db.market, f.rows, f.segments);
            && truth.Regenerated?
            && (cache.state != truth.value.state || cache.nextSeq != truth.value.nextSeq ==>
                  var drifted := db.(files := db.files[id := f.(projection := Some(cache))]);
                  && Enabled(drifted, RebuildProjection(id))
                  && var after := Step(m, drifted, RebuildProjection(id));
                  && db.incidents + [Incident(IntegrityError(ProjectionIntegrity), Some(id))] <= after.incidents
                  && after.market == db.market && after.files.Keys == db.files.Keys
                  && forall other :: other in db.files && other != id ==> after.files[other] == db.files[other])
  {
    hide *;
    var db := After(m, Empty, actions);
    EmptyIsGood(m, coupled);
    EveryRunIsGood(m, coupled, Empty, actions);
    GoodFile(m, coupled, db, id);
    RegeneratesHere(m, coupled, db.market, db.files[id]);
    DriftIsRefused(m, coupled, db.market, db.files[id], cache);
    var drifted := db.(files := db.files[id := db.files[id].(projection := Some(cache))]);
    RebuildIs(m, drifted, id);
    RefusalIsAnIncident(m, drifted, id, ProjectionIntegrity);
  }

  lemma RegeneratesHere(m: FillModel, coupled: Coupling, market: Market, f: OrderFile)
    requires Honest(m, coupled, market, f)
    ensures f.order.terms.context.Valid() && RegenerateRows(SourceOf(m, market, f)).Regenerated?
    ensures var truth := Regenerate(m, f.order.terms, market, f.rows, f.segments);
            truth.Regenerated? && truth.value.state == Regained(m, market, f) && truth.value.nextSeq == |f.rows| + 1
  {
    hide Honest, Regenerate, RegenerateRows, OrderContext.Valid;
    HonestIsValid(m, coupled, market, f);
    HonestIsOrdered(m, coupled, market, f);
    HonestEnds(m, coupled, market, f);
  }

  lemma RebuildIs(m: FillModel, db: Db, id: nat)
    requires id in db.files && db.files[id].order.terms.context.Valid()
    ensures Enabled(db, RebuildProjection(id))
    ensures Step(m, db, RebuildProjection(id)) == Guarded(m, db, id, Rebuild(m, db.market, db.files[id]))
  {
    hide Rebuild, Guarded, OrderContext.Valid;
  }
}
