/** Every interleaving of ingestion, evaluation, commands, quarantines and replays, as a state machine over the tables. */
module Database {
  import opened Prelude
  import opened Calendar
  import opened BarStore
  import opened Domain
  import opened Events
  import opened History
  import opened HistoryLaws
  import opened FillContract
  import opened Ledger
  import opened Writers
  import opened Replay
  import opened ReplayLaws
  import opened Tiling

  datatype IncidentKind = IntegrityError(error: LedgerError) | FreezeFailed(original: LedgerError)

  /** An incident row; the order is absent when it never came to exist. */
  datatype Incident = Incident(kind: IncidentKind, order: Option<nat>)

  datatype Db = Db(market: Market, clock: int, nextRun: nat, files: map<nat, OrderFile>, incidents: seq<Incident>)

  datatype Action =
    | Ingest(feed: Feed, now: int, batch: nat, fetched: map<int, Ohlcv>)
    | AcquireAsOf(now: int)
    | StartRun(asOf: int)
    | PlaceOrder(id: nat, order: OrderRow, inherited: Option<GatingState>, extra: map<string, string>)
    | EvaluateLive(id: nat, runId: nat, marketNow: int, closeTrailingGap: bool)
    | IssueCommand(id: nat, command: Command)
    | DropProjection(id: nat)
    | RebuildProjection(id: nat)
    | ReproduceAs(id: nat, copy: nat, version: string)
    | RecalculateAs(id: nat, copy: nat, order: OrderRow, asOf: int, dividends: map<int, DividendRow>)

  function KindOf(error: LedgerError): string {
    match error
    case EventBeforeEvaluationStart(_) => "EVENT_BEFORE_EVALUATION_START"
    case EventHashConflict(_) => "EVENT_HASH_CONFLICT"
    case ProjectionMissing => "PROJECTION_MISSING"
    case ProcessedBarMissing(_) => "PROCESSED_BAR_MISSING"
    case ReproduceDivergence => "REPRODUCE_DIVERGENCE"
    case ProjectionIntegrity => "PROJECTION_INTEGRITY"
    case CalendarMismatch => "CALENDAR_MISMATCH"
  }

  /** Record the incident, then freeze the order in a second transaction; a failing freeze is one more incident. */
  function Quarantine(m: FillModel, db: Db, id: nat, error: LedgerError): Db {
    var recorded := db.(incidents := db.incidents + [Incident(IntegrityError(error), if id in db.files then Some(id) else None)]);
    if id !in db.files then recorded
    else
      match FreezeStep(m, db.files[id], KindOf(error))
      case Written(file) => recorded.(files := db.files[id := file])
      case Untouched => recorded
      case _ => recorded.(incidents := recorded.incidents + [Incident(FreezeFailed(error), Some(id))])
  }

  /** A guarded transaction: commit what was written, quarantine an integrity error, roll back anything else. */
  function Guarded(m: FillModel, db: Db, id: nat, w: WriteResult): Db {
    match w
    case Written(file) => db.(files := db.files[id := file])
    case Untouched => db
    case WriteRefused(error) => Quarantine(m, db, id, error)
    case WriteRaised => db
  }

  ghost predicate Enabled(db: Db, a: Action) {
    match a
    case Ingest(_, now, batch, _) => db.clock < now && forall b :: b in db.market.batches ==> b.id != batch
    case AcquireAsOf(now) => db.clock < now
    case StartRun(asOf) => asOf <= db.clock
    case PlaceOrder(id, order, _, _) => id !in db.files && order.terms.context.Valid()
    case EvaluateLive(id, _, _, _) => id in db.files && db.files[id].order.terms.context.Valid()
    case IssueCommand(id, _) => id in db.files
    case DropProjection(id) => id in db.files
    case RebuildProjection(id) => id in db.files && db.files[id].order.terms.context.Valid()
    case ReproduceAs(id, copy, _) => id in db.files && copy !in db.files && db.files[id].order.terms.context.Valid()
    case RecalculateAs(id, copy, order, asOf, dividends) =>
      id in db.files && copy !in db.files && order.terms.context.Valid() && asOf <= db.clock && Keyed(dividends)
  }

  function Step(m: FillModel, db: Db, a: Action): Db
    requires Enabled(db, a)
  {
    match a
    case Ingest(feed, now, batch, fetched) =>
      db.(market := db.market.(batches := Store(db.market.batches, feed, now, batch, fetched)), clock := now)
    case AcquireAsOf(now) => db.(clock := now)
    case StartRun(asOf) =>
      db.(market := db.market.(runs := db.market.runs[db.nextRun := asOf]), nextRun := db.nextRun + 1)
    case PlaceOrder(id, order, inherited, extra) =>
      var w := Create(m, order, inherited, extra);
      if w.Written? then db.(files := db.files[id := w.file]) else db
    case EvaluateLive(id, runId, marketNow, closeTrailingGap) =>
      Guarded(m, db, id, Evaluate(m, db.market, db.files[id], runId, marketNow, closeTrailingGap))
    case IssueCommand(id, command) => Guarded(m, db, id, ApplyCommand(m, db.market, db.files[id], command))
    case DropProjection(id) => db.(files := db.files[id := db.files[id].(projection := None)])
    case RebuildProjection(id) => Guarded(m, db, id, Rebuild(m, db.market, db.files[id]))
    case ReproduceAs(id, copy, version) =>
      var w := Reproduce(m, db.market, db.files[id], version);
      if w.Written? then db.(files := db.files[copy := w.file]) else Guarded(m, db, id, w)
    case RecalculateAs(id, copy, order, asOf, dividends) =>
      (match Recalculate(m, db.market, db.files[id], order, asOf, dividends, db.nextRun)
       case Going(p) => db.(market := db.market.(runs := p.runs), nextRun := p.nextRun, files := db.files[copy := p.file])
       case RecalculationRefused(error) => Quarantine(m, db, copy, error)
       case RecalculationRaised => db)
  }

  /**
   * A transaction is committed whole or not at all. A live evaluation, a command or a rebuild that writes replaces its order's rows
   * by what it wrote and touches nothing else; one that has nothing to write, or fails without an integrity error, touches nothing.
   */
  lemma CommittedOrRolledBack(m: FillModel, db: Db, a: Action, id: nat, w: WriteResult)
    requires Enabled(db, a)
    requires || (a.EvaluateLive? && id == a.id && w == Evaluate(m, db.market, db.files[id], a.runId, a.marketNow, a.closeTrailingGap))
             || (a.IssueCommand? && id == a.id && w == ApplyCommand(m, db.market, db.files[id], a.command))
             || (a.RebuildProjection? && id == a.id && w == Rebuild(m, db.market, db.files[id]))
    ensures var after := Step(m, db, a);
            && after.market == db.market && after.clock == db.clock && after.nextRun == db.nextRun && after.files.Keys == db.files.Keys
            && (forall other :: other in db.files && other != id ==> after.files[other] == db.files[other])
            && (w.Written? ==> after.files[id] == w.file && after.incidents == db.incidents)
            && (w.Untouched? || w.WriteRaised? ==> after == db)
            && (w.WriteRefused? ==>
                  db.incidents + [Incident(IntegrityError(w.error), Some(id))] <= after.incidents && after.files[id].order == db.files[id].order)
  {
    hide Evaluate, ApplyCommand, Rebuild, OrderContext.Valid, Dedupe, KnownOf;
  }

  ghost predicate RunFrom(m: FillModel, db: Db, actions: seq<Action>)
    decreases |actions|
  {
    actions == [] || (Enabled(db, actions[0]) && RunFrom(m, Step(m, db, actions[0]), actions[1..]))
  }

  function After(m: FillModel, db: Db, actions: seq<Action>): Db
    requires RunFrom(m, db, actions)
    decreases |actions|
  {
    if actions == [] then db else After(m, Step(m, db, actions[0]), actions[1..])
  }

  const Empty := Db(Market([], map[]), 0, 0, map[], [])

  // ---- the invariant ----------------------------------------------------------------------------------------

  /** Nothing lies in the future, ids are unique, and no run's watermark can be undercut. */
  ghost predicate MarketOk(db: Db) {
    && UniqueIds(db.market.batches)
    && (forall b :: b in db.market.batches ==> b.ingestedAt <= db.clock)
    && (forall r :: r in db.market.runs ==> db.market.runs[r] <= db.clock)
    && RunsBelow(db.market.runs, db.nextRun)
  }

  ghost predicate FilesHonest(m: FillModel, coupled: Coupling, db: Db) {
    forall id :: id in db.files ==> Honest(m, coupled, db.market, db.files[id])
  }

  /** No incident was ever caused by a history that disagrees with its projection. */
  ghost predicate NoDivergence(db: Db) {
    forall i :: i in db.incidents && i.kind.IntegrityError? ==>
      !i.kind.error.Diverges()
  }

  ghost predicate Good(m: FillModel, coupled: Coupling, db: Db) {
    MarketOk(db) && FilesHonest(m, coupled, db) && NoDivergence(db)
  }

  lemma FilesStable(m: FillModel, coupled: Coupling, db: Db, after: Market, later: seq<Batch>)
    requires FilesHonest(m, coupled, db) && MarketGrows(db.market, after, later)
    ensures forall id :: id in db.files ==> Honest(m, coupled, after, db.files[id])
  {
    hide Honest, MarketGrows;
    forall id | id in db.files ensures Honest(m, coupled, after, db.files[id]) {
      HonestStable(m, coupled, db.market, after, later, db.files[id]);
    }
  }

  lemma OneFile(m: FillModel, coupled: Coupling, db: Db, id: nat, file: OrderFile)
    requires FilesHonest(m, coupled, db) && Honest(m, coupled, db.market, file)
    ensures FilesHonest(m, coupled, db.(files := db.files[id := file]))
  {
    hide Honest;
  }

  lemma QuarantineKeeps(m: FillModel, coupled: Coupling, db: Db, id: nat, error: LedgerError)
    requires WellBehaved(m, coupled) && Good(m, coupled, db)
    requires !error.Diverges()
    ensures Good(m, coupled, Quarantine(m, db, id, error))
  {
    hide WellBehaved, Honest, MarketOk, FreezeStep;
    if id in db.files {
      var w := FreezeStep(m, db.files[id], KindOf(error));
      if w.Written? {
        FreezeKeepsHonest(m, coupled, db.market, db.files[id], KindOf(error), w.file);
        OneFile(m, coupled, db, id, w.file);
      }
    }
    MarketUnchanged(db, Quarantine(m, db, id, error));
  }

  lemma MarketUnchanged(db: Db, after: Db)
    requires MarketOk(db) && after.market == db.market && after.clock == db.clock && after.nextRun == db.nextRun
    ensures MarketOk(after)
  {
  }

  lemma GuardedKeeps(m: FillModel, coupled: Coupling, db: Db, id: nat, w: WriteResult)
    requires WellBehaved(m, coupled) && Good(m, coupled, db)
    requires w.Written? ==> Honest(m, coupled, db.market, w.file)
    requires w.WriteRefused? ==> !w.error.Diverges()
    ensures Good(m, coupled, Guarded(m, db, id, w))
  {
    hide WellBehaved, Honest, Quarantine, MarketOk;
    match w
    case Written(file) =>
      OneFile(m, coupled, db, id, file);
      MarketUnchanged(db, db.(files := db.files[id := file]));
    case WriteRefused(error) => QuarantineKeeps(m, coupled, db, id, error);
    case _ =>
  }

  lemma IngestKeeps(m: FillModel, coupled: Coupling, db: Db, feed: Feed, now: int, batch: nat, fetched: map<int, Ohlcv>)
    requires Good(m, coupled, db) && Enabled(db, Ingest(feed, now, batch, fetched))
    ensures Good(m, coupled, Step(m, db, Ingest(feed, now, batch, fetched)))
  {
    var delta := Delta(db.market.batches, feed, now, fetched);
    var later := if delta == map[] then [] else [Batch(batch, feed.source, feed.ticker, now, delta)];
    var after := Step(m, db, Ingest(feed, now, batch, fetched));
    hide Honest, Delta;
    assert after.market.batches == db.market.batches + later;
    FilesStable(m, coupled, db, after.market, later);
  }

  lemma StartKeeps(m: FillModel, coupled: Coupling, db: Db, asOf: int)
    requires Good(m, coupled, db) && Enabled(db, StartRun(asOf))
    ensures Good(m, coupled, Step(m, db, StartRun(asOf)))
  {
    var after := Step(m, db, StartRun(asOf));
    assert db.market.batches + [] == db.market.batches;
    hide Honest;
    FilesStable(m, coupled, db, after.market, []);
  }

  lemma RecalculateKeeps(m: FillModel, coupled: Coupling, db: Db, id: nat, copy: nat, order: OrderRow, asOf: int,
                         dividends: map<int, DividendRow>)
    requires WellBehaved(m, coupled) && Good(m, coupled, db) && Enabled(db, RecalculateAs(id, copy, order, asOf, dividends))
    ensures Good(m, coupled, Step(m, db, RecalculateAs(id, copy, order, asOf, dividends)))
  {
    hide *;
    GoodMarket(m, coupled, db);
    var r := RecalculateStep(m, db, id, copy, order, asOf, dividends);
    if r.Going? {
      RecalculateIsHonest(m, coupled, db.market, db.files[id], order, asOf, dividends, db.nextRun, r.progress);
      RecalculatedIsGood(m, coupled, db, copy, asOf, r.progress);
    } else if r.RecalculationRefused? {
      QuarantineKeeps(m, coupled, db, copy, r.error);
    }
  }

  lemma GoodMarket(m: FillModel, coupled: Coupling, db: Db)
    requires Good(m, coupled, db)
    ensures UniqueIds(db.market.batches) && RunsBelow(db.market.runs, db.nextRun)
  {
    hide UniqueIds, RunsBelow;
  }

  lemma RecalculateStep(m: FillModel, db: Db, id: nat, copy: nat, order: OrderRow, asOf: int, dividends: map<int, DividendRow>)
    returns (r: Recalculation)
    requires Enabled(db, RecalculateAs(id, copy, order, asOf, dividends))
    ensures id in db.files && order.terms.context.Valid() && asOf <= db.clock && Keyed(dividends)
    ensures r == Recalculate(m, db.market, db.files[id], order, asOf, dividends, db.nextRun)
    ensures r.Sound(db.market.runs, asOf) && (r.RecalculationRefused? ==> !r.error.Diverges())
    ensures Step(m, db, RecalculateAs(id, copy, order, asOf, dividends))
         == match r
            case Going(p) => db.(market := db.market.(runs := p.runs), nextRun := p.nextRun, files := db.files[copy := p.file])
            case RecalculationRefused(error) => Quarantine(m, db, copy, error)
            case RecalculationRaised => db
  {
    hide Recalculate, Quarantine, OrderContext.Valid;
    r := Recalculate(m, db.market, db.files[id], order, asOf, dividends, db.nextRun);
  }

  lemma RecalculatedIsGood(m: FillModel, coupled: Coupling, db: Db, copy: nat, asOf: int, p: Progress)
    requires Good(m, coupled, db) && asOf <= db.clock && Going(p).Sound(db.market.runs, asOf)
    requires Honest(m, coupled, db.market.(runs := p.runs), p.file) && RunsBelow(p.runs, p.nextRun)
    requires forall r :: r in db.market.runs ==> r in p.runs && p.runs[r] == db.market.runs[r]
    ensures Good(m, coupled, db.(market := db.market.(runs := p.runs), nextRun := p.nextRun, files := db.files[copy := p.file]))
  {
    var after := db.market.(runs := p.runs);
    assert db.market.batches + [] == db.market.batches;
    hide Honest;
    FilesStable(m, coupled, db, after, []);
    OneFile(m, coupled, db.(market := after), copy, p.file);
  }

  lemma RebuildKeeps(m: FillModel, coupled: Coupling, db: Db, id: nat)
    requires WellBehaved(m, coupled) && Good(m, coupled, db) && Enabled(db, RebuildProjection(id))
    ensures Good(m, coupled, Step(m, db, RebuildProjection(id)))
  {
    hide WellBehaved, Honest, Rebuild, MarketOk, OrderContext.Valid, Guarded;
    RebuildAgrees(m, coupled, db.market, db.files[id]);
    GuardedKeeps(m, coupled, db, id, Rebuild(m, db.market, db.files[id]));
  }

  lemma ReproduceKeeps(m: FillModel, coupled: Coupling, db: Db, id: nat, copy: nat, version: string)
    requires WellBehaved(m, coupled) && Good(m, coupled, db) && Enabled(db, ReproduceAs(id, copy, version))
    ensures Good(m, coupled, Step(m, db, ReproduceAs(id, copy, version)))
  {
    hide WellBehaved, Honest, Reproduce, MarketOk, OrderContext.Valid, Guarded;
    ReproduceKeepsHonest(m, coupled, db.market, db.files[id], version);
    var w := Reproduce(m, db.market, db.files[id], version);
    OneFile(m, coupled, db, copy, w.file);
    MarketUnchanged(db, db.(files := db.files[copy := w.file]));
  }

  lemma OrderStepKeeps(m: FillModel, coupled: Coupling, db: Db, a: Action)
    requires WellBehaved(m, coupled) && Good(m, coupled, db) && Enabled(db, a)
    requires a.EvaluateLive? || a.IssueCommand? || a.DropProjection? || a.PlaceOrder?
    ensures Good(m, coupled, Step(m, db, a))
  {
    hide WellBehaved, Honest, Evaluate, ApplyCommand, Create, MarketOk, OrderContext.Valid, Guarded, UniqueIds, Good, FilesHonest;
    GoodParts(m, coupled, db);
    match a
    case EvaluateLive(id, runId, marketNow, close) =>
      var w := Evaluate(m, db.market, db.files[id], runId, marketNow, close);
      GoodFile(m, coupled, db, id);
      if w.Written? { EvaluateKeepsHonest(m, coupled, db.market, db.files[id], runId, marketNow, close, w.file); }
      GuardedKeeps(m, coupled, db, id, w);
    case IssueCommand(id, command) =>
      var w := ApplyCommand(m, db.market, db.files[id], command);
      GoodFile(m, coupled, db, id);
      if w.Written? { CommandWriteKeepsHonest(m, coupled, db.market, db.files[id], command, w.file); }
      GuardedKeeps(m, coupled, db, id, w);
    case DropProjection(id) =>
      GoodFile(m, coupled, db, id);
      DroppingKeepsHonest(m, coupled, db.market, db.files[id]);
      WriteKeeps(m, coupled, db, id, db.files[id].(projection := None));
    case PlaceOrder(id, order, inherited, extra) =>
      var w := Create(m, order, inherited, extra);
      if w.Written? {
        CreateIsHonest(m, coupled, db.market, order, inherited, extra, w.file);
        WriteKeeps(m, coupled, db, id, w.file);
      }
  }

  lemma GoodParts(m: FillModel, coupled: Coupling, db: Db)
    requires Good(m, coupled, db)
    ensures UniqueIds(db.market.batches) && FilesHonest(m, coupled, db) && MarketOk(db)
  {
    hide Honest, UniqueIds;
  }

  lemma WriteKeeps(m: FillModel, coupled: Coupling, db: Db, id: nat, file: OrderFile)
    requires Good(m, coupled, db) && Honest(m, coupled, db.market, file)
    ensures Good(m, coupled, db.(files := db.files[id := file]))
  {
    hide Honest, MarketOk, FilesHonest;
    OneFile(m, coupled, db, id, file);
    MarketUnchanged(db, db.(files := db.files[id := file]));
  }

  lemma StepKeepsGood(m: FillModel, coupled: Coupling, db: Db, a: Action)
    requires WellBehaved(m, coupled) && Good(m, coupled, db) && Enabled(db, a)
    ensures Good(m, coupled, Step(m, db, a))
  {
    hide *;
    match a
    case Ingest(feed, now, batch, fetched) => IngestKeeps(m, coupled, db, feed, now, batch, fetched);
    case AcquireAsOf(now) => AcquireKeeps(m, coupled, db, now);
    case StartRun(asOf) => StartKeeps(m, coupled, db, asOf);
    case RebuildProjection(id) => RebuildKeeps(m, coupled, db, id);
    case ReproduceAs(id, copy, version) => ReproduceKeeps(m, coupled, db, id, copy, version);
    case RecalculateAs(id, copy, order, asOf, dividends) => RecalculateKeeps(m, coupled, db, id, copy, order, asOf, dividends);
    case _ => OrderStepKeeps(m, coupled, db, a);
  }

  lemma AcquireKeeps(m: FillModel, coupled: Coupling, db: Db, now: int)
    requires Good(m, coupled, db) && Enabled(db, AcquireAsOf(now))
    ensures Good(m, coupled, Step(m, db, AcquireAsOf(now)))
  {
    hide Honest;
  }

  lemma {:induction false} EveryRunIsGood(m: FillModel, coupled: Coupling, db: Db, actions: seq<Action>)
    requires WellBehaved(m, coupled) && Good(m, coupled, db) && RunFrom(m, db, actions)
    ensures Good(m, coupled, After(m, db, actions))
    decreases |actions|
  {
    hide WellBehaved, Good, Enabled, Step;
    if actions != [] {
      StepKeepsGood(m, coupled, db, actions[0]);
      EveryRunIsGood(m, coupled, Step(m, db, actions[0]), actions[1..]);
    }
  }

  lemma EmptyIsGood(m: FillModel, coupled: Coupling)
    ensures Good(m, coupled, Empty)
  {
    hide Honest;
  }

  /** The log regenerates to the cached state and sequence number, and a rebuild confirms or restores the cache. */
  ghost predicate Confirmed(m: FillModel, market: Market, f: OrderFile) {
    && f.order.terms.context.Valid()
    && var o := Regenerate(m, f.order.terms, market, f.rows, f.segments);
    && o.Regenerated? && o.value.nextSeq == |f.rows| + 1
    && (f.projection.Some? ==>
          f.projection.value.state == o.value.state && f.projection.value.nextSeq == o.value.nextSeq
          && Rebuild(m, market, f) == Untouched)
    && (f.projection.None? ==> Rebuild(m, market, f) == Written(f.(projection := Some(ProjectionRow(o.value.state, o.value.nextSeq, f.rows)))))
  }

  lemma HonestIsConfirmed(m: FillModel, coupled: Coupling, market: Market, f: OrderFile)
    requires Honest(m, coupled, market, f)
    ensures Confirmed(m, market, f)
  {
    HonestIsOrdered(m, coupled, market, f);
    HonestEnds(m, coupled, market, f);
    HonestIsValid(m, coupled, market, f);
    RebuildAgrees(m, coupled, market, f);
    if f.projection.Some? { CachedIsRegained(m, coupled, market, f); }
    hide Honest, RegenerateRows, Regenerate, OrderContext.Valid;
  }

  /**
   * Projection equals history. In every state any run of the platform can reach -- ingestions, watermarks, runs, new
   * orders, evaluations, commands, quarantine freezes, dropped caches and replays, interleaved in any order -- every
   * order's log regenerates to exactly its cached state and next sequence number, a rebuild confirms the cache (or
   * restores a dropped one), and no divergence incident has ever been recorded.
   */
  lemma ProjectionIsHistory(m: FillModel, coupled: Coupling, actions: seq<Action>, id: nat)
    requires WellBehaved(m, coupled) && RunFrom(m, Empty, actions) && id in After(m, Empty, actions).files
    ensures var db := After(m, Empty, actions);
            && Confirmed(m, db.market, db.files[id]) && NoDivergence(db)
  {
    hide *;
    EmptyIsGood(m, coupled);
    EveryRunIsGood(m, coupled, Empty, actions);
    GoodFile(m, coupled, After(m, Empty, actions), id);
    HonestIsConfirmed(m, coupled, After(m, Empty, actions).market, After(m, Empty, actions).files[id]);
    GoodMeans(m, coupled, After(m, Empty, actions));
  }

  lemma GoodMeans(m: FillModel, coupled: Coupling, db: Db)
    requires Good(m, coupled, db)
    ensures NoDivergence(db)
  {
  }

  /**
   * Exactly-once evaluation. In every reachable state an order's segments, as listed, cover its expected minutes from
   * the evaluation start through the last evaluated minute with no hole and no repeat, and its log is numbered from one.
   */
  lemma EvaluatedExactlyOnce(m: FillModel, coupled: Coupling, actions: seq<Action>, id: nat)
    requires WellBehaved(m, coupled) && RunFrom(m, Empty, actions) && id in After(m, Empty, actions).files
    ensures ExactlyOnce(After(m, Empty, actions).files[id])
  {
    hide *;
    EmptyIsGood(m, coupled);
    EveryRunIsGood(m, coupled, Empty, actions);
    GoodFile(m, coupled, After(m, Empty, actions), id);
    HonestTiles(m, coupled, After(m, Empty, actions).market, After(m, Empty, actions).files[id]);
  }

  lemma GoodFile(m: FillModel, coupled: Coupling, db: Db, id: nat)
    requires Good(m, coupled, db) && id in db.files
    ensures Honest(m, coupled, db.market, db.files[id])
  {
    hide Honest;
  }

  /** The segments in list order are chronological, disjoint and leave no expected minute out; the log has no hole. */
  ghost predicate ExactlyOnce(f: OrderFile) {
    var ctx, listed := f.order.terms.context, ListSegments(f.segments);
    && listed == f.segments && InOrder(listed)
    && Contiguous(f.rows)
    && (f.projection.Some? ==> f.projection.value.nextSeq == |f.rows| + 1)
    && Covered(ctx.calendar, listed)
       == (if listed == [] then [] else ctx.calendar.ExpectedMinutesSpec(ctx.start, listed[|listed| - 1].barTo + MINUTE))
  }

  lemma HonestTiles(m: FillModel, coupled: Coupling, market: Market, f: OrderFile)
    requires Honest(m, coupled, market, f)
    ensures ExactlyOnce(f)
  {
    hide RegenerateRows, Tiled, Covered, SessionCalendar.ExpectedMinutesSpec, ListSegments, InOrder, OrderContext.Valid;
    EveryMinuteOnce(f.order.terms.context, f.segments);
    HonestListed(m, coupled, market, f);
  }
}
