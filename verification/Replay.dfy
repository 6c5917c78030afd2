/** Replay: REPRODUCE copies a regenerated history, RECALCULATE evaluates the order anew in dividend-sized segments. */
module Replay {
  import opened Prelude
  import opened Calendar
  import opened BarStore
  import opened Domain
  import opened Events
  import opened History
  import opened HistoryLaws
  import opened FillContract
  import opened Ledger
  import opened Writers

  // ---- REPRODUCE --------------------------------------------------------------------------------------------

  /** Walk the regenerated items: a segment takes the next free number, its events the numbers from there on. */
  method CopyItems(items: seq<HistoryItem>) returns (rows: seq<StoredEvent>, segments: seq<SegmentRow>, nextSeq: nat)
    ensures rows == Numbered(EventsOf(items), 1) && segments == Renumbered(items)
    ensures nextSeq == |EventsOf(items)| + 1
  {
    rows, segments, nextSeq := [], [], 1;
    var k := 0;
    while k < |items|
      invariant 0 <= k <= |items|
      invariant rows == Numbered(EventsOf(items[..k]), 1) && segments == Renumbered(items[..k])
      invariant nextSeq == |EventsOf(items[..k])| + 1
    {
      assert items[..k + 1] == items[..k] + [items[k]];
      AppendedItem(items[..k], items[k]);
      if items[k].segment.Some? {
        segments := segments + [items[k].segment.value.(firstSeq := nextSeq)];
      }
      rows := InsertEvents(rows, items[k].events, nextSeq);
      NumberedConcat(EventsOf(items[..k]), items[k].events, 1);
      nextSeq := nextSeq + |items[k].events|;
      k := k + 1;
    }
    assert items[..k] == items;
  }

  lemma NumberedConcat(a: seq<Event>, b: seq<Event>, from: nat)
    ensures Numbered(a + b, from) == Numbered(a, from) + Numbered(b, from + |a|)
  {
  }

  function Reproduce(m: FillModel, market: Market, f: OrderFile, version: string): WriteResult
    requires f.order.terms.context.Valid()
  {
    match Regenerate(m, f.order.terms, market, f.rows, f.segments)
    case Raised => WriteRaised
    case Diverged(_) => WriteRefused(ReproduceDivergence)
    case Regenerated(h) =>
      var rows := Numbered(EventsOf(h.items), 1);
      Written(OrderFile(OrderRow(f.order.terms, version, true), rows, Renumbered(h.items),
                        Some(ProjectionRow(h.state, |rows| + 1, rows))))
  }

  method ReproduceOrder(m: FillModel, market: Market, f: OrderFile, version: string) returns (w: WriteResult)
    requires f.order.terms.context.Valid()
    ensures w == Reproduce(m, market, f, version)
  {
    var o := RegenerateHistory(m, f.order.terms, market, f.rows, f.segments);
    match o
    case Raised => return WriteRaised;
    case Diverged(_) => return WriteRefused(ReproduceDivergence);
    case Regenerated(h) =>
      var rows, segments, nextSeq := CopyItems(h.items);
      return Written(OrderFile(OrderRow(f.order.terms, version, true), rows, segments,
                               Some(ProjectionRow(h.state, nextSeq, rows))));
  }

  lemma NumberedSorted(events: seq<Event>)
    ensures SortBy(Numbered(events, 1), SeqKey) == Numbered(events, 1)
    ensures NumberedFromOne(Numbered(events, 1)) && Plain(Numbered(events, 1)) == events
  {
    SortByFixed(Numbered(events, 1), SeqKey);
  }

  /**
   * The copy of any order whose history regenerates -- honest or not, as long as no stored key repeats -- has the same
   * events at the same positions and the same segments, and regenerating the copy gives the very same history: reproducing
   * is a fixpoint.
   */
  lemma ReproduceIsFixpoint(m: FillModel, market: Market, f: OrderFile, version: string)
    requires f.order.terms.context.Valid() && UniqueKeys(Plain(SortBy(f.rows, SeqKey)))
    requires Regenerate(m, f.order.terms, market, f.rows, f.segments).Regenerated?
    ensures var w := Reproduce(m, market, f, version);
            && w.Written?
            && w.file.rows == SortBy(f.rows, SeqKey) && w.file.segments == ListSegments(f.segments)
            && w.file.projection.Some?
            && w.file.projection.value.state == Regenerate(m, f.order.terms, market, f.rows, f.segments).value.state
            && w.file.order.terms == f.order.terms
            && Regenerate(m, w.file.order.terms, market, w.file.rows, w.file.segments)
               == Regenerate(m, f.order.terms, market, f.rows, f.segments)
            && Reproduce(m, market, w.file, version) == w
  {
    var ordered, listed := SortBy(f.rows, SeqKey), ListSegments(f.segments);
    var s := Source(m, f.order.terms, market, Plain(ordered), listed);
    AcceptedAccountsForAll(s);
    ContiguousIsNumbered(ordered);
    NumberedSorted(Plain(ordered));
    ListedAfter(f.segments);
    ListFixed(listed);
    hide RegenerateRows, EventsOf, Renumbered, SegmentsOf, OrderContext.Valid, SortBy, ListSegments, Numbered, Plain;
  }

  /** Reproducing an honest file gives an honest copy of it, flagged as a replay. */
  lemma ReproduceKeepsHonest(m: FillModel, coupled: Coupling, market: Market, f: OrderFile, version: string)
    requires Honest(m, coupled, market, f)
    ensures var w := Reproduce(m, market, f, version);
            && w.Written? && w.file.order == OrderRow(f.order.terms, version, true)
            && w.file.rows == f.rows && w.file.segments == f.segments
            && Honest(m, coupled, market, w.file)
            && w.file.projection.value.state == Regained(m, market, f)
  {
    HonestIsOrdered(m, coupled, market, f);
    AcceptedAccountsForAll(SourceOf(m, market, f));
    ContiguousIsNumbered(f.rows);
    var g := OrderFile(OrderRow(f.order.terms, version, true), f.rows, f.segments,
                       Some(ProjectionRow(Regained(m, market, f), |f.rows| + 1, f.rows)));
    assert Reproduce(m, market, f, version) == Written(g) by {
      hide Honest, RegenerateRows, EventsOf, Renumbered, SegmentsOf, OrderContext.Valid;
      HonestIsValid(m, coupled, market, f);
    }
    RelabelledIsHonest(m, coupled, market, f, g);
    hide *;
  }

  lemma RelabelledIsHonest(m: FillModel, coupled: Coupling, market: Market, f: OrderFile, g: OrderFile)
    requires Honest(m, coupled, market, f)
    requires g.order.terms == f.order.terms && g.rows == f.rows && g.segments == f.segments
    requires g.projection == Some(ProjectionRow(Regained(m, market, f), |f.rows| + 1, f.rows))
    ensures Honest(m, coupled, market, g)
  {
    assert SourceOf(m, market, g) == SourceOf(m, market, f);
    hide RegenerateRows, OrderContext.Valid, Tiled, InOrder, UniqueKeys, KnownOf;
  }

  // ---- dividend chunks --------------------------------------------------------------------------------------

  /** Consecutive minutes, evaluated after the dividend of `day` (if any) has been applied. */
  datatype Chunk = Chunk(day: Option<int>, minutes: seq<int>)

  ghost predicate Covers(dayOf: map<int, int>, minutes: seq<int>) {
    forall i :: 0 <= i < |minutes| ==> minutes[i] in dayOf
  }

  function Chunks(minutes: seq<int>, dayOf: map<int, int>, days: set<int>, pending: Option<int>, current: seq<int>,
                  applied: set<int>): (r: seq<Chunk>)
    requires Covers(dayOf, minutes)
    ensures r != []
  {
    if minutes == [] then [Chunk(pending, current)]
    else
      var day := dayOf[minutes[0]];
      if day in days && day !in applied
      then [Chunk(pending, current)] + Chunks(minutes[1..], dayOf, days, Some(day), [minutes[0]], applied + {day})
      else Chunks(minutes[1..], dayOf, days, pending, current + [minutes[0]], applied)
  }

  method ChunksByDividend(minutes: seq<int>, dayOf: map<int, int>, days: set<int>) returns (r: seq<Chunk>)
    requires Covers(dayOf, minutes)
    ensures r == Chunks(minutes, dayOf, days, None, [], {})
  {
    var chunks: seq<Chunk> := [];
    var pending: Option<int> := None;
    var current: seq<int> := [];
    var applied: set<int> := {};
    var k := 0;
    while k < |minutes|
      invariant 0 <= k <= |minutes|
      invariant Chunks(minutes, dayOf, days, None, [], {})
             == chunks + Chunks(minutes[k..], dayOf, days, pending, current, applied)
    {
      var day := dayOf[minutes[k]];
      assert minutes[k..][1..] == minutes[k + 1..];
      if day in days && day !in applied {
        assert forall rest: seq<Chunk> :: chunks + ([Chunk(pending, current)] + rest) == (chunks + [Chunk(pending, current)]) + rest;
        chunks := chunks + [Chunk(pending, current)];
        pending, current := Some(day), [];
        applied := applied + {day};
      }
      assert current == [] ==> current + [minutes[k]] == [minutes[k]];
      current := current + [minutes[k]];
      k := k + 1;
    }
    return chunks + [Chunk(pending, current)];
  }

  function Flatten(chunks: seq<Chunk>): seq<int> {
    if chunks == [] then [] else chunks[0].minutes + Flatten(chunks[1..])
  }

  /** Every chunk but the first opens with its own ex-date, which no minute before it belongs to. */
  ghost predicate OpensWithItsDay(chunks: seq<Chunk>, dayOf: map<int, int>, days: set<int>) {
    forall i :: 0 < i < |chunks| ==>
      && chunks[i].day.Some? && chunks[i].day.value in days
      && chunks[i].minutes != [] && chunks[i].minutes[0] in dayOf && dayOf[chunks[i].minutes[0]] == chunks[i].day.value
  }

  ghost predicate DaysOnce(chunks: seq<Chunk>) {
    forall i, j :: 0 <= i < j < |chunks| ==> chunks[j].day.Some? && chunks[i].day != chunks[j].day
  }

  ghost predicate NotBefore(chunks: seq<Chunk>, dayOf: map<int, int>) {
    forall i, j, m :: 0 <= i < j < |chunks| && m in chunks[i].minutes && m in dayOf ==> chunks[j].day != Some(dayOf[m])
  }

  /** Every ex-date some of these minutes belong to is already applied. */
  ghost predicate Settled(minutes: seq<int>, dayOf: map<int, int>, days: set<int>, applied: set<int>) {
    forall m :: m in minutes ==> m in dayOf && (dayOf[m] in days ==> dayOf[m] in applied)
  }

  /** Every other ex-date with a minute opens some chunk. */
  ghost predicate AllDaysOpened(minutes: seq<int>, dayOf: map<int, int>, days: set<int>, applied: set<int>, chunks: seq<Chunk>) {
    forall k :: 0 <= k < |minutes| && minutes[k] in dayOf && dayOf[minutes[k]] in days && dayOf[minutes[k]] !in applied ==>
      exists i :: 0 < i < |chunks| && chunks[i].day == Some(dayOf[minutes[k]])
  }

  lemma {:induction false} ChunksLaw(minutes: seq<int>, dayOf: map<int, int>, days: set<int>, pending: Option<int>,
                                     current: seq<int>, applied: set<int>)
    requires Covers(dayOf, minutes)
    requires Settled(current, dayOf, days, applied)
    requires pending.Some? ==> pending.value in applied
    ensures var r := Chunks(minutes, dayOf, days, pending, current, applied);
            && Flatten(r) == current + minutes
            && r[0].day == pending && current <= r[0].minutes
            && OpensWithItsDay(r, dayOf, days) && DaysOnce(r) && NotBefore(r, dayOf)
            && (forall i :: 0 < i < |r| ==> r[i].day.value !in applied)
            && AllDaysOpened(minutes, dayOf, days, applied, r)
    decreases |minutes|
  {
    if minutes == [] {
    } else {
      var day := dayOf[minutes[0]];
      if day in days && day !in applied {
        ChunksLaw(minutes[1..], dayOf, days, Some(day), [minutes[0]], applied + {day});
        var rest := Chunks(minutes[1..], dayOf, days, Some(day), [minutes[0]], applied + {day});
        ChunkBefore(Chunk(pending, current), rest, minutes, dayOf, days, applied);
      } else {
        ChunksLaw(minutes[1..], dayOf, days, pending, current + [minutes[0]], applied);
      }
    }
  }

  lemma DaysOpened(head: Chunk, rest: seq<Chunk>, minutes: seq<int>, dayOf: map<int, int>, days: set<int>, applied: set<int>)
    requires minutes != [] && rest != [] && Covers(dayOf, minutes) && rest[0].day == Some(dayOf[minutes[0]])
    requires AllDaysOpened(minutes[1..], dayOf, days, applied + {dayOf[minutes[0]]}, rest)
    ensures AllDaysOpened(minutes, dayOf, days, applied, [head] + rest)
  {
    var r := [head] + rest;
    forall k | 0 <= k < |minutes| && dayOf[minutes[k]] in days && dayOf[minutes[k]] !in applied
      ensures exists i :: 0 < i < |r| && r[i].day == Some(dayOf[minutes[k]])
    {
      if dayOf[minutes[k]] == dayOf[minutes[0]] {
        assert r[1].day == Some(dayOf[minutes[k]]);
      } else {
        assert minutes[1..][k - 1] == minutes[k];
        var i :| 0 < i < |rest| && rest[i].day == Some(dayOf[minutes[k]]);
        assert r[i + 1].day == Some(dayOf[minutes[k]]);
      }
    }
  }

  lemma ChunkBefore(head: Chunk, rest: seq<Chunk>, minutes: seq<int>, dayOf: map<int, int>, days: set<int>, applied: set<int>)
    requires minutes != [] && rest != [] && Covers(dayOf, minutes)
    requires Settled(head.minutes, dayOf, days, applied)
    requires head.day.Some? ==> head.day.value in applied
    requires var day := dayOf[minutes[0]];
             && day in days && day !in applied && rest[0].day == Some(day) && [minutes[0]] <= rest[0].minutes
             && Flatten(rest) == [minutes[0]] + minutes[1..]
             && OpensWithItsDay(rest, dayOf, days) && DaysOnce(rest) && NotBefore(rest, dayOf)
             && (forall i :: 0 < i < |rest| ==> rest[i].day.value !in applied + {day})
             && AllDaysOpened(minutes[1..], dayOf, days, applied + {day}, rest)
    ensures var r := [head] + rest;
            && Flatten(r) == head.minutes + minutes
            && OpensWithItsDay(r, dayOf, days) && DaysOnce(r) && NotBefore(r, dayOf)
            && (forall i :: 0 < i < |r| ==> r[i].day.value !in applied)
            && AllDaysOpened(minutes, dayOf, days, applied, r)
  {
    var r, day := [head] + rest, dayOf[minutes[0]];
    assert r[1..] == rest && r[1] == rest[0];
    assert forall i :: 0 < i < |r| ==> r[i] == rest[i - 1];
    assert [minutes[0]] + minutes[1..] == minutes;
    forall i, j | 0 <= i < j < |r| ensures r[j].day.Some? && r[i].day != r[j].day && (0 == i ==> r[j].day.value !in applied) {
      assert r[j] == rest[j - 1];
      assert j > 1 ==> rest[0].day != rest[j - 1].day;
      if i > 0 { assert r[i] == rest[i - 1] && rest[i - 1].day != rest[j - 1].day; }
    }
    DaysOpened(head, rest, minutes, dayOf, days, applied);
    hide AllDaysOpened;
  }

  // ---- RECALCULATE ------------------------------------------------------------------------------------------

  datatype DividendRow = DividendRow(exDate: int, amount: real, validated: bool)

  /** The order being written, the runs so far, and the next run id to hand out. */
  datatype Progress = Progress(file: OrderFile, runs: map<nat, int>, nextRun: nat)

  datatype Recalculation = Going(progress: Progress) | RecalculationRefused(error: LedgerError) | RecalculationRaised {
    /** Recalculating never reports a divergence, and every run it starts reads at the one watermark. */
    ghost predicate Sound(before: map<nat, int>, asOf: int) {
      && (RecalculationRefused? ==> !error.Diverges())
      && (Going? ==> forall r :: r in progress.runs ==> progress.runs[r] == asOf || (r in before && progress.runs[r] == before[r]))
    }
  }

  function Carried(w: WriteResult, p: Progress): Recalculation {
    match w
    case Written(file) => Going(p.(file := file))
    case Untouched => Going(p)
    case WriteRefused(error) => RecalculationRefused(error)
    case WriteRaised => RecalculationRaised
  }

  function Within(lo: int, hi: int): int -> bool { m => lo <= m <= hi }

  function BarsWithin(lo: int, hi: int): Bar -> bool { (b: Bar) => lo <= b.ts <= hi }

  function EvaluateChunk(m: FillModel, f: OrderFile, runId: nat, bars: seq<Bar>, minutes: seq<int>): (w: WriteResult)
    requires f.projection.Some? && minutes != []
    ensures !w.Untouched? && (w.WriteRefused? ==> !w.error.Diverges())
  {
    var first, last := minutes[0], minutes[|minutes| - 1];
    var used := Filter(bars, BarsWithin(first, last));
    var r := m.runBars(f.projection.value.state, used, f.order.terms.context);
    match Dedupe(KnownOf(Plain(f.rows)), r.events, f.order.terms.context.start)
    case Refused(error) => WriteRefused(error)
    case Fresh(events, _) =>
      match SelectedDataHash(f.order.terms.Feed(), minutes, used)
      case None => WriteRaised
      case Some(hash) =>
        var nextSeq := f.projection.value.nextSeq;
        ApplyResult(f, nextSeq, r, events, [SegmentRow(runId, first, last, hash, nextSeq, |events|)])
  }

  function PayDividend(m: FillModel, f: OrderFile, row: DividendRow): WriteResult
    requires f.projection.Some?
  {
    ApplyTo(f, m.applyDividend(f.projection.value.state, f.order.terms.context, row.exDate, row.amount, row.validated))
  }

  /** Pay the chunk's dividend, then evaluate its minutes in a fresh run at the same watermark. */
  function StepChunk(m: FillModel, p: Progress, asOf: int, bars: seq<Bar>, dividends: map<int, DividendRow>, chunk: Chunk)
    : (r: Recalculation)
    requires p.file.projection.Some? && (chunk.day.Some? ==> chunk.day.value in dividends)
    ensures r.Sound(p.runs, asOf)
  {
    var paid := if chunk.day.None? then Going(p) else Carried(PayDividend(m, p.file, dividends[chunk.day.value]), p);
    if !paid.Going? || chunk.minutes == [] then paid
    else
      var q := Progress(paid.progress.file, p.runs[p.nextRun := asOf], p.nextRun + 1);
      if q.file.projection.None? then RecalculationRaised
      else Carried(EvaluateChunk(m, q.file, p.nextRun, bars, chunk.minutes), q)
  }

  function RunChunks(m: FillModel, p: Progress, asOf: int, bars: seq<Bar>, dividends: map<int, DividendRow>, chunks: seq<Chunk>)
    : (r: Recalculation)
    requires forall i :: 0 <= i < |chunks| && chunks[i].day.Some? ==> chunks[i].day.value in dividends
    ensures r.Sound(p.runs, asOf)
    decreases |chunks|
  {
    if chunks == [] then Going(p)
    else if p.file.projection.None? then RecalculationRaised
    else
      var next := StepChunk(m, p, asOf, bars, dividends, chunks[0]);
      if !next.Going? then next else RunChunks(m, next.progress, asOf, bars, dividends, chunks[1..])
  }

  method EvaluateChunks(m: FillModel, p: Progress, asOf: int, bars: seq<Bar>, dividends: map<int, DividendRow>, chunks: seq<Chunk>)
    returns (r: Recalculation)
    requires forall i :: 0 <= i < |chunks| && chunks[i].day.Some? ==> chunks[i].day.value in dividends
    ensures r == RunChunks(m, p, asOf, bars, dividends, chunks)
  {
    var progress, k := p, 0;
    hide StepChunk;
    while k < |chunks|
      invariant 0 <= k <= |chunks|
      invariant RunChunks(m, p, asOf, bars, dividends, chunks) == RunChunks(m, progress, asOf, bars, dividends, chunks[k..])
    {
      assert chunks[k..][1..] == chunks[k + 1..];
      if progress.file.projection.None? {
        return RecalculationRaised;
      }
      var next := StepChunk(m, progress, asOf, bars, dividends, chunks[k]);
      if !next.Going? {
        return next;
      }
      progress, k := next.progress, k + 1;
    }
    return Going(progress);
  }

  function LastBarAt(bars: seq<Bar>, ts: Option<int>): (r: Option<Bar>)
    ensures r.Some? ==> r.value in bars && ts == Some(r.value.ts)
  {
    if bars == [] then None
    else if Some(bars[|bars| - 1].ts) == ts then Some(bars[|bars| - 1])
    else LastBarAt(bars[..|bars| - 1], ts)
  }

  function CloseOut(m: FillModel, p: Progress, asOf: int, bars: seq<Bar>): (r: Recalculation)
    ensures r.Sound(p.runs, asOf)
  {
    if p.file.projection.None? then RecalculationRaised
    else
      var state, ctx := p.file.projection.value.state, p.file.order.terms.context;
      if asOf < ctx.until || state.Final() || state.frozen then Going(p)
      else
        match m.applyValidityEnd(state, ctx, LastBarAt(bars, state.lastBarTs), asOf)
        case None => RecalculationRaised
        case Some(r) => Carried(ApplyTo(p.file, r), p)
  }

  function DayOf(calendar: SessionCalendar, minute: int): int
    requires calendar.Valid() && calendar.Expected(minute)
  {
    ExpectedIsContained(calendar, minute);
    calendar.SessionContaining(minute).value.day
  }

  lemma ExpectedIsContained(calendar: SessionCalendar, minute: int)
    requires calendar.Valid() && calendar.Expected(minute)
    ensures calendar.SessionContaining(minute).Found?
  {
    calendar.ExpectedInRange(minute);
    var i :| InSession(calendar.sessions, i, minute);
    assert calendar.sessions[i] in calendar.sessions;
  }

  /** The first stored event of the source carries what re-creates the order. */
  function FirstPayload(f: OrderFile): Option<Payload> {
    if f.rows == [] then None
    else
      MultisetMembers(SortBy(f.rows, SeqKey), f.rows);
      Some(SortBy(f.rows, SeqKey)[0].event.payload)
  }

  function Recreate(m: FillModel, source: OrderFile, order: OrderRow): (w: WriteResult)
    ensures !w.Untouched? && (w.WriteRefused? ==> !w.error.Diverges())
  {
    var payload := FirstPayload(source);
    if payload.None? || !payload.value.CreatedPayload? then WriteRaised
    else Create(m, order, payload.value.inherited, payload.value.extra)
  }

  function ReplayMinutes(ctx: OrderContext, asOf: int): seq<int> {
    var horizon := Min(ctx.until, FloorMinute(asOf));
    if horizon > ctx.start then ctx.calendar.ExpectedMinutesSpec(ctx.start, horizon) else []
  }

  function ReplayBars(market: Market, order: Terms, asOf: int): seq<Bar> {
    BarsInMinutes(ReadAsOf(market.batches, order.Feed(), order.context.start, Min(order.context.until, FloorMinute(asOf)), asOf),
                  ReplayMinutes(order.context, asOf))
  }

  lemma ReplayMinutesExpected(ctx: OrderContext, asOf: int)
    requires ctx.Valid()
    ensures forall m :: m in ReplayMinutes(ctx, asOf) ==> ctx.calendar.Expected(m) && ctx.start <= m < ctx.until
    ensures StrictlyIncreasing(ReplayMinutes(ctx, asOf))
    ensures ReplayMinutes(ctx, asOf) != [] ==> ReplayMinutes(ctx, asOf)[0] == ctx.start
  {
    var horizon := Min(ctx.until, FloorMinute(asOf));
    ctx.calendar.MinutesCharacterized(ctx.start, horizon);
    hide SessionCalendar.ExpectedMinutesSpec, SessionCalendar.Expected, FloorMinute;
    var minutes := ReplayMinutes(ctx, asOf);
    if minutes != [] {
      assert minutes[0] in minutes && ctx.start in minutes;
      var i :| 0 <= i < |minutes| && minutes[i] == ctx.start;
    }
  }

  function SessionDays(ctx: OrderContext, minutes: seq<int>): (r: map<int, int>)
    requires ctx.Valid() && forall m :: m in minutes ==> ctx.calendar.Expected(m)
    ensures r.Keys == (set m | m in minutes)
  {
    map m | m in minutes :: DayOf(ctx.calendar, m)
  }

  function ReplayDays(ctx: OrderContext, asOf: int): (r: map<int, int>)
    requires ctx.Valid()
    ensures Covers(r, ReplayMinutes(ctx, asOf))
  {
    ReplayMinutesExpected(ctx, asOf);
    SessionDays(ctx, ReplayMinutes(ctx, asOf))
  }

  function DividendChunks(ctx: OrderContext, asOf: int, dividends: map<int, DividendRow>): (r: seq<Chunk>)
    requires ctx.Valid()
  {
    Chunks(ReplayMinutes(ctx, asOf), ReplayDays(ctx, asOf), dividends.Keys, None, [], {})
  }

  lemma ChunkDaysStored(ctx: OrderContext, asOf: int, dividends: map<int, DividendRow>)
    requires ctx.Valid()
    ensures var r := DividendChunks(ctx, asOf, dividends);
            forall i :: 0 <= i < |r| && r[i].day.Some? ==> r[i].day.value in dividends
  {
    ChunksLaw(ReplayMinutes(ctx, asOf), ReplayDays(ctx, asOf), dividends.Keys, None, [], {});
  }

  /** The whole recalculation of one order, in one transaction. */
  function Recalculate(m: FillModel, market: Market, source: OrderFile, order: OrderRow, asOf: int,
                       dividends: map<int, DividendRow>, nextRun: nat): (r: Recalculation)
    requires order.terms.context.Valid()
    ensures r.Sound(market.runs, asOf)
  {
    ChunkDaysStored(order.terms.context, asOf, dividends);
    var created := Carried(Recreate(m, source, order), Progress(source, market.runs, nextRun));
    if !created.Going? then created
    else
      var bars := ReplayBars(market, order.terms, asOf);
      var done := RunChunks(m, created.progress, asOf, bars, dividends, DividendChunks(order.terms.context, asOf, dividends));
      if !done.Going? then done else CloseOut(m, done.progress, asOf, bars)
  }

  /** Chunking depends only on the days of the minutes it is given. */
  lemma {:induction false} ChunksAgree(minutes: seq<int>, a: map<int, int>, b: map<int, int>, days: set<int>,
                                       pending: Option<int>, current: seq<int>, applied: set<int>)
    requires Covers(a, minutes) && Covers(b, minutes)
    requires forall i :: 0 <= i < |minutes| ==> a[minutes[i]] == b[minutes[i]]
    ensures Chunks(minutes, a, days, pending, current, applied) == Chunks(minutes, b, days, pending, current, applied)
    decreases |minutes|
  {
    if minutes != [] {
      var day := a[minutes[0]];
      if day in days && day !in applied {
        ChunksAgree(minutes[1..], a, b, days, Some(day), [minutes[0]], applied + {day});
      } else {
        ChunksAgree(minutes[1..], a, b, days, pending, current + [minutes[0]], applied);
      }
    }
  }

  method SessionDaysOf(ctx: OrderContext, minutes: seq<int>) returns (r: map<int, int>)
    requires ctx.Valid() && forall m :: m in minutes ==> ctx.calendar.Expected(m)
    ensures Covers(r, minutes)
    ensures forall i :: 0 <= i < |minutes| ==> r[minutes[i]] == SessionDays(ctx, minutes)[minutes[i]]
  {
    r := map[];
    var k := 0;
    while k < |minutes|
      invariant 0 <= k <= |minutes|
      invariant forall i :: 0 <= i < k ==> minutes[i] in r && r[minutes[i]] == DayOf(ctx.calendar, minutes[i])
    {
      hide OrderContext.Valid, SessionCalendar.Valid, SessionCalendar.Expected, SessionCalendar.SessionContaining;
      ExpectedIsContained(ctx.calendar, minutes[k]);
      r := r[minutes[k] := ctx.calendar.SessionContaining(minutes[k]).value.day];
      k := k + 1;
    }
  }

  method RecalculateOrder(m: FillModel, market: Market, source: OrderFile, order: OrderRow, asOf: int,
                          dividends: map<int, DividendRow>, nextRun: nat) returns (r: Recalculation)
    requires order.terms.context.Valid()
    ensures r == Recalculate(m, market, source, order, asOf, dividends, nextRun)
  {
    hide Recreate, RunChunks, CloseOut, Chunks, OrderContext.Valid, SessionCalendar.Expected;
    var ctx := order.terms.context;
    r := Carried(Recreate(m, source, order), Progress(source, market.runs, nextRun));
    if !r.Going? {
      return;
    }
    ReplayMinutesExpected(ctx, asOf);
    var minutes := ReplayMinutes(ctx, asOf);
    var bars := ReplayBars(market, order.terms, asOf);
    var days := SessionDaysOf(ctx, minutes);
    ChunksAgree(minutes, days, ReplayDays(ctx, asOf), dividends.Keys, None, [], {});
    var chunks := ChunksByDividend(minutes, days, dividends.Keys);
    ChunkDaysStored(ctx, asOf, dividends);
    assert chunks == DividendChunks(ctx, asOf, dividends);
    r := EvaluateChunks(m, r.progress, asOf, bars, dividends, chunks);
    if r.Going? {
      r := CloseOut(m, r.progress, asOf, bars);
    }
  }
}
