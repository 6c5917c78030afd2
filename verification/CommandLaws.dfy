/** What the commands on an order do: which dividends are credited, which bar ends an order, what is recorded only once. */
module CommandLaws {
  import opened Prelude
  import opened Calendar
  import opened BarStore
  import opened Domain
  import opened Events
  import opened History
  import opened FillContract
  import opened Ledger
  import opened Writers
  import opened EvaluationLaws
  import opened FillV1
  import opened FillV1Rules

  /** The order was evaluated at or past a minute. */
  ghost predicate EvaluatedThrough(segments: seq<SegmentRow>, ts: int) { exists g :: g in segments && ts <= g.barTo }

  lemma ConfirmedIff(segments: seq<SegmentRow>, ts: int)
    ensures PositionConfirmed(segments, ts) <==> EvaluatedThrough(segments, ts)
  {
    hide LastSegmentEnd;
  }

  /**
   * Which dividends are credited: those not on record yet, of an order that was evaluated past the record date, still holds shares
   * and was created with the tolerance in use. Then the dividend is all there is; otherwise nothing, or one review saying why.
   */
  lemma DividendIsCreditedIff(market: Market, f: OrderFile, state: OrderState, exDate: int, amount: real, validated: bool,
                              tolerance: real, confirmedBy: int)
    ensures var plan := PlanCommand(market, f, state, CreditDividend(exDate, amount, validated, tolerance, confirmedBy));
            var unseen := forall e :: e in Plain(f.rows) ==> e.key != DividendKey(exDate);
            var confirmed, held := EvaluatedThrough(f.segments, confirmedBy), state.qtyOpen > 0.0;
            var agreed := f.order.terms.context.config.dividendTolerance == tolerance;
            && plan.Parts?
            && (plan.parts == [DividendPart(exDate, amount, validated)] <==> unseen && confirmed && held && agreed)
            && (plan.parts == [] <==> !unseen || (confirmed && !held))
            && (plan.parts == [ReviewPart("DIVIDEND_POSITION_UNCONFIRMED", Text(exDate))] <==> unseen && !confirmed)
            && (plan.parts == [ReviewPart("DIVIDEND_TOLERANCE_MISMATCH", Text(exDate))] <==> unseen && confirmed && held && !agreed)
  {
    hide KnownOf, PositionConfirmed, EvaluatedThrough, Text, DividendKey;
    KnownOfMembers(Plain(f.rows));
    ConfirmedIff(f.segments, confirmedBy);
    DifferentReasons();
  }

  lemma DifferentReasons()
    ensures "DIVIDEND_POSITION_UNCONFIRMED" != "DIVIDEND_TOLERANCE_MISMATCH"
  {
    assert "DIVIDEND_POSITION_UNCONFIRMED"[9] != "DIVIDEND_TOLERANCE_MISMATCH"[9];
  }

  /** A dividend that cannot be verified is only ever flagged, and only where it would have mattered. */
  lemma UnverifiableIsFlaggedIff(market: Market, f: OrderFile, state: OrderState, exDate: int, confirmedBy: int)
    ensures var plan := PlanCommand(market, f, state, DividendUnverifiable(exDate, confirmedBy));
            var unseen := forall e :: e in Plain(f.rows) ==> e.key != DividendKey(exDate);
            var runs := (state.status.Pending? || Live(state)) && !state.frozen;
            var confirmed := EvaluatedThrough(f.segments, confirmedBy);
            && plan.Parts?
            && (plan.parts == [] <==> !runs || !unseen || (confirmed && state.qtyOpen <= 0.0))
            && (runs && unseen && !confirmed ==> plan.parts == [ReviewPart("DIVIDEND_POSITION_UNCONFIRMED", Text(exDate))])
            && (runs && unseen && confirmed && state.qtyOpen > 0.0 ==> plan.parts == [ReviewPart("DIVIDEND_UNVERIFIED", Text(exDate))])
  {
    hide KnownOf, PositionConfirmed, EvaluatedThrough, Text, DividendKey;
    KnownOfMembers(Plain(f.rows));
    ConfirmedIff(f.segments, confirmedBy);
  }

  /**
   * The bar that ends a live order is the version its own evaluation read: stored as of the watermark of the run whose segment
   * holds the last evaluated minute. Without such a version the command is refused; an order without position needs none.
   */
  lemma EndedOnTheEvaluatedBar(market: Market, f: OrderFile, state: OrderState, now: int)
    requires InOrder(f.segments) && forall g :: g in f.segments ==> g.barFrom <= g.barTo && g.runId in market.runs
    ensures var plan, feed := PlanCommand(market, f, state, FinalizeValidity(now)), f.order.terms.Feed();
            if Live(state) && state.lastBarTs.Some? then
              var ts := state.lastBarTs.value;
              && (plan.PlanRefused? || (plan.Parts? && |plan.parts| == 1 && plan.parts[0].ValidityPart? && plan.parts[0].bar.Some?))
              && (forall g :: g in f.segments && g.barFrom <= ts <= g.barTo ==>
                    var asOf := market.runs[g.runId];
                    var version := VersionAsOf(market.batches, feed, ts, asOf);
                    && (version.Some? ==> plan == Parts([ValidityPart(version, now)]))
                    && (version.None? && (forall m :: m in StoredMinutes(market.batches, feed, asOf) ==> !(ts < m < ts + MINUTE)) ==>
                          plan == PlanRefused(ProcessedBarMissing(ts))))
              && ((forall g :: g in f.segments ==> !(g.barFrom <= ts <= g.barTo)) ==> plan == PlanRefused(ProcessedBarMissing(ts)))
            else plan == Parts([ValidityPart(None, now)])
  {
    hide KnownOf, ReadAsOf, VersionAsOf, InOrder;
    if Live(state) && state.lastBarTs.Some? {
      var ts := state.lastBarTs.value;
      ContainingIs(f.segments, ts);
      var held := SegmentContaining(f.segments, ts);
      if held.Some? {
        OneMinuteRead(market.batches, f.order.terms.Feed(), ts, market.runs[held.value.runId]);
        forall g | g in f.segments && g.barFrom <= ts <= g.barTo ensures g == held.value {
          OnlyOneContains(f.segments, held.value, g, ts);
        }
      }
    }
  }

  lemma {:induction false} ContainingIs(segments: seq<SegmentRow>, ts: int)
    ensures var r := SegmentContaining(segments, ts);
            && (r.Some? ==> r.value in segments && r.value.barFrom <= ts <= r.value.barTo)
            && (r.None? ==> forall g :: g in segments ==> !(g.barFrom <= ts <= g.barTo))
  {
    if segments != [] {
      ContainingIs(segments[1..], ts);
      assert forall g :: g in segments <==> g == segments[0] || g in segments[1..];
    }
  }

  lemma OnlyOneContains(segments: seq<SegmentRow>, a: SegmentRow, b: SegmentRow, ts: int)
    requires InOrder(segments) && a in segments && b in segments
    requires a.barFrom <= ts <= a.barTo && b.barFrom <= ts <= b.barTo
    ensures a == b
  {
    var i :| 0 <= i < |segments| && segments[i] == a;
    var j :| 0 <= j < |segments| && segments[j] == b;
  }

  /** Reading one minute returns its version first; with nothing stored inside the minute, nothing else. */
  lemma OneMinuteRead(batches: seq<Batch>, feed: Feed, ts: int, asOf: int)
    ensures var read, version := ReadAsOf(batches, feed, ts, ts + MINUTE, asOf), VersionAsOf(batches, feed, ts, asOf);
            && (version.Some? ==> read != [] && read[0] == version.value)
            && (version.None? && (forall m :: m in StoredMinutes(batches, feed, asOf) ==> !(ts < m < ts + MINUTE)) ==> read == [])
  {
    var minutes := Ascending(set m | m in StoredMinutes(batches, feed, asOf) && ts <= m < ts + MINUTE);
    var read, version := ReadAsOf(batches, feed, ts, ts + MINUTE, asOf), VersionAsOf(batches, feed, ts, asOf);
    BarAtRead(batches, feed, ts, ts + MINUTE, asOf, ts);
    BarsAtMembers(batches, feed, asOf, minutes);
    BarsAtInOrder(batches, feed, asOf, minutes);
    hide VersionAsOf, BarsAt, StoredMinutes;
    if version.Some? {
      VersionIsAt(batches, feed, ts, asOf);
      VersionIsStored(batches, feed, ts, asOf);
      assert version.value in read;
      var i :| 0 <= i < |read| && read[i] == version.value;
      assert read[0] in read;
    } else {
      forall i | 0 <= i < |read| ensures ts < read[i].ts < ts + MINUTE && read[i].ts in StoredMinutes(batches, feed, asOf) {
        assert read[i] in read;
        assert read[i].ts in minutes;
      }
    }
  }

  lemma VersionIsStored(batches: seq<Batch>, feed: Feed, ts: int, asOf: int)
    requires VersionAsOf(batches, feed, ts, asOf).Some?
    ensures ts in StoredMinutes(batches, feed, asOf)
  {
  }

  /** Running no part appends nothing: the order's log, segments and state stay as they are. */
  lemma NothingToDo(m: FillModel, coupled: Coupling, market: Market, f: OrderFile, c: Command)
    requires Honest(m, coupled, market, f) && !f.order.replay && f.projection.Some?
    requires PlanCommand(market, f, f.projection.value.state, c) == Parts([])
    ensures ApplyCommand(m, market, f, c) == Written(f)
  {
    hide *;
    HonestIsValid(m, coupled, market, f);
    CachedIsRegained(m, coupled, market, f);
    RestoredIsHonest(m, coupled, market, f, f.projection.value);
    var r := StepResult(f.projection.value.state, []);
    ApplyIsAppend(f, r, [], []);
    NoPartRuns(m, market, f, c);
    AppendNothing(f);
  }

  lemma NoPartRuns(m: FillModel, market: Market, f: OrderFile, c: Command)
    requires !f.order.replay && f.projection.Some? && PlanCommand(market, f, f.projection.value.state, c) == Parts([])
    ensures ApplyCommand(m, market, f, c) == ApplyResult(f, f.projection.value.nextSeq, StepResult(f.projection.value.state, []), [], [])
  {
    hide PlanCommand, KnownOf, ApplyResult;
    assert RunParts(m, f.order.terms.context, f.projection.value.state, []) == Some(StepResult(f.projection.value.state, []));
  }

  lemma AppendNothing(f: OrderFile)
    requires f.projection.Some? && f.projection.value == ProjectionRow(f.projection.value.state, |f.rows| + 1, f.rows)
    ensures Append(f, [], f.projection.value.state, []) == f
  {
    hide ProjectionRow;
    assert Numbered([], |f.rows| + 1) == [] && f.rows + [] == f.rows && f.segments + [] == f.segments;
  }

  /** Crediting a dividend that is on record changes nothing at all, whatever amount it now comes with. */
  lemma DividendsAreCreditedOnce(m: FillModel, coupled: Coupling, market: Market, f: OrderFile, e: Event, exDate: int, amount: real,
                                 validated: bool, tolerance: real, confirmedBy: int)
    requires Honest(m, coupled, market, f) && !f.order.replay && f.projection.Some?
    requires e in Plain(f.rows) && e.key == DividendKey(exDate)
    ensures ApplyCommand(m, market, f, CreditDividend(exDate, amount, validated, tolerance, confirmedBy)) == Written(f)
  {
    hide Honest, ApplyCommand, PlanCommand, DividendKey;
    DividendIsCreditedIff(market, f, f.projection.value.state, exDate, amount, validated, tolerance, confirmedBy);
    NothingToDo(m, coupled, market, f, CreditDividend(exDate, amount, validated, tolerance, confirmedBy));
  }

  // ---- session quality ----------------------------------------------------------------------------------------------

  /** A day's quality is recorded once: a second report of the day changes nothing at all, whatever it says. */
  lemma QualityIsRecordedOnce(m: FillModel, coupled: Coupling, market: Market, f: OrderFile, e: Event, day: int, expected: nat,
                              missing: nat, gaps: seq<Gap>, flags: seq<ReviewFlag>)
    requires Honest(m, coupled, market, f) && !f.order.replay && f.projection.Some?
    requires e in Plain(f.rows) && e.key == QualityKey(day)
    ensures ApplyCommand(m, market, f, SessionQuality(day, expected, missing, gaps, flags)) == Written(f)
  {
    hide Honest, ApplyCommand, KnownOf;
    KnownOfMembers(Plain(f.rows));
    NothingToDo(m, coupled, market, f, SessionQuality(day, expected, missing, gaps, flags));
  }

  ghost predicate NoQuality(events: seq<Event>) { forall e :: e in events ==> e.kind != DataQuality }

  lemma {:induction false} TotalsConcat(a: seq<Event>, b: seq<Event>)
    ensures ExpectedTotal(a + b) == ExpectedTotal(a) + ExpectedTotal(b) && MissingTotal(a + b) == MissingTotal(a) + MissingTotal(b)
    decreases |b|
  {
    if b == [] {
      assert a + b == a;
    } else {
      assert (a + b)[..|a + b| - 1] == a + b[..|b| - 1];
      TotalsConcat(a, b[..|b| - 1]);
    }
  }

  lemma {:induction false} NoQualityTotals(events: seq<Event>)
    requires NoQuality(events)
    ensures ExpectedTotal(events) == 0 && MissingTotal(events) == 0
  {
    if events != [] {
      NoQualityTotals(events[..|events| - 1]);
      assert events[|events| - 1] in events;
    }
  }

  lemma {:induction false} DedupeKeepsOnly(known: Known, events: seq<Event>, start: int)
    requires Dedupe(known, events, start).Fresh?
    ensures forall e :: e in Dedupe(known, events, start).events ==> e in events
    decreases |events|
  {
    if events != [] {
      var e := events[0];
      if e.key in known {
        DedupeKeepsOnly(known, events[1..], start);
      } else {
        DedupeKeepsOnly(known[e.key := e], events[1..], start);
      }
    }
  }

  /** What gap records and review flags do under v1: reasons are listed, nothing else about the order changes. */
  lemma {:induction false} GapsAndFlagsOnly(ctx: OrderContext, state: OrderState, parts: seq<Part>)
    requires forall p :: p in parts ==> p.ReviewPart? || (p.RecordPart? && p.event.kind.DataGap?)
    ensures RunParts(V1, ctx, state, parts).Some?
    ensures var r := RunParts(V1, ctx, state, parts).value;
            NoQuality(r.events) && r.state == state.(reviewReasons := r.state.reviewReasons)
    decreases |parts|
  {
    hide RunPart, NoQuality;
    if parts == [] {
      NothingIsNoQuality();
    } else {
      assert parts[0] in parts;
      GapOrFlagOnly(ctx, state, parts[0]);
      var r := RunPart(V1, ctx, state, parts[0]).value;
      GapsAndFlagsOnly(ctx, r.state, parts[1..]);
      NoQualityConcat(r.events, RunParts(V1, ctx, r.state, parts[1..]).value.events);
    }
  }

  lemma GapOrFlagOnly(ctx: OrderContext, state: OrderState, p: Part)
    requires p.ReviewPart? || (p.RecordPart? && p.event.kind.DataGap?)
    ensures RunPart(V1, ctx, state, p).Some?
    ensures var r := RunPart(V1, ctx, state, p).value;
            NoQuality(r.events) && r.state == state.(reviewReasons := r.state.reviewReasons)
  {
    hide NewOrderState, RunBars, Cancel, Freeze, ApplyDividend, ApplyValidityEnd;
  }

  lemma NothingIsNoQuality()
    ensures NoQuality([])
  {
  }

  lemma NoQualityConcat(a: seq<Event>, b: seq<Event>)
    requires NoQuality(a) && NoQuality(b)
    ensures NoQuality(a + b)
  {
  }

  lemma GapPartsAreGaps(gaps: seq<Gap>)
    ensures forall p :: p in GapParts(gaps) ==> p.RecordPart? && p.event.kind.DataGap?
  {
    if gaps != [] { GapPartsAreGaps(gaps[1..]); }
  }

  /**
   * A day's first quality report adds exactly its expected and missing bars to the order's totals, and touches nothing of its
   * position: the order's state changes in its review reasons only.
   */
  lemma QualityAddsUp(coupled: Coupling, market: Market, f: OrderFile, day: int, expected: nat, missing: nat, gaps: seq<Gap>,
                      flags: seq<ReviewFlag>, g: OrderFile)
    requires Honest(V1, coupled, market, f) && f.projection.Some?
    requires forall e :: e in Plain(f.rows) ==> e.key != QualityKey(day)
    requires ApplyCommand(V1, market, f, SessionQuality(day, expected, missing, gaps, flags)) == Written(g)
    ensures g.projection.Some? && |g.rows| > |f.rows| && f.rows <= g.rows && g.rows[|f.rows|].event == QualityEvent(day, expected, missing)
    ensures var before, after := f.projection.value, g.projection.value;
            && after.expectedBars == before.expectedBars + expected && after.missingBars == before.missingBars + missing
            && after.state == before.state.(reviewReasons := after.state.reviewReasons)
  {
    hide *;
    var c := SessionQuality(day, expected, missing, gaps, flags);
    var parts, r, d := CommandParts(V1, market, f, c, g);
    var rest := QualityPlan(market, f, day, expected, missing, gaps, flags, parts);
    var later := QualityRun(f.order.terms.context, f.projection.value.state, day, expected, missing, rest, r);
    QualityFresh(Plain(f.rows), day, expected, missing, later, f.order.terms.context.start, d, r.events);
    HonestIsValid(V1, coupled, market, f);
    CachedIsRegained(V1, coupled, market, f);
    RestoredIsHonest(V1, coupled, market, f, f.projection.value);
    ColumnsOf(Regained(V1, market, f), |f.rows| + 1, f.rows);
    ApplyIsAppend(f, r, d.events, []);
    AppendTotals(f, d.events, r.state, day, expected, missing, g);
  }

  lemma ColumnsOf(state: OrderState, nextSeq: nat, rows: seq<StoredEvent>)
    ensures var p := ProjectionRow(state, nextSeq, rows);
            p.expectedBars == ExpectedTotal(Plain(rows)) && p.missingBars == MissingTotal(Plain(rows))
  {
  }

  lemma QualityPlan(market: Market, f: OrderFile, day: int, expected: nat, missing: nat, gaps: seq<Gap>, flags: seq<ReviewFlag>, parts: seq<Part>)
    returns (rest: seq<Part>)
    requires f.projection.Some? && (forall e :: e in Plain(f.rows) ==> e.key != QualityKey(day))
    requires PlanCommand(market, f, f.projection.value.state, SessionQuality(day, expected, missing, gaps, flags)) == Parts(parts)
    ensures parts == [RecordPart(QualityEvent(day, expected, missing))] + rest
    ensures forall p :: p in rest ==> p.ReviewPart? || (p.RecordPart? && p.event.kind.DataGap?)
  {
    hide KnownOf, QualityEvent, QualityKey;
    KnownOfMembers(Plain(f.rows));
    GapPartsAreGaps(gaps);
    rest := GapParts(gaps) + FlagParts(flags);
    assert parts == [RecordPart(QualityEvent(day, expected, missing))] + rest;
  }

  lemma QualityRun(ctx: OrderContext, state: OrderState, day: int, expected: nat, missing: nat, rest: seq<Part>, r: StepResult)
    returns (later: seq<Event>)
    requires forall p :: p in rest ==> p.ReviewPart? || (p.RecordPart? && p.event.kind.DataGap?)
    requires RunParts(V1, ctx, state, [RecordPart(QualityEvent(day, expected, missing))] + rest) == Some(r)
    ensures r.events == [QualityEvent(day, expected, missing)] + later && NoQuality(later)
    ensures r.state == state.(reviewReasons := r.state.reviewReasons)
  {
    hide QualityEvent, NoQuality;
    var first := RecordPart(QualityEvent(day, expected, missing));
    assert ([first] + rest)[1..] == rest;
    GapsAndFlagsOnly(ctx, state, rest);
    later := RunParts(V1, ctx, state, rest).value.events;
  }

  lemma QualityFresh(log: seq<Event>, day: int, expected: nat, missing: nat, later: seq<Event>, start: int, d: Deduped, events: seq<Event>)
    requires (forall e :: e in log ==> e.key != QualityKey(day)) && NoQuality(later)
    requires events == [QualityEvent(day, expected, missing)] + later && d == Dedupe(KnownOf(log), events, start) && d.Fresh?
    ensures d.events != [] && d.events[0] == QualityEvent(day, expected, missing) && NoQuality(d.events[1..])
  {
    hide KnownOf, QualityKey;
    KnownOfMembers(log);
    var first := QualityEvent(day, expected, missing);
    assert events[1..] == later;
    DedupeKeepsOnly(KnownOf(log)[first.key := first], later, start);
  }

  lemma AppendTotals(f: OrderFile, events: seq<Event>, state: OrderState, day: int, expected: nat, missing: nat, g: OrderFile)
    requires Contiguous(f.rows) && f.projection.Some? && f.projection.value.expectedBars == ExpectedTotal(Plain(f.rows))
    requires f.projection.value.missingBars == MissingTotal(Plain(f.rows)) && g == Append(f, events, state, [])
    requires events != [] && events[0] == QualityEvent(day, expected, missing) && NoQuality(events[1..])
    ensures g.projection.Some? && |g.rows| > |f.rows| && f.rows <= g.rows && g.rows[|f.rows|].event == QualityEvent(day, expected, missing)
    ensures g.projection.value.expectedBars == f.projection.value.expectedBars + expected
    ensures g.projection.value.missingBars == f.projection.value.missingBars + missing && g.projection.value.state == state
  {
    AppendedRows(f, events);
    TotalsConcat(Plain(f.rows), events);
    assert events == [events[0]] + events[1..];
    TotalsConcat([events[0]], events[1..]);
    NoQualityTotals(events[1..]);
    assert [events[0]][..0] == [];
  }

  lemma AppendedRows(f: OrderFile, events: seq<Event>)
    ensures Plain(f.rows + Numbered(events, |f.rows| + 1)) == Plain(f.rows) + events
  {
  }

  /** An order that has ended cannot be canceled again; any other cancel, freeze or review is passed to the model as it is. */
  lemma DirectCommands(market: Market, f: OrderFile, state: OrderState, at: int, who: string, reason: string, ref: string)
    ensures PlanCommand(market, f, state, CancelOrder(at, who))
         == if state.status.Pending? || Live(state) then Parts([CancelPart(at, who)]) else PlanRaised
    ensures PlanCommand(market, f, state, FreezeOrder(reason, ref)) == Parts([FreezePart(reason, ref)])
    ensures PlanCommand(market, f, state, FlagOrderReview(reason, ref)) == Parts([ReviewPart(reason, ref)])
  {
    hide KnownOf;
  }

  /** A part that records a gap with its start and length. */
  ghost predicate TellsGap(part: Part, gap: Gap) {
    part.RecordPart? && part.event.kind.DataGap? && part.event.key == "DATA_GAP:" + Text(gap.start)
    && part.event.payload == GapPayload(gap.start, gap.minutes)
  }

  ghost predicate TellsTotals(part: Part, day: int, expected: nat, missing: nat) {
    part.RecordPart? && part.event.kind.DataQuality? && part.event.key == "DATA_QUALITY:" + Text(day)
    && part.event.payload == QualityPayload(day, expected, missing)
  }

  lemma {:induction false} GapPartsAre(gaps: seq<Gap>)
    ensures |GapParts(gaps)| == |gaps|
    ensures forall k :: 0 <= k < |gaps| ==> TellsGap(GapParts(gaps)[k], gaps[k])
  {
    hide Text, TellsGap;
    if gaps != [] {
      GapPartsAre(gaps[1..]);
      GapIsTold(gaps[0]);
      assert forall k :: 0 < k < |gaps| ==> gaps[1..][k - 1] == gaps[k];
    }
  }

  lemma GapIsTold(gap: Gap)
    ensures TellsGap(RecordPart(GapEvent(gap)), gap)
  {
    hide Text;
  }

  lemma {:induction false} FlagPartsAre(flags: seq<ReviewFlag>)
    ensures |FlagParts(flags)| == |flags|
    ensures forall k :: 0 <= k < |flags| ==> FlagParts(flags)[k] == ReviewPart(flags[k].reason, flags[k].ref)
  {
    if flags != [] {
      FlagPartsAre(flags[1..]);
      assert forall k :: 0 < k < |flags| ==> flags[1..][k - 1] == flags[k];
    }
  }

  lemma QualityPlanIs(market: Market, f: OrderFile, state: OrderState, day: int, expected: nat, missing: nat, gaps: seq<Gap>,
                      flags: seq<ReviewFlag>) returns (first: Part)
    requires QualityKey(day) !in KnownOf(Plain(f.rows))
    ensures PlanCommand(market, f, state, SessionQuality(day, expected, missing, gaps, flags))
         == Parts([first] + GapParts(gaps) + FlagParts(flags))
    ensures TellsTotals(first, day, expected, missing)
  {
    hide KnownOf, GapParts, FlagParts, Text;
    first := RecordPart(QualityEvent(day, expected, missing));
  }

  /** A day's first quality report records its totals, then every gap with its start and length, then raises every flag. */
  lemma QualityTellsEverything(market: Market, f: OrderFile, state: OrderState, day: int, expected: nat, missing: nat, gaps: seq<Gap>,
                               flags: seq<ReviewFlag>)
    requires QualityKey(day) !in KnownOf(Plain(f.rows))
    ensures var plan := PlanCommand(market, f, state, SessionQuality(day, expected, missing, gaps, flags));
            && plan.Parts? && |plan.parts| == 1 + |gaps| + |flags|
            && TellsTotals(plan.parts[0], day, expected, missing)
            && (forall k :: 0 <= k < |gaps| ==> TellsGap(plan.parts[1 + k], gaps[k]))
            && (forall k :: 0 <= k < |flags| ==> plan.parts[1 + |gaps| + k] == ReviewPart(flags[k].reason, flags[k].ref))
  {
    hide *;
    GapPartsAre(gaps);
    FlagPartsAre(flags);
    var first := QualityPlanIs(market, f, state, day, expected, missing, gaps, flags);
  }
}
