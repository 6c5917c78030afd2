/** Exactly-once evaluation: the segments of an order, end to end, are its expected minutes with no hole and no repeat. */
module Tiling {
  import opened Prelude
  import opened Calendar
  import opened Domain
  import opened History
  import opened Ledger

  /** Every minute evaluated by a list of segments, in the order they were evaluated. */
  function Covered(calendar: SessionCalendar, segments: seq<SegmentRow>): seq<int> {
    if segments == [] then []
    else
      var g := segments[|segments| - 1];
      Covered(calendar, segments[..|segments| - 1]) + calendar.ExpectedMinutesSpec(g.barFrom, g.barTo + MINUTE)
  }

  lemma SplitAt(calendar: SessionCalendar, start: int, last: int, first: int, end: int)
    requires calendar.Valid() && start <= last && calendar.Expected(last) && last < end
    requires calendar.NextExpectedMinute(last) == Some(first)
    ensures calendar.ExpectedMinutesSpec(start, end)
         == calendar.ExpectedMinutesSpec(start, last + MINUTE) + calendar.ExpectedMinutesSpec(first, end)
  {
    var all := calendar.ExpectedMinutesSpec(start, end);
    var a, b := calendar.ExpectedMinutesSpec(start, last + MINUTE), calendar.ExpectedMinutesSpec(first, end);
    calendar.MinutesCharacterized(start, end);
    calendar.MinutesCharacterized(start, last + MINUTE);
    calendar.MinutesCharacterized(first, end);
    calendar.NextExpectedIsLeast(last);
    hide SessionCalendar.ExpectedMinutesSpec, SessionCalendar.Valid, SessionCalendar.NextExpectedMinute;
    forall m | calendar.Expected(m) ensures m < last + MINUTE <==> m <= last {
      if last < m { MinutesApart(last, m); }
    }
    forall m ensures m in a <==> m in all && m <= last {}
    forall m ensures m in b <==> m in all && last < m {}
    hide SessionCalendar.Expected;
    JoinIncreasing(a, b, last);
    SameMembersSameList(all, a + b);
  }

  lemma JoinIncreasing(a: seq<int>, b: seq<int>, mid: int)
    requires StrictlyIncreasing(a) && StrictlyIncreasing(b)
    requires forall m :: m in a ==> m <= mid
    requires forall m :: m in b ==> mid < m
    ensures StrictlyIncreasing(a + b)
  {
    forall i, j | 0 <= i < j < |a + b| ensures (a + b)[i] < (a + b)[j] {
      if i < |a| <= j { assert a[i] in a && b[j - |a|] in b; }
    }
  }

  lemma TilesBefore(ctx: OrderContext, segments: seq<SegmentRow>)
    requires Tiled(ctx, segments) && segments != []
    ensures Tiled(ctx, segments[..|segments| - 1])
    ensures segments[|segments| - 1] in segments
  {
    hide SessionCalendar.NextExpectedMinute, SessionCalendar.Expected, OrderContext.Valid;
    forall g | g in segments[..|segments| - 1] ensures g in segments {}
  }

  /**
   * Whatever the runs that wrote them, tiled segments evaluated exactly the expected minutes from the start of the order
   * through the end of the last segment, each once and in order.
   */
  lemma {:induction false} EveryMinuteOnce(ctx: OrderContext, segments: seq<SegmentRow>)
    requires Tiled(ctx, segments)
    ensures segments == [] ==> Covered(ctx.calendar, segments) == []
    ensures segments != [] ==>
              Covered(ctx.calendar, segments)
              == ctx.calendar.ExpectedMinutesSpec(ctx.start, segments[|segments| - 1].barTo + MINUTE)
    decreases |segments|
  {
    hide Tiled, SessionCalendar.ExpectedMinutesSpec, OrderContext.Valid;
    if segments != [] {
      var before, g := segments[..|segments| - 1], segments[|segments| - 1];
      TilesBefore(ctx, segments);
      EveryMinuteOnce(ctx, before);
      LastTile(ctx, segments);
      assert before == [] ==> [] + ctx.calendar.ExpectedMinutesSpec(ctx.start, g.barTo + MINUTE) == ctx.calendar.ExpectedMinutesSpec(ctx.start, g.barTo + MINUTE);
    }
  }

  /** The last tile starts the order, or continues where the tile before it ended. */
  lemma LastTile(ctx: OrderContext, segments: seq<SegmentRow>)
    requires Tiled(ctx, segments) && segments != []
    ensures var g := segments[|segments| - 1];
            if |segments| == 1 then g.barFrom == ctx.start
            else ctx.calendar.ExpectedMinutesSpec(ctx.start, g.barTo + MINUTE)
                 == ctx.calendar.ExpectedMinutesSpec(ctx.start, segments[|segments| - 2].barTo + MINUTE)
                    + ctx.calendar.ExpectedMinutesSpec(g.barFrom, g.barTo + MINUTE)
  {
    hide *;
    LastPair(ctx, segments);
    if |segments| > 1 {
      var prev, g := segments[|segments| - 2], segments[|segments| - 1];
      LastIsBefore(ctx, prev, g);
      SplitAt(ctx.calendar, ctx.start, prev.barTo, g.barFrom, g.barTo + MINUTE);
    }
  }

  lemma LastPair(ctx: OrderContext, segments: seq<SegmentRow>)
    requires Tiled(ctx, segments) && segments != []
    ensures ctx.calendar.Valid() && (|segments| == 1 ==> segments[0].barFrom == ctx.start)
    ensures |segments| > 1 ==>
              var prev, g := segments[|segments| - 2], segments[|segments| - 1];
              && ctx.calendar.Expected(prev.barTo) && ctx.start <= prev.barTo && g.barFrom <= g.barTo
              && ctx.calendar.NextExpectedMinute(prev.barTo) == Some(g.barFrom)
  {
    hide SessionCalendar.NextExpectedMinute, SessionCalendar.Expected, SessionCalendar.Valid;
    assert segments[|segments| - 1] in segments && forall i :: 0 <= i < |segments| ==> segments[i] in segments;
  }

  lemma LastIsBefore(ctx: OrderContext, prev: SegmentRow, g: SegmentRow)
    requires ctx.calendar.Valid() && ctx.calendar.Expected(prev.barTo)
    requires ctx.calendar.NextExpectedMinute(prev.barTo) == Some(g.barFrom) && g.barFrom <= g.barTo
    ensures prev.barTo < g.barTo + MINUTE
  {
    ctx.calendar.NextExpectedIsLeast(prev.barTo);
  }
}
