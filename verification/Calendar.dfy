/** Expected-minute calendar over injected trading sessions. An instant is a whole number of microseconds. */
module Calendar {
  import opened Prelude

  const MINUTE: int := 60_000_000

  predicate Whole(ts: int) { ts % MINUTE == 0 }

  function FloorMinute(ts: int): (r: int)
    ensures r <= ts < r + MINUTE && Whole(r)
  {
    ts - ts % MINUTE
  }

  /** The first whole minute at or after an instant. */
  function CeilMinute(ts: int): (r: int)
    ensures r - MINUTE < ts <= r && Whole(r)
  {
    if FloorMinute(ts) < ts then FloorMinute(ts) + MINUTE else FloorMinute(ts)
  }

  datatype Session = Session(day: int, open: int, close: int) {
    predicate Valid() { Whole(open) && Whole(close) && open < close }
  }

  /** `Outside` is the source's CalendarRangeError. */
  datatype Lookup<+T> = Found(value: T) | Between | Outside

  /** Number of leading sessions whose close is at or before `ts`: bisect_right over the closes. */
  function ClosedBy(sessions: seq<Session>, ts: int): (n: nat)
    ensures n <= |sessions|
    ensures forall i :: 0 <= i < n ==> sessions[i].close <= ts
    ensures n < |sessions| ==> sessions[n].close > ts
  {
    if sessions == [] || sessions[0].close > ts then 0 else 1 + ClosedBy(sessions[1..], ts)
  }

  /** Number of leading sessions that open before `ts`: bisect_left over the opens. */
  function OpenedBefore(sessions: seq<Session>, ts: int): (n: nat)
    ensures n <= |sessions|
    ensures forall i :: 0 <= i < n ==> sessions[i].open < ts
    ensures n < |sessions| ==> sessions[n].open >= ts
  {
    if sessions == [] || sessions[0].open >= ts then 0 else 1 + OpenedBefore(sessions[1..], ts)
  }

  /** Neighbours in order of opening do not overlap: the constructor's check. */
  predicate NeighboursDisjoint(sessions: seq<Session>) {
    forall i :: 0 < i < |sessions| ==> sessions[i - 1].close <= sessions[i].open
  }

  /** What the neighbour check buys: every session closes before any later one opens. */
  lemma {:induction false} DisjointEverywhere(sessions: seq<Session>, i: nat, j: nat)
    requires NeighboursDisjoint(sessions) && forall s :: s in sessions ==> s.Valid()
    requires i < j < |sessions|
    ensures sessions[i].close <= sessions[j].open
    decreases j - i
  {
    if i + 1 < j {
      DisjointEverywhere(sessions, i + 1, j);
      assert sessions[i + 1] in sessions && sessions[i].close <= sessions[i + 1].open;
    }
  }

  predicate Disjoint(sessions: seq<Session>) {
    forall i, j :: 0 <= i < j < |sessions| ==> sessions[i].close <= sessions[j].open
  }

  datatype SessionCalendar = SessionCalendar(sessions: seq<Session>) {

    predicate Valid() {
      && sessions != []
      && (forall s :: s in sessions ==> s.Valid())
      && Disjoint(sessions)
    }

    function LastClose(): int
      requires sessions != []
    {
      sessions[|sessions| - 1].close
    }

    /** A minute the market trades in: whole, and inside some session. */
    ghost predicate Expected(m: int) {
      Whole(m) && exists i :: InSession(sessions, i, m)
    }

    function SessionContaining(ts: int): (r: Lookup<Session>)
      requires Valid()
      ensures r.Found? ==> r.value in sessions && r.value.open <= ts < r.value.close
      ensures r.Between? ==> forall s :: s in sessions ==> !(s.open <= ts < s.close)
      ensures r.Outside? <==> ts < sessions[0].open || ts >= LastClose()
    {
      ClosesSorted();
      var index := ClosedBy(sessions, ts);
      if ts < sessions[0].open then Outside
      else if index < |sessions| && sessions[index].open <= ts then Found(sessions[index])
      else if index >= |sessions| then Outside
      else
        assert forall i :: index < i < |sessions| ==> ts < sessions[i].open by { OpensSorted(); }
        Between
    }

    lemma OpensSorted()
      requires Valid()
      ensures forall i, j :: 0 <= i < j < |sessions| ==> sessions[i].close <= sessions[j].open
      ensures forall i, j :: 0 <= i < j < |sessions| ==> sessions[i].open < sessions[j].open
    {
      forall i, j | 0 <= i < j < |sessions|
        ensures sessions[i].close <= sessions[j].open && sessions[i].open < sessions[j].open
      {
        assert sessions[i].Valid();
      }
    }

    lemma ClosesSorted()
      requires Valid()
      ensures forall i, j :: 0 <= i < j < |sessions| ==> sessions[i].close < sessions[j].close
    {
      forall i, j | 0 <= i < j < |sessions| ensures sessions[i].close < sessions[j].close {
        assert sessions[j].Valid();
      }
    }

    function FirstExpectedAtOrAfter(ts: int): (r: Option<int>)
      requires Valid()
    {
      var index := ClosedBy(sessions, CeilMinute(ts));
      if ts < sessions[0].open || index >= |sessions| then None
      else Some(Max(CeilMinute(ts), sessions[index].open))
    }

    /** The query returns the least expected minute at or after `ts`, and refuses exactly outside the calendar. */
    lemma FirstExpectedIsLeast(ts: int)
      requires Valid()
      ensures FirstExpectedAtOrAfter(ts).None? <==> ts < sessions[0].open || ts > LastClose() - MINUTE
      ensures FirstExpectedAtOrAfter(ts).Some? ==>
                var m := FirstExpectedAtOrAfter(ts).value;
                && Expected(m) && ts <= m
                && forall k :: Expected(k) && ts <= k ==> m <= k
    {
      OpensSorted();
      ClosesSorted();
      var minute := CeilMinute(ts);
      var index := ClosedBy(sessions, minute);
      assert Whole(LastClose()) by { assert sessions[|sessions| - 1].Valid(); }
      assert index < |sessions| <==> minute < LastClose();
      NextWhole(LastClose());
      CeilWhole(ts, LastClose() - MINUTE);
      if minute < LastClose() { MinutesApart(minute, LastClose()); }
      if ts >= sessions[0].open && index < |sessions| {
        var m := Max(minute, sessions[index].open);
        assert sessions[index].Valid();
        assert InSession(sessions, index, m);
        forall k | Expected(k) && ts <= k ensures m <= k {
          var i :| InSession(sessions, i, k);
          CeilWhole(ts, k);
          assert i >= index;
        }
      }
    }

    function NextExpectedMinute(ts: int): Option<int>
      requires Valid()
    {
      FirstExpectedAtOrAfter(FloorMinute(ts) + MINUTE)
    }

    /** The least expected minute strictly after an expected minute, when one is loaded. */
    lemma NextExpectedIsLeast(m: int)
      requires Valid() && Expected(m)
      ensures NextExpectedMinute(m).None? <==> m == LastClose() - MINUTE
      ensures NextExpectedMinute(m).Some? ==>
                var n := NextExpectedMinute(m).value;
                && Expected(n) && m < n
                && forall k :: Expected(k) && m < k ==> n <= k
    {
      assert NextExpectedMinute(m) == FirstExpectedAtOrAfter(m + MINUTE);
      hide NextExpectedMinute, FirstExpectedAtOrAfter, Valid;
      FirstExpectedIsLeast(m + MINUTE);
      ExpectedInRange(m);
      forall k | Expected(k) && m < k ensures m + MINUTE <= k { MinutesApart(m, k); }
      assert Whole(LastClose()) by { LastCloseWhole(); }
      assert m > LastClose() - MINUTE - MINUTE ==> m == LastClose() - MINUTE by {
        NextWhole(LastClose());
        if m < LastClose() - MINUTE { MinutesApart(m, LastClose() - MINUTE); }
      }
    }

    lemma LastCloseWhole()
      requires Valid()
      ensures Whole(LastClose())
    {
      assert sessions[|sessions| - 1].Valid();
    }

    lemma ExpectedInRange(m: int)
      requires Valid() && Expected(m)
      ensures sessions[0].open <= m <= LastClose() - MINUTE
    {
      OpensSorted();
      ClosesSorted();
      var i :| InSession(sessions, i, m);
      assert Whole(LastClose()) by { assert sessions[|sessions| - 1].Valid(); }
    }

    function LastExpectedBefore(ts: int): Option<int>
      requires Valid()
    {
      var started := OpenedBefore(sessions, ts);
      if started == 0 then None
      else
        var candidate := Min(ts, sessions[started - 1].close);
        Some(if FloorMinute(candidate) == candidate then candidate - MINUTE else FloorMinute(candidate))
    }

    /** Inside one session the floor-and-step-back rule lands on the last minute before `ts`. */
    static lemma LastInSession(s: Session, ts: int)
      requires s.Valid() && s.open < ts
      ensures var c := Min(ts, s.close);
              var m := if FloorMinute(c) == c then c - MINUTE else FloorMinute(c);
              && Whole(m) && s.open <= m < s.close && m < ts
              && forall k :: Whole(k) && k < ts && k < s.close ==> k <= m
    {
      var c := Min(ts, s.close);
      var m := if FloorMinute(c) == c then c - MINUTE else FloorMinute(c);
      NextWhole(FloorMinute(c));
      if FloorMinute(c) == c { MinutesApart(s.open, c); }
      else if FloorMinute(c) < s.open { MinutesApart(FloorMinute(c), s.open); }
      forall k | Whole(k) && k < ts && k < s.close ensures k <= m {
        if m < k { MinutesApart(m, k); }
      }
    }

    /** The greatest expected minute before `ts`; refused only when there is none. */
    lemma LastExpectedIsGreatest(ts: int)
      requires Valid()
      ensures LastExpectedBefore(ts).None? <==> forall k :: Expected(k) ==> k >= ts
      ensures LastExpectedBefore(ts).Some? ==>
                var m := LastExpectedBefore(ts).value;
                && Expected(m) && m < ts
                && forall k :: Expected(k) && k < ts ==> k <= m
    {
      OpensSorted();
      var started := OpenedBefore(sessions, ts);
      if started == 0 {
        forall k | Expected(k) ensures k >= ts { ExpectedInRange(k); }
      } else {
        var s := sessions[started - 1];
        assert s.Valid();
        LastInSession(s, ts);
        var m := LastExpectedBefore(ts).value;
        assert InSession(sessions, started - 1, m) && Expected(m);
        forall k | Expected(k) && k < ts ensures k <= m {
          var i :| InSession(sessions, i, k);
          assert i <= started - 1;
        }
      }
    }

    function ExpectedMinutesSpec(start: int, end: int): seq<int> {
      SessionMinutes(sessions, start, end)
    }

    /** Every expected minute in [start, end), by walking from one expected minute to the next. */
    method ExpectedMinutes(start: int, end: int) returns (r: Option<seq<int>>)
      requires Valid()
      ensures r.None? <==> start < sessions[0].open || end > LastClose()
      ensures r.Some? ==> StrictlyIncreasing(r.value)
      ensures r.Some? ==> forall m :: m in r.value <==> Expected(m) && start <= m < end
      ensures r.Some? ==> r.value == ExpectedMinutesSpec(start, end)
    {
      MinutesCharacterized(start, end);
      if start < sessions[0].open || end > LastClose() {
        return None;
      }
      var finalMinute := LastClose() - MINUTE;
      var minutes: seq<int> := [];
      if end <= start || start > finalMinute {
        assert forall m :: Expected(m) ==> m <= finalMinute by {
          forall m | Expected(m) ensures m <= finalMinute { ExpectedInRange(m); }
        }
        SameMembersSameList(minutes, ExpectedMinutesSpec(start, end));
        return Some(minutes);
      }
      FirstExpectedIsLeast(start);
      var minute := FirstExpectedAtOrAfter(start).value;
      ghost var upTo := minute;
      var open := true;
      while open && minute < end
        invariant Expected(minute) && Lists(minutes, start, upTo)
        invariant if open then upTo == minute else upTo == end && minute < end
        invariant upTo <= end || forall k :: Expected(k) && start <= k < upTo ==> k < end
        decreases open, end - minute
      {
        minutes := minutes + [minute];
        NextExpectedIsLeast(minute);
        if minute == finalMinute {
          forall k | Expected(k) ensures k <= minute { ExpectedInRange(k); }
          ListsExtend(minutes[..|minutes| - 1], start, minute, end);
          open, upTo := false, end;
        } else {
          var next := NextExpectedMinute(minute).value;
          ListsExtend(minutes[..|minutes| - 1], start, minute, next);
          minute, upTo := next, next;
        }
      }
      SameMembersSameList(minutes, ExpectedMinutesSpec(start, end));
      return Some(minutes);
    }

    /** `minutes` is exactly the expected minutes of [start, upTo), in order. */
    ghost predicate Lists(minutes: seq<int>, start: int, upTo: int) {
      StrictlyIncreasing(minutes) && forall m :: m in minutes <==> Expected(m) && start <= m < upTo
    }

    lemma ListsExtend(minutes: seq<int>, start: int, minute: int, next: int)
      requires Lists(minutes, start, minute) && Expected(minute) && start <= minute < next
      requires forall k :: Expected(k) && minute < k ==> next <= k
      ensures Lists(minutes + [minute], start, next)
    {
      AppendIncreasing(minutes, minute);
    }

    lemma MinutesCharacterized(start: int, end: int)
      requires Valid()
      ensures StrictlyIncreasing(ExpectedMinutesSpec(start, end))
      ensures forall m :: m in ExpectedMinutesSpec(start, end) <==> Expected(m) && start <= m < end
    {
      SessionMinutesIncreasing(sessions, start, end);
      forall m ensures m in ExpectedMinutesSpec(start, end) <==> Expected(m) && start <= m < end {
        SessionMinutesMember(sessions, start, end, m);
      }
    }

    /** The sessions an order depends on; the window hash is an injective encoding of exactly this list. */
    function Window(start: int, until: int): Option<seq<Session>>
      requires Valid()
    {
      var first, last := ClosedBy(sessions, start), OpenedBefore(sessions, until + 1);
      if !SessionContaining(start).Found? || last >= |sessions| || last < first then None
      else Some(sessions[first..last + 1])
    }

    lemma WindowHolds(start: int, until: int, i: int, m: int)
      requires Valid() && Window(start, until).Some? && start <= m
      requires m < Last(Window(start, until).value).close
      requires InSession(sessions, i, m)
      ensures 0 <= i - ClosedBy(sessions, start) < |Window(start, until).value|
      ensures Window(start, until).value[i - ClosedBy(sessions, start)] == sessions[i]
    {
      ClosesSorted();
      var last := OpenedBefore(sessions, until + 1);
      assert Last(Window(start, until).value) == sessions[last];
      assert i <= last;
    }

    /** An expected minute at or after `start` and before the close of the window's last session lies in the window. */
    lemma WindowDecides(start: int, until: int, m: int)
      requires Valid() && Window(start, until).Some? && start <= m
      requires m < Last(Window(start, until).value).close
      ensures Expected(m) <==> Whole(m) && exists i :: InSession(Window(start, until).value, i, m)
    {
      var first, w := ClosedBy(sessions, start), Window(start, until).value;
      assert forall i :: 0 <= i < |w| ==> sessions[first + i] == w[i];
      assert first + |w| <= |sessions|;
      hide Window, Valid;
      if Expected(m) {
        var i :| InSession(sessions, i, m);
        WindowHolds(start, until, i, m);
        assert InSession(w, i - first, m);
      }
      if Whole(m) && exists i :: InSession(w, i, m) {
        var i :| InSession(w, i, m);
        assert sessions[first + i] == w[i];
        assert InSession(sessions, first + i, m);
      }
    }

    lemma WindowEndsAfter(start: int, until: int)
      requires Valid() && Window(start, until).Some? && start <= until
      ensures var last := Last(Window(start, until).value);
              last.Valid() && last.open > until && Expected(last.open)
              && sessions[0].open <= start && last.close <= LastClose()
    {
      OpensSorted();
      ClosesSorted();
      var last := OpenedBefore(sessions, until + 1);
      assert sessions[last].Valid() && sessions[last].open > until;
      assert InSession(sessions, last, sessions[last].open);
    }

    predicate IsSessionClose(ts: int) {
      exists i :: 0 <= i < |sessions| && sessions[i].close == ts
    }
  }

  function Last<T>(s: seq<T>): T
    requires s != []
  {
    s[|s| - 1]
  }

  /** Two calendars whose window hashes agree expect the same minutes through the end of the window. */
  lemma EqualWindowsAgreeAt(c: SessionCalendar, d: SessionCalendar, start: int, until: int, m: int)
    requires c.Valid() && d.Valid() && c.Window(start, until).Some? && c.Window(start, until) == d.Window(start, until)
    requires start <= m < Last(c.Window(start, until).value).close
    ensures c.Expected(m) <==> d.Expected(m)
  {
    c.WindowDecides(start, until, m);
    d.WindowDecides(start, until, m);
  }

  /** ... so every sub-range of the order window lists the same minutes in both, and neither refuses it ... */
  lemma EqualWindowsSameMinutes(c: SessionCalendar, d: SessionCalendar, start: int, until: int, a: int, b: int)
    requires c.Valid() && d.Valid() && c.Window(start, until).Some? && c.Window(start, until) == d.Window(start, until)
    requires start <= until && start <= a && b <= until
    ensures c.ExpectedMinutesSpec(a, b) == d.ExpectedMinutesSpec(a, b)
    ensures c.sessions[0].open <= a && b <= c.LastClose() && d.sessions[0].open <= a && b <= d.LastClose()
  {
    c.WindowEndsAfter(start, until);
    d.WindowEndsAfter(start, until);
    c.MinutesCharacterized(a, b);
    d.MinutesCharacterized(a, b);
    forall m ensures m in c.ExpectedMinutesSpec(a, b) <==> m in d.ExpectedMinutesSpec(a, b) {
      if a <= m < b { EqualWindowsAgreeAt(c, d, start, until, m); }
    }
    SameMembersSameList(c.ExpectedMinutesSpec(a, b), d.ExpectedMinutesSpec(a, b));
  }

  lemma NextInWindow(c: SessionCalendar, start: int, until: int, m: int) returns (n: int)
    requires c.Valid() && c.Window(start, until).Some? && start <= m <= until && c.Expected(m)
    ensures c.NextExpectedMinute(m) == Some(n) && m < n < Last(c.Window(start, until).value).close
    ensures c.Expected(n) && forall k :: c.Expected(k) && m < k ==> n <= k
  {
    c.WindowEndsAfter(start, until);
    c.NextExpectedIsLeast(m);
    c.ExpectedInRange(Last(c.Window(start, until).value).open);
    n := c.NextExpectedMinute(m).value;
  }

  /** ... and the next expected minute after any minute of the order window is the same in both. */
  lemma EqualWindowsSameNext(c: SessionCalendar, d: SessionCalendar, start: int, until: int, m: int)
    requires c.Valid() && d.Valid() && c.Window(start, until).Some? && c.Window(start, until) == d.Window(start, until)
    requires start <= m <= until && c.Expected(m) && d.Expected(m)
    ensures c.NextExpectedMinute(m).Some? && c.NextExpectedMinute(m) == d.NextExpectedMinute(m)
  {
    hide *;
    var n := NextInWindow(c, start, until, m);
    var k := NextInWindow(d, start, until, m);
    assert n <= k by { EqualWindowsAgreeAt(c, d, start, until, k); }
    assert k <= n by { EqualWindowsAgreeAt(c, d, start, until, n); }
  }

  /** One of the two sessions is over before the other opens. */
  predicate Apart(a: Session, b: Session) { a.close <= b.open || b.close <= a.open }

  /** No session is listed twice, and no two of them overlap, in whatever order they are listed. */
  ghost predicate NoOverlap(sessions: seq<Session>) {
    && (forall a :: a in sessions ==> multiset(sessions)[a] == 1)
    && (forall a, b :: a in sessions && b in sessions && a != b ==> Apart(a, b))
  }

  lemma CountTwo(s: seq<Session>, i: nat, j: nat)
    requires i < j < |s| && s[i] == s[j]
    ensures multiset(s)[s[i]] >= 2
  {
    assert s == s[..j] + s[j..] && s[i] in s[..j] && s[j] in s[j..];
    assert s[i] in multiset(s[..j]) && s[j] in multiset(s[j..]);
  }

  lemma {:induction false} CountOnce(s: seq<Session>)
    requires forall i, j :: 0 <= i < j < |s| ==> s[i] != s[j]
    ensures forall a :: a in s ==> multiset(s)[a] == 1
  {
    if s != [] {
      CountOnce(s[1..]);
      assert s == [s[0]] + s[1..] && s[0] !in s[1..] && s[0] !in multiset(s[1..]);
    }
  }

  lemma OpensFirst(s: Session)
    requires s.Valid()
    ensures s.open < s.close
  {
  }

  /** Checking neighbours in order of opening is checking every pair. */
  lemma NeighboursDecide(ordered: seq<Session>, sessions: seq<Session>)
    requires multiset(ordered) == multiset(sessions) && (forall s :: s in sessions ==> s.Valid())
    requires forall i, j :: 0 <= i < j < |ordered| ==> ordered[i].open <= ordered[j].open
    ensures NeighboursDisjoint(ordered) <==> NoOverlap(sessions)
    ensures NeighboursDisjoint(ordered) ==> Disjoint(ordered)
  {
    hide Session.Valid;
    MultisetMembers(ordered, sessions);
    if NeighboursDisjoint(ordered) {
      forall i, j | 0 <= i < j < |ordered| ensures ordered[i].close <= ordered[j].open { DisjointEverywhere(ordered, i, j); }
      DisjointNoOverlap(ordered);
      assert forall a :: a in sessions ==> multiset(sessions)[a] == multiset(ordered)[a];
    }
    if NoOverlap(sessions) {
      forall i | 0 < i < |ordered| ensures ordered[i - 1].close <= ordered[i].open {
        var a, b := ordered[i - 1], ordered[i];
        assert a in ordered && b in ordered && a.open <= b.open;
        OpensFirst(b);
        if a == b { CountTwo(ordered, i - 1, i); }
      }
    }
  }

  lemma DisjointNoOverlap(ordered: seq<Session>)
    requires Disjoint(ordered) && forall s :: s in ordered ==> s.Valid()
    ensures NoOverlap(ordered)
  {
    forall i, j | 0 <= i < j < |ordered| ensures ordered[i] != ordered[j] {
      assert ordered[i] in ordered;
    }
    CountOnce(ordered);
    forall a, b | a in ordered && b in ordered && a != b ensures Apart(a, b) {
      var i, j :| 0 <= i < |ordered| && 0 <= j < |ordered| && ordered[i] == a && ordered[j] == b;
    }
  }

  /** The constructor: order by opening, refuse an empty list and overlapping neighbours. */
  function Build(sessions: seq<Session>): (r: Option<SessionCalendar>)
    requires forall s :: s in sessions ==> s.Valid()
    ensures r.Some? <==> sessions != [] && NoOverlap(sessions)
    ensures r.Some? ==> r.value.Valid() && multiset(r.value.sessions) == multiset(sessions)
  {
    var ordered := SortBy(sessions, (s: Session) => s.open);
    MultisetMembers(ordered, sessions);
    SortBySorted(sessions, (s: Session) => s.open);
    NeighboursDecide(ordered, sessions);
    if sessions == [] || !NeighboursDisjoint(ordered) then None else Some(SessionCalendar(ordered))
  }

  /** The grid lo, lo + 1 minute, ... below hi. */
  function Grid(lo: int, hi: int): seq<int>
    decreases hi - lo
  {
    if lo >= hi then [] else [lo] + Grid(lo + MINUTE, hi)
  }

  lemma MinutesApart(a: int, b: int)
    requires Whole(a) && Whole(b) && a < b
    ensures a + MINUTE <= b
  {
  }

  lemma NextWhole(a: int)
    requires Whole(a)
    ensures Whole(a + MINUTE) && Whole(a - MINUTE)
  {
  }

  lemma {:induction false} GridIncreasing(lo: int, hi: int)
    ensures StrictlyIncreasing(Grid(lo, hi))
    ensures forall m :: m in Grid(lo, hi) ==> lo <= m < hi
    decreases hi - lo
  {
    if lo < hi {
      GridIncreasing(lo + MINUTE, hi);
      var rest := Grid(lo + MINUTE, hi);
      forall i, j | 0 <= i < j < |[lo] + rest| ensures ([lo] + rest)[i] < ([lo] + rest)[j] {
        assert ([lo] + rest)[j] in rest;
      }
    }
  }

  lemma {:induction false} GridMember(lo: int, hi: int, m: int)
    requires Whole(lo)
    ensures m in Grid(lo, hi) <==> Whole(m) && lo <= m < hi
    decreases hi - lo
  {
    if lo < hi {
      NextWhole(lo);
      GridMember(lo + MINUTE, hi, m);
      if Whole(m) && lo < m { MinutesApart(lo, m); }
    }
  }

  /** The session holding a minute, when there is one. */
  ghost predicate InSession(sessions: seq<Session>, i: int, m: int) {
    0 <= i < |sessions| && sessions[i].open <= m < sessions[i].close
  }

  function HeadStart(s: Session, start: int): int { Max(s.open, CeilMinute(start)) }

  function SessionMinutes(sessions: seq<Session>, start: int, end: int): seq<int> {
    if sessions == [] then []
    else Grid(HeadStart(sessions[0], start), Min(sessions[0].close, end)) + SessionMinutes(sessions[1..], start, end)
  }

  lemma CeilWhole(start: int, m: int)
    requires Whole(m)
    ensures start <= m <==> CeilMinute(start) <= m
  {
    if start <= m && m < CeilMinute(start) { MinutesApart(m, CeilMinute(start)); }
  }

  lemma {:induction false} SessionMinutesMember(sessions: seq<Session>, start: int, end: int, m: int)
    requires forall s :: s in sessions ==> s.Valid()
    ensures m in SessionMinutes(sessions, start, end) <==>
              Whole(m) && start <= m < end && exists i :: InSession(sessions, i, m)
  {
    if sessions != [] {
      var head, rest := sessions[0], sessions[1..];
      SessionMinutesMember(rest, start, end, m);
      assert head.Valid();
      GridMember(HeadStart(head, start), Min(head.close, end), m);
      if Whole(m) { CeilWhole(start, m); }
      if i :| InSession(rest, i, m) { assert InSession(sessions, i + 1, m); }
      if i :| InSession(sessions, i, m) {
        if i > 0 { assert InSession(rest, i - 1, m); }
      }
      assert head.open <= m < head.close ==> InSession(sessions, 0, m);
    }
  }

  lemma {:induction false} SessionMinutesIncreasing(sessions: seq<Session>, start: int, end: int)
    requires forall s :: s in sessions ==> s.Valid()
    requires Disjoint(sessions)
    ensures StrictlyIncreasing(SessionMinutes(sessions, start, end))
    ensures forall m :: m in SessionMinutes(sessions, start, end) ==> sessions != [] && sessions[0].open <= m
  {
    if sessions != [] {
      var head, rest := sessions[0], sessions[1..];
      assert head.Valid();
      assert forall i :: 0 <= i < |rest| ==> rest[i] == sessions[i + 1];
      SessionMinutesIncreasing(rest, start, end);
      GridIncreasing(HeadStart(head, start), Min(head.close, end));
      var g, t := Grid(HeadStart(head, start), Min(head.close, end)), SessionMinutes(rest, start, end);
      forall i, j | 0 <= i < j < |g + t| ensures (g + t)[i] < (g + t)[j] {
        if i < |g| <= j {
          assert g[i] in g && t[j - |g|] in t;
        }
      }
      forall m | m in g + t ensures sessions[0].open <= m {}
    }
  }
}
