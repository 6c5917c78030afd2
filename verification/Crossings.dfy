/** Price-cross alerts: evaluating a growing session again and again enqueues what one pass over it would. */
module Crossings {
  import opened Prelude
  import opened Calendar
  import opened BarStore

  datatype CrossDirection = Above | Below

  datatype Rule = Rule(level: real, direction: CrossDirection, cooldown: int, createdAt: int) {
    /** Close to close: the previous close on one side of the level, this close on or past it. */
    predicate Crossed(previous: real, close: real) {
      if direction.Above? then previous < level <= close else previous > level >= close
    }

    predicate Cooled(ts: int, last: Option<int>) { last.None? || ts - last.value >= cooldown }

    function UsableFrom(): int { CeilMinute(createdAt) }
  }

  /** The loop's state: the previous close and the last alert. */
  datatype Watch = Watch(previous: Option<real>, last: Option<int>)

  predicate Fires(rule: Rule, w: Watch, b: Bar) {
    w.previous.Some? && rule.Crossed(w.previous.value, b.values.close) && rule.Cooled(b.ts, w.last)
  }

  function Seen(rule: Rule, w: Watch, b: Bar): Watch {
    Watch(Some(b.values.close), if Fires(rule, w, b) then Some(b.ts) else w.last)
  }

  function SeenAll(rule: Rule, w: Watch, bars: seq<Bar>): Watch
    decreases |bars|
  {
    if bars == [] then w else SeenAll(rule, Seen(rule, w, bars[0]), bars[1..])
  }

  /** The minutes that alert, over bars in time order. */
  function Alerts(rule: Rule, w: Watch, bars: seq<Bar>): seq<int>
    decreases |bars|
  {
    if bars == [] then []
    else (if Fires(rule, w, bars[0]) then [bars[0].ts] else []) + Alerts(rule, Seen(rule, w, bars[0]), bars[1..])
  }

  function BarMinute(b: Bar): int { b.ts }

  method PriceCrossings(rule: Rule, bars: seq<Bar>, last: Option<int>) returns (crossings: seq<int>)
    ensures crossings == Alerts(rule, Watch(None, last), SortBy(bars, BarMinute))
  {
    hide SortBy;
    var ordered := SortBy(bars, BarMinute);
    var w := Watch(None, last);
    crossings := [];
    var k := 0;
    assert ordered[0..] == ordered;
    while k < |ordered|
      invariant 0 <= k <= |ordered|
      invariant Alerts(rule, Watch(None, last), ordered) == crossings + Alerts(rule, w, ordered[k..])
    {
      var b := ordered[k];
      assert ordered[k..][1..] == ordered[k + 1..];
      ghost var rest := Alerts(rule, Seen(rule, w, b), ordered[k + 1..]);
      if Fires(rule, w, b) {
        assert crossings + ([b.ts] + rest) == (crossings + [b.ts]) + rest;
        crossings := crossings + [b.ts];
      } else {
        assert [] + rest == rest;
      }
      w := Seen(rule, w, b);
      k := k + 1;
    }
    assert ordered[k..] == [] && crossings + [] == crossings;
  }

  lemma {:induction false} AlertsConcat(rule: Rule, w: Watch, a: seq<Bar>, b: seq<Bar>)
    ensures Alerts(rule, w, a + b) == Alerts(rule, w, a) + Alerts(rule, SeenAll(rule, w, a), b)
    ensures SeenAll(rule, w, a + b) == SeenAll(rule, SeenAll(rule, w, a), b)
    decreases |a|
  {
    hide Fires;
    if a == [] {
      assert a + b == b;
    } else {
      assert (a + b)[1..] == a[1..] + b;
      AlertsConcat(rule, Seen(rule, w, a[0]), a[1..], b);
    }
  }

  ghost predicate InTime(bars: seq<Bar>) { forall i, j :: 0 <= i < j < |bars| ==> bars[i].ts < bars[j].ts }

  function LastOf(alerts: seq<int>, before: Option<int>): Option<int> {
    if alerts == [] then before else Some(alerts[|alerts| - 1])
  }

  /** Alerts are minutes of the bars, in order; the state remembers the latest one and the latest close. */
  lemma {:induction false} AlertsShape(rule: Rule, w: Watch, bars: seq<Bar>)
    requires InTime(bars)
    ensures var r := Alerts(rule, w, bars);
            && StrictlyIncreasing(r) && (forall t :: t in r ==> exists b :: b in bars && b.ts == t)
            && SeenAll(rule, w, bars).last == LastOf(r, w.last)
    ensures SeenAll(rule, w, bars).previous == if bars == [] then w.previous else Some(bars[|bars| - 1].values.close)
    decreases |bars|
  {
    AlertsShaped(rule, w, bars);
    StateAfter(rule, w, bars);
    hide Alerts, SeenAll;
  }

  ghost predicate Shaped(alerts: seq<int>, bars: seq<Bar>) {
    StrictlyIncreasing(alerts) && forall t :: t in alerts ==> exists b :: b in bars && b.ts == t
  }

  lemma {:induction false} AlertsShaped(rule: Rule, w: Watch, bars: seq<Bar>)
    requires InTime(bars)
    ensures Shaped(Alerts(rule, w, bars), bars)
    decreases |bars|
  {
    hide Fires, InTime, Shaped;
    if bars == [] {
      NoneShaped(bars);
    } else {
      LaterBars(bars);
      AlertsShaped(rule, Seen(rule, w, bars[0]), bars[1..]);
      OneMoreShaped(bars, Alerts(rule, Seen(rule, w, bars[0]), bars[1..]), Fires(rule, w, bars[0]));
    }
  }

  lemma NoneShaped(bars: seq<Bar>)
    ensures Shaped([], bars)
  {
  }

  lemma LaterBars(bars: seq<Bar>)
    requires InTime(bars) && bars != []
    ensures InTime(bars[1..]) && forall b :: b in bars[1..] ==> b in bars && bars[0].ts < b.ts
  {
    forall b | b in bars[1..] ensures b in bars && bars[0].ts < b.ts {
      var i :| 0 <= i < |bars[1..]| && bars[1..][i] == b;
      assert bars[i + 1] == b;
    }
  }

  lemma OneMoreShaped(bars: seq<Bar>, rest: seq<int>, fires: bool)
    requires bars != [] && Shaped(rest, bars[1..]) && forall b :: b in bars[1..] ==> b in bars && bars[0].ts < b.ts
    ensures Shaped((if fires then [bars[0].ts] else []) + rest, bars)
  {
    hide StrictlyIncreasing;
    assert bars[0] in bars;
    forall t | t in rest ensures bars[0].ts < t && exists b :: b in bars && b.ts == t {
      var b :| b in bars[1..] && b.ts == t;
    }
    if fires { ConsIncreasing(bars[0].ts, rest); } else { assert [] + rest == rest; }
  }

  lemma {:induction false} StateAfter(rule: Rule, w: Watch, bars: seq<Bar>)
    ensures SeenAll(rule, w, bars).last == LastOf(Alerts(rule, w, bars), w.last)
    ensures SeenAll(rule, w, bars).previous == if bars == [] then w.previous else Some(bars[|bars| - 1].values.close)
    decreases |bars|
  {
    hide Fires;
    if bars != [] { StateAfter(rule, Seen(rule, w, bars[0]), bars[1..]); }
  }

  lemma ConsIncreasing(x: int, s: seq<int>)
    requires StrictlyIncreasing(s) && forall y :: y in s ==> x < y
    ensures StrictlyIncreasing([x] + s)
  {
    forall i, j | 0 <= i < j < |[x] + s| ensures ([x] + s)[i] < ([x] + s)[j] {
      assert ([x] + s)[j] in s;
    }
  }

  lemma AlertsCons(rule: Rule, w: Watch, x: Bar, rest: seq<Bar>)
    ensures Alerts(rule, w, [x] + rest) == (if Fires(rule, w, x) then [x.ts] else []) + Alerts(rule, Seen(rule, w, x), rest)
  {
    assert ([x] + rest)[1..] == rest;
  }

  lemma AlertsAfter(rule: Rule, w: Watch, p: seq<Bar>, n: nat)
    requires InTime(p) && 0 < n <= |p|
    ensures forall t :: t in Alerts(rule, w, p[n..]) ==> p[n - 1].ts < t
  {
    AlertsShape(rule, w, p[n..]);
    forall t | t in Alerts(rule, w, p[n..]) ensures p[n - 1].ts < t {
      var b :| b in p[n..] && b.ts == t;
      var i :| 0 <= i < |p[n..]| && p[n..][i] == b;
      assert p[n + i] == b;
    }
  }

  /** Whether the bar after `a` alerts, and where the other alerts lie. */
  lemma AlertAt(rule: Rule, start: Option<int>, a: seq<Bar>, x: Bar, rest: seq<Bar>)
    requires InTime(a + [x] + rest)
    ensures var w := Watch(None, start);
            var r, before := Alerts(rule, w, a + [x] + rest), Alerts(rule, w, a);
            && (x.ts in r <==> Fires(rule, SeenAll(rule, w, a), x))
            && (forall t :: t in before <==> t in r && t < x.ts)
  {
    hide *;
    var w, bars := Watch(None, start), a + [x] + rest;
    assert bars == a + ([x] + rest) && bars[|a|] == x && bars[..|a|] == a && bars[|a| + 1..] == rest;
    AlertsConcat(rule, w, a, [x] + rest);
    var s := SeenAll(rule, w, a);
    AlertsCons(rule, s, x, rest);
    AlertsUpTo(rule, w, bars, |a|);
    AlertsAfter(rule, Seen(rule, s, x), bars, |a| + 1);
    MemberParts(Alerts(rule, w, a), x.ts, Fires(rule, s, x), Alerts(rule, Seen(rule, s, x), rest));
  }

  lemma MemberParts(before: seq<int>, ts: int, fires: bool, later: seq<int>)
    requires (forall t :: t in before ==> t < ts) && (forall t :: t in later ==> ts < t)
    ensures var r := before + ((if fires then [ts] else []) + later);
            (ts in r <==> fires) && forall t :: t in before <==> t in r && t < ts
  {
  }

  lemma AlertsUpTo(rule: Rule, w: Watch, p: seq<Bar>, n: nat)
    requires InTime(p) && n < |p|
    ensures forall t :: t in Alerts(rule, w, p[..n]) ==> t < p[n].ts
  {
    AlertsShape(rule, w, p[..n]);
    forall t | t in Alerts(rule, w, p[..n]) ensures t < p[n].ts {
      var b :| b in p[..n] && b.ts == t;
      var i :| 0 <= i < |p[..n]| && p[..n][i] == b;
      assert p[i] == b;
    }
  }

  /**
   * Which bars alert: exactly those whose close is on or past the level in the rule's direction while the close before was
   * strictly on the other side, at least a cooldown after every earlier alert and after the one the pass started from.
   */
  lemma AlertsAreCooledCrossings(rule: Rule, start: Option<int>, bars: seq<Bar>, k: nat)
    requires InTime(bars) && k < |bars| && forall b :: start.Some? && b in bars ==> start.value < b.ts
    ensures var r, ts := Alerts(rule, Watch(None, start), bars), bars[k].ts;
            ts in r <==>
            && k > 0
            && (if rule.direction.Above?
                then bars[k - 1].values.close < rule.level && rule.level <= bars[k].values.close
                else bars[k - 1].values.close > rule.level && rule.level >= bars[k].values.close)
            && (forall t :: (t in r && t < ts) || start == Some(t) ==> ts - t >= rule.cooldown)
  {
    hide Alerts, SeenAll, InTime, Fires, LastOf, rule.Cooled;
    var w, a, x := Watch(None, start), bars[..k], bars[k];
    assert bars == a + [x] + bars[k + 1..];
    AlertAt(rule, start, a, x, bars[k + 1..]);
    PrefixInTime(a, bars);
    AlertsShape(rule, w, a);
    FiresIs(rule, SeenAll(rule, w, a), x);
    LatestDecides(rule, start, Alerts(rule, w, a), x.ts);
  }

  lemma FiresIs(rule: Rule, w: Watch, b: Bar)
    ensures Fires(rule, w, b)
       <==> w.previous.Some? && rule.Crossed(w.previous.value, b.values.close) && rule.Cooled(b.ts, w.last)
  {
  }

  lemma LatestDecides(rule: Rule, start: Option<int>, before: seq<int>, ts: int)
    requires StrictlyIncreasing(before) && forall t :: start.Some? && t in before ==> start.value < t
    ensures rule.Cooled(ts, LastOf(before, start)) <==> forall t :: t in before || start == Some(t) ==> ts - t >= rule.cooldown
  {
    if before != [] {
      var last := before[|before| - 1];
      assert last in before;
      forall t | t in before ensures t <= last { var i :| 0 <= i < |before| && before[i] == t; }
    } else if start.Some? {
      assert start == Some(start.value);
    }
  }

  /** Restarted from its own last alert, the loop is silent on every bar before it. */
  lemma {:induction false} SilentBefore(rule: Rule, w: Watch, bars: seq<Bar>, last: int)
    requires rule.cooldown >= 0 && w.last == Some(last) && forall b :: b in bars ==> b.ts < last
    ensures Alerts(rule, w, bars) == [] && SeenAll(rule, w, bars).last == Some(last)
    decreases |bars|
  {
    if bars != [] {
      assert bars[0] in bars;
      SilentBefore(rule, Seen(rule, w, bars[0]), bars[1..], last);
    }
  }

  /** Up to and including the bar of its last alert, a restarted loop says nothing new and reaches the same state. */
  lemma RestartCatchesUp(rule: Rule, w: Watch, bars: seq<Bar>, last: int)
    requires rule.cooldown >= 0 && InTime(bars) && bars != [] && bars[|bars| - 1].ts == last
    ensures var again := w.(last := Some(last));
            && (Alerts(rule, again, bars) == [] || Alerts(rule, again, bars) == [last])
            && SeenAll(rule, again, bars).last == Some(last)
            && SeenAll(rule, again, bars).previous == Some(bars[|bars| - 1].values.close)
  {
    var again, head, final := w.(last := Some(last)), bars[..|bars| - 1], bars[|bars| - 1];
    assert bars == head + [final];
    forall b | b in head ensures b.ts < last {
      var i :| 0 <= i < |head| && head[i] == b;
      assert bars[i].ts < bars[|bars| - 1].ts;
    }
    SilentBefore(rule, again, head, last);
    AlertsConcat(rule, again, head, [final]);
    AlertsShape(rule, again, bars);
    assert [final][1..] == [];
  }

  /** The part of a growing list that ends with a given minute. */
  lemma SplitAtMinute(bars: seq<Bar>, ts: int) returns (n: nat)
    requires InTime(bars) && exists b :: b in bars && b.ts == ts
    ensures 0 < n <= |bars| && bars[n - 1].ts == ts
  {
    var b :| b in bars && b.ts == ts;
    var i :| 0 <= i < |bars| && bars[i] == b;
    n := i + 1;
  }

  function EnqueueAll(stored: seq<int>, alerts: seq<int>): seq<int>
    decreases |alerts|
  {
    if alerts == [] then stored
    else EnqueueAll(if alerts[0] in stored then stored else stored + [alerts[0]], alerts[1..])
  }

  lemma {:induction false} EnqueueNew(stored: seq<int>, alerts: seq<int>)
    requires StrictlyIncreasing(alerts) && forall t :: t in alerts ==> t !in stored
    ensures EnqueueAll(stored, alerts) == stored + alerts
    decreases |alerts|
  {
    if alerts != [] {
      assert forall t :: t in alerts[1..] ==> t in alerts && alerts[0] < t;
      EnqueueNew(stored + [alerts[0]], alerts[1..]);
      assert (stored + [alerts[0]]) + alerts[1..] == stored + alerts;
    } else {
      assert stored + alerts == stored;
    }
  }

  /** Nothing alerts after the last alert. */
  lemma OnePassSplits(rule: Rule, w: Watch, p: seq<Bar>, n: nat)
    requires InTime(p) && 0 < n <= |p| && Alerts(rule, w, p) != []
    requires p[n - 1].ts == Alerts(rule, w, p)[|Alerts(rule, w, p)| - 1]
    ensures Alerts(rule, w, p) == Alerts(rule, w, p[..n])
  {
    hide *;
    var a, rest := p[..n], p[n..];
    assert p == a + rest;
    AlertsConcat(rule, w, a, rest);
    AlertsAfter(rule, SeenAll(rule, w, a), p, n);
    NothingFollows(Alerts(rule, w, a), Alerts(rule, SeenAll(rule, w, a), rest), p[n - 1].ts);
  }

  lemma LastComesFromTheTail(head: seq<int>, later: seq<int>)
    ensures later != [] ==> (head + later)[|head + later| - 1] in later
    ensures later == [] ==> head + later == head
  {
  }

  lemma NothingFollows(head: seq<int>, later: seq<int>, last: int)
    requires head + later != [] && (head + later)[|head + later| - 1] == last
    requires forall t :: t in later ==> last < t
    ensures head + later == head
  {
    LastComesFromTheTail(head, later);
  }

  lemma EnqueueKnown(stored: seq<int>, known: int, added: seq<int>)
    requires known in stored
    ensures EnqueueAll(stored, [known] + added) == EnqueueAll(stored, added)
  {
    assert ([known] + added)[1..] == added;
  }

  /** What an evaluation restarted at the last alert of a shorter prefix adds to what that prefix had already stored. */
  lemma RestartAddsTheRest(rule: Rule, start: Option<int>, q: seq<Bar>, n: nat)
    requires rule.cooldown >= 0 && InTime(q) && 0 < n <= |q|
    requires LastOf(Alerts(rule, Watch(None, start), q[..n]), start) == Some(q[n - 1].ts)
    ensures var added := Alerts(rule, SeenAll(rule, Watch(None, start), q[..n]), q[n..]);
            var again := Alerts(rule, Watch(None, Some(q[n - 1].ts)), q);
            && Alerts(rule, Watch(None, start), q) == Alerts(rule, Watch(None, start), q[..n]) + added
            && (again == added || again == [q[n - 1].ts] + added)
  {
    var w, last, a, b := Watch(None, start), q[n - 1].ts, q[..n], q[n..];
    assert q == a + b;
    AlertsConcat(rule, w, a, b);
    AlertsConcat(rule, Watch(None, Some(last)), a, b);
    AlertsShape(rule, w, a);
    RestartCatchesUp(rule, w, a, last);
    hide Alerts, SeenAll;
    assert w.(last := Some(last)) == Watch(None, Some(last));
    assert SeenAll(rule, w, a) == SeenAll(rule, Watch(None, Some(last)), a);
    assert forall x: seq<int> :: [] + x == x;
  }

  /**
   * One more evaluation. Having stored what one pass over a prefix `p` selects, evaluating the longer `q` from the last
   * stored alert stores exactly what one pass over `q` selects, each alert once.
   */
  lemma OneMoreEvaluation(rule: Rule, start: Option<int>, earlier: seq<int>, p: seq<Bar>, q: seq<Bar>)
    requires rule.cooldown >= 0 && InTime(q) && p <= q
    requires forall t, b :: t in earlier && b in q ==> t < b.ts
    ensures var w := Watch(None, start);
            EnqueueAll(earlier + Alerts(rule, w, p), Alerts(rule, Watch(None, LastOf(Alerts(rule, w, p), start)), q))
            == earlier + Alerts(rule, w, q)
  {
    var w, done := Watch(None, start), Alerts(rule, Watch(None, start), p);
    PrefixInTime(p, q);
    AlertsShape(rule, w, q);
    hide *;
    if done == [] {
      assert earlier + [] == earlier;
      NewerThan(earlier, q, Alerts(rule, w, q));
      EnqueueNew(earlier, Alerts(rule, w, q));
      NoAlertYet(start);
    } else {
      var last := done[|done| - 1];
      AlertsShape(rule, w, p);
      assert last in done;
      var n := SplitAtMinute(p, last);
      OnePassSplits(rule, w, p, n);
      assert p[..n] == q[..n] && p[n - 1] == q[n - 1];
      LastAlert(done, start);
      RestartAddsTheRest(rule, start, q, n);
      var added := Alerts(rule, SeenAll(rule, w, q[..n]), q[n..]);
      StoresTheRest(earlier, q, done, added, Alerts(rule, Watch(None, Some(last)), q));
    }
  }

  lemma NoAlertYet(start: Option<int>)
    ensures LastOf([], start) == start
  {
  }

  lemma LastAlert(done: seq<int>, start: Option<int>)
    requires done != []
    ensures LastOf(done, start) == Some(done[|done| - 1])
  {
  }

  /** Storing again the last alert changes nothing; the ones after it are new. */
  lemma StoresTheRest(earlier: seq<int>, q: seq<Bar>, done: seq<int>, added: seq<int>, again: seq<int>)
    requires done != [] && (again == added || again == [done[|done| - 1]] + added)
    requires forall t, b :: t in earlier && b in q ==> t < b.ts
    requires StrictlyIncreasing(done + added) && forall t :: t in done + added ==> exists b :: b in q && b.ts == t
    ensures EnqueueAll(earlier + done, again) == earlier + (done + added)
  {
    FreshIsNew(earlier, q, done, added);
    hide EnqueueAll;
    EnqueueNew(earlier + done, added);
    assert done[|done| - 1] in earlier + done;
    EnqueueKnown(earlier + done, done[|done| - 1], added);
    assert (earlier + done) + added == earlier + (done + added);
  }

  lemma NewerThan(earlier: seq<int>, q: seq<Bar>, alerts: seq<int>)
    requires forall t, b :: t in earlier && b in q ==> t < b.ts
    requires forall t :: t in alerts ==> exists b :: b in q && b.ts == t
    ensures forall t :: t in alerts ==> t !in earlier
  {
  }

  lemma FreshIsNew(earlier: seq<int>, q: seq<Bar>, done: seq<int>, added: seq<int>)
    requires forall t, b :: t in earlier && b in q ==> t < b.ts
    requires StrictlyIncreasing(done + added) && forall t :: t in done + added ==> exists b :: b in q && b.ts == t
    ensures StrictlyIncreasing(added) && forall t :: t in added ==> t !in earlier + done
  {
    forall i, j | 0 <= i < j < |added| ensures added[i] < added[j] {
      assert (done + added)[|done| + i] < (done + added)[|done| + j];
    }
    NewerThan(earlier, q, done + added);
    forall t | t in added ensures t !in earlier + done {
      var j :| 0 <= j < |added| && added[j] == t;
      assert t in done + added;
      forall i | 0 <= i < |done| ensures done[i] < t { assert (done + added)[i] < (done + added)[|done| + j]; }
    }
  }

  // ---- the watched window -------------------------------------------------------------------------------------------

  function BeforeUsable(rule: Rule): Bar -> bool { (b: Bar) => b.ts < rule.UsableFrom() }

  function Usable(rule: Rule): Bar -> bool { (b: Bar) => b.ts >= rule.UsableFrom() }

  function Window(before: seq<Bar>, usable: seq<Bar>): seq<Bar> {
    (if before == [] then [] else [before[|before| - 1]]) + usable
  }

  /** The usable bars, and the one before them to feed the first close. */
  function Watched(rule: Rule, bars: seq<Bar>): seq<Bar> {
    Window(Filter(bars, BeforeUsable(rule)), Filter(bars, Usable(rule)))
  }

  /** The greatest stored alert minute: where the next evaluation starts its cooldown. */
  function Latest(stored: seq<int>): (r: Option<int>)
    ensures r.None? <==> stored == []
    ensures r.Some? ==> r.value in stored && forall t :: t in stored ==> t <= r.value
  {
    if stored == [] then None
    else
      assert stored == [stored[0]] + stored[1..];
      var rest := Latest(stored[1..]);
      Some(if rest.None? then stored[0] else Max(stored[0], rest.value))
  }

  /** What one evaluation of a rule, over the bars read so far, leaves stored. */
  function EvaluateRule(rule: Rule, stored: seq<int>, bars: seq<Bar>): seq<int> {
    EnqueueAll(stored, Alerts(rule, Watch(None, Latest(stored)), Watched(rule, bars)))
  }

  /** One evaluation after each read. */
  function EvaluateAll(rule: Rule, earlier: seq<int>, sessions: seq<seq<Bar>>): seq<int> {
    if sessions == [] then earlier
    else EvaluateRule(rule, EvaluateAll(rule, earlier, sessions[..|sessions| - 1]), sessions[|sessions| - 1])
  }

  lemma LatestOfMore(earlier: seq<int>, done: seq<int>)
    requires StrictlyIncreasing(done) && forall t, u :: t in earlier && u in done ==> t < u
    ensures Latest(earlier + done) == LastOf(done, Latest(earlier))
  {
    if done == [] {
      assert earlier + done == earlier;
    } else {
      var last := done[|done| - 1];
      assert last in earlier + done;
      forall t | t in earlier + done ensures t <= last {
        if t in done { var i :| 0 <= i < |done| && done[i] == t; }
      }
    }
  }

  /** The stored price-cross alerts of one rule, keyed by the minute of their bar. */
  class RuleAlerts {
    var stored: seq<int>

    constructor ()
      ensures stored == []
    {
      stored := [];
    }

    /** True when the alert is new. */
    method Enqueue(ts: int) returns (added: bool)
      modifies this
      ensures added == (ts !in old(stored))
      ensures stored == EnqueueAll(old(stored), [ts])
    {
      added := ts !in stored;
      if added { stored := stored + [ts]; }
    }

    /** Restarts from the latest stored alert; returns the alerts that are new. */
    method Evaluate(rule: Rule, bars: seq<Bar>) returns (keys: seq<int>)
      requires InTime(bars)
      modifies this
      ensures stored == EvaluateRule(rule, old(stored), bars)
      ensures stored == old(stored) + keys
    {
      hide Alerts, Watched, SortBy, Latest;
      WatchedInTime(rule, bars);
      var window := Watched(rule, bars);
      SortedWindow(window);
      var crossings := PriceCrossings(rule, window, Latest(stored));
      keys := [];
      var k := 0;
      assert crossings[0..] == crossings && stored + [] == stored;
      while k < |crossings|
        invariant 0 <= k <= |crossings|
        invariant EnqueueAll(stored, crossings[k..]) == EnqueueAll(old(stored), crossings)
        invariant stored == old(stored) + keys
      {
        assert crossings[k..][1..] == crossings[k + 1..];
        var added := Enqueue(crossings[k]);
        if added { keys := keys + [crossings[k]]; }
        k := k + 1;
      }
      assert crossings[k..] == [];
    }
  }

  lemma SortedWindow(bars: seq<Bar>)
    requires InTime(bars)
    ensures SortBy(bars, BarMinute) == bars
  {
    SortByFixed(bars, BarMinute);
  }

  lemma SplitByTime(rule: Rule, bars: seq<Bar>)
    requires InTime(bars)
    ensures Filter(bars, BeforeUsable(rule)) + Filter(bars, Usable(rule)) == bars
  {
    assert SwitchesOnce(bars, BeforeUsable(rule), Usable(rule));
    hide *;
    FilterSwitch(bars, BeforeUsable(rule), Usable(rule));
  }

  /** The watched window is a stretch of the bars, so it is in time order and never longer. */
  lemma WatchedInTime(rule: Rule, bars: seq<Bar>)
    requires InTime(bars)
    ensures InTime(Watched(rule, bars)) && forall b :: b in Watched(rule, bars) ==> b in bars
  {
    SplitByTime(rule, bars);
    var a, b := Filter(bars, BeforeUsable(rule)), Filter(bars, Usable(rule));
    hide Filter;
    var n := |a| - (if a == [] then 0 else 1);
    assert Watched(rule, bars) == bars[n..];
  }

  /** As the session grows the window only grows at its end, once it holds a bar the rule may use. */
  lemma WatchedGrows(rule: Rule, p: seq<Bar>, q: seq<Bar>)
    requires InTime(q) && p <= q
    ensures Watched(rule, p) <= Watched(rule, q) || |Watched(rule, p)| <= 1
  {
    hide Filter, InTime, BeforeUsable, Usable;
    var more := q[|p|..];
    assert q == p + more;
    FilterConcat(p, more, BeforeUsable(rule));
    FilterConcat(p, more, Usable(rule));
    if Filter(p, Usable(rule)) != [] {
      assert Filter(p, Usable(rule))[0] in Filter(p, Usable(rule));
      NothingUsableBefore(rule, p, q, Filter(p, Usable(rule))[0]);
      FilterNone(more, BeforeUsable(rule));
      WindowGrows(Filter(p, BeforeUsable(rule)), Filter(p, Usable(rule)), Filter(more, Usable(rule)));
    }
  }

  lemma WindowGrows(before: seq<Bar>, usable: seq<Bar>, more: seq<Bar>)
    ensures Window(before, usable) <= Window(before + [], usable + more)
  {
    assert before + [] == before;
  }

  lemma NothingUsableBefore(rule: Rule, p: seq<Bar>, q: seq<Bar>, b: Bar)
    requires InTime(q) && p <= q && b in p && Usable(rule)(b)
    ensures forall x :: x in q[|p|..] ==> !BeforeUsable(rule)(x)
  {
    var i :| 0 <= i < |p| && p[i] == b;
    assert q[i] == b;
    forall x | x in q[|p|..] ensures !BeforeUsable(rule)(x) {
      var j :| 0 <= j < |q[|p|..]| && q[|p|..][j] == x;
      assert q[|p| + j] == x;
    }
  }

  /** A window with a single bar has no previous close and cannot alert. */
  lemma OneBarIsSilent(rule: Rule, start: Option<int>, bars: seq<Bar>)
    requires |bars| <= 1
    ensures Alerts(rule, Watch(None, start), bars) == []
  {
    if |bars| == 1 { assert bars[1..] == []; }
  }

  lemma StepOnWindow(rule: Rule, earlier: seq<int>, p: seq<Bar>, q: seq<Bar>)
    requires rule.cooldown >= 0 && InTime(q) && p <= q && forall t, b :: t in earlier && b in q ==> t < b.ts
    ensures var w := Watch(None, Latest(earlier));
            EvaluateRule(rule, earlier + Alerts(rule, w, Watched(rule, p)), q) == earlier + Alerts(rule, w, Watched(rule, q))
  {
    hide *;
    var start, v, u := Latest(earlier), Watched(rule, q), Watched(rule, p);
    WatchedInTime(rule, q);
    WatchedGrows(rule, p, q);
    NoBarsInTime();
    OneBarIsSilent(rule, start, []);
    var seen: seq<Bar> := if u <= v then u else [];
    if !(u <= v) { OneBarIsSilent(rule, start, u); }
    var done := Alerts(rule, Watch(None, start), seen);
    PrefixInTime(seen, v);
    AlertsShape(rule, Watch(None, start), seen);
    DoneIsLater(earlier, q, seen, done);
    LatestOfMore(earlier, done);
    OneMoreEvaluation(rule, start, earlier, seen, v);
    EvaluateRuleIs(rule, earlier + done, q);
  }

  lemma NoBarsInTime()
    ensures InTime([])
  {
  }

  lemma EvaluateRuleIs(rule: Rule, stored: seq<int>, bars: seq<Bar>)
    ensures EvaluateRule(rule, stored, bars) == EnqueueAll(stored, Alerts(rule, Watch(None, Latest(stored)), Watched(rule, bars)))
  {
  }

  lemma DoneIsLater(earlier: seq<int>, q: seq<Bar>, seen: seq<Bar>, done: seq<int>)
    requires forall t, b :: t in earlier && b in q ==> t < b.ts
    requires forall b :: b in seen ==> b in q
    requires forall t :: t in done ==> exists b :: b in seen && b.ts == t
    ensures forall t, u :: t in earlier && u in done ==> t < u
  {
  }

  ghost predicate Growing(sessions: seq<seq<Bar>>) {
    forall i, j :: 0 <= i < j < |sessions| ==> sessions[i] <= sessions[j]
  }

  /**
   * Incremental equals one-shot. Evaluating a rule over any growing prefixes of a session, each time restarting from the
   * last stored alert, enqueues exactly the alerts one pass over the final bars selects: none missing, none twice.
   */
  lemma {:induction false} IncrementalIsOneShot(rule: Rule, earlier: seq<int>, sessions: seq<seq<Bar>>)
    requires rule.cooldown >= 0 && sessions != [] && Growing(sessions) && InTime(sessions[|sessions| - 1])
    requires forall t, b :: t in earlier && b in sessions[|sessions| - 1] ==> t < b.ts
    ensures EvaluateAll(rule, earlier, sessions)
         == earlier + Alerts(rule, Watch(None, Latest(earlier)), Watched(rule, sessions[|sessions| - 1]))
    decreases |sessions|
  {
    hide EvaluateRule, Alerts, Watched, Latest;
    var most, q := sessions[..|sessions| - 1], sessions[|sessions| - 1];
    var p: seq<Bar> := if most == [] then [] else most[|most| - 1];
    assert most != [] ==> p == sessions[|sessions| - 2];
    assert p <= q;
    StepOnWindow(rule, earlier, p, q);
    if most == [] {
      NothingWatched(rule);
      OneBarIsSilent(rule, Latest(earlier), []);
      assert earlier + [] == earlier;
    } else {
      assert forall i :: 0 <= i < |most| ==> most[i] == sessions[i];
      PrefixInTime(p, q);
      IncrementalIsOneShot(rule, earlier, most);
    }
  }

  lemma NothingWatched(rule: Rule)
    ensures Watched(rule, []) == []
  {
  }

  lemma PrefixInTime(p: seq<Bar>, q: seq<Bar>)
    requires InTime(q) && p <= q
    ensures InTime(p) && forall b :: b in p ==> b in q
  {
  }
}
