/** The alert outbox: idempotent enqueueing, and delivery with per-alert backoff, a budget and expiry by age. */
module Outbox {
  import opened Prelude
  import opened Calendar

  const ALERT_EXPIRY := 1440 * MINUTE
  const BACKOFF_CAP_MINUTES := 30
  const DELIVERY_BATCH: nat := 50

  datatype Outcome = Delivered | Failed | Expired

  datatype Attempt = Attempt(outcome: Outcome, at: int)

  /** An alert and its attempt rows, in the order they were written. */
  datatype Alert = Alert(key: string, createdAt: int, attempts: seq<Attempt>) {
    function With(outcome: Outcome, at: int): Alert { this.(attempts := attempts + [Attempt(outcome, at)]) }
  }

  function Pow2(n: nat): nat { if n == 0 then 1 else 2 * Pow2(n - 1) }

  /** The wait after the latest failed attempt. */
  function Backoff(failures: int): int {
    if failures <= 0 then 0 else Min(Pow2(Min(failures - 1, 10)), BACKOFF_CAP_MINUTES) * MINUTE
  }

  // ---- the queries over one alert's attempt rows --------------------------------------------------------------------

  predicate Closed(rows: seq<Attempt>) { exists r :: r in rows && !r.outcome.Failed? }

  function Failures(rows: seq<Attempt>): nat {
    if rows == [] then 0 else Failures(rows[1..]) + if rows[0].outcome.Failed? then 1 else 0
  }

  function LastFailed(rows: seq<Attempt>): Option<int> {
    if rows == [] then None
    else
      var rest := LastFailed(rows[1..]);
      if !rows[0].outcome.Failed? then rest
      else Some(if rest.None? then rows[0].at else Max(rows[0].at, rest.value))
  }

  // ---- one delivery run ---------------------------------------------------------------------------------------------

  predicate Overdue(a: Alert, now: int) { a.createdAt < now - ALERT_EXPIRY && !Closed(a.attempts) }

  function ExpireOne(a: Alert, now: int): Alert { if Overdue(a, now) then a.With(Expired, now) else a }

  function ExpireAll(alerts: seq<Alert>, now: int): (r: seq<Alert>)
    ensures |r| == |alerts| && forall i :: 0 <= i < |r| ==> r[i] == ExpireOne(alerts[i], now)
  {
    seq(|alerts|, i requires 0 <= i < |alerts| => ExpireOne(alerts[i], now))
  }

  predicate IsDue(a: Alert, now: int) {
    && a.createdAt >= now - ALERT_EXPIRY && !Closed(a.attempts)
    && (LastFailed(a.attempts).None? || now >= LastFailed(a.attempts).value + Backoff(Failures(a.attempts)))
  }

  /** The positions of the due alerts among the first `n`, oldest first. */
  function DueAmong(alerts: seq<Alert>, now: int, n: nat): (r: seq<nat>)
    requires n <= |alerts|
    ensures forall i :: i in r <==> 0 <= i < n && IsDue(alerts[i], now)
    ensures forall j, k :: 0 <= j < k < |r| ==> r[j] < r[k]
  {
    if n == 0 then []
    else
      var r := DueAmong(alerts, now, n - 1);
      assert forall k :: 0 <= k < |r| ==> r[k] in r;
      r + if IsDue(alerts[n - 1], now) then [n - 1] else []
  }

  function Batch(alerts: seq<Alert>, now: int, limit: nat): (r: seq<nat>)
    ensures forall k :: 0 <= k < |r| ==> r[k] < |alerts| && IsDue(alerts[r[k]], now)
    ensures forall j, k :: 0 <= j < k < |r| ==> r[j] < r[k]
  {
    var due := DueAmong(alerts, now, |alerts|);
    assert forall k :: 0 <= k < |due| ==> due[k] in due;
    if |due| <= limit then due else due[..limit]
  }

  /** The batch is the oldest due alerts: no due alert is passed over for a younger one, and none is left if there is room. */
  lemma OldestFirst(alerts: seq<Alert>, now: int, limit: nat, j: nat)
    requires j < |alerts| && IsDue(alerts[j], now) && j !in Batch(alerts, now, limit)
    ensures |Batch(alerts, now, limit)| == limit && forall i :: i in Batch(alerts, now, limit) ==> i < j
  {
    hide IsDue, DueAmong;
    var due, batch := DueAmong(alerts, now, |alerts|), Batch(alerts, now, limit);
    assert batch == due[..|batch|] && (|batch| < limit ==> batch == due);
    assert j in due;
    LaterInOrder(due, |batch|, j);
  }

  lemma LaterInOrder(due: seq<nat>, n: nat, j: nat)
    requires (forall i, k :: 0 <= i < k < |due| ==> due[i] < due[k]) && n <= |due| && j in due && j !in due[..n]
    ensures n < |due| && forall i :: i in due[..n] ==> i < j
  {
    var rest := due[n..];
    assert due == due[..n] + rest;
    var m :| 0 <= m < |rest| && rest[m] == j;
    forall i | i in due[..n] ensures i < j {
      var k :| 0 <= k < n && due[..n][k] == i;
      assert due[k] == i && due[n + m] == j;
    }
  }

  function Tried(a: Alert, delivered: bool, now: int): Alert { a.With(if delivered then Delivered else Failed, now) }

  /** One attempt per due alert while the budget lasts: `answers` holds the sink's reply to each attempt made. */
  function TryAll(alerts: seq<Alert>, due: seq<nat>, answers: seq<bool>, now: int): (r: seq<Alert>)
    requires forall k :: 0 <= k < |due| ==> due[k] < |alerts|
    ensures |r| == |alerts|
    decreases |due|
  {
    if due == [] || answers == [] then alerts
    else
      TryAll(alerts[due[0] := Tried(alerts[due[0]], answers[0], now)], due[1..], answers[1..], now)
  }

  function DeliverRun(alerts: seq<Alert>, now: int, limit: nat, answers: seq<bool>): (r: seq<Alert>)
    ensures |r| == |alerts|
  {
    var kept := ExpireAll(alerts, now);
    TryAll(kept, Batch(kept, now, limit), answers, now)
  }

  /** What the attempts of a run do to one alert: at most one row, if it is in the part of the batch the budget covers. */
  lemma {:induction false} TryAllAt(alerts: seq<Alert>, due: seq<nat>, answers: seq<bool>, now: int, i: nat)
    requires forall k :: 0 <= k < |due| ==> due[k] < |alerts|
    requires forall j, k :: 0 <= j < k < |due| ==> due[j] < due[k]
    requires i < |alerts|
    ensures var r := TryAll(alerts, due, answers, now)[i];
            r == alerts[i] || (i in due && (r == Tried(alerts[i], true, now) || r == Tried(alerts[i], false, now)))
    ensures forall k :: 0 <= k < |due| && k < |answers| && due[k] == i
              ==> TryAll(alerts, due, answers, now)[i] == Tried(alerts[i], answers[k], now)
    ensures (forall k :: 0 <= k < |due| && k < |answers| ==> due[k] != i) ==> TryAll(alerts, due, answers, now)[i] == alerts[i]
    decreases |due|
  {
    if due != [] && answers != [] {
      var more := alerts[due[0] := Tried(alerts[due[0]], answers[0], now)];
      assert forall k :: 0 <= k < |due[1..]| ==> due[1..][k] == due[k + 1];
      if i == due[0] {
        NotTried(more, due[1..], answers[1..], now, i);
      } else {
        TryAllAt(more, due[1..], answers[1..], now, i);
      }
      assert forall k :: 0 < k < |due| && k < |answers| ==> due[k] == due[1..][k - 1] && answers[k] == answers[1..][k - 1];
    }
  }

  lemma {:induction false} NotTried(alerts: seq<Alert>, due: seq<nat>, answers: seq<bool>, now: int, i: nat)
    requires forall k :: 0 <= k < |due| ==> due[k] < |alerts|
    requires i < |alerts| && i !in due
    ensures TryAll(alerts, due, answers, now)[i] == alerts[i]
    decreases |due|
  {
    if due != [] && answers != [] {
      assert due[0] in due;
      assert forall k :: k in due[1..] ==> k in due;
      NotTried(alerts[due[0] := Tried(alerts[due[0]], answers[0], now)], due[1..], answers[1..], now, i);
    }
  }

  // ---- the outbox ---------------------------------------------------------------------------------------------------

  predicate Known(alerts: seq<Alert>, key: string) { exists a :: a in alerts && a.key == key }

  function EnqueueOne(alerts: seq<Alert>, key: string, now: int): seq<Alert> {
    if Known(alerts, key) then alerts else alerts + [Alert(key, now, [])]
  }

  datatype Report = Report(delivered: nat, failed: nat, expired: nat, budgetExhausted: bool)

  class AlertOutbox {
    var alerts: seq<Alert>

    constructor ()
      ensures alerts == []
    {
      alerts := [];
    }

    /** True when the alert is new: the same key never makes a second row. */
    method Enqueue(key: string, now: int) returns (added: bool)
      modifies this
      ensures added == !Known(old(alerts), key) && alerts == EnqueueOne(old(alerts), key, now)
    {
      added := !Known(alerts, key);
      if added { alerts := alerts + [Alert(key, now, [])]; }
    }

    /**
     * Expires by age, then makes one attempt per due alert, oldest first, until the batch is done or the budget runs out
     * after as many attempts as there are answers. Every row carries the run's one instant.
     */
    method Deliver(now: int, limit: nat, answers: seq<bool>) returns (report: Report)
      modifies this
      ensures alerts == DeliverRun(old(alerts), now, limit, answers)
      ensures report.expired == Count(old(alerts), a => Overdue(a, now))
      ensures var due := Batch(ExpireAll(old(alerts), now), now, limit);
              && report.delivered == Count(answers[..Min(|due|, |answers|)], a => a)
              && report.failed == Count(answers[..Min(|due|, |answers|)], a => !a)
              && report.budgetExhausted == (|answers| < |due|)
    {
      hide TryAll, Batch, Overdue, Tried, ExpireAll;
      var expired := Count(alerts, a => Overdue(a, now));
      alerts := ExpireAll(alerts, now);
      var due := Batch(alerts, now, limit);
      ghost var kept := alerts;
      var delivered, failed, k := 0, 0, 0;
      assert due[0..] == due && answers[0..] == answers;
      while k < |due| && k < |answers|
        invariant 0 <= k <= |due| && k <= |answers| && |alerts| == |kept|
        invariant delivered == Count(answers[..k], a => a) && failed == Count(answers[..k], a => !a)
        invariant TryAll(alerts, due[k..], answers[k..], now) == TryAll(kept, due, answers, now)
      {
        TryNext(alerts, due, answers, now, k);
        alerts := alerts[due[k] := Tried(alerts[due[k]], answers[k], now)];
        if answers[k] { delivered := delivered + 1; } else { failed := failed + 1; }
        CountNext(answers, k, a => a);
        CountNext(answers, k, a => !a);
        k := k + 1;
      }
      TryEnds(alerts, due, answers, now, k);
      report := Report(delivered, failed, expired, k < |due|);
    }
  }

  lemma TryNext(alerts: seq<Alert>, due: seq<nat>, answers: seq<bool>, now: int, k: nat)
    requires (forall i :: 0 <= i < |due| ==> due[i] < |alerts|) && k < |due| && k < |answers|
    ensures TryAll(alerts, due[k..], answers[k..], now)
         == TryAll(alerts[due[k] := Tried(alerts[due[k]], answers[k], now)], due[k + 1..], answers[k + 1..], now)
  {
    hide Tried;
    assert due[k..][1..] == due[k + 1..] && answers[k..][1..] == answers[k + 1..];
  }

  lemma TryEnds(alerts: seq<Alert>, due: seq<nat>, answers: seq<bool>, now: int, k: nat)
    requires (forall i :: 0 <= i < |due| ==> due[i] < |alerts|) && k <= |due| && k <= |answers| && (k == |due| || k == |answers|)
    ensures TryAll(alerts, due[k..], answers[k..], now) == alerts
  {
  }

  function Count<T>(s: seq<T>, p: T -> bool): nat {
    if s == [] then 0 else Count(s[1..], p) + if p(s[0]) then 1 else 0
  }

  lemma {:induction false} CountNext<T>(s: seq<T>, k: nat, p: T -> bool)
    requires k < |s|
    ensures Count(s[..k + 1], p) == Count(s[..k], p) + if p(s[k]) then 1 else 0
    decreases k
  {
    if k > 0 {
      assert s[..k + 1][1..] == s[1..][..k] && s[..k][1..] == s[1..][..k - 1];
      CountNext(s[1..], k - 1, p);
    } else {
      assert s[..1][1..] == [] && s[..0] == [];
    }
  }

  /**
   * What a run writes on each alert, row by row. One past its age and still open is expired; one in the part of the batch the
   * budget covers gets the sink's own answer to its attempt; every other alert gets nothing.
   */
  lemma EveryAnswerIsRecorded(alerts: seq<Alert>, now: int, limit: nat, answers: seq<bool>, i: nat)
    requires i < |alerts|
    ensures var before, after := alerts[i], DeliverRun(alerts, now, limit, answers)[i];
            var due := Batch(ExpireAll(alerts, now), now, limit);
            && after.key == before.key && after.createdAt == before.createdAt
            && (before.createdAt < now - ALERT_EXPIRY && (forall r :: r in before.attempts ==> r.outcome.Failed?) ==>
                  after.attempts == before.attempts + [Attempt(Expired, now)])
            && (forall k :: 0 <= k < |due| && k < |answers| && due[k] == i ==>
                  after.attempts == before.attempts + [Attempt(if answers[k] then Delivered else Failed, now)])
            && (((before.createdAt >= now - ALERT_EXPIRY || exists r :: r in before.attempts && !r.outcome.Failed?)
                 && (forall k :: 0 <= k < |due| && k < |answers| ==> due[k] != i)) ==>
                  after.attempts == before.attempts)
  {
    var kept := ExpireAll(alerts, now);
    var due := Batch(kept, now, limit);
    hide Batch, TryAll, ExpireAll, LastFailed, Failures, Backoff;
    TryAllAt(kept, due, answers, now, i);
    assert kept[i] == ExpireOne(alerts[i], now);
    if alerts[i].createdAt < now - ALERT_EXPIRY {
      assert forall k :: 0 <= k < |due| ==> due[k] != i;
    } else {
      assert kept[i] == alerts[i];
    }
  }

  // ---- what every run keeps -----------------------------------------------------------------------------------------

  /** Attempt `i` comes at least the backoff of its `i` earlier failures after the one before it. */
  ghost predicate Spaced(rows: seq<Attempt>, i: nat)
    requires i < |rows|
  {
    i > 0 && !rows[i].outcome.Expired? ==> rows[i].at >= rows[i - 1].at + Backoff(i)
  }

  /** An alert as every run leaves it: only its last row may be terminal, and expiry is exactly by age. */
  ghost predicate Fit(a: Alert, clock: int) {
    && a.createdAt <= clock
    && (forall i :: 0 <= i < |a.attempts| ==> a.createdAt <= a.attempts[i].at <= clock && Spaced(a.attempts, i))
    && (forall i :: 0 <= i < |a.attempts| ==>
          (a.attempts[i].outcome.Expired? <==> a.attempts[i].at > a.createdAt + ALERT_EXPIRY))
    && (forall i :: 0 <= i < |a.attempts| - 1 ==> a.attempts[i].outcome.Failed?)
  }

  lemma {:induction false} AllFailed(rows: seq<Attempt>)
    requires forall i :: 0 <= i < |rows| ==> rows[i].outcome.Failed?
    requires forall i, j :: 0 <= i < j < |rows| ==> rows[i].at <= rows[j].at
    ensures Failures(rows) == |rows|
    ensures LastFailed(rows) == if rows == [] then None else Some(rows[|rows| - 1].at)
  {
    if rows != [] { AllFailed(rows[1..]); }
  }

  lemma {:induction false} InOrderRows(a: Alert, clock: int, i: nat, j: nat)
    requires Fit(a, clock) && i <= j < |a.attempts|
    ensures a.attempts[i].at <= a.attempts[j].at
    decreases j
  {
    assert Spaced(a.attempts, j);
    if i < j {
      InOrderRows(a, clock, i, j - 1);
      assert a.attempts[i].outcome.Failed? && a.attempts[j - 1].outcome.Failed?;
    }
  }

  /** An open alert's rows are all failures, so its next attempt counts all of them and waits from the last. */
  lemma OpenAlert(a: Alert, clock: int)
    requires Fit(a, clock) && !Closed(a.attempts)
    ensures Failures(a.attempts) == |a.attempts|
    ensures LastFailed(a.attempts) == if a.attempts == [] then None else Some(a.attempts[|a.attempts| - 1].at)
  {
    forall i, j | 0 <= i < j < |a.attempts| ensures a.attempts[i].at <= a.attempts[j].at { InOrderRows(a, clock, i, j); }
    assert forall i :: 0 <= i < |a.attempts| ==> a.attempts[i] in a.attempts;
    AllFailed(a.attempts);
  }

  lemma ExpireKeepsFit(a: Alert, clock: int, now: int)
    requires Fit(a, clock) && clock <= now
    ensures Fit(ExpireOne(a, now), now)
    ensures ExpireOne(a, now).createdAt < now - ALERT_EXPIRY ==> Closed(ExpireOne(a, now).attempts)
  {
    if Overdue(a, now) { RowKeepsFit(a, clock, now, Expired); }
  }

  lemma RowKeepsFit(a: Alert, clock: int, now: int, outcome: Outcome)
    requires Fit(a, clock) && clock <= now && !Closed(a.attempts)
    requires outcome.Expired? <==> now > a.createdAt + ALERT_EXPIRY
    requires !outcome.Expired? && a.attempts != [] ==> now >= a.attempts[|a.attempts| - 1].at + Backoff(|a.attempts|)
    ensures Fit(a.With(outcome, now), now)
  {
    hide Backoff, Spaced, Closed;
    var rows, n := a.With(outcome, now).attempts, |a.attempts|;
    StillOpen(a.attempts);
    forall i | 0 <= i < |rows| ensures a.createdAt <= rows[i].at <= now && Spaced(rows, i) {
      SpacedAgain(a.attempts, rows[n], i);
    }
  }

  lemma StillOpen(rows: seq<Attempt>)
    requires !Closed(rows)
    ensures forall i :: 0 <= i < |rows| ==> rows[i].outcome.Failed?
  {
    assert forall i :: 0 <= i < |rows| ==> rows[i] in rows;
  }

  lemma SpacedAgain(rows: seq<Attempt>, last: Attempt, i: nat)
    requires i <= |rows| && (i < |rows| ==> Spaced(rows, i))
    requires !last.outcome.Expired? && rows != [] ==> last.at >= rows[|rows| - 1].at + Backoff(|rows|)
    ensures Spaced(rows + [last], i)
  {
    hide Backoff;
  }

  lemma TryKeepsFit(a: Alert, now: int, delivered: bool)
    requires Fit(a, now) && IsDue(a, now)
    ensures Fit(Tried(a, delivered, now), now)
  {
    OpenAlert(a, now);
    RowKeepsFit(a, now, now, if delivered then Delivered else Failed);
  }

  ghost predicate AllFit(alerts: seq<Alert>, clock: int) {
    && (forall i :: 0 <= i < |alerts| ==> Fit(alerts[i], clock))
    && (forall i, j :: 0 <= i < j < |alerts| ==> alerts[i].key != alerts[j].key)
  }

  /** A run adds at most one row to each alert, rewrites none, and leaves nothing past its age open. */
  lemma DeliverKeepsFit(alerts: seq<Alert>, clock: int, now: int, limit: nat, answers: seq<bool>)
    requires AllFit(alerts, clock) && clock <= now
    ensures AllFit(DeliverRun(alerts, now, limit, answers), now)
    ensures forall i :: 0 <= i < |alerts| ==>
              var a, b := alerts[i], DeliverRun(alerts, now, limit, answers)[i];
              && b.key == a.key && b.createdAt == a.createdAt
              && (a.createdAt < now - ALERT_EXPIRY ==> Closed(b.attempts))
              && a.attempts <= b.attempts && |b.attempts| <= |a.attempts| + 1
  {
    var kept := ExpireAll(alerts, now);
    var due := Batch(kept, now, limit);
    hide *;
    forall i | 0 <= i < |alerts|
      ensures var a, b := alerts[i], DeliverRun(alerts, now, limit, answers)[i];
              && Fit(b, now) && b.key == a.key && b.createdAt == a.createdAt
              && (a.createdAt < now - ALERT_EXPIRY ==> Closed(b.attempts))
              && a.attempts <= b.attempts && |b.attempts| <= |a.attempts| + 1
    {
      DeliverOne(alerts, clock, now, limit, answers, i);
    }
    AllFitAgain(alerts, DeliverRun(alerts, now, limit, answers), clock, now);
  }

  lemma AllFitAgain(alerts: seq<Alert>, later: seq<Alert>, clock: int, now: int)
    requires AllFit(alerts, clock) && |later| == |alerts|
    requires forall i :: 0 <= i < |later| ==> Fit(later[i], now) && later[i].key == alerts[i].key
    ensures AllFit(later, now)
  {
  }

  lemma DeliverOne(alerts: seq<Alert>, clock: int, now: int, limit: nat, answers: seq<bool>, i: nat)
    requires AllFit(alerts, clock) && clock <= now && i < |alerts|
    ensures var a, b := alerts[i], DeliverRun(alerts, now, limit, answers)[i];
            && Fit(b, now) && b.key == a.key && b.createdAt == a.createdAt
            && (a.createdAt < now - ALERT_EXPIRY ==> Closed(b.attempts))
            && a.attempts <= b.attempts && |b.attempts| <= |a.attempts| + 1
  {
    var kept := ExpireAll(alerts, now);
    var due := Batch(kept, now, limit);
    ExpireKeepsFit(alerts[i], clock, now);
    TryAllAt(kept, due, answers, now, i);
    if i in due {
      var k :| 0 <= k < |due| && due[k] == i;
      TryKeepsFit(kept[i], now, true);
      TryKeepsFit(kept[i], now, false);
    }
  }

  // ---- runs ---------------------------------------------------------------------------------------------------------

  datatype Action =
    | Enqueue(key: string, at: int)
    | Deliver(at: int, limit: nat, answers: seq<bool>)

  function Step(alerts: seq<Alert>, action: Action): seq<Alert> {
    match action
    case Enqueue(key, at) => EnqueueOne(alerts, key, at)
    case Deliver(at, limit, answers) => DeliverRun(alerts, at, limit, answers)
  }

  function After(actions: seq<Action>): seq<Alert> {
    if actions == [] then [] else Step(After(actions[..|actions| - 1]), actions[|actions| - 1])
  }

  /** The database clock never runs backwards between steps. */
  ghost predicate Sequential(actions: seq<Action>) {
    forall i, j :: 0 <= i < j < |actions| ==> actions[i].at <= actions[j].at
  }

  lemma StepKeepsFit(alerts: seq<Alert>, clock: int, action: Action)
    requires AllFit(alerts, clock) && clock <= action.at
    ensures AllFit(Step(alerts, action), action.at)
  {
    if action.Deliver? {
      DeliverKeepsFit(alerts, clock, action.at, action.limit, action.answers);
    } else {
      AllFitAgain(alerts, alerts, clock, action.at);
    }
  }

  /** Every reachable outbox is fit: at most one terminal row, last; attempts a backoff apart; expiry exactly by age. */
  lemma {:induction false} EveryRunIsFit(actions: seq<Action>)
    requires Sequential(actions)
    ensures actions == [] ==> After(actions) == []
    ensures actions != [] ==> AllFit(After(actions), actions[|actions| - 1].at)
    decreases |actions|
  {
    hide Step, Fit;
    if actions != [] {
      var most, last := actions[..|actions| - 1], actions[|actions| - 1];
      EveryRunIsFit(most);
      var clock := if most == [] then last.at else most[|most| - 1].at;
      assert AllFit(After(most), clock);
      StepKeepsFit(After(most), clock, last);
    }
  }

  // ---- the bound on attempts ----------------------------------------------------------------------------------------

  /** The earliest age at which attempt number `i`, counted from zero, can be made. */
  function Offset(i: nat): int { if i == 0 then 0 else Offset(i - 1) + Backoff(i) }

  lemma {:induction false} OffsetPastTheCap(i: nat)
    requires i >= 5
    ensures Offset(i) == (31 + 30 * (i - 5)) * MINUTE
    decreases i
  {
    assert Backoff(1) == MINUTE && Backoff(2) == 2 * MINUTE && Backoff(3) == 4 * MINUTE by { PowersOfTwo(); }
    assert Backoff(4) == 8 * MINUTE && Backoff(5) == 16 * MINUTE by { PowersOfTwo(); }
    if i == 5 {
      assert Offset(3) == 7 * MINUTE by { assert Offset(1) == MINUTE && Offset(2) == 3 * MINUTE; }
      assert Offset(4) == 15 * MINUTE;
    } else {
      OffsetPastTheCap(i - 1);
      CappedBackoff(i);
    }
  }

  lemma PowersOfTwo()
    ensures Pow2(0) == 1 && Pow2(1) == 2 && Pow2(2) == 4 && Pow2(3) == 8 && Pow2(4) == 16
  {
    assert Pow2(2) == 4 && Pow2(3) == 8;
  }

  lemma {:induction false} CappedBackoff(failures: nat)
    requires failures >= 6
    ensures Backoff(failures) == 30 * MINUTE
  {
    Pow2Grows(5, Min(failures - 1, 10));
    assert Pow2(5) == 32 by { PowersOfTwo(); }
  }

  lemma {:induction false} Pow2Grows(a: nat, b: nat)
    requires a <= b
    ensures Pow2(a) <= Pow2(b)
    decreases b
  {
    if a < b { Pow2Grows(a, b - 1); }
  }

  lemma {:induction false} AttemptNotBefore(a: Alert, clock: int, i: nat)
    requires Fit(a, clock) && i < |a.attempts| && !a.attempts[i].outcome.Expired?
    ensures a.attempts[i].at >= a.createdAt + Offset(i)
    decreases i
  {
    assert Spaced(a.attempts, i);
    if i > 0 {
      assert a.attempts[i - 1].outcome.Failed?;
      AttemptNotBefore(a, clock, i - 1);
    }
  }

  predicate IsTry(row: Attempt) { !row.outcome.Expired? }

  const MOST_ATTEMPTS: nat := 52

  /** The 52nd attempt still falls within the expiry window, a 53rd no longer could. */
  lemma LastOffset()
    ensures Offset(MOST_ATTEMPTS - 1) <= ALERT_EXPIRY < Offset(MOST_ATTEMPTS)
  {
    OffsetPastTheCap(MOST_ATTEMPTS - 1);
    OffsetPastTheCap(MOST_ATTEMPTS);
  }

  lemma {:induction false} OffsetGrows(i: nat, j: nat)
    requires i <= j
    ensures Offset(i) <= Offset(j)
    decreases j
  {
    if i < j { OffsetGrows(i, j - 1); }
  }

  lemma TriesAreBounded(a: Alert, clock: int, n: nat)
    requires Fit(a, clock) && 0 < n <= |a.attempts| && !a.attempts[n - 1].outcome.Expired?
    ensures n <= MOST_ATTEMPTS
  {
    hide Offset, Spaced;
    AttemptNotBefore(a, clock, n - 1);
    LastOffset();
    if n > MOST_ATTEMPTS { OffsetGrows(MOST_ATTEMPTS, n - 1); }
  }

  /** However often delivery runs, an alert is tried at most 52 times before it expires. */
  lemma AtMostFiftyTwo(a: Alert, clock: int)
    requires Fit(a, clock)
    ensures |Filter(a.attempts, IsTry)| <= MOST_ATTEMPTS
  {
    hide Filter, Spaced;
    var rows := a.attempts;
    if rows != [] {
      var n := if rows[|rows| - 1].outcome.Expired? then |rows| - 1 else |rows|;
      if n > 0 { TriesAreBounded(a, clock, n); }
      assert rows == rows[..n] + rows[n..];
      FilterConcat(rows[..n], rows[n..], IsTry);
      FilterNone(rows[n..], IsTry);
    }
  }

  /**
   * Over every run: no row follows a terminal one, consecutive tries are at least a backoff of the failures before them
   * apart, and no alert is tried more than 52 times.
   */
  lemma EveryRunDelivers(actions: seq<Action>, i: nat)
    requires Sequential(actions) && i < |After(actions)|
    ensures var rows := After(actions)[i].attempts;
            && (forall k :: 0 <= k < |rows| - 1 ==> rows[k].outcome.Failed?)
            && (forall k :: 0 <= k < |rows| && k > 0 && !rows[k].outcome.Expired?
                  ==> rows[k].at >= rows[k - 1].at + Backoff(Failures(rows[..k])))
            && |Filter(rows, IsTry)| <= MOST_ATTEMPTS
  {
    EveryRunIsFit(actions);
    hide *;
    var a, clock := After(actions)[i], actions[|actions| - 1].at;
    FitOf(After(actions), clock, i);
    AtMostFiftyTwo(a, clock);
    TriesAreSpaced(a, clock);
  }

  lemma FitOf(alerts: seq<Alert>, clock: int, i: nat)
    requires AllFit(alerts, clock) && i < |alerts|
    ensures Fit(alerts[i], clock)
  {
  }

  lemma TriesAreSpaced(a: Alert, clock: int)
    requires Fit(a, clock)
    ensures forall k :: 0 <= k < |a.attempts| - 1 ==> a.attempts[k].outcome.Failed?
    ensures forall k :: 0 <= k < |a.attempts| && k > 0 && !a.attempts[k].outcome.Expired?
              ==> a.attempts[k].at >= a.attempts[k - 1].at + Backoff(Failures(a.attempts[..k]))
  {
    var rows := a.attempts;
    forall k | 0 <= k < |rows| && k > 0 && !rows[k].outcome.Expired?
      ensures rows[k].at >= rows[k - 1].at + Backoff(Failures(rows[..k]))
    {
      assert Spaced(rows, k);
      forall i, j | 0 <= i < j < k ensures rows[..k][i].at <= rows[..k][j].at { InOrderRows(a, clock, i, j); }
      AllFailed(rows[..k]);
    }
  }

  /** A delivery run closes every alert past its age, with exactly one terminal row: its last. */
  lemma EveryOldAlertIsClosed(actions: seq<Action>, i: nat)
    requires Sequential(actions) && i < |After(actions)| && actions != [] && actions[|actions| - 1].Deliver?
    requires After(actions)[i].createdAt < actions[|actions| - 1].at - ALERT_EXPIRY
    ensures var rows := After(actions)[i].attempts;
            && rows != [] && !rows[|rows| - 1].outcome.Failed?
            && forall k :: 0 <= k < |rows| - 1 ==> rows[k].outcome.Failed?
  {
    var most, last := actions[..|actions| - 1], actions[|actions| - 1];
    var clock := ClockBefore(actions);
    hide DeliverRun, AllFit, EnqueueOne;
    assert After(actions) == DeliverRun(After(most), last.at, last.limit, last.answers);
    DeliverOne(After(most), clock, last.at, last.limit, last.answers, i);
    ClosedByLast(After(actions)[i], last.at);
  }

  /** The instant of the step before the last, at which the outbox it starts from is fit. */
  lemma ClockBefore(actions: seq<Action>) returns (clock: int)
    requires Sequential(actions) && actions != []
    ensures clock <= actions[|actions| - 1].at && AllFit(After(actions[..|actions| - 1]), clock)
  {
    hide Step;
    var most := actions[..|actions| - 1];
    clock := if most == [] then actions[0].at else most[|most| - 1].at;
    EveryRunIsFit(most);
  }

  lemma ClosedByLast(a: Alert, clock: int)
    requires Fit(a, clock) && Closed(a.attempts)
    ensures var rows := a.attempts;
            && rows != [] && !rows[|rows| - 1].outcome.Failed?
            && forall k :: 0 <= k < |rows| - 1 ==> rows[k].outcome.Failed?
  {
    var r :| r in a.attempts && !r.outcome.Failed?;
    var i :| 0 <= i < |a.attempts| && a.attempts[i] == r;
  }

  lemma ClosedStays(alerts: seq<Alert>, now: int, limit: nat, answers: seq<bool>, i: nat)
    requires i < |alerts| && Closed(alerts[i].attempts)
    ensures DeliverRun(alerts, now, limit, answers)[i] == alerts[i]
  {
    var kept := ExpireAll(alerts, now);
    var due := Batch(kept, now, limit);
    hide Batch, TryAll, LastFailed, Failures, Backoff;
    TryAllAt(kept, due, answers, now, i);
    assert forall k :: 0 <= k < |due| ==> due[k] != i;
  }

  /** An alert that was delivered, or expired, is never touched again, whatever runs follow. */
  lemma {:induction false} DeliveredOnce(actions: seq<Action>, later: seq<Action>, i: nat)
    requires i < |After(actions)| && Closed(After(actions)[i].attempts)
    ensures i < |After(actions + later)| && After(actions + later)[i] == After(actions)[i]
    decreases |later|
  {
    hide Closed, DeliverRun, Known;
    if later == [] {
      assert actions + later == actions;
    } else {
      var most, last := later[..|later| - 1], later[|later| - 1];
      DeliveredOnce(actions, most, i);
      assert actions + later == (actions + most) + [last];
      AfterOne(actions + most, last);
      if last.Deliver? { ClosedStays(After(actions + most), last.at, last.limit, last.answers, i); }
    }
  }

  // ---- the bound is attained ----------------------------------------------------------------------------------------

  function FailuresAtOffsets(n: nat): (r: seq<Attempt>)
    ensures |r| == n
  {
    if n == 0 then [] else FailuresAtOffsets(n - 1) + [Attempt(Failed, Offset(n - 1))]
  }

  /** One alert, delivered by a sink that fails, tried at every earliest instant. */
  function FailingRun(n: nat): seq<Action> {
    if n == 0 then [Enqueue("alert", 0)] else FailingRun(n - 1) + [Deliver(Offset(n - 1), DELIVERY_BATCH, [false])]
  }

  lemma {:induction false} FailuresShape(n: nat)
    ensures var rows := FailuresAtOffsets(n);
            && !Closed(rows) && Failures(rows) == n
            && LastFailed(rows) == if n == 0 then None else Some(Offset(n - 1))
  {
    ShapeAt(n);
    forall i, j | 0 <= i < j < n ensures FailuresAtOffsets(n)[i].at <= FailuresAtOffsets(n)[j].at { OffsetGrows(i, j); }
    AllFailed(FailuresAtOffsets(n));
  }

  lemma {:induction false} ShapeAt(n: nat)
    ensures forall i :: 0 <= i < n ==> FailuresAtOffsets(n)[i] == Attempt(Failed, Offset(i))
  {
    if n > 0 { ShapeAt(n - 1); }
  }

  lemma TryOnlyAlert(a: Alert, now: int)
    requires IsDue(a, now)
    ensures DeliverRun([a], now, DELIVERY_BATCH, [false]) == [Tried(a, false, now)]
  {
    hide *;
    DeliverRunIs([a], now, DELIVERY_BATCH, [false]);
    NotOverdue(a, now);
    OnlyAlertIsDue(a, now);
    TryOne(a, now);
  }

  lemma DeliverRunIs(alerts: seq<Alert>, now: int, limit: nat, answers: seq<bool>)
    ensures var kept := ExpireAll(alerts, now);
            DeliverRun(alerts, now, limit, answers) == TryAll(kept, Batch(kept, now, limit), answers, now)
  {
  }

  lemma NotOverdue(a: Alert, now: int)
    requires IsDue(a, now)
    ensures ExpireAll([a], now) == [a]
  {
  }

  lemma TryOne(a: Alert, now: int)
    ensures TryAll([a], [0], [false], now) == [Tried(a, false, now)]
  {
    var due: seq<nat> := [0];
    assert due[1..] == [] && [a][0 := Tried(a, false, now)] == [Tried(a, false, now)];
    assert TryAll([a], due, [false], now) == TryAll([Tried(a, false, now)], due[1..], [false][1..], now);
  }

  lemma OnlyAlertIsDue(a: Alert, now: int)
    requires IsDue(a, now)
    ensures Batch([a], now, DELIVERY_BATCH) == [0]
  {
    hide IsDue;
    assert DueAmong([a], now, 0) == [];
    assert DueAmong([a], now, 1) == [0];
  }

  lemma AfterOne(actions: seq<Action>, action: Action)
    ensures After(actions + [action]) == Step(After(actions), action)
  {
    assert (actions + [action])[..|actions|] == actions;
  }

  lemma DueAtOffset(n: nat)
    requires n < MOST_ATTEMPTS
    ensures IsDue(Alert("alert", 0, FailuresAtOffsets(n)), Offset(n))
  {
    hide Closed, Failures, LastFailed, FailuresAtOffsets, Backoff;
    FailuresShape(n);
    OffsetGrows(n, MOST_ATTEMPTS - 1);
    LastOffset();
  }

  lemma SequentialOne(actions: seq<Action>, action: Action)
    requires Sequential(actions) && (actions != [] ==> actions[|actions| - 1].at <= action.at)
    ensures Sequential(actions + [action])
  {
    var more := actions + [action];
    forall i, j | 0 <= i < j < |more| ensures more[i].at <= more[j].at {
      assert i < |actions| - 1 ==> actions[i].at <= actions[|actions| - 1].at;
    }
  }

  /** The bound is tight: a sink that keeps failing is tried exactly 52 times within the 24 hours. */
  lemma {:induction false} FiftyTwoIsReached(n: nat)
    requires n <= MOST_ATTEMPTS
    ensures After(FailingRun(n)) == [Alert("alert", 0, FailuresAtOffsets(n))]
    ensures Sequential(FailingRun(n)) && FailingRun(n) != []
    ensures FailingRun(n)[|FailingRun(n)| - 1].at == if n == 0 then 0 else Offset(n - 1)
  {
    hide After, Sequential, DeliverRun, IsDue, Backoff, Offset;
    if n == 0 {
      FirstIsQueued();
    } else {
      FiftyTwoIsReached(n - 1);
      var now := Offset(n - 1);
      AfterOne(FailingRun(n - 1), Deliver(now, DELIVERY_BATCH, [false]));
      DueAtOffset(n - 1);
      TryOnlyAlert(Alert("alert", 0, FailuresAtOffsets(n - 1)), now);
      EarlierOffset(n - 1);
      SequentialOne(FailingRun(n - 1), Deliver(now, DELIVERY_BATCH, [false]));
    }
  }

  lemma FirstIsQueued()
    ensures After(FailingRun(0)) == [Alert("alert", 0, [])] && Sequential(FailingRun(0))
  {
    AfterOne([], Enqueue("alert", 0));
    assert [] + [Enqueue("alert", 0)] == FailingRun(0);
  }

  lemma EarlierOffset(n: nat)
    ensures (if n == 0 then 0 else Offset(n - 1)) <= Offset(n)
  {
    if n > 0 { OffsetGrows(n - 1, n); }
  }
}
