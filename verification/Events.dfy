/** The append-only event log: idempotent deduplication, conflict detection and numbering. */
module Events {
  import opened Prelude
  import opened Domain

  /** Recorded events by key; a payload hash is represented by the event it encodes. */
  type Known = map<string, Event>

  datatype LedgerError =
    | EventBeforeEvaluationStart(key: string) | EventHashConflict(key: string) | ProjectionMissing
    | ProcessedBarMissing(ts: int) | ReproduceDivergence | ProjectionIntegrity | CalendarMismatch
  {
    /** The recorded history and what it regenerates disagree. */
    predicate Diverges() { ReproduceDivergence? || ProjectionIntegrity? }
  }

  datatype StoredEvent = StoredEvent(seqNo: nat, event: Event)

  datatype Deduped = Fresh(events: seq<Event>, known: Known) | Refused(error: LedgerError)

  predicate BeforeStart(e: Event, start: int) {
    e.kind.Market() && (e.barTs.None? || e.barTs.value < start)
  }

  function Dedupe(known: Known, events: seq<Event>, start: int): (d: Deduped)
    ensures d.Refused? ==> d.error.EventBeforeEvaluationStart? || d.error.EventHashConflict?
    decreases |events|
  {
    if events == [] then Fresh([], known)
    else
      var e := events[0];
      if BeforeStart(e, start) then Refused(EventBeforeEvaluationStart(e.key))
      else if e.key in known then
        if known[e.key] == e then Dedupe(known, events[1..], start) else Refused(EventHashConflict(e.key))
      else
        match Dedupe(known[e.key := e], events[1..], start)
        case Refused(error) => Refused(error)
        case Fresh(rest, all) => Fresh([e] + rest, all)
  }

  function Prepend(head: seq<Event>, d: Deduped): Deduped {
    if d.Refused? then d else Fresh(head + d.events, d.known)
  }

  method DedupeEvents(known: Known, events: seq<Event>, start: int) returns (r: Deduped)
    ensures r == Dedupe(known, events, start)
  {
    var recorded := known;
    var added: seq<Event> := [];
    var k := 0;
    while k < |events|
      invariant 0 <= k <= |events|
      invariant Dedupe(known, events, start) == Prepend(added, Dedupe(recorded, events[k..], start))
    {
      var e := events[k];
      assert events[k..][1..] == events[k + 1..];
      if BeforeStart(e, start) {
        return Refused(EventBeforeEvaluationStart(e.key));
      }
      if e.key in recorded {
        if recorded[e.key] != e {
          return Refused(EventHashConflict(e.key));
        }
      } else {
        recorded := recorded[e.key := e];
        assert forall rest :: (added + [e]) + rest == added + ([e] + rest);
        added := added + [e];
      }
      k := k + 1;
    }
    return Fresh(added, recorded);
  }

  /** What a log of events makes known. */
  function KnownOf(log: seq<Event>): Known {
    if log == [] then map[] else KnownOf(log[..|log| - 1])[log[|log| - 1].key := log[|log| - 1]]
  }

  ghost predicate UniqueKeys(log: seq<Event>) {
    forall i, j :: 0 <= i < j < |log| ==> log[i].key != log[j].key
  }

  lemma {:induction false} KnownOfMembers(log: seq<Event>)
    ensures forall k :: k in KnownOf(log) ==> KnownOf(log)[k] in log && KnownOf(log)[k].key == k
    ensures forall e :: e in log ==> e.key in KnownOf(log)
    ensures UniqueKeys(log) ==> forall e :: e in log ==> KnownOf(log)[e.key] == e
  {
    if log != [] {
      var most, last := log[..|log| - 1], log[|log| - 1];
      KnownOfMembers(most);
      forall e | e in log && UniqueKeys(log) ensures KnownOf(log)[e.key] == e {
        if e in most {
          var i :| 0 <= i < |most| && most[i] == e;
          assert log[i].key != log[|log| - 1].key;
        }
      }
    }
  }

  lemma KnownOfAppend(log: seq<Event>, e: Event)
    ensures KnownOf(log + [e]) == KnownOf(log)[e.key := e]
  {
    assert (log + [e])[..|log|] == log;
  }

  lemma UniqueAppend(log: seq<Event>, e: Event)
    requires UniqueKeys(log) && e.key !in KnownOf(log)
    ensures UniqueKeys(log + [e])
  {
    KnownOfMembers(log);
    forall i | 0 <= i < |log| ensures log[i].key != e.key { assert log[i] in log; }
  }

  /** Appending the fresh events to the log makes known exactly what deduplication said. */
  lemma {:induction false} DedupeExtendsKnown(log: seq<Event>, events: seq<Event>, start: int)
    requires UniqueKeys(log)
    requires Dedupe(KnownOf(log), events, start).Fresh?
    ensures var d := Dedupe(KnownOf(log), events, start);
            && d.known == KnownOf(log + d.events)
            && UniqueKeys(log + d.events)
    decreases |events|
  {
    hide KnownOf, UniqueKeys;
    if events == [] {
      assert log + [] == log;
    } else {
      var e := events[0];
      if e.key in KnownOf(log) {
        DedupeExtendsKnown(log, events[1..], start);
      } else {
        KnownOfAppend(log, e);
        UniqueAppend(log, e);
        DedupeExtendsKnown(log + [e], events[1..], start);
        var rest := Dedupe(KnownOf(log + [e]), events[1..], start).events;
        assert log + ([e] + rest) == (log + [e]) + rest;
      }
    }
  }

  /** Recording the same events again, after the first time, adds nothing: appending is idempotent. */
  lemma {:induction false} DedupeIdempotent(known: Known, events: seq<Event>, start: int)
    requires Dedupe(known, events, start).Fresh?
    ensures Dedupe(Dedupe(known, events, start).known, events, start) == Fresh([], Dedupe(known, events, start).known)
  {
    DedupeAgain(known, events, Dedupe(known, events, start).known, start);
  }

  lemma {:induction false} DedupeGrows(known: Known, events: seq<Event>, start: int)
    requires Dedupe(known, events, start).Fresh?
    ensures var all := Dedupe(known, events, start).known;
            && (forall k :: k in known ==> k in all && all[k] == known[k])
            && (forall e :: e in events ==> e.key in all && all[e.key] == e && !BeforeStart(e, start))
            && (forall k :: k in all ==> k in known || all[k] in events)
            && (forall e :: e in Dedupe(known, events, start).events ==> e in events && e.key !in known)
            && (forall e :: e in events && e.key !in known ==> e in Dedupe(known, events, start).events)
    decreases |events|
  {
    if events != [] {
      var e := events[0];
      if e.key in known { DedupeGrows(known, events[1..], start); } else { DedupeGrows(known[e.key := e], events[1..], start); }
    }
  }

  lemma {:induction false} DedupeAgain(known: Known, events: seq<Event>, all: Known, start: int)
    requires Dedupe(known, events, start).Fresh? && all == Dedupe(known, events, start).known
    ensures Dedupe(all, events, start) == Fresh([], all)
  {
    DedupeGrows(known, events, start);
    DedupeKnown(all, events, start);
  }

  lemma {:induction false} DedupeKnown(all: Known, events: seq<Event>, start: int)
    requires forall e :: e in events ==> e.key in all && all[e.key] == e && !BeforeStart(e, start)
    ensures Dedupe(all, events, start) == Fresh([], all)
  {
    if events != [] { DedupeKnown(all, events[1..], start); }
  }

  lemma DedupeOne(known: Known, e: Event, start: int)
    requires Dedupe(known, [e], start).Fresh?
    ensures Dedupe(known, [e], start) == if e.key in known then Fresh([], known) else Fresh([e], known[e.key := e])
  {
    assert [e][1..] == [];
    assert [e] + [] == [e];
  }

  /** Deduplicating a concatenation is deduplicating its parts in turn. */
  lemma {:induction false} DedupeConcat(known: Known, a: seq<Event>, b: seq<Event>, start: int)
    ensures Dedupe(known, a + b, start)
         == match Dedupe(known, a, start)
            case Refused(error) => Refused(error)
            case Fresh(added, all) => Prepend(added, Dedupe(all, b, start))
    decreases |a|
  {
    if a == [] {
      assert a + b == b;
      assert forall x: seq<Event> :: [] + x == x;
    } else {
      assert (a + b)[1..] == a[1..] + b;
      var e := a[0];
      if e.key in known {
        DedupeConcat(known, a[1..], b, start);
      } else {
        DedupeConcat(known[e.key := e], a[1..], b, start);
        assert forall x: seq<Event>, y: seq<Event> :: [e] + (x + y) == ([e] + x) + y;
      }
    }
  }

  function Numbered(events: seq<Event>, from: nat): seq<StoredEvent> {
    seq(|events|, i requires 0 <= i < |events| => StoredEvent(from + i, events[i]))
  }

  function Plain(rows: seq<StoredEvent>): seq<Event> {
    seq(|rows|, i requires 0 <= i < |rows| => rows[i].event)
  }

  ghost predicate Contiguous(rows: seq<StoredEvent>) {
    forall i :: 0 <= i < |rows| ==> rows[i].seqNo == i + 1
  }

  lemma AppendContiguous(rows: seq<StoredEvent>, added: seq<Event>)
    requires Contiguous(rows)
    ensures Contiguous(rows + Numbered(added, |rows| + 1))
    ensures Plain(rows + Numbered(added, |rows| + 1)) == Plain(rows) + added
  {
  }

  lemma ContiguousIsNumbered(rows: seq<StoredEvent>)
    requires Contiguous(rows)
    ensures rows == Numbered(Plain(rows), 1)
  {
  }

  /** Insert the fresh rows one by one at consecutive sequence numbers. */
  method InsertEvents(rows: seq<StoredEvent>, added: seq<Event>, nextSeq: nat) returns (r: seq<StoredEvent>)
    ensures r == rows + Numbered(added, nextSeq)
  {
    r := rows;
    var k := 0;
    while k < |added|
      invariant 0 <= k <= |added|
      invariant r == rows + Numbered(added, nextSeq)[..k]
    {
      r := r + [StoredEvent(nextSeq + k, added[k])];
      k := k + 1;
    }
  }

  /** Events that concern the market come from a bar, and none from before the order's start is let through. */
  ghost predicate TooEarly(e: Event, start: int) {
    && (e.kind in {TriggerHit, ZoneLost, ZoneReclaimed, Filled, Target1Hit, Target2Hit, Stopped, TimeExit, OrderInvalidated})
    && (forall ts :: e.barTs == Some(ts) ==> ts < start)
  }

  /**
   * When recording events is refused: if and only if one of them, reached without an earlier refusal, is a market event from
   * before the order's start, or repeats a key that is on record, or among the events before it, with other contents.
   */
  lemma {:induction false} RefusedIff(log: seq<Event>, events: seq<Event>, start: int)
    requires UniqueKeys(log)
    ensures Dedupe(KnownOf(log), events, start).Refused?
       <==> exists i :: 0 <= i < |events| && (TooEarly(events[i], start)
                                              || exists e :: (e in log || e in events[..i]) && e.key == events[i].key && e != events[i])
    decreases |events|
  {
    hide KnownOf, UniqueKeys;
    if events != [] {
      var e := events[0];
      EarlyIs(e, start);
      KnownOfMembers(log);
      if !BeforeStart(e, start) && !(e.key in KnownOf(log) && KnownOf(log)[e.key] != e) {
        var more := if e.key in KnownOf(log) then log else log + [e];
        if e.key !in KnownOf(log) {
          KnownOfAppend(log, e);
          UniqueAppend(log, e);
        }
        RefusedIff(more, events[1..], start);
        SameConflicts(log, more, events, start);
      } else {
        assert events[0] == e && events[..0] == [];
      }
    }
  }

  lemma EarlyIs(e: Event, start: int)
    ensures BeforeStart(e, start) <==> TooEarly(e, start)
  {
  }

  ghost predicate Spoils(log: seq<Event>, events: seq<Event>, start: int, i: nat)
    requires i < |events|
  {
    TooEarly(events[i], start) || exists e :: (e in log || e in events[..i]) && e.key == events[i].key && e != events[i]
  }

  lemma SameConflicts(log: seq<Event>, more: seq<Event>, events: seq<Event>, start: int)
    requires events != [] && !Spoils(log, events, start, 0)
    requires more == log + [events[0]] || (more == log && events[0] in log)
    ensures (exists i :: 0 <= i < |events| && Spoils(log, events, start, i))
       <==> exists i :: 0 <= i < |events[1..]| && Spoils(more, events[1..], start, i)
  {
    var rest := events[1..];
    forall i | 0 <= i < |rest| ensures Spoils(more, rest, start, i) <==> Spoils(log, events, start, i + 1) {
      assert rest[i] == events[i + 1];
      assert events[..i + 1] == [events[0]] + rest[..i];
      assert forall e :: (e in more || e in rest[..i]) <==> (e in log || e in events[..i + 1]);
    }
    if i :| 0 <= i < |events| && Spoils(log, events, start, i) { assert i > 0 && Spoils(more, rest, start, i - 1); }
    if i :| 0 <= i < |rest| && Spoils(more, rest, start, i) { assert Spoils(log, events, start, i + 1); }
  }
}
