/** The append-only store of readings: scans, corrections, retractions, and the views of what is still active. */
module Supersession {
  import opened Prelude
  import opened Patterns

  /** A reading of one bucket: its pattern and an injective encoding of everything else it recorded. */
  datatype Reading = Reading(pattern: Pattern, detail: int)

  /** A stored reading. `hash` is the content identity of the bars it was read from, `dataAsOf` the scan's watermark. */
  datatype Row = Row(id: nat, endTs: int, reading: Reading, hash: int, dataAsOf: int)

  /** A supersession row; without a replacement it is a retraction. */
  datatype Gone = Gone(factId: nat, replacement: Option<nat>, hash: int, at: int)

  datatype Store = Store(rows: seq<Row>, gone: seq<Gone>)

  predicate IsGone(gone: seq<Gone>, id: nat) { exists g :: g in gone && g.factId == id }

  predicate IsGoneBy(gone: seq<Gone>, id: nat, asOf: int) { exists g :: g in gone && g.factId == id && g.at <= asOf }

  function StillActive(gone: seq<Gone>, endTs: int): Row -> bool { (r: Row) => r.endTs == endTs && !IsGone(gone, r.id) }

  function ActiveBy(gone: seq<Gone>, endTs: int, asOf: int): Row -> bool {
    (r: Row) => r.endTs == endTs && r.dataAsOf <= asOf && !IsGoneBy(gone, r.id, asOf)
  }

  /** The active readings of one bucket, by id: ids are assigned in order of insertion. */
  function Active(s: Store, endTs: int): seq<Row> { Filter(s.rows, StillActive(s.gone, endTs)) }

  function ActiveAsOf(s: Store, endTs: int, asOf: int): seq<Row> { Filter(s.rows, ActiveBy(s.gone, endTs, asOf)) }

  // ---- recording ----------------------------------------------------------------------------------------------------

  predicate Holds(rows: seq<Row>, endTs: int, reading: Reading) {
    exists r :: r in rows && r.endTs == endTs && r.reading == reading
  }

  /** Store a reading unless the same reading of the same bucket exists already. */
  function Record(s: Store, endTs: int, reading: Reading, hash: int, asOf: int): Store {
    if Holds(s.rows, endTs, reading) then s else s.(rows := s.rows + [Row(|s.rows| + 1, endTs, reading, hash, asOf)])
  }

  function RecordAll(s: Store, endTs: int, found: seq<Reading>, hash: int, asOf: int): Store
    decreases |found|
  {
    if found == [] then s else RecordAll(Record(s, endTs, found[0], hash, asOf), endTs, found[1..], hash, asOf)
  }

  /** How many of the found readings are not on record yet. */
  function NewReadings(s: Store, endTs: int, found: seq<Reading>, hash: int, asOf: int): nat
    decreases |found|
  {
    if found == [] then 0
    else (if Holds(s.rows, endTs, found[0]) then 0 else 1)
         + NewReadings(Record(s, endTs, found[0], hash, asOf), endTs, found[1..], hash, asOf)
  }

  lemma {:induction false} NewReadingsAreRows(s: Store, endTs: int, found: seq<Reading>, hash: int, asOf: int)
    ensures |RecordAll(s, endTs, found, hash, asOf).rows| == |s.rows| + NewReadings(s, endTs, found, hash, asOf)
    decreases |found|
  {
    hide Holds;
    if found != [] { NewReadingsAreRows(Record(s, endTs, found[0], hash, asOf), endTs, found[1..], hash, asOf); }
  }

  /** Store the readings of one bucket, counting those that were not on record. */
  method RecordFound(s: Store, endTs: int, found: seq<Reading>, hash: int, asOf: int) returns (t: Store, stored: nat)
    ensures t == RecordAll(s, endTs, found, hash, asOf) && stored == NewReadings(s, endTs, found, hash, asOf)
  {
    hide Holds;
    t, stored := s, 0;
    var k := 0;
    assert found[0..] == found;
    while k < |found|
      invariant 0 <= k <= |found|
      invariant RecordAll(s, endTs, found, hash, asOf) == RecordAll(t, endTs, found[k..], hash, asOf)
      invariant NewReadings(s, endTs, found, hash, asOf) == stored + NewReadings(t, endTs, found[k..], hash, asOf)
    {
      assert found[k..][1..] == found[k + 1..];
      if !Holds(t.rows, endTs, found[k]) {
        stored := stored + 1;
      }
      t := Record(t, endTs, found[k], hash, asOf);
      k := k + 1;
    }
  }

  // ---- reconciling --------------------------------------------------------------------------------------------------

  function ReadingOf(found: seq<Reading>, pattern: Pattern): (r: Option<Reading>)
    ensures r.Some? ==> r.value in found && r.value.pattern == pattern
    ensures r.None? ==> forall x :: x in found ==> x.pattern != pattern
  {
    if found == [] then None
    else if found[|found| - 1].pattern == pattern then Some(found[|found| - 1])
    else ReadingOf(found[..|found| - 1], pattern)
  }

  /** Stored facts a revision replaced, each with the reading replacing it, and facts it retracted. */
  datatype Reconciliation = Reconciliation(superseded: seq<(nat, Reading)>, retracted: seq<nat>)

  function ReconcileRows(found: seq<Reading>, active: seq<Row>): Reconciliation {
    if active == [] then Reconciliation([], [])
    else
      var before, row := ReconcileRows(found, active[..|active| - 1]), active[|active| - 1];
      if row.reading in found then before
      else
        match ReadingOf(found, row.reading.pattern)
        case None => before.(retracted := before.retracted + [row.id])
        case Some(r) => before.(superseded := before.superseded + [(row.id, r)])
  }

  method Reconcile(found: seq<Reading>, active: seq<Row>) returns (r: Reconciliation)
    ensures r == ReconcileRows(found, active)
  {
    var superseded: seq<(nat, Reading)> := [];
    var retracted: seq<nat> := [];
    var k := 0;
    while k < |active|
      invariant 0 <= k <= |active|
      invariant Reconciliation(superseded, retracted) == ReconcileRows(found, active[..k])
    {
      var row := active[k];
      assert active[..k + 1][..k] == active[..k];
      if row.reading !in found {
        var replacement := ReadingOf(found, row.reading.pattern);
        if replacement.None? {
          retracted := retracted + [row.id];
        } else {
          superseded := superseded + [(row.id, replacement.value)];
        }
      }
      k := k + 1;
    }
    assert active[..k] == active;
    return Reconciliation(superseded, retracted);
  }

  /** Every active reading of the bucket was read from this very content. */
  predicate Unchanged(stored: seq<Row>, hash: int) { stored != [] && forall r :: r in stored ==> r.hash == hash }

  function IdOf(active: seq<Row>, reading: Reading): (r: Option<nat>)
    ensures r.Some? ==> exists row :: row in active && row.reading == reading && row.id == r.value
    ensures r.None? ==> forall row :: row in active ==> row.reading != reading
  {
    if active == [] then None
    else if active[|active| - 1].reading == reading then Some(active[|active| - 1].id)
    else IdOf(active[..|active| - 1], reading)
  }

  /** Idempotent on the fact and the content that corrected it. */
  function RecordGone(gone: seq<Gone>, g: Gone): seq<Gone> {
    if exists x :: x in gone && x.factId == g.factId && x.hash == g.hash then gone else gone + [g]
  }

  /** Link each superseded fact to its active replacement; a replacement that is not active is a reverted correction. */
  function LinkAll(gone: seq<Gone>, active: seq<Row>, superseded: seq<(nat, Reading)>, hash: int, at: int): seq<Gone> {
    if superseded == [] then gone
    else
      var before, pair := LinkAll(gone, active, superseded[..|superseded| - 1], hash, at), superseded[|superseded| - 1];
      match IdOf(active, pair.1)
      case None => before
      case Some(id) => RecordGone(before, Gone(pair.0, Some(id), hash, at))
  }

  function RetractAll(gone: seq<Gone>, retracted: seq<nat>, hash: int, at: int): seq<Gone> {
    if retracted == [] then gone
    else RecordGone(RetractAll(gone, retracted[..|retracted| - 1], hash, at), Gone(retracted[|retracted| - 1], None, hash, at))
  }

  function CountReverted(active: seq<Row>, superseded: seq<(nat, Reading)>): nat {
    if superseded == [] then 0
    else CountReverted(active, superseded[..|superseded| - 1]) + (if IdOf(active, superseded[|superseded| - 1].1).None? then 1 else 0)
  }

  /** One bucket of a scan. A bucket read for the first time has no earlier reading of itself to reconcile. */
  function ScanBucket(s: Store, endTs: int, found: seq<Reading>, hash: int, asOf: int, alreadyRead: bool): Store {
    var recorded := RecordAll(s, endTs, found, hash, asOf);
    var stored := Active(recorded, endTs);
    if !alreadyRead || Unchanged(stored, hash) then recorded
    else
      var outcome := ReconcileRows(found, stored);
      recorded.(gone := RetractAll(LinkAll(recorded.gone, stored, outcome.superseded, hash, asOf), outcome.retracted, hash, asOf))
  }

  /** Write the rows a reconciliation calls for, counting the corrections that were taken back. */
  method ApplyReconciliation(gone: seq<Gone>, active: seq<Row>, o: Reconciliation, hash: int, at: int)
    returns (r: seq<Gone>, reverted: nat)
    ensures r == RetractAll(LinkAll(gone, active, o.superseded, hash, at), o.retracted, hash, at)
    ensures reverted == CountReverted(active, o.superseded)
  {
    hide RecordGone, IdOf;
    r, reverted := gone, 0;
    var k := 0;
    while k < |o.superseded|
      invariant 0 <= k <= |o.superseded|
      invariant r == LinkAll(gone, active, o.superseded[..k], hash, at) && reverted == CountReverted(active, o.superseded[..k])
    {
      assert o.superseded[..k + 1][..k] == o.superseded[..k];
      var replacement := IdOf(active, o.superseded[k].1);
      if replacement.None? {
        reverted := reverted + 1;
      } else {
        r := RecordGone(r, Gone(o.superseded[k].0, replacement, hash, at));
      }
      k := k + 1;
    }
    assert o.superseded[..k] == o.superseded;
    k := 0;
    while k < |o.retracted|
      invariant 0 <= k <= |o.retracted|
      invariant r == RetractAll(LinkAll(gone, active, o.superseded, hash, at), o.retracted[..k], hash, at)
    {
      assert o.retracted[..k + 1][..k] == o.retracted[..k];
      r := RecordGone(r, Gone(o.retracted[k], None, hash, at));
      k := k + 1;
    }
    assert o.retracted[..k] == o.retracted;
  }

  /** What a scan reports: readings newly stored, stale readings named, and corrections found to have been taken back. */
  datatype Counts = Counts(stored: nat, named: nat, reverted: nat) {
    function Plus(other: Counts): Counts { Counts(stored + other.stored, named + other.named, reverted + other.reverted) }
  }

  /** The counters of one bucket; nothing is reconciled, and so nothing counted, where the content has not changed. */
  function BucketCounts(s: Store, endTs: int, found: seq<Reading>, hash: int, asOf: int, alreadyRead: bool): Counts {
    var stored := Active(RecordAll(s, endTs, found, hash, asOf), endTs);
    var added := NewReadings(s, endTs, found, hash, asOf);
    if !alreadyRead || Unchanged(stored, hash) then Counts(added, 0, 0)
    else
      var outcome := ReconcileRows(found, stored);
      Counts(added, |outcome.superseded| + |outcome.retracted|, CountReverted(stored, outcome.superseded))
  }

  // ---- the invariant --------------------------------------------------------------------------------------------------

  /** What the engine reads from a bucket whose bars have a given content: equal content, equal readings. */
  type Engine = (int, int) -> seq<Reading>

  ghost predicate DistinctPatterns(found: seq<Reading>) {
    forall i, j :: 0 <= i < j < |found| ==> found[i].pattern != found[j].pattern
  }

  ghost predicate Serial(rows: seq<Row>) { forall i :: 0 <= i < |rows| ==> rows[i].id == i + 1 }

  ghost predicate OneRowPerReading(rows: seq<Row>) {
    forall a, b :: a in rows && b in rows && a.endTs == b.endTs && a.reading == b.reading ==> a == b
  }

  ghost predicate OneGonePerFact(gone: seq<Gone>) {
    forall i, j :: 0 <= i < j < |gone| ==> gone[i].factId != gone[j].factId
  }

  ghost predicate GoneKnown(s: Store) { forall g :: g in s.gone ==> 1 <= g.factId <= |s.rows| }

  ghost predicate OneActivePerPattern(s: Store) {
    forall a, b :: (a in s.rows && b in s.rows && a.endTs == b.endTs && a.reading.pattern == b.reading.pattern
                    && !IsGone(s.gone, a.id) && !IsGone(s.gone, b.id)) ==> a == b
  }

  ghost predicate ReadFrom(rows: seq<Row>, engine: Engine) {
    forall r :: r in rows ==> r.reading in engine(r.endTs, r.hash)
  }

  ghost predicate Sound(s: Store, engine: Engine) {
    && Serial(s.rows) && OneRowPerReading(s.rows) && OneGonePerFact(s.gone) && GoneKnown(s) && OneActivePerPattern(s)
    && ReadFrom(s.rows, engine)
  }

  // ---- what recording does --------------------------------------------------------------------------------------------

  /** `t` is `s` plus newly stored readings of one bucket, none of which existed before. */
  ghost predicate Recorded(s: Store, t: Store, endTs: int, found: seq<Reading>, hash: int, asOf: int) {
    && s.rows <= t.rows && t.gone == s.gone
    && (forall i :: |s.rows| <= i < |t.rows| ==>
          t.rows[i].endTs == endTs && t.rows[i].reading in found && t.rows[i].hash == hash && t.rows[i].dataAsOf == asOf
          && !Holds(s.rows, endTs, t.rows[i].reading))
    && (forall x :: x in found ==> Holds(t.rows, endTs, x))
  }

  lemma RecordLaw(s: Store, endTs: int, reading: Reading, hash: int, asOf: int)
    requires Serial(s.rows) && OneRowPerReading(s.rows)
    ensures var t := Record(s, endTs, reading, hash, asOf);
            && Recorded(s, t, endTs, [reading], hash, asOf) && Serial(t.rows) && OneRowPerReading(t.rows)
  {
    var t := Record(s, endTs, reading, hash, asOf);
    if !Holds(s.rows, endTs, reading) {
      assert t.rows[|s.rows|] in t.rows;
      assert forall a :: a in t.rows ==> a in s.rows || a == t.rows[|s.rows|];
    }
  }

  lemma {:induction false} RecordAllLaw(s: Store, endTs: int, found: seq<Reading>, hash: int, asOf: int)
    requires Serial(s.rows) && OneRowPerReading(s.rows)
    ensures var t := RecordAll(s, endTs, found, hash, asOf);
            && Recorded(s, t, endTs, found, hash, asOf) && Serial(t.rows) && OneRowPerReading(t.rows)
    decreases |found|
  {
    if found != [] {
      var mid := Record(s, endTs, found[0], hash, asOf);
      RecordLaw(s, endTs, found[0], hash, asOf);
      RecordAllLaw(mid, endTs, found[1..], hash, asOf);
      RecordedTwice(s, mid, RecordAll(mid, endTs, found[1..], hash, asOf), endTs, found, hash, asOf);
    }
  }

  lemma RecordedTwice(s: Store, mid: Store, t: Store, endTs: int, found: seq<Reading>, hash: int, asOf: int)
    requires found != [] && Recorded(s, mid, endTs, [found[0]], hash, asOf) && Recorded(mid, t, endTs, found[1..], hash, asOf)
    ensures Recorded(s, t, endTs, found, hash, asOf)
  {
    forall x | Holds(s.rows, endTs, x) ensures Holds(mid.rows, endTs, x) { HoldsMore(s.rows, mid.rows, endTs, x); }
    forall x | Holds(mid.rows, endTs, x) ensures Holds(t.rows, endTs, x) { HoldsMore(mid.rows, t.rows, endTs, x); }
    hide Holds;
    forall i | |s.rows| <= i < |t.rows|
      ensures t.rows[i].endTs == endTs && t.rows[i].reading in found && t.rows[i].hash == hash && t.rows[i].dataAsOf == asOf
              && !Holds(s.rows, endTs, t.rows[i].reading)
    {
      if i < |mid.rows| { assert t.rows[i] == mid.rows[i]; }
    }
    forall x | x in found ensures Holds(t.rows, endTs, x) {
      if x == found[0] { assert x in [found[0]]; } else { assert x in found[1..]; }
    }
  }

  lemma HoldsMore(a: seq<Row>, b: seq<Row>, endTs: int, x: Reading)
    requires a <= b && Holds(a, endTs, x)
    ensures Holds(b, endTs, x)
  {
    var r :| r in a && r.endTs == endTs && r.reading == x;
    assert r in b;
  }

  lemma {:induction false} RecordAllHeld(s: Store, endTs: int, found: seq<Reading>, hash: int, asOf: int)
    requires forall x :: x in found ==> Holds(s.rows, endTs, x)
    ensures RecordAll(s, endTs, found, hash, asOf) == s
    decreases |found|
  {
    hide Holds;
    if found != [] { RecordAllHeld(s, endTs, found[1..], hash, asOf); }
  }

  // ---- what reconciling does --------------------------------------------------------------------------------------------

  ghost predicate DistinctIds(rows: seq<Row>) { forall i, j :: 0 <= i < j < |rows| ==> rows[i].id != rows[j].id }

  /** The stored row is not found any more, and the given reading of its pattern replaces it. */
  ghost predicate Stale(found: seq<Reading>, row: Row, replacement: Option<Reading>) {
    row.reading !in found && ReadingOf(found, row.reading.pattern) == replacement
  }

  lemma {:induction false} ReconcileMembers(found: seq<Reading>, active: seq<Row>)
    ensures var o := ReconcileRows(found, active);
            && (forall id, x :: (id, x) in o.superseded <==> exists r :: r in active && r.id == id && Stale(found, r, Some(x)))
            && (forall id :: id in o.retracted <==> exists r :: r in active && r.id == id && Stale(found, r, None))
  {
    if active != [] {
      var most, row := active[..|active| - 1], active[|active| - 1];
      ReconcileMembers(found, most);
      assert forall r :: r in active <==> r in most || r == row;
    }
  }

  /** Ids a reconciliation names at most once. */
  ghost predicate NamedOnce(o: Reconciliation) {
    && (forall i, j :: 0 <= i < j < |o.superseded| ==> o.superseded[i].0 != o.superseded[j].0)
    && (forall i, j :: 0 <= i < j < |o.retracted| ==> o.retracted[i] != o.retracted[j])
    && (forall i, j :: 0 <= i < |o.superseded| && 0 <= j < |o.retracted| ==> o.superseded[i].0 != o.retracted[j])
  }

  ghost predicate NamesOnly(o: Reconciliation, active: seq<Row>) {
    && (forall i :: 0 <= i < |o.superseded| ==> exists r :: r in active && r.id == o.superseded[i].0)
    && (forall i :: 0 <= i < |o.retracted| ==> exists r :: r in active && r.id == o.retracted[i])
  }

  lemma {:induction false} ReconcileNamesOnce(found: seq<Reading>, active: seq<Row>)
    requires DistinctIds(active)
    ensures NamedOnce(ReconcileRows(found, active)) && NamesOnly(ReconcileRows(found, active), active)
  {
    if active != [] {
      var most, row := active[..|active| - 1], active[|active| - 1];
      ReconcileNamesOnce(found, most);
      assert forall r :: r in most ==> r in active && r.id != row.id;
      assert row in active;
    }
  }

  ghost predicate PairsDistinct(pairs: seq<(nat, Reading)>) {
    forall i, j :: 0 <= i < j < |pairs| ==> pairs[i].0 != pairs[j].0
  }

  lemma RecordGoneLaw(gone: seq<Gone>, g: Gone)
    requires OneGonePerFact(gone) && !IsGone(gone, g.factId)
    ensures RecordGone(gone, g) == gone + [g] && OneGonePerFact(gone + [g])
    ensures forall id :: IsGone(gone + [g], id) <==> IsGone(gone, id) || id == g.factId
  {
    forall i | 0 <= i < |gone| ensures gone[i].factId != g.factId { assert gone[i] in gone; }
    forall id ensures IsGone(gone + [g], id) <==> IsGone(gone, id) || id == g.factId {
      if IsGone(gone, id) {
        var x :| x in gone && x.factId == id;
        assert x in gone + [g];
      }
      if id == g.factId { assert g in gone + [g]; }
    }
  }

  /** `later` adds rows about new facts only, all stamped `at`. */
  ghost predicate GoneGrows(gone: seq<Gone>, later: seq<Gone>, at: int) {
    gone <= later && OneGonePerFact(later) && forall i :: |gone| <= i < |later| ==> later[i].at == at
  }

  /** Some listed pair retires `id`: its replacement is active. */
  ghost predicate Links(active: seq<Row>, pairs: seq<(nat, Reading)>, id: nat) {
    exists i :: 0 <= i < |pairs| && pairs[i].0 == id && IdOf(active, pairs[i].1).Some?
  }

  lemma {:induction false} LinkAllLaw(gone: seq<Gone>, active: seq<Row>, pairs: seq<(nat, Reading)>, hash: int, at: int)
    requires OneGonePerFact(gone) && PairsDistinct(pairs)
    requires forall i :: 0 <= i < |pairs| ==> !IsGone(gone, pairs[i].0)
    ensures var r := LinkAll(gone, active, pairs, hash, at);
            GoneGrows(gone, r, at) && forall id :: IsGone(r, id) <==> IsGone(gone, id) || Links(active, pairs, id)
  {
    hide IsGone, RecordGone, Links, IdOf, OneGonePerFact;
    if pairs != [] {
      var most, pair := pairs[..|pairs| - 1], pairs[|pairs| - 1];
      assert forall i :: 0 <= i < |most| ==> most[i] == pairs[i];
      LinkAllLaw(gone, active, most, hash, at);
      LinksOneMore(active, pairs);
      NotLinkedBefore(active, pairs);
      var before := LinkAll(gone, active, most, hash, at);
      match IdOf(active, pair.1)
      case None =>
      case Some(id) => RecordGoneLaw(before, Gone(pair.0, Some(id), hash, at));
    } else {
      NoLinks(active);
    }
  }

  lemma NoLinks(active: seq<Row>)
    ensures forall id :: !Links(active, [], id)
  {
  }

  lemma LinksOneMore(active: seq<Row>, pairs: seq<(nat, Reading)>)
    requires pairs != []
    ensures var most, pair := pairs[..|pairs| - 1], pairs[|pairs| - 1];
            forall id :: Links(active, pairs, id) <==> Links(active, most, id) || (pair.0 == id && IdOf(active, pair.1).Some?)
  {
    hide IdOf;
    var most, pair := pairs[..|pairs| - 1], pairs[|pairs| - 1];
    assert forall i :: 0 <= i < |most| ==> most[i] == pairs[i];
  }

  lemma NotLinkedBefore(active: seq<Row>, pairs: seq<(nat, Reading)>)
    requires PairsDistinct(pairs) && pairs != []
    ensures PairsDistinct(pairs[..|pairs| - 1]) && !Links(active, pairs[..|pairs| - 1], pairs[|pairs| - 1].0)
  {
    hide IdOf;
  }

  lemma {:induction false} RetractAllLaw(gone: seq<Gone>, retracted: seq<nat>, hash: int, at: int)
    requires OneGonePerFact(gone)
    requires forall i, j :: 0 <= i < j < |retracted| ==> retracted[i] != retracted[j]
    requires forall i :: 0 <= i < |retracted| ==> !IsGone(gone, retracted[i])
    ensures var r := RetractAll(gone, retracted, hash, at);
            && GoneGrows(gone, r, at)
            && (forall id :: IsGone(r, id) <==> IsGone(gone, id) || exists i :: 0 <= i < |retracted| && retracted[i] == id)
  {
    if retracted != [] {
      var most, last := retracted[..|retracted| - 1], retracted[|retracted| - 1];
      RetractAllLaw(gone, most, hash, at);
      assert forall i :: 0 <= i < |most| ==> most[i] == retracted[i];
      hide IsGone, RecordGone;
      RecordGoneLaw(RetractAll(gone, most, hash, at), Gone(last, None, hash, at));
    }
  }

  /** A stale active row that reconciliation retires: nothing of its pattern is found, or its replacement is active. */
  ghost predicate Retires(found: seq<Reading>, stored: seq<Row>, row: Row) {
    && row in stored && row.reading !in found
    && match ReadingOf(found, row.reading.pattern)
       case None => true
       case Some(x) => exists r :: r in stored && r.reading == x
  }

  ghost function Applied(gone: seq<Gone>, found: seq<Reading>, stored: seq<Row>, hash: int, at: int): seq<Gone> {
    var o := ReconcileRows(found, stored);
    RetractAll(LinkAll(gone, stored, o.superseded, hash, at), o.retracted, hash, at)
  }

  /** Reconciling retires exactly the stale active rows whose replacement (if any) is active, once each. */
  lemma AppliedLaw(gone: seq<Gone>, found: seq<Reading>, stored: seq<Row>, hash: int, at: int)
    requires OneGonePerFact(gone) && DistinctIds(stored) && forall r :: r in stored ==> !IsGone(gone, r.id)
    ensures GoneGrows(gone, Applied(gone, found, stored, hash, at), at)
    ensures forall id :: IsGone(Applied(gone, found, stored, hash, at), id) <==>
              IsGone(gone, id) || exists r: Row :: r.id == id && Retires(found, stored, r)
  {
    var o := ReconcileRows(found, stored);
    ReconcileMembers(found, stored);
    ReconcileNamesOnce(found, stored);
    hide IsGone, ReconcileRows, LinkAll, RetractAll;
    LinkAllLaw(gone, stored, o.superseded, hash, at);
    var linked := LinkAll(gone, stored, o.superseded, hash, at);
    forall i | 0 <= i < |o.retracted| ensures !IsGone(linked, o.retracted[i]) {
      var r :| r in stored && r.id == o.retracted[i];
    }
    RetractAllLaw(linked, o.retracted, hash, at);
    var final := RetractAll(linked, o.retracted, hash, at);
    forall id ensures IsGone(final, id) <==> IsGone(gone, id) || exists r: Row :: r.id == id && Retires(found, stored, r) {
      RetiredIds(found, stored, o, id);
    }
  }

  lemma RetiredIds(found: seq<Reading>, stored: seq<Row>, o: Reconciliation, id: nat)
    requires o == ReconcileRows(found, stored)
    ensures (exists r: Row :: r.id == id && Retires(found, stored, r)) <==>
              Links(stored, o.superseded, id)
              || (exists i :: 0 <= i < |o.retracted| && o.retracted[i] == id)
  {
    ReconcileMembers(found, stored);
    hide ReconcileRows, IdOf;
    if r: Row :| r.id == id && Retires(found, stored, r) {
      match ReadingOf(found, r.reading.pattern)
      case None =>
        assert Stale(found, r, None) && id in o.retracted;
      case Some(x) =>
        assert Stale(found, r, Some(x)) && (id, x) in o.superseded;
        var i :| 0 <= i < |o.superseded| && o.superseded[i] == (id, x);
        assert IdOf(stored, x).Some?;
    }
    if i :| 0 <= i < |o.superseded| && o.superseded[i].0 == id && IdOf(stored, o.superseded[i].1).Some? {
      assert (id, o.superseded[i].1) in o.superseded;
      var r :| r in stored && r.id == id && Stale(found, r, Some(o.superseded[i].1));
      assert Retires(found, stored, r);
    }
    if i :| 0 <= i < |o.retracted| && o.retracted[i] == id {
      assert id in o.retracted;
      var r :| r in stored && r.id == id && Stale(found, r, None);
      assert Retires(found, stored, r);
    }
  }

  // ---- one bucket -------------------------------------------------------------------------------------------------------

  /** A bucket is scanned with what the engine reads from its content; a first reading finds no row of its own. */
  ghost predicate Presents(s: Store, engine: Engine, endTs: int, found: seq<Reading>, hash: int, alreadyRead: bool) {
    && found == engine(endTs, hash) && DistinctPatterns(found)
    && (!alreadyRead ==> forall r :: r in s.rows ==> r.endTs != endTs)
  }

  lemma SerialIds(rows: seq<Row>)
    requires Serial(rows)
    ensures DistinctIds(rows) && forall r :: r in rows ==> 1 <= r.id <= |rows| && rows[r.id - 1] == r
  {
    forall r | r in rows ensures 1 <= r.id <= |rows| && rows[r.id - 1] == r {
      var i :| 0 <= i < |rows| && rows[i] == r;
    }
    forall i, j | 0 <= i < j < |rows| ensures rows[i].id != rows[j].id {
      assert rows[i].id == i + 1 && rows[j].id == j + 1;
    }
  }

  lemma {:induction false} FilterDistinctIds(rows: seq<Row>, p: Row -> bool)
    requires DistinctIds(rows)
    ensures DistinctIds(Filter(rows, p))
  {
    if rows != [] {
      FilterDistinctIds(rows[1..], p);
      forall r | r in Filter(rows[1..], p) ensures r.id != rows[0].id { assert r in rows[1..]; }
    }
  }

  /** What a scan of a bucket leaves behind: the recorded rows, and the retirements reconciliation calls for. */
  lemma ScanShape(s: Store, engine: Engine, endTs: int, found: seq<Reading>, hash: int, asOf: int, alreadyRead: bool)
    requires Sound(s, engine) && Presents(s, engine, endTs, found, hash, alreadyRead)
    ensures var t, stored := ScanBucket(s, endTs, found, hash, asOf, alreadyRead), Active(RecordAll(s, endTs, found, hash, asOf), endTs);
            && t.rows == RecordAll(s, endTs, found, hash, asOf).rows
            && Recorded(s, RecordAll(s, endTs, found, hash, asOf), endTs, found, hash, asOf)
            && Serial(t.rows) && OneRowPerReading(t.rows) && GoneKnown(t) && GoneGrows(s.gone, t.gone, asOf)
            && (forall id :: IsGone(t.gone, id) <==> IsGone(s.gone, id) || exists r: Row :: r.id == id && Retires(found, stored, r))
  {
    hide *;
    var recorded := RecordAll(s, endTs, found, hash, asOf);
    SoundParts(s, engine);
    RecordAllLaw(s, endTs, found, hash, asOf);
    RecordedKnown(s, recorded, endTs, found, hash, asOf);
    ActiveParts(recorded, endTs);
    var stored := Active(recorded, endTs);
    AppliedLaw(recorded.gone, found, stored, hash, asOf);
    ScanIs(s, endTs, found, hash, asOf, alreadyRead);
    if !alreadyRead || Unchanged(stored, hash) {
      NothingStale(s, engine, endTs, found, hash, asOf, alreadyRead);
      GrowsNot(s.gone, asOf);
    } else {
      RetiredAreKnown(recorded, found, stored, Applied(recorded.gone, found, stored, hash, asOf));
    }
  }

  lemma SoundParts(s: Store, engine: Engine)
    requires Sound(s, engine)
    ensures Serial(s.rows) && OneRowPerReading(s.rows) && OneGonePerFact(s.gone) && GoneKnown(s)
  {
  }

  lemma RecordedKnown(s: Store, t: Store, endTs: int, found: seq<Reading>, hash: int, asOf: int)
    requires Recorded(s, t, endTs, found, hash, asOf) && GoneKnown(s)
    ensures GoneKnown(t) && t.gone == s.gone
  {
  }

  lemma GrowsNot(gone: seq<Gone>, at: int)
    requires OneGonePerFact(gone)
    ensures GoneGrows(gone, gone, at)
  {
  }

  lemma ActiveParts(s: Store, endTs: int)
    requires Serial(s.rows)
    ensures DistinctIds(Active(s, endTs)) && forall r :: r in Active(s, endTs) ==> r in s.rows && !IsGone(s.gone, r.id)
  {
    SerialIds(s.rows);
    FilterDistinctIds(s.rows, StillActive(s.gone, endTs));
    hide IsGone;
  }

  lemma ScanIs(s: Store, endTs: int, found: seq<Reading>, hash: int, asOf: int, alreadyRead: bool)
    ensures var recorded := RecordAll(s, endTs, found, hash, asOf);
            var stored := Active(recorded, endTs);
            ScanBucket(s, endTs, found, hash, asOf, alreadyRead)
            == if !alreadyRead || Unchanged(stored, hash) then recorded
               else Store(recorded.rows, Applied(recorded.gone, found, stored, hash, asOf))
  {
    hide RecordAll, Active, ReconcileRows, LinkAll, RetractAll;
  }

  lemma RetiredAreKnown(s: Store, found: seq<Reading>, stored: seq<Row>, gone: seq<Gone>)
    requires Serial(s.rows) && GoneKnown(s) && forall r :: r in stored ==> r in s.rows
    requires forall id :: IsGone(gone, id) <==> IsGone(s.gone, id) || exists r: Row :: r.id == id && Retires(found, stored, r)
    ensures GoneKnown(Store(s.rows, gone))
  {
    SerialIds(s.rows);
    forall g | g in gone ensures 1 <= g.factId <= |s.rows| {
      assert IsGone(gone, g.factId);
      if IsGone(s.gone, g.factId) {
        var x :| x in s.gone && x.factId == g.factId;
      } else {
        var r: Row :| r.id == g.factId && Retires(found, stored, r);
        assert r in stored;
      }
    }
  }

  /** When every active row carries the current content, or the bucket is new, no active row is stale. */
  lemma NothingStale(s: Store, engine: Engine, endTs: int, found: seq<Reading>, hash: int, asOf: int, alreadyRead: bool)
    requires Sound(s, engine) && Presents(s, engine, endTs, found, hash, alreadyRead)
    requires var stored := Active(RecordAll(s, endTs, found, hash, asOf), endTs);
             !alreadyRead || Unchanged(stored, hash)
    ensures var stored := Active(RecordAll(s, endTs, found, hash, asOf), endTs);
            (forall r :: r in stored ==> r.reading in found) && forall r :: !Retires(found, stored, r)
  {
    var recorded := RecordAll(s, endTs, found, hash, asOf);
    RecordAllLaw(s, endTs, found, hash, asOf);
    forall r | r in Active(recorded, endTs) ensures r.reading in found {
      var i :| 0 <= i < |recorded.rows| && recorded.rows[i] == r;
      if i < |s.rows| { assert r == s.rows[i] && r in s.rows; }
    }
    hide RecordAll, Active;
  }

  /** Membership of the recorded active rows: old active rows of the bucket, and the new ones. */
  lemma StoredMembers(s: Store, t: Store, endTs: int, found: seq<Reading>, hash: int, asOf: int)
    requires Recorded(s, t, endTs, found, hash, asOf) && Serial(t.rows) && Serial(s.rows) && GoneKnown(s)
    ensures forall r :: r in Active(t, endTs) <==> r in t.rows && r.endTs == endTs && !IsGone(s.gone, r.id)
    ensures forall r :: r in t.rows && r !in s.rows ==> !IsGone(s.gone, r.id) && r.endTs == endTs && r.reading in found && r.hash == hash
                                                        && !Holds(s.rows, endTs, r.reading)
  {
    hide Holds, IsGone, Recorded, GoneKnown;
    forall r | r in t.rows && r !in s.rows
      ensures !IsGone(s.gone, r.id) && r.endTs == endTs && r.reading in found && r.hash == hash && !Holds(s.rows, endTs, r.reading)
    {
      NewRow(s, t, endTs, found, hash, asOf, r);
      UnknownIsActive(s);
    }
    RecordedKeepsGone(s, t, endTs, found, hash, asOf);
  }

  lemma RecordedKeepsGone(s: Store, t: Store, endTs: int, found: seq<Reading>, hash: int, asOf: int)
    requires Recorded(s, t, endTs, found, hash, asOf)
    ensures t.gone == s.gone && s.rows <= t.rows
  {
  }

  lemma PrefixMembers<T(!new)>(a: seq<T>, b: seq<T>)
    requires a <= b
    ensures forall i :: 0 <= i < |a| ==> b[i] in a
  {
  }

  lemma NewRow(s: Store, t: Store, endTs: int, found: seq<Reading>, hash: int, asOf: int, r: Row)
    requires Recorded(s, t, endTs, found, hash, asOf) && Serial(t.rows) && r in t.rows && r !in s.rows
    ensures r.id > |s.rows|
    ensures r.endTs == endTs && r.reading in found && r.hash == hash && !Holds(s.rows, endTs, r.reading)
  {
    hide Holds;
    SerialIds(t.rows);
    var i :| 0 <= i < |t.rows| && t.rows[i] == r;
    PrefixMembers(s.rows, t.rows);
  }

  lemma UnknownIsActive(s: Store)
    requires GoneKnown(s)
    ensures forall id: nat :: id > |s.rows| ==> !IsGone(s.gone, id)
  {
  }

  /** Of one pattern, after a scan at most one reading is active. */
  lemma OneStaysActive(s: Store, engine: Engine, t: Store, stored: seq<Row>, endTs: int, found: seq<Reading>, hash: int, asOf: int,
                       a: Row, b: Row)
    requires Sound(s, engine) && DistinctPatterns(found) && Serial(t.rows) && OneRowPerReading(t.rows)
    requires Recorded(s, Store(t.rows, s.gone), endTs, found, hash, asOf) && stored == Active(Store(t.rows, s.gone), endTs)
    requires forall id :: IsGone(t.gone, id) <==> IsGone(s.gone, id) || exists r: Row :: r.id == id && Retires(found, stored, r)
    requires a in t.rows && b in t.rows && a.endTs == b.endTs && a.reading.pattern == b.reading.pattern
    requires !IsGone(t.gone, a.id) && !IsGone(t.gone, b.id)
    ensures a == b
  {
    StoredMembers(s, Store(t.rows, s.gone), endTs, found, hash, asOf);
    hide IsGone, Recorded, Active;
    assert !IsGone(s.gone, a.id) && !IsGone(s.gone, b.id);
    if a in s.rows && b in s.rows {
    } else {
      assert a in stored && b in stored;
      assert !Retires(found, stored, a) && !Retires(found, stored, b);
      FoundOfPattern(found, a.reading.pattern);
      if a.reading in found && b.reading in found {
        SamePatternSameReading(found, a.reading, b.reading);
      }
    }
  }

  lemma SamePatternSameReading(found: seq<Reading>, x: Reading, y: Reading)
    requires DistinctPatterns(found) && x in found && y in found && x.pattern == y.pattern
    ensures x == y
  {
  }

  lemma FoundOfPattern(found: seq<Reading>, pattern: Pattern)
    requires DistinctPatterns(found)
    ensures forall x :: x in found && x.pattern == pattern ==> ReadingOf(found, pattern) == Some(x)
  {
    forall x | x in found && x.pattern == pattern ensures ReadingOf(found, pattern) == Some(x) {
      SamePatternSameReading(found, x, ReadingOf(found, pattern).value);
    }
  }

  /** Every scan of a bucket keeps the store sound: one retirement per fact, one active reading per bucket and pattern. */
  lemma ScanKeepsSound(s: Store, engine: Engine, endTs: int, found: seq<Reading>, hash: int, asOf: int, alreadyRead: bool)
    requires Sound(s, engine) && Presents(s, engine, endTs, found, hash, alreadyRead)
    ensures Sound(ScanBucket(s, endTs, found, hash, asOf, alreadyRead), engine)
  {
    var t := ScanBucket(s, endTs, found, hash, asOf, alreadyRead);
    var recorded := RecordAll(s, endTs, found, hash, asOf);
    var stored := Active(recorded, endTs);
    ScanShape(s, engine, endTs, found, hash, asOf, alreadyRead);
    assert recorded == Store(t.rows, s.gone);
    hide ScanBucket, RecordAll;
    forall a, b | a in t.rows && b in t.rows && a.endTs == b.endTs && a.reading.pattern == b.reading.pattern
                  && !IsGone(t.gone, a.id) && !IsGone(t.gone, b.id)
      ensures a == b
    {
      OneStaysActive(s, engine, t, stored, endTs, found, hash, asOf, a, b);
    }
    StoredMembers(s, recorded, endTs, found, hash, asOf);
    assert ReadFrom(t.rows, engine);
    hide IsGone, Recorded, Active, Retires;
  }

  /** A found reading of this bucket is on record as superseded or retracted. */
  ghost predicate WasRetired(s: Store, endTs: int, reading: Reading) {
    exists r :: r in s.rows && r.endTs == endTs && r.reading == reading && IsGone(s.gone, r.id)
  }

  ghost predicate IsActive(s: Store, endTs: int, reading: Reading) {
    exists r :: r in s.rows && r.endTs == endTs && r.reading == reading && !IsGone(s.gone, r.id)
  }

  /**
   * After a scan, what is active in a bucket is exactly what the engine finds now -- if and only if no reading found now
   * had been superseded or retracted before the scan. A correction that a vendor takes back is the one exception.
   */
  lemma ActiveIsFound(s: Store, engine: Engine, endTs: int, found: seq<Reading>, hash: int, asOf: int, alreadyRead: bool)
    requires Sound(s, engine) && Presents(s, engine, endTs, found, hash, alreadyRead)
    ensures (forall x :: IsActive(ScanBucket(s, endTs, found, hash, asOf, alreadyRead), endTs, x) <==> x in found)
       <==> (forall x :: x in found ==> !WasRetired(s, endTs, x))
  {
    var t := ScanBucket(s, endTs, found, hash, asOf, alreadyRead);
    var recorded := RecordAll(s, endTs, found, hash, asOf);
    ScanShape(s, engine, endTs, found, hash, asOf, alreadyRead);
    assert recorded == Store(t.rows, s.gone);
    StoredMembers(s, recorded, endTs, found, hash, asOf);
    hide ScanBucket, RecordAll;
    forall x | x in found ensures IsActive(t, endTs, x) <==> !WasRetired(s, endTs, x) {
      FoundIsActive(s, engine, t, recorded, endTs, found, hash, asOf, x);
    }
    if forall x :: x in found ==> !WasRetired(s, endTs, x) {
      forall x | IsActive(t, endTs, x) ensures x in found {
        OnlyFoundActive(s, t, recorded, endTs, found, x);
      }
    }
  }

  lemma FoundIsActive(s: Store, engine: Engine, t: Store, recorded: Store, endTs: int, found: seq<Reading>, hash: int, asOf: int, x: Reading)
    requires Sound(s, engine) && recorded == Store(t.rows, s.gone) && x in found
    requires Recorded(s, recorded, endTs, found, hash, asOf) && OneRowPerReading(t.rows) && Serial(t.rows)
    requires forall id :: IsGone(t.gone, id) <==> IsGone(s.gone, id) || exists r: Row :: r.id == id && Retires(found, Active(recorded, endTs), r)
    ensures IsActive(t, endTs, x) <==> !WasRetired(s, endTs, x)
  {
    StoredMembers(s, recorded, endTs, found, hash, asOf);
    SerialIds(t.rows);
    assert Holds(recorded.rows, endTs, x);
    var r :| r in t.rows && r.endTs == endTs && r.reading == x;
    assert !Retires(found, Active(recorded, endTs), r);
    hide Recorded, Active;
    assert IsGone(t.gone, r.id) <==> IsGone(s.gone, r.id) by {
      forall q: Row | q.id == r.id && Retires(found, Active(recorded, endTs), q) ensures q == r {}
    }
    if IsGone(s.gone, r.id) {
      assert r in s.rows;
      assert WasRetired(s, endTs, x);
    }
    hide IsGone, Retires;
  }

  lemma OnlyFoundActive(s: Store, t: Store, recorded: Store, endTs: int, found: seq<Reading>, x: Reading)
    requires recorded == Store(t.rows, s.gone) && IsActive(t, endTs, x)
    requires forall y :: y in found ==> IsActive(t, endTs, y)
    requires forall r :: r in Active(recorded, endTs) <==> r in t.rows && r.endTs == endTs && !IsGone(s.gone, r.id)
    requires forall id :: IsGone(t.gone, id) <==> IsGone(s.gone, id) || exists r: Row :: r.id == id && Retires(found, Active(recorded, endTs), r)
    ensures x in found
  {
    var r :| r in t.rows && r.endTs == endTs && r.reading == x && !IsGone(t.gone, r.id);
    assert r in Active(recorded, endTs) && !Retires(found, Active(recorded, endTs), r);
    var replacement := ReadingOf(found, x.pattern);
    if replacement.Some? {
      assert IsActive(t, endTs, replacement.value);
      var q :| q in t.rows && q.endTs == endTs && q.reading == replacement.value && !IsGone(t.gone, q.id);
      assert q in Active(recorded, endTs);
    }
  }

  /** Scanning a bucket again on the same content writes nothing, whatever the first scan did. */
  lemma RescanWritesNothing(s: Store, engine: Engine, endTs: int, found: seq<Reading>, hash: int, asOf: int, alreadyRead: bool, later: int)
    requires Sound(s, engine) && Presents(s, engine, endTs, found, hash, alreadyRead)
    ensures var t := ScanBucket(s, endTs, found, hash, asOf, alreadyRead);
            ScanBucket(t, endTs, found, hash, later, true) == t
  {
    var t := ScanBucket(s, endTs, found, hash, asOf, alreadyRead);
    var recorded := RecordAll(s, endTs, found, hash, asOf);
    var stored := Active(recorded, endTs);
    ScanShape(s, engine, endTs, found, hash, asOf, alreadyRead);
    ScanKeepsSound(s, engine, endTs, found, hash, asOf, alreadyRead);
    hide ScanBucket, RecordAll;
    RecordAllHeld(t, endTs, found, hash, later);
    StoredMembers(s, recorded, endTs, found, hash, asOf);
    hide Recorded;
    assert recorded == Store(t.rows, s.gone);
    ActiveMembers(t, endTs);
    forall r: Row ensures !Retires(found, Active(t, endTs), r) {
      StillNotStale(t, s.gone, found, stored, Active(t, endTs), r);
    }
    NothingApplied(t, endTs, found, hash, later);
  }

  lemma ActiveMembers(s: Store, endTs: int)
    ensures forall r :: r in Active(s, endTs) <==> r in s.rows && r.endTs == endTs && !IsGone(s.gone, r.id)
  {
  }

  /** What survived reconciliation is not stale the second time: it was found, or its replacement is itself retired. */
  lemma StillNotStale(t: Store, gone: seq<Gone>, found: seq<Reading>, stored: seq<Row>, active: seq<Row>, r: Row)
    requires forall q :: q in active ==> q in stored && !IsGone(t.gone, q.id)
    requires forall id :: IsGone(t.gone, id) <==> IsGone(gone, id) || exists q: Row :: q.id == id && Retires(found, stored, q)
    ensures !Retires(found, active, r)
  {
    if Retires(found, active, r) {
      assert Retires(found, stored, r);
      assert false;
    }
  }

  lemma NothingApplied(t: Store, endTs: int, found: seq<Reading>, hash: int, at: int)
    requires Serial(t.rows) && OneGonePerFact(t.gone) && RecordAll(t, endTs, found, hash, at) == t
    requires forall r: Row :: !Retires(found, Active(t, endTs), r)
    ensures ScanBucket(t, endTs, found, hash, at, true) == t
  {
    hide *;
    ScanIs(t, endTs, found, hash, at, true);
    ActiveParts(t, endTs);
    AppliedLaw(t.gone, found, Active(t, endTs), hash, at);
    SameGone(t.gone, Applied(t.gone, found, Active(t, endTs), hash, at), at);
  }

  lemma SameGone(gone: seq<Gone>, later: seq<Gone>, at: int)
    requires GoneGrows(gone, later, at) && forall id :: IsGone(later, id) <==> IsGone(gone, id)
    ensures later == gone
  {
    if later != [] {
      var last := later[|later| - 1];
      assert last in later && IsGone(later, last.factId);
      var x :| x in gone && x.factId == last.factId;
      var i :| 0 <= i < |gone| && gone[i] == x;
      assert later[i] == gone[i];
      assert i == |later| - 1;
    }
  }

  /** The bucket after its reading was stored, and after that reading was retracted. */
  function OneReading(x: Reading): Store { Store([Row(1, 10, x, 1, 100)], []) }

  function OneRetracted(x: Reading): Store { Store([Row(1, 10, x, 1, 100)], [Gone(1, None, 2, 200)]) }

  lemma FirstRead(x: Reading)
    ensures ScanBucket(Store([], []), 10, [x], 1, 100, false) == OneReading(x) && IsActive(OneReading(x), 10, x)
  {
    var first := OneReading(x);
    assert [x][1..] == [] && [] + first.rows == first.rows;
    assert Record(Store([], []), 10, x, 1, 100) == first;
    assert RecordAll(Store([], []), 10, [x], 1, 100) == RecordAll(first, 10, [x][1..], 1, 100);
    assert first.rows[0] in first.rows;
  }

  lemma ThenRetracted(x: Reading)
    ensures ScanBucket(OneReading(x), 10, [], 2, 200, true) == OneRetracted(x) && !IsActive(OneRetracted(x), 10, x)
  {
    var first, row, gone := OneReading(x), Row(1, 10, x, 1, 100), Gone(1, None, 2, 200);
    assert Active(first, 10) == [row] && row.hash != 2;
    assert [row][..0] == [] && [1][..0] == [] && [] + [1] == [1];
    assert ReconcileRows([], [row]) == Reconciliation([], [1]);
    assert RecordGone([], gone) == [] + [gone] == [gone];
    assert RetractAll([], [1], 2, 200) == RecordGone(RetractAll([], [], 2, 200), gone);
    assert gone in OneRetracted(x).gone;
  }

  lemma ThenFoundAgain(x: Reading)
    ensures ScanBucket(OneRetracted(x), 10, [x], 1, 300, true) == OneRetracted(x)
    ensures BucketCounts(OneRetracted(x), 10, [x], 1, 300, true) == Counts(0, 0, 0)
  {
    var second, row := OneRetracted(x), Row(1, 10, x, 1, 100);
    assert second.gone[0] in second.gone;
    assert Active(second, 10) == [];
    assert row in second.rows && Holds(second.rows, 10, x);
    RecordAllHeld(second, 10, [x], 1, 300);
    NewReadingsAreRows(second, 10, [x], 1, 300);
    hide RecordAll, NewReadings, Active, Holds;
    assert ReconcileRows([x], []) == Reconciliation([], []);
  }

  /**
   * A reading that was retracted and then returns: the engine finds it, nothing is active for its bucket, no
   * supersession is written and -- unlike a reverted correction -- nothing is even counted.
   */
  lemma RetractedThenFoundAgain(x: Reading)
    ensures var engine := (e: int, h: int) => if h == 1 then [x] else [];
            var first := ScanBucket(Store([], []), 10, engine(10, 1), 1, 100, false);
            var second := ScanBucket(first, 10, engine(10, 2), 2, 200, true);
            var third := ScanBucket(second, 10, engine(10, 1), 1, 300, true);
            && IsActive(first, 10, x) && !IsActive(second, 10, x) && !IsActive(third, 10, x)
            && third == second && BucketCounts(second, 10, engine(10, 1), 1, 300, true) == Counts(0, 0, 0)
  {
    hide ScanBucket, BucketCounts, IsActive, OneReading, OneRetracted;
    FirstRead(x);
    ThenRetracted(x);
    ThenFoundAgain(x);
  }

  // ---- a whole scan -----------------------------------------------------------------------------------------------------

  /** One candle of a scan: its bucket, whether it has settled, and what the engine reads there now. */
  datatype Item = Item(endTs: int, settled: bool, hash: int, found: seq<Reading>)

  function LastEnd(rows: seq<Row>): (r: Option<int>)
    ensures r.None? <==> rows == []
    ensures r.Some? ==> (forall x :: x in rows ==> x.endTs <= r.value) && exists x :: x in rows && x.endTs == r.value
  {
    if rows == [] then None
    else
      var most, last := rows[..|rows| - 1], rows[|rows| - 1];
      assert last in rows && forall x :: x in rows ==> x in most || x == last;
      match LastEnd(most)
      case None => Some(last.endTs)
      case Some(m) => Some(Max(m, last.endTs))
  }

  predicate AlreadyRead(resume: Option<int>, endTs: int) { resume.Some? && endTs <= resume.value }

  /** Read before, and too old to be revisited. */
  predicate Skipped(resume: Option<int>, floor: Option<int>, endTs: int) {
    AlreadyRead(resume, endTs) && (floor.None? || endTs < floor.value)
  }

  function ScanItems(s: Store, items: seq<Item>, resume: Option<int>, floor: Option<int>, asOf: int): Store
    decreases |items|
  {
    if items == [] then s
    else
      var item := items[0];
      if Skipped(resume, floor, item.endTs) then ScanItems(s, items[1..], resume, floor, asOf)
      else if !item.settled then s
      else ScanItems(ScanBucket(s, item.endTs, item.found, item.hash, asOf, AlreadyRead(resume, item.endTs)), items[1..], resume, floor, asOf)
  }

  /** The counters of a scan: those of its buckets, summed. */
  function ScanCounts(s: Store, items: seq<Item>, resume: Option<int>, floor: Option<int>, asOf: int): Counts
    decreases |items|
  {
    if items == [] then Counts(0, 0, 0)
    else
      var item := items[0];
      if Skipped(resume, floor, item.endTs) then ScanCounts(s, items[1..], resume, floor, asOf)
      else if !item.settled then Counts(0, 0, 0)
      else
        var alreadyRead := AlreadyRead(resume, item.endTs);
        BucketCounts(s, item.endTs, item.found, item.hash, asOf, alreadyRead)
        .Plus(ScanCounts(ScanBucket(s, item.endTs, item.found, item.hash, asOf, alreadyRead), items[1..], resume, floor, asOf))
  }

  function ScanOne(s: Store, items: seq<Item>, floor: Option<int>, asOf: int): Store {
    ScanItems(s, items, LastEnd(s.rows), floor, asOf)
  }

  /** One settled bucket: store what was found, and reconcile it if it was read before and its content changed. */
  method ScanSettled(s: Store, item: Item, asOf: int, alreadyRead: bool) returns (t: Store, counts: Counts)
    ensures t == ScanBucket(s, item.endTs, item.found, item.hash, asOf, alreadyRead)
    ensures counts == BucketCounts(s, item.endTs, item.found, item.hash, asOf, alreadyRead)
  {
    hide RecordAll, NewReadings, Active, ReconcileRows, LinkAll, RetractAll, CountReverted;
    var recorded, added := RecordFound(s, item.endTs, item.found, item.hash, asOf);
    t, counts := recorded, Counts(added, 0, 0);
    if alreadyRead {
      var stored := Active(recorded, item.endTs);
      if !Unchanged(stored, item.hash) {
        var outcome := Reconcile(item.found, stored);
        var gone, reverted := ApplyReconciliation(recorded.gone, stored, outcome, item.hash, asOf);
        t := recorded.(gone := gone);
        counts := Counts(added, |outcome.superseded| + |outcome.retracted|, reverted);
      }
    }
  }

  lemma ScanStep(s: Store, items: seq<Item>, resume: Option<int>, floor: Option<int>, asOf: int)
    requires items != []
    ensures var item := items[0];
            var alreadyRead := AlreadyRead(resume, item.endTs);
            var t := ScanBucket(s, item.endTs, item.found, item.hash, asOf, alreadyRead);
            var here := BucketCounts(s, item.endTs, item.found, item.hash, asOf, alreadyRead);
            (ScanItems(s, items, resume, floor, asOf), ScanCounts(s, items, resume, floor, asOf))
            == if Skipped(resume, floor, item.endTs)
               then (ScanItems(s, items[1..], resume, floor, asOf), ScanCounts(s, items[1..], resume, floor, asOf))
               else if !item.settled then (s, Counts(0, 0, 0))
               else (ScanItems(t, items[1..], resume, floor, asOf), here.Plus(ScanCounts(t, items[1..], resume, floor, asOf)))
  {
    hide ScanBucket, BucketCounts, Skipped;
  }

  lemma ScanNothing(s: Store, resume: Option<int>, floor: Option<int>, asOf: int)
    ensures ScanItems(s, [], resume, floor, asOf) == s && ScanCounts(s, [], resume, floor, asOf) == Counts(0, 0, 0)
  {
  }

  /** Scan one series: resume after the last stored reading, revisit recent sessions, stop at the first unsettled candle. */
  method ScanSeries(s: Store, items: seq<Item>, floor: Option<int>, asOf: int) returns (t: Store, counts: Counts)
    ensures t == ScanOne(s, items, floor, asOf)
    ensures counts == ScanCounts(s, items, LastEnd(s.rows), floor, asOf)
  {
    hide ScanBucket, BucketCounts, ScanItems, ScanCounts, Skipped, AlreadyRead, LastEnd;
    var resume := LastEnd(s.rows);
    t, counts := s, Counts(0, 0, 0);
    var k := 0;
    assert items[0..] == items;
    while k < |items|
      invariant 0 <= k <= |items|
      invariant ScanItems(s, items, resume, floor, asOf) == ScanItems(t, items[k..], resume, floor, asOf)
      invariant ScanCounts(s, items, resume, floor, asOf) == counts.Plus(ScanCounts(t, items[k..], resume, floor, asOf))
    {
      var item := items[k];
      assert items[k..][1..] == items[k + 1..];
      ScanStep(t, items[k..], resume, floor, asOf);
      if !Skipped(resume, floor, item.endTs) {
        if !item.settled {
          return;
        }
        var here: Counts;
        t, here := ScanSettled(t, item, asOf, AlreadyRead(resume, item.endTs));
        counts := counts.Plus(here);
      }
      k := k + 1;
    }
    ScanNothing(t, resume, floor, asOf);
  }

  // ---- what the counters mean -------------------------------------------------------------------------------------------

  lemma {:induction false} LinksAreCounted(gone: seq<Gone>, active: seq<Row>, pairs: seq<(nat, Reading)>, hash: int, at: int)
    requires OneGonePerFact(gone) && PairsDistinct(pairs)
    requires forall i :: 0 <= i < |pairs| ==> !IsGone(gone, pairs[i].0)
    ensures |LinkAll(gone, active, pairs, hash, at)| + CountReverted(active, pairs) == |gone| + |pairs|
  {
    hide IsGone, RecordGone, Links, IdOf, OneGonePerFact;
    if pairs != [] {
      var most, pair := pairs[..|pairs| - 1], pairs[|pairs| - 1];
      assert forall i :: 0 <= i < |most| ==> most[i] == pairs[i];
      NotLinkedBefore(active, pairs);
      LinksAreCounted(gone, active, most, hash, at);
      LinkAllLaw(gone, active, most, hash, at);
      match IdOf(active, pair.1)
      case None =>
      case Some(id) => RecordGoneLaw(LinkAll(gone, active, most, hash, at), Gone(pair.0, Some(id), hash, at));
    }
  }

  lemma {:induction false} RetractionsAreCounted(gone: seq<Gone>, retracted: seq<nat>, hash: int, at: int)
    requires OneGonePerFact(gone)
    requires forall i, j :: 0 <= i < j < |retracted| ==> retracted[i] != retracted[j]
    requires forall i :: 0 <= i < |retracted| ==> !IsGone(gone, retracted[i])
    ensures |RetractAll(gone, retracted, hash, at)| == |gone| + |retracted|
  {
    if retracted != [] {
      var most, last := retracted[..|retracted| - 1], retracted[|retracted| - 1];
      assert forall i :: 0 <= i < |most| ==> most[i] == retracted[i];
      RetractionsAreCounted(gone, most, hash, at);
      RetractAllLaw(gone, most, hash, at);
      hide IsGone, RecordGone;
      RecordGoneLaw(RetractAll(gone, most, hash, at), Gone(last, None, hash, at));
    }
  }

  lemma AppliedIsCounted(gone: seq<Gone>, found: seq<Reading>, stored: seq<Row>, hash: int, at: int)
    requires OneGonePerFact(gone) && DistinctIds(stored) && forall r :: r in stored ==> !IsGone(gone, r.id)
    ensures var o := ReconcileRows(found, stored);
            |Applied(gone, found, stored, hash, at)| + CountReverted(stored, o.superseded)
            == |gone| + |o.superseded| + |o.retracted|
  {
    var o := ReconcileRows(found, stored);
    ReconcileNamesOnce(found, stored);
    hide IsGone, ReconcileRows, LinkAll, RetractAll, CountReverted;
    LinksAreCounted(gone, stored, o.superseded, hash, at);
    LinkAllLaw(gone, stored, o.superseded, hash, at);
    var linked := LinkAll(gone, stored, o.superseded, hash, at);
    forall i | 0 <= i < |o.retracted| ensures !IsGone(linked, o.retracted[i]) {
      var r :| r in stored && r.id == o.retracted[i];
    }
    RetractionsAreCounted(linked, o.retracted, hash, at);
  }

  lemma BucketIsCounted(s: Store, engine: Engine, endTs: int, found: seq<Reading>, hash: int, asOf: int, alreadyRead: bool)
    requires Sound(s, engine)
    ensures var t, c := ScanBucket(s, endTs, found, hash, asOf, alreadyRead), BucketCounts(s, endTs, found, hash, asOf, alreadyRead);
            |t.rows| == |s.rows| + c.stored && |t.gone| + c.reverted == |s.gone| + c.named
  {
    var recorded := RecordAll(s, endTs, found, hash, asOf);
    SoundParts(s, engine);
    RecordAllLaw(s, endTs, found, hash, asOf);
    NewReadingsAreRows(s, endTs, found, hash, asOf);
    ActiveParts(recorded, endTs);
    ScanIs(s, endTs, found, hash, asOf, alreadyRead);
    hide RecordAll, NewReadings, Active, ReconcileRows, CountReverted, Applied, ScanBucket, IsGone, Sound, Serial, OneRowPerReading;
    AppliedIsCounted(recorded.gone, found, Active(recorded, endTs), hash, asOf);
  }

  /**
   * The counters account for the tables. A scan of a sound store adds exactly as many readings as it counts stored, and
   * exactly as many retirements as it counts named less those it counts reverted.
   */
  lemma {:induction false} CountsAccountForTheTables(s: Store, engine: Engine, items: seq<Item>, resume: Option<int>,
                                                     floor: Option<int>, asOf: int)
    requires Sound(s, engine) && Items(items, engine) && Before(s, resume, items)
    ensures var t, c := ScanItems(s, items, resume, floor, asOf), ScanCounts(s, items, resume, floor, asOf);
            |t.rows| == |s.rows| + c.stored && |t.gone| + c.reverted == |s.gone| + c.named
    decreases |items|
  {
    hide Sound, Before, ScanBucket, BucketCounts, Presents;
    if items != [] {
      var item := items[0];
      assert Items(items[1..], engine);
      if Skipped(resume, floor, item.endTs) {
        BeforeRest(s, resume, items);
        CountsAccountForTheTables(s, engine, items[1..], resume, floor, asOf);
      } else if item.settled {
        var alreadyRead := AlreadyRead(resume, item.endTs);
        BeforeNext(s, engine, resume, items, asOf);
        ScanKeepsSound(s, engine, item.endTs, item.found, item.hash, asOf, alreadyRead);
        BucketIsCounted(s, engine, item.endTs, item.found, item.hash, asOf, alreadyRead);
        CountsAccountForTheTables(ScanBucket(s, item.endTs, item.found, item.hash, asOf, alreadyRead), engine, items[1..],
                                  resume, floor, asOf);
      }
    }
  }

  /** The same for the next scan after any history of scans. */
  lemma EveryScanIsCounted(scans: seq<Scan>, next: Scan, engine: Engine)
    requires Items(next.items, engine) && forall k :: 0 <= k < |scans| ==> Items(scans[k].items, engine)
    ensures var s := StoreAfter(scans);
            var t, c := StoreAfter(scans + [next]), ScanCounts(s, next.items, LastEnd(s.rows), next.floor, next.asOf);
            |t.rows| == |s.rows| + c.stored && |t.gone| + c.reverted == |s.gone| + c.named
  {
    hide Sound, Items, Before, ScanItems, ScanCounts;
    EveryStoreIsSound(scans, engine);
    StartsBefore(StoreAfter(scans), next.items);
    CountsAccountForTheTables(StoreAfter(scans), engine, next.items, LastEnd(StoreAfter(scans).rows), next.floor, next.asOf);
    assert (scans + [next])[..|scans|] == scans;
  }

  /** The items of a scan: candles in time order, each with what the engine reads from its content. */
  ghost predicate Items(items: seq<Item>, engine: Engine) {
    && (forall i :: 0 <= i < |items| ==> items[i].found == engine(items[i].endTs, items[i].hash) && DistinctPatterns(items[i].found))
    && (forall i, j :: 0 <= i < j < |items| ==> items[i].endTs < items[j].endTs)
  }

  /** Everything stored so far is either from before the scan or from an earlier candle of it. */
  ghost predicate Before(s: Store, resume: Option<int>, items: seq<Item>) {
    forall r :: r in s.rows ==> AlreadyRead(resume, r.endTs) || forall i :: 0 <= i < |items| ==> r.endTs < items[i].endTs
  }

  lemma BeforeRest(s: Store, resume: Option<int>, items: seq<Item>)
    requires Before(s, resume, items) && items != []
    ensures Before(s, resume, items[1..])
  {
  }

  lemma BeforeNext(s: Store, engine: Engine, resume: Option<int>, items: seq<Item>, asOf: int)
    requires Sound(s, engine) && Items(items, engine) && items != [] && Before(s, resume, items)
    ensures Presents(s, engine, items[0].endTs, items[0].found, items[0].hash, AlreadyRead(resume, items[0].endTs))
    ensures var t := ScanBucket(s, items[0].endTs, items[0].found, items[0].hash, asOf, AlreadyRead(resume, items[0].endTs));
            Before(t, resume, items[1..])
  {
    var item := items[0];
    assert Presents(s, engine, item.endTs, item.found, item.hash, AlreadyRead(resume, item.endTs));
    ScanShape(s, engine, item.endTs, item.found, item.hash, asOf, AlreadyRead(resume, item.endTs));
    var t := ScanBucket(s, item.endTs, item.found, item.hash, asOf, AlreadyRead(resume, item.endTs));
    hide ScanBucket, RecordAll, IsGone, Holds;
    forall r | r in t.rows ensures AlreadyRead(resume, r.endTs) || forall i :: 0 <= i < |items[1..]| ==> r.endTs < items[1..][i].endTs {
      var k :| 0 <= k < |t.rows| && t.rows[k] == r;
      if k < |s.rows| { assert r == s.rows[k] && r in s.rows; }
    }
  }

  /** Any scan, over any series, keeps the store sound. */
  lemma {:induction false} ScanItemsKeepSound(s: Store, engine: Engine, items: seq<Item>, resume: Option<int>, floor: Option<int>, asOf: int)
    requires Sound(s, engine) && Items(items, engine) && Before(s, resume, items)
    ensures Sound(ScanItems(s, items, resume, floor, asOf), engine)
    decreases |items|
  {
    hide Sound, Before, ScanBucket, Presents;
    if items != [] {
      var item := items[0];
      assert Items(items[1..], engine);
      if Skipped(resume, floor, item.endTs) {
        BeforeRest(s, resume, items);
        ScanItemsKeepSound(s, engine, items[1..], resume, floor, asOf);
      } else if item.settled {
        BeforeNext(s, engine, resume, items, asOf);
        ScanKeepsSound(s, engine, item.endTs, item.found, item.hash, asOf, AlreadyRead(resume, item.endTs));
        ScanItemsKeepSound(ScanBucket(s, item.endTs, item.found, item.hash, asOf, AlreadyRead(resume, item.endTs)), engine,
                           items[1..], resume, floor, asOf);
      }
    }
  }

  lemma StartsBefore(s: Store, items: seq<Item>)
    ensures Before(s, LastEnd(s.rows), items)
  {
  }

  /** A scan in a history of scans: its series, its revisit floor and its watermark. */
  datatype Scan = Scan(items: seq<Item>, floor: Option<int>, asOf: int)

  function StoreAfter(scans: seq<Scan>): Store {
    if scans == [] then Store([], [])
    else
      var last := scans[|scans| - 1];
      ScanOne(StoreAfter(scans[..|scans| - 1]), last.items, last.floor, last.asOf)
  }

  /** In every reachable store each fact was retired at most once and each bucket and pattern has at most one active reading. */
  lemma {:induction false} EveryStoreIsSound(scans: seq<Scan>, engine: Engine)
    requires forall k :: 0 <= k < |scans| ==> Items(scans[k].items, engine)
    ensures Sound(StoreAfter(scans), engine)
  {
    if scans != [] {
      var most, last := scans[..|scans| - 1], scans[|scans| - 1];
      assert forall k :: 0 <= k < |most| ==> most[k] == scans[k];
      EveryStoreIsSound(most, engine);
      StartsBefore(StoreAfter(most), last.items);
      ScanItemsKeepSound(StoreAfter(most), engine, last.items, LastEnd(StoreAfter(most).rows), last.floor, last.asOf);
    }
  }

  // ---- running a scan again -----------------------------------------------------------------------------------------------

  /** Nothing is left to do for a candle: its readings are stored and no active one is stale. */
  ghost predicate Quiet(s: Store, item: Item) {
    && (forall x :: x in item.found ==> Holds(s.rows, item.endTs, x))
    && (forall r: Row :: !Retires(item.found, Active(s, item.endTs), r))
  }

  lemma ScannedIsQuiet(s: Store, engine: Engine, item: Item, asOf: int, alreadyRead: bool)
    requires Sound(s, engine) && Presents(s, engine, item.endTs, item.found, item.hash, alreadyRead)
    ensures Quiet(ScanBucket(s, item.endTs, item.found, item.hash, asOf, alreadyRead), item)
  {
    var t := ScanBucket(s, item.endTs, item.found, item.hash, asOf, alreadyRead);
    var recorded := RecordAll(s, item.endTs, item.found, item.hash, asOf);
    ScanShape(s, engine, item.endTs, item.found, item.hash, asOf, alreadyRead);
    hide ScanBucket, RecordAll;
    StoredMembers(s, recorded, item.endTs, item.found, item.hash, asOf);
    ActiveMembers(t, item.endTs);
    assert recorded == Store(t.rows, s.gone);
    hide Holds, IsGone, Active;
    forall r: Row ensures !Retires(item.found, Active(t, item.endTs), r) {
      StillNotStale(t, s.gone, item.found, Active(recorded, item.endTs), Active(t, item.endTs), r);
    }
  }

  /** Scanning one bucket leaves every other bucket as it was. */
  lemma OtherBucketsKept(s: Store, engine: Engine, item: Item, asOf: int, alreadyRead: bool, endTs: int)
    requires Sound(s, engine) && Presents(s, engine, item.endTs, item.found, item.hash, alreadyRead) && endTs != item.endTs
    ensures var t := ScanBucket(s, item.endTs, item.found, item.hash, asOf, alreadyRead);
            && (forall r :: r in Active(t, endTs) <==> r in Active(s, endTs))
            && (forall x :: Holds(s.rows, endTs, x) ==> Holds(t.rows, endTs, x))
  {
    var t := ScanBucket(s, item.endTs, item.found, item.hash, asOf, alreadyRead);
    var recorded := RecordAll(s, item.endTs, item.found, item.hash, asOf);
    ScanShape(s, engine, item.endTs, item.found, item.hash, asOf, alreadyRead);
    hide ScanBucket, RecordAll;
    assert recorded == Store(t.rows, s.gone);
    StoredMembers(s, recorded, item.endTs, item.found, item.hash, asOf);
    ActiveMembers(t, endTs);
    ActiveMembers(s, endTs);
    SerialIds(t.rows);
    forall x | Holds(s.rows, endTs, x) ensures Holds(t.rows, endTs, x) { HoldsMore(s.rows, t.rows, endTs, x); }
    hide Holds, IsGone, Active;
    forall r ensures r in Active(t, endTs) <==> r in Active(s, endTs) {
      if r in s.rows { PrefixMember(s.rows, t.rows, r); }
      if r in t.rows && r.endTs == endTs { SameFactOnly(t.rows, item.found, Active(recorded, item.endTs), r); }
    }
  }

  lemma PrefixMember(a: seq<Row>, b: seq<Row>, r: Row)
    requires a <= b && r in a
    ensures r in b
  {
  }

  lemma SameFactOnly(rows: seq<Row>, found: seq<Reading>, stored: seq<Row>, r: Row)
    requires DistinctIds(rows) && r in rows && r !in stored && forall q :: q in stored ==> q in rows
    ensures !exists q: Row :: q.id == r.id && Retires(found, stored, q)
  {
    forall q: Row | q.id == r.id ensures !Retires(found, stored, q) {
      assert q in rows ==> q == r;
    }
  }

  lemma {:induction false} QuietKept(s: Store, engine: Engine, items: seq<Item>, resume: Option<int>, floor: Option<int>, asOf: int, item: Item)
    requires Sound(s, engine) && Items(items, engine) && Before(s, resume, items) && Quiet(s, item)
    requires forall i :: 0 <= i < |items| ==> item.endTs != items[i].endTs
    ensures Quiet(ScanItems(s, items, resume, floor, asOf), item)
    decreases |items|
  {
    hide Sound, Before, ScanBucket, Presents, Quiet;
    if items != [] {
      var head := items[0];
      assert Items(items[1..], engine);
      if Skipped(resume, floor, head.endTs) {
        BeforeRest(s, resume, items);
        QuietKept(s, engine, items[1..], resume, floor, asOf, item);
      } else if head.settled {
        var alreadyRead := AlreadyRead(resume, head.endTs);
        BeforeNext(s, engine, resume, items, asOf);
        ScanKeepsSound(s, engine, head.endTs, head.found, head.hash, asOf, alreadyRead);
        QuietElsewhere(s, engine, head, asOf, alreadyRead, item);
        QuietKept(ScanBucket(s, head.endTs, head.found, head.hash, asOf, alreadyRead), engine, items[1..], resume, floor, asOf, item);
      }
    }
  }

  lemma QuietElsewhere(s: Store, engine: Engine, head: Item, asOf: int, alreadyRead: bool, item: Item)
    requires Sound(s, engine) && Presents(s, engine, head.endTs, head.found, head.hash, alreadyRead)
    requires Quiet(s, item) && item.endTs != head.endTs
    ensures Quiet(ScanBucket(s, head.endTs, head.found, head.hash, asOf, alreadyRead), item)
  {
    var t := ScanBucket(s, head.endTs, head.found, head.hash, asOf, alreadyRead);
    OtherBucketsKept(s, engine, head, asOf, alreadyRead, item.endTs);
    hide ScanBucket, Holds, Active, Sound, Presents;
    forall r: Row ensures !Retires(item.found, Active(t, item.endTs), r) {
      assert !Retires(item.found, Active(s, item.endTs), r);
    }
  }

  /** Nothing stored since the scan began belongs to this candle or a later one. */
  ghost predicate Unreached(s: Store, resume: Option<int>, endTs: int) {
    forall r :: r in s.rows ==> AlreadyRead(resume, r.endTs) || r.endTs < endTs
  }

  /** Every candle the scan processed is quiet, and it reached nothing from the first unsettled one on. */
  ghost predicate AllQuiet(s: Store, items: seq<Item>, resume: Option<int>, floor: Option<int>)
    decreases |items|
  {
    items == []
    || (if Skipped(resume, floor, items[0].endTs) then AllQuiet(s, items[1..], resume, floor)
        else if items[0].settled then Quiet(s, items[0]) && AllQuiet(s, items[1..], resume, floor)
        else Unreached(s, resume, items[0].endTs))
  }

  lemma {:induction false} ScanLeavesAllQuiet(s: Store, engine: Engine, items: seq<Item>, resume: Option<int>, floor: Option<int>, asOf: int)
    requires Sound(s, engine) && Items(items, engine) && Before(s, resume, items)
    ensures AllQuiet(ScanItems(s, items, resume, floor, asOf), items, resume, floor)
    decreases |items|
  {
    hide Sound, Before, ScanBucket, Presents, Quiet;
    if items != [] {
      var head := items[0];
      assert Items(items[1..], engine);
      if Skipped(resume, floor, head.endTs) {
        BeforeRest(s, resume, items);
        ScanLeavesAllQuiet(s, engine, items[1..], resume, floor, asOf);
      } else if head.settled {
        var alreadyRead := AlreadyRead(resume, head.endTs);
        var mid := ScanBucket(s, head.endTs, head.found, head.hash, asOf, alreadyRead);
        BeforeNext(s, engine, resume, items, asOf);
        ScanKeepsSound(s, engine, head.endTs, head.found, head.hash, asOf, alreadyRead);
        ScannedIsQuiet(s, engine, head, asOf, alreadyRead);
        ScanLeavesAllQuiet(mid, engine, items[1..], resume, floor, asOf);
        QuietKept(mid, engine, items[1..], resume, floor, asOf, head);
      } else {
        BeforeIsUnreached(s, resume, items);
      }
    }
  }

  lemma BeforeIsUnreached(s: Store, resume: Option<int>, items: seq<Item>)
    requires Before(s, resume, items) && items != []
    ensures Unreached(s, resume, items[0].endTs)
  {
  }

  lemma QuietScanWritesNothing(t: Store, item: Item, asOf: int, alreadyRead: bool)
    requires Quiet(t, item) && Serial(t.rows) && OneGonePerFact(t.gone)
    ensures ScanBucket(t, item.endTs, item.found, item.hash, asOf, alreadyRead) == t
  {
    hide Holds, Retires, ReconcileRows, Active;
    RecordAllHeld(t, item.endTs, item.found, item.hash, asOf);
    if alreadyRead { NothingApplied(t, item.endTs, item.found, item.hash, asOf); }
  }

  lemma {:induction false} QuietRescan(t: Store, items: seq<Item>, resume: Option<int>, again: Option<int>, floor: Option<int>, later: int)
    requires AllQuiet(t, items, resume, floor) && Serial(t.rows) && OneGonePerFact(t.gone)
    requires again == LastEnd(t.rows) && forall e :: AlreadyRead(resume, e) ==> AlreadyRead(again, e)
    ensures ScanItems(t, items, again, floor, later) == t
    decreases |items|
  {
    hide ScanBucket, Quiet, Serial, OneGonePerFact;
    if items != [] {
      var head := items[0];
      if Skipped(resume, floor, head.endTs) {
        QuietRescan(t, items[1..], resume, again, floor, later);
      } else if head.settled {
        QuietScanWritesNothing(t, head, later, AlreadyRead(again, head.endTs));
        QuietRescan(t, items[1..], resume, again, floor, later);
      } else {
        UnreachedStaysUnread(t, resume, head.endTs);
      }
    }
  }

  lemma UnreachedStaysUnread(t: Store, resume: Option<int>, endTs: int)
    requires Unreached(t, resume, endTs)
    ensures AlreadyRead(LastEnd(t.rows), endTs) ==> AlreadyRead(resume, endTs)
  {
    var last := LastEnd(t.rows);
    if last.Some? {
      var r :| r in t.rows && r.endTs == last.value;
    }
  }

  /** Running a whole scan again on the same data, at any later watermark, writes nothing. */
  lemma RerunWritesNothing(s: Store, engine: Engine, items: seq<Item>, floor: Option<int>, asOf: int, later: int)
    requires Sound(s, engine) && Items(items, engine)
    ensures ScanOne(ScanOne(s, items, floor, asOf), items, floor, later) == ScanOne(s, items, floor, asOf)
  {
    var t, resume := ScanOne(s, items, floor, asOf), LastEnd(s.rows);
    StartsBefore(s, items);
    ScanLeavesAllQuiet(s, engine, items, resume, floor, asOf);
    ScanItemsKeepSound(s, engine, items, resume, floor, asOf);
    ScanItemsStamped(s, engine, items, resume, floor, asOf);
    hide ScanItems, AllQuiet, Items;
    LaterLastEnd(s.rows, t.rows);
    QuietRescan(t, items, resume, LastEnd(t.rows), floor, later);
  }

  lemma LaterLastEnd(a: seq<Row>, b: seq<Row>)
    requires a <= b
    ensures forall e :: AlreadyRead(LastEnd(a), e) ==> AlreadyRead(LastEnd(b), e)
  {
    var last := LastEnd(a);
    if last.Some? {
      var x :| x in a && x.endTs == last.value;
      PrefixMember(a, b, x);
    }
  }

  // ---- views as of an earlier watermark -----------------------------------------------------------------------------------

  /** Everything `t` adds to `s` is stamped `at`. */
  ghost predicate Stamped(s: Store, t: Store, at: int) {
    && s.rows <= t.rows && s.gone <= t.gone
    && (forall i :: |s.rows| <= i < |t.rows| ==> t.rows[i].dataAsOf == at)
    && (forall i :: |s.gone| <= i < |t.gone| ==> t.gone[i].at == at)
  }

  lemma {:induction false} ScanItemsStamped(s: Store, engine: Engine, items: seq<Item>, resume: Option<int>, floor: Option<int>, asOf: int)
    requires Sound(s, engine) && Items(items, engine) && Before(s, resume, items)
    ensures Stamped(s, ScanItems(s, items, resume, floor, asOf), asOf)
    decreases |items|
  {
    hide Sound, Before, ScanBucket, Presents, Stamped;
    if items == [] {
      NothingStamped(s, asOf);
    } else {
      var item := items[0];
      assert Items(items[1..], engine);
      if Skipped(resume, floor, item.endTs) {
        BeforeRest(s, resume, items);
        ScanItemsStamped(s, engine, items[1..], resume, floor, asOf);
      } else if item.settled {
        var alreadyRead := AlreadyRead(resume, item.endTs);
        var mid := ScanBucket(s, item.endTs, item.found, item.hash, asOf, alreadyRead);
        BeforeNext(s, engine, resume, items, asOf);
        ScanKeepsSound(s, engine, item.endTs, item.found, item.hash, asOf, alreadyRead);
        BucketStamped(s, engine, item.endTs, item.found, item.hash, asOf, alreadyRead);
        ScanItemsStamped(mid, engine, items[1..], resume, floor, asOf);
        StampedTwice(s, mid, ScanItems(mid, items[1..], resume, floor, asOf), asOf);
      } else {
        NothingStamped(s, asOf);
      }
    }
  }

  lemma NothingStamped(s: Store, at: int)
    ensures Stamped(s, s, at)
  {
  }

  lemma StampedTwice(s: Store, mid: Store, t: Store, at: int)
    requires Stamped(s, mid, at) && Stamped(mid, t, at)
    ensures Stamped(s, t, at)
  {
    forall i | |s.rows| <= i < |t.rows| ensures t.rows[i].dataAsOf == at {
      if i < |mid.rows| { assert t.rows[i] == mid.rows[i]; }
    }
    forall i | |s.gone| <= i < |t.gone| ensures t.gone[i].at == at {
      if i < |mid.gone| { assert t.gone[i] == mid.gone[i]; }
    }
  }

  lemma BucketStamped(s: Store, engine: Engine, endTs: int, found: seq<Reading>, hash: int, asOf: int, alreadyRead: bool)
    requires Sound(s, engine) && Presents(s, engine, endTs, found, hash, alreadyRead)
    ensures Stamped(s, ScanBucket(s, endTs, found, hash, asOf, alreadyRead), asOf)
  {
    ScanShape(s, engine, endTs, found, hash, asOf, alreadyRead);
    hide ScanBucket, RecordAll, IsGone;
  }

  /** Nothing in the store is stamped after `at`. */
  ghost predicate KnownBy(s: Store, at: int) {
    (forall r :: r in s.rows ==> r.dataAsOf <= at) && (forall g :: g in s.gone ==> g.at <= at)
  }

  /** The view as of a watermark is the view right after the scan with that watermark, if everything later is stamped later. */
  lemma {:induction false} ViewIsFinal(s: Store, t: Store, endTs: int, asOf: int)
    requires KnownBy(s, asOf) && s.rows <= t.rows && s.gone <= t.gone
    requires forall i :: |s.rows| <= i < |t.rows| ==> t.rows[i].dataAsOf > asOf
    requires forall i :: |s.gone| <= i < |t.gone| ==> t.gone[i].at > asOf
    ensures ActiveAsOf(t, endTs, asOf) == Active(s, endTs)
  {
    forall id ensures IsGoneBy(t.gone, id, asOf) <==> IsGone(s.gone, id) {
      if g :| g in t.gone && g.factId == id && g.at <= asOf {
        var i :| 0 <= i < |t.gone| && t.gone[i] == g;
        assert g == s.gone[i] && g in s.gone;
      }
      if g :| g in s.gone && g.factId == id { assert g in t.gone; }
    }
    hide IsGone, IsGoneBy;
    var more := t.rows[|s.rows|..];
    assert t.rows == s.rows + more;
    FilterConcat(s.rows, more, ActiveBy(t.gone, endTs, asOf));
    forall r | r in more ensures !ActiveBy(t.gone, endTs, asOf)(r) {
      var i :| 0 <= i < |more| && more[i] == r;
      assert t.rows[|s.rows| + i] == r;
    }
    FilterNone(more, ActiveBy(t.gone, endTs, asOf));
    FilterAgree(s.rows, ActiveBy(t.gone, endTs, asOf), StillActive(s.gone, endTs));
  }

  ghost predicate Increasing(scans: seq<Scan>) {
    forall i, j :: 0 <= i < j < |scans| ==> scans[i].asOf < scans[j].asOf
  }

  /** `t` continues `s`: whatever it adds is stamped after `at`. */
  ghost predicate Continues(s: Store, t: Store, at: int) {
    && s.rows <= t.rows && s.gone <= t.gone
    && (forall i :: |s.rows| <= i < |t.rows| ==> t.rows[i].dataAsOf > at)
    && (forall i :: |s.gone| <= i < |t.gone| ==> t.gone[i].at > at)
  }

  lemma {:induction false} LaterScansContinue(scans: seq<Scan>, engine: Engine, k: nat)
    requires forall n :: 0 <= n < |scans| ==> Items(scans[n].items, engine)
    requires Increasing(scans) && 1 <= k <= |scans|
    ensures KnownBy(StoreAfter(scans[..k]), scans[k - 1].asOf)
    ensures Continues(StoreAfter(scans[..k]), StoreAfter(scans), scans[k - 1].asOf)
    decreases |scans|
  {
    hide *;
    var most, at := scans[..|scans| - 1], scans[|scans| - 1].asOf;
    LastScanStamped(scans, engine);
    if k < |scans| {
      EarlierScans(scans, engine);
      assert scans[..k] == most[..k];
      LaterScansContinue(most, engine, k);
      ContinuesStamped(StoreAfter(scans[..k]), StoreAfter(most), StoreAfter(scans), scans[k - 1].asOf, at);
    } else {
      assert scans[..k] == scans;
      LatestKnown(scans, most, engine, StoreAfter(most), StoreAfter(scans), at);
    }
  }

  /** The last of a history of scans stamps whatever it writes with its own watermark. */
  lemma LastScanStamped(scans: seq<Scan>, engine: Engine)
    requires scans != [] && forall n :: 0 <= n < |scans| ==> Items(scans[n].items, engine)
    ensures Stamped(StoreAfter(scans[..|scans| - 1]), StoreAfter(scans), scans[|scans| - 1].asOf)
  {
    hide *;
    var most, last := scans[..|scans| - 1], scans[|scans| - 1];
    assert forall i :: 0 <= i < |most| ==> most[i] == scans[i];
    EveryStoreIsSound(most, engine);
    var before := StoreAfter(most);
    StartsBefore(before, last.items);
    ScanItemsStamped(before, engine, last.items, LastEnd(before.rows), last.floor, last.asOf);
    StoreAfterLast(scans);
  }

  lemma EarlierScans(scans: seq<Scan>, engine: Engine)
    requires Increasing(scans) && scans != [] && forall n :: 0 <= n < |scans| ==> Items(scans[n].items, engine)
    ensures var most := scans[..|scans| - 1];
            && Increasing(most) && (forall n :: 0 <= n < |most| ==> Items(most[n].items, engine) && most[n] == scans[n])
            && forall k :: 0 <= k < |most| ==> scans[k].asOf < scans[|scans| - 1].asOf
  {
    hide Items;
  }

  lemma StoreAfterLast(scans: seq<Scan>)
    requires scans != []
    ensures var before, last := StoreAfter(scans[..|scans| - 1]), scans[|scans| - 1];
            StoreAfter(scans) == ScanItems(before, last.items, LastEnd(before.rows), last.floor, last.asOf)
  {
    hide ScanItems, LastEnd;
  }

  lemma ContinuesStamped(s: Store, mid: Store, t: Store, at: int, later: int)
    requires Continues(s, mid, at) && Stamped(mid, t, later) && at < later
    ensures Continues(s, t, at)
  {
    forall i | |s.rows| <= i < |t.rows| ensures t.rows[i].dataAsOf > at {
      if i < |mid.rows| { assert t.rows[i] == mid.rows[i]; }
    }
    forall i | |s.gone| <= i < |t.gone| ensures t.gone[i].at > at {
      if i < |mid.gone| { assert t.gone[i] == mid.gone[i]; }
    }
  }

  lemma LatestKnown(scans: seq<Scan>, most: seq<Scan>, engine: Engine, before: Store, after: Store, at: int)
    requires scans != [] && most == scans[..|scans| - 1] && at == scans[|scans| - 1].asOf
    requires Increasing(scans) && forall n :: 0 <= n < |scans| ==> Items(scans[n].items, engine)
    requires before == StoreAfter(most) && Stamped(before, after, at)
    ensures KnownBy(after, at) && Continues(after, after, at)
    decreases |scans|, 0
  {
    hide Items, KnownBy, Stamped, Continues, Increasing;
    if most == [] {
      NothingKnown(at);
    } else {
      EarlierScans(scans, engine);
      LaterScansContinue(most, engine, |most|);
      assert most[..|most|] == most;
      KnownLater(before, most[|most| - 1].asOf, at);
    }
    StampedKnown(before, after, at);
    ContinuesItself(after, at);
  }

  lemma NothingKnown(at: int)
    ensures KnownBy(Store([], []), at)
  {
  }

  lemma KnownLater(s: Store, at: int, later: int)
    requires KnownBy(s, at) && at <= later
    ensures KnownBy(s, later)
  {
  }

  lemma ContinuesItself(s: Store, at: int)
    ensures Continues(s, s, at)
  {
  }

  lemma StampedKnown(s: Store, t: Store, at: int)
    requires KnownBy(s, at) && Stamped(s, t, at)
    ensures KnownBy(t, at)
  {
    forall r | r in t.rows ensures r.dataAsOf <= at {
      var i :| 0 <= i < |t.rows| && t.rows[i] == r;
      if i < |s.rows| { assert r in s.rows; }
    }
    forall g | g in t.gone ensures g.at <= at {
      var i :| 0 <= i < |t.gone| && t.gone[i] == g;
      if i < |s.gone| { assert g in s.gone; }
    }
  }

  /**
   * Bitemporal stability. With strictly increasing watermarks, asking after any number of later scans what was active as
   * of the k-th scan answers what was active right after it.
   */
  lemma ThePastStaysAsItWas(scans: seq<Scan>, engine: Engine, k: nat, endTs: int)
    requires forall n :: 0 <= n < |scans| ==> Items(scans[n].items, engine)
    requires Increasing(scans) && 1 <= k <= |scans|
    ensures ActiveAsOf(StoreAfter(scans), endTs, scans[k - 1].asOf) == Active(StoreAfter(scans[..k]), endTs)
  {
    LaterScansContinue(scans, engine, k);
    hide StoreAfter, Items, ActiveAsOf, Active;
    ViewIsFinal(StoreAfter(scans[..k]), StoreAfter(scans), endTs, scans[k - 1].asOf);
  }
}
