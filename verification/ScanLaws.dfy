/** What one scan of a series does to each bucket: those it visits end up as the engine reads them now, all others stay. */
module ScanLaws {
  import opened Prelude
  import opened Supersession

  /** A scan looks at a candle when it is newer than everything on record, or when it lies in the revisited sessions. */
  ghost predicate Visited(rows: seq<Row>, floor: Option<int>, endTs: int) {
    (forall r :: r in rows ==> r.endTs < endTs) || (floor.Some? && floor.value <= endTs)
  }

  /** No visited candle up to the i-th is still unsettled, so the scan gets there. */
  ghost predicate Reached(rows: seq<Row>, items: seq<Item>, floor: Option<int>, i: nat) {
    i < |items| && forall j :: 0 <= j <= i && Visited(rows, floor, items[j].endTs) ==> items[j].settled
  }

  /** Two stores hold the same rows of a bucket, and have retired the same of them. */
  ghost predicate SameBucket(s: Store, t: Store, endTs: int) {
    && (forall r: Row :: r.endTs == endTs ==> (r in s.rows <==> r in t.rows))
    && (forall r: Row :: r.endTs == endTs && r in s.rows ==> (IsGone(s.gone, r.id) <==> IsGone(t.gone, r.id)))
  }

  lemma SkippedIffNotVisited(rows: seq<Row>, floor: Option<int>, endTs: int)
    ensures Skipped(LastEnd(rows), floor, endTs) <==> !Visited(rows, floor, endTs)
  {
    hide LastEnd;
  }

  lemma SameThen(s: Store, t: Store, u: Store, endTs: int)
    requires SameBucket(s, t, endTs) && SameBucket(t, u, endTs)
    ensures SameBucket(s, u, endTs)
  {
    hide IsGone;
  }

  lemma SameItself(s: Store, endTs: int)
    ensures SameBucket(s, s, endTs)
  {
  }

  /** Scanning one bucket leaves the rows and the retirements of every other bucket alone. */
  lemma OneBucketOnly(s: Store, engine: Engine, item: Item, asOf: int, alreadyRead: bool, endTs: int)
    requires Sound(s, engine) && Presents(s, engine, item.endTs, item.found, item.hash, alreadyRead) && endTs != item.endTs
    ensures SameBucket(s, ScanBucket(s, item.endTs, item.found, item.hash, asOf, alreadyRead), endTs)
  {
    hide *;
    var t := ScanBucket(s, item.endTs, item.found, item.hash, asOf, alreadyRead);
    var recorded := RecordAll(s, item.endTs, item.found, item.hash, asOf);
    SoundParts(s, engine);
    ScanShape(s, engine, item.endTs, item.found, item.hash, asOf, alreadyRead);
    RecordedKeepsGone(s, recorded, item.endTs, item.found, item.hash, asOf);
    StoredMembers(s, recorded, item.endTs, item.found, item.hash, asOf);
    SerialIds(t.rows);
    PrefixRows(s.rows, t.rows);
    BucketIsSame(s, t, item.found, Active(recorded, item.endTs), endTs, item.endTs);
  }

  lemma PrefixRows(a: seq<Row>, b: seq<Row>)
    requires a <= b
    ensures forall r :: r in a ==> r in b
  {
    forall r | r in a ensures r in b { PrefixMember(a, b, r); }
  }

  lemma BucketIsSame(s: Store, t: Store, found: seq<Reading>, stored: seq<Row>, endTs: int, scanned: int)
    requires endTs != scanned && DistinctIds(t.rows)
    requires (forall r :: r in s.rows ==> r in t.rows) && forall r :: r in t.rows && r !in s.rows ==> r.endTs == scanned
    requires forall r :: r in stored ==> r in t.rows && r.endTs == scanned
    requires forall id :: IsGone(t.gone, id) <==> IsGone(s.gone, id) || exists r: Row :: r.id == id && Retires(found, stored, r)
    ensures SameBucket(s, t, endTs)
  {
    hide IsGone, Retires, DistinctIds;
    forall r: Row | r.endTs == endTs && r in s.rows ensures IsGone(s.gone, r.id) <==> IsGone(t.gone, r.id) {
      SameFactOnly(t.rows, found, stored, r);
    }
  }

  ghost predicate Gets(items: seq<Item>, resume: Option<int>, floor: Option<int>, i: nat) {
    i < |items| && forall j :: 0 <= j <= i && !Skipped(resume, floor, items[j].endTs) ==> items[j].settled
  }

  lemma GetsRest(items: seq<Item>, resume: Option<int>, floor: Option<int>, i: nat)
    requires items != [] && (Skipped(resume, floor, items[0].endTs) || items[0].settled) && i < |items| - 1
    ensures Gets(items[1..], resume, floor, i) <==> Gets(items, resume, floor, i + 1)
  {
    hide Skipped;
    assert forall j :: 0 < j < |items| ==> items[j] == items[1..][j - 1];
    if Gets(items[1..], resume, floor, i) {
      forall j | 0 <= j <= i + 1 && !Skipped(resume, floor, items[j].endTs) ensures items[j].settled {
        if j > 0 { assert items[1..][j - 1] == items[j]; }
      }
    }
    if Gets(items, resume, floor, i + 1) {
      forall j | 0 <= j <= i && !Skipped(resume, floor, items[1..][j].endTs) ensures items[1..][j].settled {
        assert items[1..][j] == items[j + 1];
      }
    }
  }

  /** A bucket the scan does not get to, or skips, is left alone. */
  lemma {:induction false} OthersStay(s: Store, engine: Engine, items: seq<Item>, resume: Option<int>, floor: Option<int>, asOf: int, endTs: int)
    requires Sound(s, engine) && Items(items, engine) && Before(s, resume, items)
    requires forall i: nat :: Gets(items, resume, floor, i) && !Skipped(resume, floor, items[i].endTs) ==> items[i].endTs != endTs
    ensures SameBucket(s, ScanItems(s, items, resume, floor, asOf), endTs)
    decreases |items|
  {
    hide Sound, Before, ScanBucket, Presents, SameBucket, Skipped, Gets;
    if items == [] {
      SameItself(s, endTs);
    } else {
      var item := items[0];
      assert Items(items[1..], engine);
      var alreadyRead := AlreadyRead(resume, item.endTs);
      if Skipped(resume, floor, item.endTs) || item.settled {
        forall i: nat | Gets(items[1..], resume, floor, i) ensures i < |items[1..]| { GetsWithin(items[1..], resume, floor, i); }
        forall i: nat | Gets(items[1..], resume, floor, i) && !Skipped(resume, floor, items[1..][i].endTs)
          ensures items[1..][i].endTs != endTs
        {
          GetsRest(items, resume, floor, i);
          assert items[1..][i] == items[i + 1];
        }
      }
      if Skipped(resume, floor, item.endTs) {
        BeforeRest(s, resume, items);
        OthersStay(s, engine, items[1..], resume, floor, asOf, endTs);
      } else if item.settled {
        FirstGets(items, resume, floor);
        BeforeNext(s, engine, resume, items, asOf);
        ScanKeepsSound(s, engine, item.endTs, item.found, item.hash, asOf, alreadyRead);
        OneBucketOnly(s, engine, item, asOf, alreadyRead, endTs);
        var t := ScanBucket(s, item.endTs, item.found, item.hash, asOf, alreadyRead);
        OthersStay(t, engine, items[1..], resume, floor, asOf, endTs);
        SameThen(s, t, ScanItems(t, items[1..], resume, floor, asOf), endTs);
      } else {
        SameItself(s, endTs);
      }
    }
  }

  lemma GetsWithin(items: seq<Item>, resume: Option<int>, floor: Option<int>, i: nat)
    requires Gets(items, resume, floor, i)
    ensures i < |items|
  {
  }

  lemma FirstGets(items: seq<Item>, resume: Option<int>, floor: Option<int>)
    requires items != [] && items[0].settled
    ensures Gets(items, resume, floor, 0)
  {
  }

  /** From store to store, what is active in the item's bucket becomes what is found, unless some of it had been retired. */
  ghost predicate AsScanned(s: Store, t: Store, item: Item) {
    (forall x :: IsActive(t, item.endTs, x) <==> x in item.found) <==> (forall x :: x in item.found ==> !WasRetired(s, item.endTs, x))
  }

  lemma SameActive(s: Store, t: Store, endTs: int, x: Reading)
    requires SameBucket(s, t, endTs)
    ensures IsActive(s, endTs, x) <==> IsActive(t, endTs, x)
    ensures WasRetired(s, endTs, x) <==> WasRetired(t, endTs, x)
  {
    hide IsGone;
  }

  lemma AsScannedMoves(s: Store, t: Store, u: Store, v: Store, item: Item)
    requires SameBucket(s, t, item.endTs) && SameBucket(u, v, item.endTs) && AsScanned(t, u, item)
    ensures AsScanned(s, v, item)
  {
    hide SameBucket, IsActive, WasRetired;
    forall x ensures IsActive(u, item.endTs, x) <==> IsActive(v, item.endTs, x) { SameActive(u, v, item.endTs, x); }
    forall x ensures WasRetired(s, item.endTs, x) <==> WasRetired(t, item.endTs, x) { SameActive(s, t, item.endTs, x); }
  }

  lemma LaterItems(items: seq<Item>, engine: Engine)
    requires Items(items, engine) && items != []
    ensures Items(items[1..], engine) && forall i :: 0 <= i < |items[1..]| ==> items[1..][i].endTs != items[0].endTs
  {
  }

  lemma {:induction false} ItemIsScanned(s: Store, engine: Engine, items: seq<Item>, resume: Option<int>, floor: Option<int>, asOf: int, i: nat)
    requires Sound(s, engine) && Items(items, engine) && Before(s, resume, items)
    requires Gets(items, resume, floor, i) && i < |items| && !Skipped(resume, floor, items[i].endTs)
    ensures AsScanned(s, ScanItems(s, items, resume, floor, asOf), items[i])
    decreases |items|
  {
    hide Sound, Before, ScanBucket, Presents, SameBucket, Skipped, Gets, Items, AsScanned;
    var item := items[0];
    var alreadyRead := AlreadyRead(resume, item.endTs);
    LaterItems(items, engine);
    HeadPasses(items, resume, floor, i);
    if Skipped(resume, floor, item.endTs) {
      BeforeRest(s, resume, items);
      GetsRest(items, resume, floor, i - 1);
      ItemIsScanned(s, engine, items[1..], resume, floor, asOf, i - 1);
    } else {
      var t := ScanBucket(s, item.endTs, item.found, item.hash, asOf, alreadyRead);
      var u := ScanItems(t, items[1..], resume, floor, asOf);
      BeforeNext(s, engine, resume, items, asOf);
      ScanKeepsSound(s, engine, item.endTs, item.found, item.hash, asOf, alreadyRead);
      if i == 0 {
        ScannedAlone(s, engine, item, asOf, alreadyRead);
        NotThere(items[1..], resume, floor, item.endTs);
        OthersStay(t, engine, items[1..], resume, floor, asOf, item.endTs);
        SameItself(s, item.endTs);
        AsScannedMoves(s, s, t, u, item);
      } else {
        OneBucketOnly(s, engine, item, asOf, alreadyRead, items[1..][i - 1].endTs);
        GetsRest(items, resume, floor, i - 1);
        ItemIsScanned(t, engine, items[1..], resume, floor, asOf, i - 1);
        SameItself(u, items[i].endTs);
        AsScannedMoves(s, t, u, u, items[i]);
      }
    }
  }

  lemma HeadPasses(items: seq<Item>, resume: Option<int>, floor: Option<int>, i: nat)
    requires Gets(items, resume, floor, i)
    ensures items != [] && (Skipped(resume, floor, items[0].endTs) || items[0].settled)
  {
    hide Skipped;
  }

  lemma NotThere(items: seq<Item>, resume: Option<int>, floor: Option<int>, endTs: int)
    requires forall i :: 0 <= i < |items| ==> items[i].endTs != endTs
    ensures forall i: nat :: Gets(items, resume, floor, i) && !Skipped(resume, floor, items[i].endTs) ==> items[i].endTs != endTs
  {
    hide Skipped;
  }

  lemma ScannedAlone(s: Store, engine: Engine, item: Item, asOf: int, alreadyRead: bool)
    requires Sound(s, engine) && Presents(s, engine, item.endTs, item.found, item.hash, alreadyRead)
    ensures AsScanned(s, ScanBucket(s, item.endTs, item.found, item.hash, asOf, alreadyRead), item)
  {
    hide Sound, Presents, ScanBucket, IsActive, WasRetired;
    ActiveIsFound(s, engine, item.endTs, item.found, item.hash, asOf, alreadyRead);
  }

  lemma ReachedGets(rows: seq<Row>, items: seq<Item>, floor: Option<int>, i: nat)
    ensures Reached(rows, items, floor, i) <==> Gets(items, LastEnd(rows), floor, i)
  {
    hide Skipped, Visited, LastEnd;
    forall j | 0 <= j <= i && j < |items|
      ensures Skipped(LastEnd(rows), floor, items[j].endTs) <==> !Visited(rows, floor, items[j].endTs)
    {
      SkippedIffNotVisited(rows, floor, items[j].endTs);
    }
  }

  /**
   * What a scan of a series leaves behind, bucket by bucket. In every bucket it visits and reaches, what is active afterwards
   * is exactly what the engine finds there now, if and only if nothing found had been retired before the scan.
   */
  lemma ScannedBucketsAreFound(s: Store, engine: Engine, items: seq<Item>, floor: Option<int>, asOf: int, i: nat)
    requires Sound(s, engine) && Items(items, engine)
    requires Reached(s.rows, items, floor, i) && Visited(s.rows, floor, items[i].endTs)
    ensures var t, item := ScanOne(s, items, floor, asOf), items[i];
            (forall x :: IsActive(t, item.endTs, x) <==> x in item.found) <==> (forall x :: x in item.found ==> !WasRetired(s, item.endTs, x))
  {
    hide Sound, Items, Before, ScanItems, IsActive, WasRetired, Skipped, Visited, LastEnd;
    StartsBefore(s, items);
    ReachedGets(s.rows, items, floor, i);
    SkippedIffNotVisited(s.rows, floor, items[i].endTs);
    ItemIsScanned(s, engine, items, LastEnd(s.rows), floor, asOf, i);
  }

  /** Every other bucket keeps its rows and its retirements. */
  lemma OtherBucketsStay(s: Store, engine: Engine, items: seq<Item>, floor: Option<int>, asOf: int, endTs: int)
    requires Sound(s, engine) && Items(items, engine)
    requires forall i: nat :: Reached(s.rows, items, floor, i) && Visited(s.rows, floor, items[i].endTs) ==> items[i].endTs != endTs
    ensures SameBucket(s, ScanOne(s, items, floor, asOf), endTs)
  {
    hide Sound, Items, Before, ScanItems, SameBucket, Skipped, Visited, LastEnd;
    StartsBefore(s, items);
    forall i: nat | Gets(items, LastEnd(s.rows), floor, i) && !Skipped(LastEnd(s.rows), floor, items[i].endTs)
      ensures items[i].endTs != endTs
    {
      ReachedGets(s.rows, items, floor, i);
      SkippedIffNotVisited(s.rows, floor, items[i].endTs);
    }
    OthersStay(s, engine, items, LastEnd(s.rows), floor, asOf, endTs);
  }

  /** A revised bucket inside the revisited sessions: the reading on record is retracted, and a floor past it leaves it active. */
  lemma RevisionIsSeenWithinTheFloor(x: Reading)
    ensures var items := [Item(10, true, 2, [])];
            && !IsActive(ScanOne(OneReading(x), items, Some(0), 200), 10, x)
            && ScanOne(OneReading(x), items, Some(11), 200) == OneReading(x)
            && ScanOne(OneReading(x), items, None, 200) == OneReading(x)
  {
    var s, items := OneReading(x), [Item(10, true, 2, [])];
    assert items[1..] == [] && s.rows[0] in s.rows;
    ThenRetracted(x);
    hide ScanBucket, IsActive, LastEnd;
    assert LastEnd(s.rows) == Some(10);
    assert ScanOne(s, items, Some(0), 200) == ScanItems(OneRetracted(x), items[1..], Some(10), Some(0), 200);
  }
}
