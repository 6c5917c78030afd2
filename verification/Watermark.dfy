/** The ingestion lock protocol, one database step at a time, under any interleaving of processes. */
module Watermark {
  import opened Prelude
  import opened BarStore

  /** What the holder of the ingestion lock is doing; `stamp` is set once it has read the clock. */
  datatype Work = Ingesting(stamp: Option<int>) | Reading(stamp: Option<int>)

  datatype Holder = Holder(process: nat, work: Work)

  datatype World = World(batches: seq<Batch>, holder: Option<Holder>, clock: int, watermarks: set<int>)

  datatype Step =
    | TakeLock(process: nat, reading: bool)
    | ReadClock(process: nat, instant: int)
    | CommitBatch(process: nat, batch: Batch)  // the commit and the release of the lock are one step
    | ReturnWatermark(process: nat)
    | Abort(process: nat)

  ghost predicate Holds(w: World, process: nat) { w.holder.Some? && w.holder.value.process == process }

  /** A step is enabled only for the process it belongs to; the clock strictly advances between lock holders. */
  ghost predicate Enabled(w: World, s: Step) {
    match s
    case TakeLock(_, _) => w.holder.None?
    case ReadClock(p, instant) => Holds(w, p) && w.holder.value.work.stamp.None? && w.clock < instant
    case CommitBatch(p, b) =>
      Holds(w, p) && w.holder.value.work.Ingesting? && w.holder.value.work.stamp == Some(b.ingestedAt)
    case ReturnWatermark(p) => Holds(w, p) && w.holder.value.work.Reading? && w.holder.value.work.stamp.Some?
    case Abort(p) => Holds(w, p)
  }

  ghost function Next(w: World, s: Step): World
    requires Enabled(w, s)
  {
    match s
    case TakeLock(p, reading) => w.(holder := Some(Holder(p, if reading then Reading(None) else Ingesting(None))))
    case ReadClock(p, instant) =>
      var work := w.holder.value.work;
      w.(clock := instant,
         holder := Some(Holder(p, if work.Reading? then Reading(Some(instant)) else Ingesting(Some(instant)))))
    case CommitBatch(_, b) => w.(batches := w.batches + [b], holder := None)
    case ReturnWatermark(_) => w.(watermarks := w.watermarks + {w.holder.value.work.stamp.value}, holder := None)
    case Abort(_) => w.(holder := None)
  }

  ghost predicate RunFrom(w: World, steps: seq<Step>)
    decreases |steps|
  {
    steps == [] || (Enabled(w, steps[0]) && RunFrom(Next(w, steps[0]), steps[1..]))
  }

  ghost function After(w: World, steps: seq<Step>): World
    requires RunFrom(w, steps)
    decreases |steps|
  {
    if steps == [] then w else After(Next(w, steps[0]), steps[1..])
  }

  /** Nothing committed or returned lies in the future, and an ingestion in flight is stamped after every watermark. */
  ghost predicate Safe(w: World) {
    && (forall b :: b in w.batches ==> b.ingestedAt <= w.clock)
    && (forall t :: t in w.watermarks ==> t <= w.clock)
    && (w.holder.Some? && w.holder.value.work.stamp.Some? ==>
          var stamp := w.holder.value.work.stamp.value;
          stamp <= w.clock && (w.holder.value.work.Ingesting? ==> forall t :: t in w.watermarks ==> t < stamp))
  }

  const Start := World([], None, 0, {})

  lemma {:induction false} RunIsSafe(w: World, steps: seq<Step>)
    requires Safe(w) && RunFrom(w, steps)
    ensures Safe(After(w, steps))
    decreases |steps|
  {
    if steps != [] { RunIsSafe(Next(w, steps[0]), steps[1..]); }
  }

  /** From a safe world, every batch a run still commits is stamped after every watermark already returned. */
  lemma {:induction false} LaterCommits(w: World, steps: seq<Step>) returns (later: seq<Batch>)
    requires Safe(w) && RunFrom(w, steps)
    ensures After(w, steps).batches == w.batches + later
    ensures forall b, t :: b in later && t in w.watermarks ==> t < b.ingestedAt
    decreases |steps|
  {
    later := [];
    if steps != [] {
      var next := Next(w, steps[0]);
      var rest := LaterCommits(next, steps[1..]);
      later := (if steps[0].CommitBatch? then [steps[0].batch] else []) + rest;
      assert w.batches + later == next.batches + rest;
    }
  }

  /**
   * Watermark safety: take any run, and any watermark returned during its first part. Nothing the second part does
   * commits a batch at or before that watermark, and every read as of it is identical before and after.
   */
  lemma WatermarkIsFinal(before: seq<Step>, after: seq<Step>, asOf: int, feed: Feed, start: int, end: int)
    requires RunFrom(Start, before) && RunFrom(After(Start, before), after)
    requires asOf in After(Start, before).watermarks
    ensures var now, later := After(Start, before).batches, After(After(Start, before), after).batches;
            && now <= later
            && (forall i :: |now| <= i < |later| ==> asOf < later[i].ingestedAt)
            && ReadAsOf(later, feed, start, end, asOf) == ReadAsOf(now, feed, start, end, asOf)
  {
    RunIsSafe(Start, before);
    var later := LaterCommits(After(Start, before), after);
    ReadStable(After(Start, before).batches, later, feed, start, end, asOf);
  }

  // ---- what a run leaves behind ----------------------------------------------------------------------------

  /** The batches a run commits, in order. */
  ghost function Committed(steps: seq<Step>): seq<Batch> {
    if steps == [] then []
    else Committed(steps[..|steps| - 1]) + (if steps[|steps| - 1].CommitBatch? then [steps[|steps| - 1].batch] else [])
  }

  /** Up to the k-th step, that process took the lock, read the clock at `instant`, and nothing came in between. */
  ghost predicate Locked(steps: seq<Step>, k: nat, process: nat, reading: bool, instant: int) {
    2 <= k <= |steps| && steps[k - 2] == TakeLock(process, reading) && steps[k - 1] == ReadClock(process, instant)
  }

  ghost predicate Returned(steps: seq<Step>, k: nat, asOf: int) {
    k < |steps| && steps[k].ReturnWatermark? && Locked(steps, k, steps[k].process, true, asOf)
  }

  /** A world after some steps: batches, watermarks and holder are what the steps say. */
  ghost predicate Told(w: World, steps: seq<Step>) {
    && w.batches == Committed(steps)
    && (forall t :: t in w.watermarks <==> exists k: nat :: Returned(steps, k, t))
    && (forall k: nat :: k < |steps| && steps[k].CommitBatch? ==>
          Locked(steps, k, steps[k].process, false, steps[k].batch.ingestedAt))
    && (w.holder.Some? ==>
          var h := w.holder.value;
          if h.work.stamp.Some? then Locked(steps, |steps|, h.process, h.work.Reading?, h.work.stamp.value)
          else steps != [] && steps[|steps| - 1] == TakeLock(h.process, h.work.Reading?))
  }

  lemma ToldNext(w: World, steps: seq<Step>, s: Step)
    requires Told(w, steps) && Enabled(w, s)
    ensures Told(Next(w, s), steps + [s])
  {
    var next, all := Next(w, s), steps + [s];
    assert all[..|all| - 1] == steps;
    assert forall k: nat :: k < |steps| ==> all[k] == steps[k];
    forall t ensures t in next.watermarks <==> exists k: nat :: Returned(all, k, t) {
      if k: nat :| Returned(steps, k, t) { assert Returned(all, k, t); }
      if s.ReturnWatermark? && t == w.holder.value.work.stamp.value { assert Returned(all, |steps|, t); }
      if k: nat :| Returned(all, k, t) {
        if k < |steps| { assert Returned(steps, k, t); }
      }
    }
  }

  lemma {:induction false} ToldRun(w: World, past: seq<Step>, steps: seq<Step>)
    requires Told(w, past) && RunFrom(w, steps)
    ensures Told(After(w, steps), past + steps)
    decreases |steps|
  {
    hide Told, Enabled, Next;
    if steps == [] {
      assert past + steps == past;
    } else {
      ToldNext(w, past, steps[0]);
      assert (past + [steps[0]]) + steps[1..] == past + steps;
      ToldRun(Next(w, steps[0]), past + [steps[0]], steps[1..]);
    }
  }

  /**
   * Nothing else is stored or promised. In any interleaving the stored batches are those committed, in that order, each stamped
   * with the instant its process read under the lock it had just taken; and an instant is a watermark if and only if a process
   * read it under the lock, taken for reading, and returned it.
   */
  lemma WorldIsItsSteps(steps: seq<Step>, asOf: int)
    requires RunFrom(Start, steps)
    ensures After(Start, steps).batches == Committed(steps)
    ensures asOf in After(Start, steps).watermarks <==> exists k: nat :: Returned(steps, k, asOf)
    ensures forall k: nat :: k < |steps| && steps[k].CommitBatch? ==> Locked(steps, k, steps[k].process, false, steps[k].batch.ingestedAt)
  {
    assert Told(Start, []);
    ToldRun(Start, [], steps);
    assert [] + steps == steps;
    hide After, RunFrom, Committed, Returned, Locked;
  }
}
