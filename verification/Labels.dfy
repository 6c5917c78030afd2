/** Outcome labels: which barrier a trade touches first, and its excursions, in units of risk. */
module Labels {
  import opened Prelude
  import opened Candles
  import opened Domain

  datatype BarrierResult = HitTarget | HitStop | TimedOut | NoData

  datatype BarrierOutcome = BarrierOutcome(result: BarrierResult, exitPrice: Option<real>, candlesToOutcome: Option<nat>,
                                           candlesUsed: nat, complete: bool, rMultiple: Option<real>, mfeR: Option<real>,
                                           maeR: Option<real>, ambiguous: bool, gapThrough: bool)

  /** A trade and its two barriers, on the correct sides of the entry. */
  datatype Trade = Trade(direction: Direction, entry: real, stop: real, target: real) {
    predicate Valid() {
      entry > 0.0 && if direction.Long? then stop < entry < target else target < entry < stop
    }

    function Risk(): real { if entry >= stop then entry - stop else stop - entry }

    /** A price as profit per share. */
    function Move(price: real): real { if direction.Long? then price - entry else entry - price }

    function InR(price: real): real
      requires Valid()
    {
      Quantized(Move(price) / Risk(), R_STEPS)
    }

    predicate TouchesTarget(c: Candle) { if direction.Long? then c.high >= target else c.low <= target }

    predicate TouchesStop(c: Candle) { if direction.Long? then c.low <= stop else c.high >= stop }

    predicate Touches(c: Candle) { TouchesTarget(c) || TouchesStop(c) }

    function Favourable(c: Candle): real { if direction.Long? then c.high else c.low }

    function Adverse(c: Candle): real { if direction.Long? then c.low else c.high }

    /** The better and the worse of two prices, from the trade's side. */
    function Better(a: real, b: real): real { if Move(b) > Move(a) then b else a }

    function Worse(a: real, b: real): real { if Move(b) < Move(a) then b else a }
  }

  /** The best favourable and the worst adverse price over some candles, starting from the entry. */
  function BestOver(t: Trade, candles: seq<Candle>): real {
    if candles == [] then t.entry else t.Better(BestOver(t, candles[..|candles| - 1]), t.Favourable(candles[|candles| - 1]))
  }

  function WorstOver(t: Trade, candles: seq<Candle>): real {
    if candles == [] then t.entry else t.Worse(WorstOver(t, candles[..|candles| - 1]), t.Adverse(candles[|candles| - 1]))
  }

  function FirstTouch(t: Trade, candles: seq<Candle>): (r: Option<nat>)
    ensures r.Some? ==> r.value < |candles| && t.Touches(candles[r.value]) && forall k :: 0 <= k < r.value ==> !t.Touches(candles[k])
    ensures r.None? ==> forall k :: 0 <= k < |candles| ==> !t.Touches(candles[k])
  {
    if candles == [] then None
    else if t.Touches(candles[0]) then Some(0)
    else match FirstTouch(t, candles[1..]) case None => None case Some(k) => Some(k + 1)
  }

  /** A candle that opens beyond the barrier fills at its open, never at the barrier. */
  function ExitAt(t: Trade, c: Candle): (real, bool) {
    var barrier := if t.TouchesStop(c) then t.stop else t.target;
    var gapped := if t.direction.Long? == t.TouchesStop(c) then c.open < barrier else c.open > barrier;
    (if gapped then c.open else barrier, gapped)
  }

  function Window(future: seq<Candle>, maxCandles: nat): seq<Candle> { future[..Min(|future|, maxCandles)] }

  /** The declarative label: the first touch decides, the stop wins a shared candle, and that candle's best price is ignored. */
  function Outcome(t: Trade, future: seq<Candle>, maxCandles: nat): BarrierOutcome
    requires t.Valid() && maxCandles >= 1
  {
    var window := Window(future, maxCandles);
    if window == [] then BarrierOutcome(NoData, None, None, 0, false, None, None, None, false, false)
    else
      match FirstTouch(t, window)
      case Some(k) =>
        var stopped, exit := t.TouchesStop(window[k]), ExitAt(t, window[k]);
        var best := if stopped then BestOver(t, window[..k]) else BestOver(t, window[..k + 1]);
        BarrierOutcome(if stopped then HitStop else HitTarget, Some(exit.0), Some(k + 1), k + 1, true, Some(t.InR(exit.0)),
                       Some(t.InR(best)), Some(t.InR(WorstOver(t, window[..k + 1]))),
                       stopped && t.TouchesTarget(window[k]), exit.1)
      case None =>
        var close := window[|window| - 1].close;
        BarrierOutcome(TimedOut, Some(close), None, |window|, |window| == maxCandles, Some(t.InR(close)),
                       Some(t.InR(BestOver(t, window))), Some(t.InR(WorstOver(t, window))), false, false)
  }

  lemma FirstTouchAt(t: Trade, candles: seq<Candle>, k: nat)
    requires k < |candles| && t.Touches(candles[k]) && forall j :: 0 <= j < k ==> !t.Touches(candles[j])
    ensures FirstTouch(t, candles) == Some(k)
  {
  }

  /** Walk forward candle by candle, keeping the running best and worst; None is the ValueError. */
  method TargetBeforeStop(t: Trade, future: seq<Candle>, maxCandles: nat) returns (r: Option<BarrierOutcome>)
    ensures r.Some? <==> maxCandles >= 1 && t.Valid()
    ensures r.Some? ==> r.value == Outcome(t, future, maxCandles)
  {
    if maxCandles < 1 || !t.Valid() {
      return None;
    }
    var window := Window(future, maxCandles);
    if window == [] {
      return Some(BarrierOutcome(NoData, None, None, 0, false, None, None, None, false, false));
    }
    var best, worst, k := t.entry, t.entry, 0;
    hide Trade.InR, ExitAt;
    while k < |window|
      invariant 0 <= k <= |window|
      invariant best == BestOver(t, window[..k]) && worst == WorstOver(t, window[..k])
      invariant forall j :: 0 <= j < k ==> !t.Touches(window[j])
    {
      var c := window[k];
      assert window[..k + 1][..k] == window[..k];
      var hitTarget, hitStop := t.TouchesTarget(c), t.TouchesStop(c);
      worst := t.Worse(worst, t.Adverse(c));
      if !hitStop {
        best := t.Better(best, t.Favourable(c));
      }
      if hitTarget || hitStop {
        FirstTouchAt(t, window, k);
        var exit := ExitAt(t, c);
        return Some(BarrierOutcome(if hitStop then HitStop else HitTarget, Some(exit.0), Some(k + 1), k + 1, true,
                                   Some(t.InR(exit.0)), Some(t.InR(best)), Some(t.InR(worst)), hitTarget && hitStop, exit.1));
      }
      k := k + 1;
    }
    assert window[..k] == window;
    var close := window[|window| - 1].close;
    return Some(BarrierOutcome(TimedOut, Some(close), None, |window|, |window| == maxCandles, Some(t.InR(close)),
                               Some(t.InR(best)), Some(t.InR(worst)), false, false));
  }

  // ---- laws -------------------------------------------------------------------------------------------------------

  lemma FirstTouchKept(t: Trade, a: seq<Candle>, b: seq<Candle>)
    requires a <= b && FirstTouch(t, a).Some?
    ensures FirstTouch(t, b) == FirstTouch(t, a)
  {
    FirstTouchAt(t, b, FirstTouch(t, a).value);
  }

  /** A resolved outcome is final: more candles, or permission to look further, never change it. */
  lemma ResolvedIsFinal(t: Trade, future: seq<Candle>, maxCandles: nat, longer: seq<Candle>, more: nat)
    requires t.Valid() && 1 <= maxCandles <= more && future <= longer
    requires Outcome(t, future, maxCandles).result.HitTarget? || Outcome(t, future, maxCandles).result.HitStop?
    ensures Outcome(t, longer, more) == Outcome(t, future, maxCandles)
  {
    var a, b := Window(future, maxCandles), Window(longer, more);
    assert a <= b;
    FirstTouchKept(t, a, b);
    var k := FirstTouch(t, a).value;
    assert a[..k] == b[..k] && a[..k + 1] == b[..k + 1];
    hide Trade.InR, ExitAt, FirstTouch;
  }

  lemma {:induction false} ExtremesBound(t: Trade, candles: seq<Candle>)
    ensures forall c :: c in candles ==> t.Move(BestOver(t, candles)) >= t.Move(t.Favourable(c))
    ensures forall c :: c in candles ==> t.Move(WorstOver(t, candles)) <= t.Move(t.Adverse(c))
    ensures t.Move(BestOver(t, candles)) >= 0.0 >= t.Move(WorstOver(t, candles))
  {
    if candles != [] {
      ExtremesBound(t, candles[..|candles| - 1]);
      assert forall c :: c in candles ==> c in candles[..|candles| - 1] || c == candles[|candles| - 1];
    }
  }

  /** The excursions are attained: by the entry, or by some candle that was read. */
  lemma {:induction false} ExtremesAttained(t: Trade, candles: seq<Candle>)
    ensures BestOver(t, candles) == t.entry || exists c :: c in candles && BestOver(t, candles) == t.Favourable(c)
    ensures WorstOver(t, candles) == t.entry || exists c :: c in candles && WorstOver(t, candles) == t.Adverse(c)
  {
    if candles != [] {
      ExtremesAttained(t, candles[..|candles| - 1]);
      assert candles[|candles| - 1] in candles;
      assert forall c :: c in candles[..|candles| - 1] ==> c in candles;
    }
  }

  lemma InRMonotone(t: Trade, a: real, b: real)
    requires t.Valid() && t.Move(a) <= t.Move(b)
    ensures t.InR(a) <= t.InR(b)
  {
    DivideMonotone(t.Move(a), t.Move(b), t.Risk());
    QuantizedMonotone(t.Move(a) / t.Risk(), t.Move(b) / t.Risk(), R_STEPS);
  }

  /** Being stopped costs at least one R, also after rounding; a gap can only make it worse. */
  lemma StoppedBelowMinusOne(t: Trade, price: real)
    requires t.Valid() && t.Move(price) <= -t.Risk()
    ensures t.InR(price) <= -1.0
  {
    DivideMonotone(t.Move(price), -t.Risk(), t.Risk());
    assert -t.Risk() / t.Risk() == -1.0;
    QuantizedMonotone(t.Move(price) / t.Risk(), -1.0, R_STEPS);
    assert Quantized(-1.0, R_STEPS) == -1.0;
  }

  /** A rounded multiple is positive exactly when the move exceeds half a quantum: half a quantum itself rounds to zero. */
  lemma PositiveAboveHalfQuantum(x: real)
    ensures Quantized(x, R_STEPS) > 0.0 <==> x * R_STEPS > 0.5
  {
    var y := x * R_STEPS;
    if y > 0.5 {
      if y < 1.0 { assert y.Floor == 0; } else { assert y.Floor >= 1; }
    } else {
      if y >= 0.0 { assert y.Floor == 0; } else { assert y.Floor <= -1; }
    }
  }

  ghost predicate Consistent(candles: seq<Candle>) { forall c :: c in candles ==> c.Consistent() }

  lemma ExitMove(t: Trade, c: Candle)
    requires t.Valid() && c.Consistent() && t.Touches(c)
    ensures var exit := ExitAt(t, c).0;
            && (t.TouchesStop(c) ==> t.Move(t.Adverse(c)) <= t.Move(exit) <= -t.Risk())
            && (!t.TouchesStop(c) ==> 0.0 < t.Move(t.target) <= t.Move(exit) <= t.Move(t.Favourable(c)))
  {
  }

  lemma WindowConsistent(future: seq<Candle>, maxCandles: nat)
    requires Consistent(future)
    ensures Consistent(Window(future, maxCandles))
  {
    assert forall c :: c in Window(future, maxCandles) ==> c in future;
  }

  /**
   * What the R values of a label promise. A target is worth something exactly when its distance exceeds half a rounding
   * step and never more than the best excursion; a stop costs at least one R and never more than the worst excursion;
   * a timeout lies between the two excursions.
   */
  lemma OutcomeBounds(t: Trade, future: seq<Candle>, maxCandles: nat)
    requires t.Valid() && maxCandles >= 1 && Consistent(future)
    ensures var o := Outcome(t, future, maxCandles);
            && (o.result.HitTarget? ==>
                  && o.mfeR.value >= o.rMultiple.value >= 0.0
                  && (o.rMultiple.value > 0.0 <==> t.Move(o.exitPrice.value) / t.Risk() * R_STEPS > 0.5))
            && (o.result.HitStop? ==> o.maeR.value <= o.rMultiple.value <= -1.0)
            && (o.result.TimedOut? ==> o.maeR.value <= o.rMultiple.value <= o.mfeR.value)
  {
    var window := Window(future, maxCandles);
    WindowConsistent(future, maxCandles);
    if window != [] {
      match FirstTouch(t, window)
      case Some(k) =>
        assert window[k] in window && window[k] in window[..k + 1];
        ExitMove(t, window[k]);
        ExtremesBound(t, window[..k + 1]);
        TouchBounds(t, window, k);
      case None =>
        assert window[|window| - 1] in window;
        ExtremesBound(t, window);
        InRMonotone(t, WorstOver(t, window), window[|window| - 1].close);
        InRMonotone(t, window[|window| - 1].close, BestOver(t, window));
    }
    hide Trade.InR, ExitAt, FirstTouch, BestOver, WorstOver, Trade.Move, Trade.Touches, Trade.TouchesStop, Trade.TouchesTarget;
  }

  lemma TouchBounds(t: Trade, window: seq<Candle>, k: nat)
    requires t.Valid() && k < |window| && t.Touches(window[k]) && window[k].Consistent()
    ensures var exit := ExitAt(t, window[k]).0;
            && (t.TouchesStop(window[k]) ==> t.InR(WorstOver(t, window[..k + 1])) <= t.InR(exit) <= -1.0)
            && (!t.TouchesStop(window[k]) ==>
                  && t.InR(BestOver(t, window[..k + 1])) >= t.InR(exit) >= 0.0
                  && (t.InR(exit) > 0.0 <==> t.Move(exit) / t.Risk() * R_STEPS > 0.5))
  {
    var exit := ExitAt(t, window[k]).0;
    ExitMove(t, window[k]);
    ExtremesBound(t, window[..k + 1]);
    assert window[k] in window[..k + 1];
    hide ExitAt, BestOver, WorstOver;
    if t.TouchesStop(window[k]) {
      InRMonotone(t, WorstOver(t, window[..k + 1]), exit);
      StoppedBelowMinusOne(t, exit);
    } else {
      InRMonotone(t, exit, BestOver(t, window[..k + 1]));
      InRMonotone(t, t.entry, exit);
      assert t.InR(t.entry) == 0.0;
      PositiveAboveHalfQuantum(t.Move(exit) / t.Risk());
    }
  }

  /** A target is filled at its barrier or better. */
  lemma TargetExit(t: Trade, future: seq<Candle>, maxCandles: nat)
    requires t.Valid() && maxCandles >= 1 && Consistent(future) && Outcome(t, future, maxCandles).result.HitTarget?
    ensures var o := Outcome(t, future, maxCandles);
            && o.exitPrice.Some? && o.rMultiple == Some(t.InR(o.exitPrice.value))
            && t.Move(t.target) <= t.Move(o.exitPrice.value)
  {
    hide Trade.InR, BestOver, WorstOver, ExitAt;
    var window := Window(future, maxCandles);
    WindowConsistent(future, maxCandles);
    var k := FirstTouch(t, window).value;
    assert window[k] in window;
    ExitMove(t, window[k]);
  }

  /** A candle that opens at the entry and reaches exactly the target. */
  function Reaching(t: Trade): Candle {
    if t.direction.Long? then Candle(M5, 0, 0, 0, t.entry, t.target, t.entry, t.entry, 0.0, 1, 1, false)
    else Candle(M5, 0, 0, 0, t.entry, t.entry, t.target, t.entry, 0.0, 1, 1, false)
  }

  lemma ReachedExactly(t: Trade, maxCandles: nat)
    requires t.Valid() && maxCandles >= 1
    ensures Consistent([Reaching(t)])
    ensures var o := Outcome(t, [Reaching(t)], maxCandles);
            o.result.HitTarget? && o.exitPrice == Some(t.target) && o.rMultiple == Some(t.InR(t.target))
  {
    var c := Reaching(t);
    hide Trade.InR, BestOver, WorstOver;
    assert Window([c], maxCandles) == [c];
    assert t.Touches(c) && !t.TouchesStop(c);
    FirstTouchAt(t, [c], 0);
  }

  /**
   * When hitting the target is worth something, known before the label is computed. Over every consistent future, every
   * target that is hit has a positive multiple if and only if the target lies more than half a rounding step away.
   */
  lemma TargetsPayIffFarEnough(t: Trade, maxCandles: nat)
    requires t.Valid() && maxCandles >= 1
    ensures (forall future :: Consistent(future) && Outcome(t, future, maxCandles).result.HitTarget? ==>
               Outcome(t, future, maxCandles).rMultiple.Some? && Outcome(t, future, maxCandles).rMultiple.value > 0.0)
       <==> t.Move(t.target) / t.Risk() * R_STEPS > 0.5
  {
    hide Outcome, Trade.Move, Consistent;
    var x := t.Move(t.target) / t.Risk();
    PositiveAboveHalfQuantum(x);
    ReachedExactly(t, maxCandles);
    assert Outcome(t, [Reaching(t)], maxCandles).rMultiple.value > 0.0 <==> x * R_STEPS > 0.5;
    if x * R_STEPS > 0.5 {
      forall future | Consistent(future) && Outcome(t, future, maxCandles).result.HitTarget?
        ensures Outcome(t, future, maxCandles).rMultiple.Some? && Outcome(t, future, maxCandles).rMultiple.value > 0.0
      {
        TargetExit(t, future, maxCandles);
        InRMonotone(t, t.target, Outcome(t, future, maxCandles).exitPrice.value);
      }
    }
  }

  /** A valid trade whose target is hit for nothing: half a step above the entry rounds to an even zero. */
  lemma TargetWorthNothing() returns (t: Trade, future: seq<Candle>)
    ensures t == Trade(Long, 100.0, 99.0, 100.00005) && t.Valid() && Consistent(future)
    ensures Outcome(t, future, 1).result.HitTarget? && Outcome(t, future, 1).rMultiple == Some(0.0)
  {
    t := Trade(Long, 100.0, 99.0, 100.00005);
    future := [Reaching(t)];
    ReachedExactly(t, 1);
    hide Outcome, Reaching;
    var x := t.Move(t.target) / t.Risk() * R_STEPS;
    assert x == 0.5 && x.Floor == 0;
  }

  /** A barrier label reads no candle beyond the ones it counts: cutting the future off there changes nothing. */
  lemma OutcomeReadsWhatItCounts(t: Trade, future: seq<Candle>, maxCandles: nat, n: nat)
    requires t.Valid() && maxCandles >= 1 && Outcome(t, future, maxCandles).candlesUsed <= n <= |future|
    ensures Outcome(t, future[..n], maxCandles) == Outcome(t, future, maxCandles)
  {
    var whole, cut := Window(future, maxCandles), Window(future[..n], maxCandles);
    assert cut <= whole;
    match FirstTouch(t, whole)
    case Some(k) =>
      FirstTouchAt(t, cut, k);
      assert cut[..k] == whole[..k] && cut[..k + 1] == whole[..k + 1];
      hide Trade.InR, ExitAt, FirstTouch;
    case None =>
      assert cut == whole;
  }

  // ---- reflection ---------------------------------------------------------------------------------------------------

  function Mirror(entry: real, price: real): real { 2.0 * entry - price }

  function MirrorCandle(entry: real, c: Candle): Candle {
    c.(open := Mirror(entry, c.open), high := Mirror(entry, c.low), low := Mirror(entry, c.high), close := Mirror(entry, c.close))
  }

  function MirrorCandles(entry: real, candles: seq<Candle>): (r: seq<Candle>)
    ensures |r| == |candles|
  {
    seq(|candles|, i requires 0 <= i < |candles| => MirrorCandle(entry, candles[i]))
  }

  function MirrorTrade(t: Trade): Trade {
    Trade(if t.direction.Long? then Short else Long, t.entry, Mirror(t.entry, t.stop), Mirror(t.entry, t.target))
  }

  /** The same outcome, with its exit price reflected. */
  function MirrorOutcome(entry: real, o: BarrierOutcome): BarrierOutcome {
    o.(exitPrice := match o.exitPrice case None => None case Some(p) => Some(Mirror(entry, p)))
  }

  lemma MirrorTouches(t: Trade, c: Candle)
    ensures var m, d := MirrorTrade(t), MirrorCandle(t.entry, c);
            && m.TouchesStop(d) == t.TouchesStop(c) && m.TouchesTarget(d) == t.TouchesTarget(c)
            && ExitAt(m, d) == (Mirror(t.entry, ExitAt(t, c).0), ExitAt(t, c).1)
  {
  }

  lemma MirrorInR(t: Trade, price: real)
    requires t.Valid()
    ensures MirrorTrade(t).Valid() && MirrorTrade(t).InR(Mirror(t.entry, price)) == t.InR(price)
  {
    assert MirrorTrade(t).Risk() == t.Risk();
    assert MirrorTrade(t).Move(Mirror(t.entry, price)) == t.Move(price);
  }

  lemma {:induction false} MirrorExtremes(t: Trade, candles: seq<Candle>)
    ensures BestOver(MirrorTrade(t), MirrorCandles(t.entry, candles)) == Mirror(t.entry, BestOver(t, candles))
    ensures WorstOver(MirrorTrade(t), MirrorCandles(t.entry, candles)) == Mirror(t.entry, WorstOver(t, candles))
  {
    if candles != [] {
      assert MirrorCandles(t.entry, candles)[..|candles| - 1] == MirrorCandles(t.entry, candles[..|candles| - 1]);
      MirrorExtremes(t, candles[..|candles| - 1]);
    }
  }

  lemma MirrorFirstTouch(t: Trade, candles: seq<Candle>)
    ensures FirstTouch(MirrorTrade(t), MirrorCandles(t.entry, candles)) == FirstTouch(t, candles)
  {
    var m, mirrored := MirrorTrade(t), MirrorCandles(t.entry, candles);
    forall k | 0 <= k < |candles| ensures m.Touches(mirrored[k]) == t.Touches(candles[k]) {
      MirrorTouches(t, candles[k]);
      assert mirrored[k] == MirrorCandle(t.entry, candles[k]);
    }
    hide Trade.Touches;
    match FirstTouch(t, candles)
    case Some(k) => FirstTouchAt(m, mirrored, k);
    case None =>
  }

  /** Reflecting every price about the entry turns a LONG label into the SHORT one with the same R values, and back. */
  lemma ReflectionSwapsSides(t: Trade, future: seq<Candle>, maxCandles: nat)
    requires t.Valid() && maxCandles >= 1
    ensures MirrorTrade(t).Valid()
    ensures Outcome(MirrorTrade(t), MirrorCandles(t.entry, future), maxCandles) == MirrorOutcome(t.entry, Outcome(t, future, maxCandles))
  {
    var m, mirrored, window := MirrorTrade(t), MirrorCandles(t.entry, future), Window(future, maxCandles);
    MirrorInR(t, t.entry);
    assert Window(mirrored, maxCandles) == MirrorCandles(t.entry, window);
    MirrorFirstTouch(t, window);
    if window != [] {
      match FirstTouch(t, window)
      case Some(k) =>
        MirrorTouches(t, window[k]);
        assert MirrorCandles(t.entry, window)[k] == MirrorCandle(t.entry, window[k]);
        assert MirrorCandles(t.entry, window)[..k] == MirrorCandles(t.entry, window[..k]);
        assert MirrorCandles(t.entry, window)[..k + 1] == MirrorCandles(t.entry, window[..k + 1]);
        MirrorExtremes(t, window[..k]);
        MirrorExtremes(t, window[..k + 1]);
        MirrorInR(t, ExitAt(t, window[k]).0);
        MirrorInR(t, BestOver(t, window[..k]));
        MirrorInR(t, BestOver(t, window[..k + 1]));
        MirrorInR(t, WorstOver(t, window[..k + 1]));
      case None =>
        MirrorExtremes(t, window);
        MirrorInR(t, window[|window| - 1].close);
        MirrorInR(t, BestOver(t, window));
        MirrorInR(t, WorstOver(t, window));
        assert MirrorCandles(t.entry, window)[|window| - 1].close == Mirror(t.entry, window[|window| - 1].close);
    }
    hide Trade.InR, ExitAt, FirstTouch, BestOver, WorstOver, Trade.Touches, Trade.TouchesStop, Trade.TouchesTarget, Mirror, MirrorCandles;
  }

  // ---- fixed horizons -----------------------------------------------------------------------------------------------

  datatype HorizonOutcome = HorizonOutcome(candlesUsed: nat, complete: bool, exitPrice: Option<real>, returnPct: Option<real>,
                                           mfePct: Option<real>, maePct: Option<real>)

  function MovePct(direction: Direction, entry: real, price: real): real
    requires entry > 0.0
  {
    Quantized(if direction.Long? then (price - entry) / entry * 100.0 else -((price - entry) / entry * 100.0), PCT_STEPS)
  }

  /** The best favourable and the worst adverse price of a nonempty window. */
  function BestOf(direction: Direction, candles: seq<Candle>): real
    requires candles != []
  {
    var c := candles[|candles| - 1];
    var price := if direction.Long? then c.high else c.low;
    if |candles| == 1 then price
    else
      var rest := BestOf(direction, candles[..|candles| - 1]);
      if direction.Long? then (if price > rest then price else rest) else if price < rest then price else rest
  }

  function WorstOf(direction: Direction, candles: seq<Candle>): real
    requires candles != []
  {
    var c := candles[|candles| - 1];
    var price := if direction.Long? then c.low else c.high;
    if |candles| == 1 then price
    else
      var rest := WorstOf(direction, candles[..|candles| - 1]);
      if direction.Long? then (if price < rest then price else rest) else if price > rest then price else rest
  }

  function FixedHorizon(future: seq<Candle>, entry: real, direction: Direction, horizon: nat): HorizonOutcome
    requires horizon >= 1 && entry > 0.0
  {
    var window := Window(future, horizon);
    if window == [] then HorizonOutcome(0, false, None, None, None, None)
    else
      var close := window[|window| - 1].close;
      HorizonOutcome(|window|, |window| == horizon, Some(close), Some(MovePct(direction, entry, close)),
                     Some(MovePct(direction, entry, BestOf(direction, window))),
                     Some(MovePct(direction, entry, WorstOf(direction, window))))
  }

  /** A horizon label reads no candle beyond the ones it counts. */
  lemma HorizonReadsWhatItCounts(future: seq<Candle>, entry: real, direction: Direction, horizon: nat, n: nat)
    requires horizon >= 1 && entry > 0.0 && FixedHorizon(future, entry, direction, horizon).candlesUsed <= n <= |future|
    ensures FixedHorizon(future[..n], entry, direction, horizon) == FixedHorizon(future, entry, direction, horizon)
  {
    assert Window(future[..n], horizon) == Window(future, horizon);
  }

  lemma MovePctMonotone(direction: Direction, entry: real, a: real, b: real)
    requires entry > 0.0 && if direction.Long? then a <= b else b <= a
    ensures MovePct(direction, entry, a) <= MovePct(direction, entry, b)
  {
    if direction.Long? {
      DivideMonotone(a - entry, b - entry, entry);
      QuantizedMonotone((a - entry) / entry * 100.0, (b - entry) / entry * 100.0, PCT_STEPS);
    } else {
      DivideMonotone(b - entry, a - entry, entry);
      QuantizedMonotone(-((a - entry) / entry * 100.0), -((b - entry) / entry * 100.0), PCT_STEPS);
    }
  }

  /** The return lies between the two excursions, and a horizon is complete exactly when enough candles followed. */
  lemma HorizonBounds(future: seq<Candle>, entry: real, direction: Direction, horizon: nat)
    requires horizon >= 1 && entry > 0.0 && Consistent(future)
    ensures var o := FixedHorizon(future, entry, direction, horizon);
            && o.candlesUsed <= horizon && (o.complete <==> |future| >= horizon)
            && (o.returnPct.Some? <==> future != [])
            && (o.returnPct.Some? ==> o.maePct.value <= o.returnPct.value <= o.mfePct.value)
  {
    var window := Window(future, horizon);
    WindowConsistent(future, horizon);
    if window != [] {
      var last := window[|window| - 1];
      assert last in window;
      MovePctMonotone(direction, entry, WorstOf(direction, window), last.close);
      MovePctMonotone(direction, entry, last.close, BestOf(direction, window));
    }
    hide MovePct;
  }
}
