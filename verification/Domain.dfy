/** Orders, events and the interface of a fill model. Prices and quantities are reals; instants are integers. */
module Domain {
  import opened Prelude
  import opened Calendar
  import opened BarStore

  datatype Direction = Long | Short

  datatype OrderStatus = Pending | Open | PartiallyClosed | Closed | Expired | Invalidated | Canceled {
    predicate Final() { Closed? || Expired? || Invalidated? || Canceled? }
  }

  datatype EventType =
    | OrderCreated | TriggerHit | ZoneLost | ZoneReclaimed | Filled | Target1Hit | Target2Hit | Stopped | TimeExit
    | OrderExpired | OrderInvalidated | OrderCanceled | OrderFrozen | DividendPaid | DataQuality | DataGap | NeedsReview
  {
    predicate Market() {
      TriggerHit? || ZoneLost? || ZoneReclaimed? || Filled? || Target1Hit? || Target2Hit? || Stopped? || TimeExit?
      || OrderInvalidated?
    }

    /** Record events carry facts only and never change an order's state. */
    predicate Record() { DataQuality? || DataGap? }
  }

  datatype GatingState =
    GatingState(status: OrderStatus, zoneLost: bool, entryEligibleFrom: Option<int>, triggerHitAt: Option<int>)

  datatype CloseReason = ByStop | ByTarget | ByTime

  datatype EntryPath = Direct | Reclaimed

  datatype Payload =
    | CreatedPayload(signal: SignalSpec, config: FillConfig, start: int, until: int, window: Option<seq<Session>>,
                     inherited: Option<GatingState>, extra: map<string, string>)
    | CancelPayload(at: int, requestedBy: string, openQty: real)
    | ReasonPayload(reason: string, ref: string)
    | DividendPayload(exDate: int, amountPerShare: real, cash: real)
    | QualityPayload(day: int, expectedBars: nat, missingBars: nat)
    | GapPayload(gapStart: int, minutes: nat)
    | InvalidPayload(why: string)
    | ZonePayload(zoneLevel: real)
    | ReclaimPayload(eligibleFrom: int)
    | FillPayload(rule: string, path: EntryPath, entryRaw: real, fillCost: real)
    | ScaleOutPayload(scalePnl: real, scaleCost: real, newStop: real, stopActiveFrom: int)
    | ExitPayload(note: string, stopLevel: Option<real>, exitRaw: Option<real>, pnl: real, cost: real)
    | ExpiryPayload(validUntil: int)
    | NoPayload

  /**
   * An event as it is hashed. The payload hash is an injective encoding of type, bar, price, quantity, batch and
   * payload, so two events have the same identity (key and hash) exactly when they are equal.
   */
  datatype Event = Event(kind: EventType, key: string, barTs: Option<int>, price: Option<real>, qty: Option<real>,
                         batch: Option<nat>, payload: Payload)

  datatype SignalSpec = SignalSpec(ticker: string, direction: Direction, zoneLow: real, zoneHigh: real, stop: real,
                                   target1: real, target2: Option<real>, trigger: Option<real>)

  datatype FillConfig = FillConfig(riskAmount: real, entrySlippageBps: real, stopSlippageBps: real, commission: real,
                                   feesEnabled: bool, secFeeRate: real, tafFeePerShare: real, tafFeeMax: real,
                                   cancelOnZoneLost: bool, scaleOutPct: real, dividendTolerance: real)

  datatype OrderContext =
    OrderContext(signal: SignalSpec, config: FillConfig, calendar: SessionCalendar, start: int, until: int)
  {
    /** What OrderContext checks on construction. */
    ghost predicate Valid() {
      && calendar.Valid()
      && start < until
      && calendar.Expected(start)
      && calendar.IsSessionClose(until)
      && until < calendar.LastClose()
    }
  }

  datatype OrderState = OrderState(
    status: OrderStatus, zoneLost: bool, zoneEverLost: bool, entryEligibleFrom: Option<int>, triggerHitAt: Option<int>,
    entryPath: Option<EntryPath>, avgEntry: Option<real>, initialStop: Option<real>, stopCurrent: Option<real>,
    stopPrevious: Option<real>, stopActiveFrom: Option<int>, t1Done: bool, qtyTotal: real, qtyOpen: real,
    realizedPnl: real, costs: real, dividends: real, bestPrice: Option<real>, worstPrice: Option<real>,
    openedAt: Option<int>, closedAt: Option<int>, finalEventTs: Option<int>, lastBarTs: Option<int>,
    closeReason: Option<CloseReason>, frozen: bool, frozenReasons: seq<string>, reviewReasons: seq<string>)
  {
    predicate Final() { status.Final() }
  }

  datatype StepResult = StepResult(state: OrderState, events: seq<Event>)

  /** A fill model is a record of deterministic functions; None is a raised ValueError. */
  datatype FillModel = FillModel(
    newOrderState: (OrderContext, Option<GatingState>, map<string, string>) -> Option<StepResult>,
    runBars: (OrderState, seq<Bar>, OrderContext) -> StepResult,
    cancel: (OrderState, int, string) -> StepResult,
    freeze: (OrderState, string, string) -> StepResult,
    flagReview: (OrderState, string, string) -> StepResult,
    applyDividend: (OrderState, OrderContext, int, real, bool) -> StepResult,
    applyValidityEnd: (OrderState, OrderContext, Option<Bar>, int) -> Option<StepResult>)

  function Digits(n: nat): string {
    if n < 10 then ["0123456789"[n]] else Digits(n / 10) + ["0123456789"[n % 10]]
  }

  /** Text of an instant or date inside an event key. */
  function Text(n: int): string {
    if n < 0 then "-" + Digits(-n) else Digits(n)
  }

  function DividendKey(exDate: int): string { "DIVIDEND:" + Text(exDate) }

  function DigitOf(c: char): int { c as int - '0' as int }

  /** The number a list of decimal digits stands for. */
  function NumberOf(s: string): int { if s == [] then 0 else NumberOf(s[..|s| - 1]) * 10 + DigitOf(s[|s| - 1]) }

  lemma DigitRead(d: nat)
    requires d < 10
    ensures DigitOf("0123456789"[d]) == d && "0123456789"[d] != '-'
  {
    var digits := "0123456789";
    assert digits[0] == '0' && digits[1] == '1' && digits[2] == '2' && digits[3] == '3' && digits[4] == '4';
    assert digits[5] == '5' && digits[6] == '6' && digits[7] == '7' && digits[8] == '8' && digits[9] == '9';
  }

  lemma {:induction false} DigitsRead(n: nat)
    ensures NumberOf(Digits(n)) == n && Digits(n) != [] && Digits(n)[0] != '-'
  {
    if n < 10 {
      DigitRead(n);
      assert Digits(n)[..0] == [];
    } else {
      DigitsRead(n / 10);
      DigitRead(n % 10);
      assert Digits(n)[..|Digits(n)| - 1] == Digits(n / 10);
    }
  }

  /** Different instants have different texts, so an event key names its instant and a dividend key its ex-date. */
  lemma TextTellsApart(a: int, b: int)
    requires Text(a) == Text(b) || DividendKey(a) == DividendKey(b)
    ensures a == b
  {
    if DividendKey(a) == DividendKey(b) {
      assert DividendKey(a)[9..] == Text(a) && DividendKey(b)[9..] == Text(b);
    }
    DigitsRead(if a < 0 then -a else a);
    DigitsRead(if b < 0 then -b else b);
    hide Digits, NumberOf;
    assert a < 0 ==> Text(a)[0] == '-' && Text(a)[1..] == Digits(-a);
    assert b < 0 ==> Text(b)[0] == '-' && Text(b)[1..] == Digits(-b);
  }
}
