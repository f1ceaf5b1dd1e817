/**
 * The simulated execution agent: a decision table from action and confidence to a status
 * and an execution price with 0.01% slippage, an order id built from the UTC date and a
 * UUID, and a trade record stored alongside. A failure to store yields an ERROR result.
 */
module Execution {
  import opened Common
  import opened Inference

  datatype Status = Filled | Skipped | Rejected | Error

  function StatusName(s: Status): string
  {
    match s
    case Filled => "FILLED"
    case Skipped => "SKIPPED"
    case Rejected => "REJECTED"
    case Error => "ERROR"
  }

  function ActionName(a: Action): string
  {
    match a
    case Buy => "BUY"
    case Sell => "SELL"
    case Hold => "HOLD"
  }

  /** The confidence a BUY or SELL needs to be filled. */
  const MinConfidence: real := 0.6

  /** The slippage on a fill, as a fraction of the price. */
  const Slippage: real := 0.0001

  /** Status, whether the trade was executed, and the execution price. */
  datatype Fill = Fill(status: Status, executed: bool, executionPrice: real)

  /**
   * HOLD is skipped at the market price; any other action below the confidence bar is
   * rejected at the market price; otherwise it is filled, a BUY above the price and every
   * other action below it, by the slippage.
   */
  function Settle(action: Action, confidence: real, price: real): (f: Fill)
    ensures f.executed <==> f.status == Filled
    ensures f.status == Skipped <==> action == Hold
    ensures f.status == Rejected <==> action != Hold && confidence < MinConfidence
    ensures f.status != Filled ==> f.executionPrice == price
    ensures f.status == Filled ==> f.executionPrice - price == (if action == Buy then price else -price) * Slippage
  {
    if action == Hold then Fill(Skipped, false, price)
    else if confidence < MinConfidence then Fill(Rejected, false, price)
    else
      var slippage := price * Slippage;
      Fill(Filled, true, if action == Buy then price + slippage else price - slippage)
  }

  /** At a positive price a filled BUY pays more than the price and a filled SELL receives less. */
  lemma SlippageDirection(confidence: real, price: real)
    requires price > 0.0 && confidence >= MinConfidence
    ensures Settle(Buy, confidence, price).executionPrice > price
    ensures Settle(Sell, confidence, price).executionPrice < price
  {
  }

  /** A HOLD is skipped whatever the confidence. */
  lemma HoldIgnoresConfidence(c1: real, c2: real, price: real)
    ensures Settle(Hold, c1, price) == Settle(Hold, c2, price)
  {
  }

  /** 10 to the power w. */
  function Pow10(w: nat): nat
  {
    if w == 0 then 1 else 10 * Pow10(w - 1)
  }

  /** The last w decimal digits of n, zero-padded. */
  function Digits(n: nat, w: nat): (s: string)
    ensures |s| == w
    ensures forall i :: 0 <= i < |s| ==> IsDigit(s[i])
  {
    if w == 0 then [] else Digits(n / 10, w - 1) + [DigitChar(n % 10)]
  }

  /** Below 10^w, the w zero-padded digits read back as n. */
  lemma {:induction false} DigitsRoundTrip(n: nat, w: nat)
    requires n < Pow10(w)
    ensures DecimalValue(Digits(n, w)) == n
  {
    if w > 0 {
      var s := Digits(n, w);
      assert s[..|s| - 1] == Digits(n / 10, w - 1);
      assert n / 10 < Pow10(w - 1);
      DigitsRoundTrip(n / 10, w - 1);
    }
  }

  /** A UTC calendar date, with a four-digit year. */
  datatype Date = Date(year: int, month: int, day: int)

  predicate ValidDate(d: Date)
  {
    1000 <= d.year <= 9999 && 1 <= d.month <= 12 && 1 <= d.day <= 31
  }

  function DateNumber(d: Date): nat
    requires ValidDate(d)
  {
    d.year * 10000 + d.month * 100 + d.day
  }

  /** `strftime("%Y%m%d")`. */
  function DateStamp(d: Date): (s: string)
    requires ValidDate(d)
    ensures |s| == 8 && forall i :: 0 <= i < 8 ==> IsDigit(s[i])
  {
    Digits(DateNumber(d), 8)
  }

  /** One hexadecimal digit, upper- or lower-case. */
  function HexDigit(n: int, upper: bool): (c: char)
    requires 0 <= n < 16
  {
    if n < 10 then (48 + n) as char
    else if upper then (65 + n - 10) as char
    else (97 + n - 10) as char
  }

  function HexValue(c: char): int
  {
    if '0' <= c <= '9' then c as int - 48
    else if 'A' <= c <= 'F' then c as int - 65 + 10
    else c as int - 97 + 10
  }

  predicate IsHexDigit(c: char, upper: bool)
  {
    '0' <= c <= '9' || (if upper then 'A' <= c <= 'F' else 'a' <= c <= 'f')
  }

  lemma HexDigitRoundTrip(n: int, upper: bool)
    requires 0 <= n < 16
    ensures IsHexDigit(HexDigit(n, upper), upper)
    ensures HexValue(HexDigit(n, upper)) == n
  {
  }

  /** A UUID as its 32 hexadecimal digits (`uuid4().hex`), each a value below 16. */
  predicate IsUuid(u: seq<int>)
  {
    |u| == 32 && forall i :: 0 <= i < |u| ==> 0 <= u[i] < 16
  }

  /** The first eight digits of a UUID's hex form. */
  function HexPrefix(u: seq<int>, upper: bool): (s: string)
    requires IsUuid(u)
    ensures |s| == 8
    ensures forall i :: 0 <= i < 8 ==> s[i] == HexDigit(u[i], upper)
  {
    seq(8, i requires 0 <= i < 8 => HexDigit(u[i], upper))
  }

  /** "ORD-" + the UTC date as YYYYMMDD + "-" + the first eight UUID digits in upper case. */
  function OrderId(d: Date, u: seq<int>): (id: string)
    requires ValidDate(d) && IsUuid(u)
    ensures |id| == 21 && id[..4] == "ORD-" && id[12] == '-'
    ensures forall i :: 4 <= i < 12 ==> IsDigit(id[i])
    ensures forall i :: 13 <= i < 21 ==> IsHexDigit(id[i], true)
  {
    var id := "ORD-" + DateStamp(d) + "-" + HexPrefix(u, true);
    forall i | 13 <= i < 21 ensures IsHexDigit(id[i], true) {
      HexDigitRoundTrip(u[i - 13], true);
    }
    id
  }

  /** The order id determines the date and the first eight UUID digits it was built from. */
  lemma OrderIdInjective(d1: Date, u1: seq<int>, d2: Date, u2: seq<int>)
    requires ValidDate(d1) && IsUuid(u1) && ValidDate(d2) && IsUuid(u2)
    requires OrderId(d1, u1) == OrderId(d2, u2)
    ensures d1 == d2 && u1[..8] == u2[..8]
  {
    var id := OrderId(d1, u1);
    assert id[4..12] == DateStamp(d1) == DateStamp(d2);
    assert Pow10(8) == 100000000;
    DigitsRoundTrip(DateNumber(d1), 8);
    DigitsRoundTrip(DateNumber(d2), 8);
    assert DateNumber(d1) == DateNumber(d2);
    forall i | 0 <= i < 8 ensures u1[i] == u2[i] {
      HexDigitRoundTrip(u1[i], true);
      HexDigitRoundTrip(u2[i], true);
      assert id[13 + i] == HexDigit(u1[i], true) == HexDigit(u2[i], true);
    }
  }

  /** "ERROR-" + the first eight UUID digits in lower case. */
  function ErrorOrderId(u: seq<int>): (id: string)
    requires IsUuid(u)
    ensures |id| == 14 && id[..6] == "ERROR-"
    ensures forall i :: 6 <= i < 14 ==> IsHexDigit(id[i], false)
  {
    var id := "ERROR-" + HexPrefix(u, false);
    forall i | 6 <= i < 14 ensures IsHexDigit(id[i], false) {
      HexDigitRoundTrip(u[i - 6], false);
    }
    id
  }

  /** An order id and an error order id can never be confused. */
  lemma OrderIdsDistinguishable(d: Date, u: seq<int>, v: seq<int>)
    requires ValidDate(d) && IsUuid(u) && IsUuid(v)
    ensures OrderId(d, u) != ErrorOrderId(v)
  {
    assert OrderId(d, u)[0] == 'O' && ErrorOrderId(v)[0] == 'E';
  }

  /** The decision and market dictionaries as the agent reads them: any key may be missing. */
  datatype DecisionInput = DecisionInput(action: Option<Action>, confidence: Option<real>)
  datatype MarketInput = MarketInput(price: Option<real>, symbol: Option<string>)

  function ActionOrHold(d: DecisionInput): Action { if d.action.Some? then d.action.value else Hold }
  function ConfidenceOrZero(d: DecisionInput): real { if d.confidence.Some? then d.confidence.value else 0.0 }
  function PriceOrZero(m: MarketInput): real { if m.price.Some? then m.price.value else 0.0 }
  function SymbolOrDefault(m: MarketInput): string { if m.symbol.Some? then m.symbol.value else "BTCUSDT" }

  /**
   * What the agent takes from the world: the UTC date and UUID of the order id, the clock at
   * execution, whether storing the trade succeeds, and the UUID and clock of the error path.
   */
  datatype ExecutionEnv = ExecutionEnv(
    orderDate: Date, orderUuid: seq<int>, executionTime: int,
    stored: bool, errorUuid: seq<int>, errorTime: int)

  predicate ValidEnv(env: ExecutionEnv)
  {
    ValidDate(env.orderDate) && IsUuid(env.orderUuid) && IsUuid(env.errorUuid)
  }

  datatype ExecutionResult = ExecutionResult(
    executed: bool, executionPrice: real, orderId: string, status: Status, time: int)

  /** The stored trade record. */
  datatype Trade = Trade(
    orderId: string, symbol: string, action: Action, price: real,
    executionPrice: real, status: Status, timestamp: int)

  /** The result, and the trade record that stays stored (none after a rollback). */
  datatype ExecutionOutcome = ExecutionOutcome(result: ExecutionResult, stored: Option<Trade>)

  /** `process`: settle the decision, store the trade, and report; a failed store rolls back into ERROR. */
  function Process(decision: DecisionInput, market: MarketInput, env: ExecutionEnv): (o: ExecutionOutcome)
    requires ValidEnv(env)
    ensures o.result.executed <==> o.result.status == Filled
    ensures o.stored.Some? <==> env.stored
    ensures o.stored.Some? ==>
      var t := o.stored.value;
      && t.orderId == o.result.orderId && t.status == o.result.status
      && t.executionPrice == o.result.executionPrice && t.timestamp == o.result.time
      && t.action == ActionOrHold(decision) && t.price == PriceOrZero(market)
      && t.symbol == SymbolOrDefault(market)
    ensures !env.stored ==>
      o.result == ExecutionResult(false, PriceOrZero(market), ErrorOrderId(env.errorUuid), Error, env.errorTime)
  {
    var action, price := ActionOrHold(decision), PriceOrZero(market);
    var fill := Settle(action, ConfidenceOrZero(decision), price);
    var orderId := OrderId(env.orderDate, env.orderUuid);
    if env.stored then
      var trade := Trade(orderId, SymbolOrDefault(market), action, price, fill.executionPrice, fill.status, env.executionTime);
      ExecutionOutcome(ExecutionResult(fill.executed, fill.executionPrice, orderId, fill.status, env.executionTime), Some(trade))
    else
      ExecutionOutcome(ExecutionResult(false, price, ErrorOrderId(env.errorUuid), Error, env.errorTime), None)
  }

  /** When the trade is stored, the status and price follow the decision table and the id has the ORD form. */
  lemma StoredExecutionFollowsTable(decision: DecisionInput, market: MarketInput, env: ExecutionEnv)
    requires ValidEnv(env) && env.stored
    ensures var r := Process(decision, market, env).result;
      var f := Settle(ActionOrHold(decision), ConfidenceOrZero(decision), PriceOrZero(market));
      && r.status == f.status && r.executed == f.executed && r.executionPrice == f.executionPrice
      && r.orderId == OrderId(env.orderDate, env.orderUuid) && r.status != Error
  {
  }

  /** Missing keys read as HOLD at confidence 0 and price 0, which is skipped at price 0. */
  lemma EmptyInputsSkip(env: ExecutionEnv)
    requires ValidEnv(env) && env.stored
    ensures var r := Process(DecisionInput(None, None), MarketInput(None, None), env);
      && r.result.status == Skipped && !r.result.executed && r.result.executionPrice == 0.0
      && r.stored.value.symbol == "BTCUSDT"
  {
  }

  /** What a call of `process` leaves stored: the trade record when the commit succeeded. */
  function StoredTrades(o: ExecutionOutcome): seq<Trade>
  {
    if o.stored.Some? then [o.stored.value] else []
  }

  /** The execution agent and the trade table of its database session. */
  class ExecutionAgent {
    var trades: seq<Trade>

    constructor()
      ensures trades == []
    {
      trades := [];
    }

    /**
     * `process`: the trade is added to the session and committed; a commit that fails is
     * rolled back and reported as an ERROR result.
     */
    method Execute(decision: DecisionInput, market: MarketInput, env: ExecutionEnv) returns (result: ExecutionResult)
      requires ValidEnv(env)
      modifies this
      ensures result == Process(decision, market, env).result
      ensures trades == old(trades) + StoredTrades(Process(decision, market, env))
    {
      var action, price := ActionOrHold(decision), PriceOrZero(market);
      var fill := Settle(action, ConfidenceOrZero(decision), price);
      var orderId := OrderId(env.orderDate, env.orderUuid);
      var trade := Trade(orderId, SymbolOrDefault(market), action, price, fill.executionPrice, fill.status, env.executionTime);
      var committed := trades;
      trades := trades + [trade];
      if !env.stored {
        trades := committed;
        return ExecutionResult(false, price, ErrorOrderId(env.errorUuid), Error, env.errorTime);
      }
      result := ExecutionResult(fill.executed, fill.executionPrice, orderId, fill.status, env.executionTime);
    }
  }

  /** Two executions on a fresh agent store the trades of the commits that succeeded, in order. */
  method TwoExecutions(d1: DecisionInput, m1: MarketInput, e1: ExecutionEnv, d2: DecisionInput, m2: MarketInput, e2: ExecutionEnv)
    returns (trades: seq<Trade>)
    requires ValidEnv(e1) && ValidEnv(e2)
    ensures |trades| == (if e1.stored then 1 else 0) + (if e2.stored then 1 else 0)
    ensures e1.stored ==> trades[0].orderId == OrderId(e1.orderDate, e1.orderUuid)
    ensures e2.stored ==> trades[|trades| - 1].orderId == OrderId(e2.orderDate, e2.orderUuid)
  {
    var agent := new ExecutionAgent();
    var r1 := agent.Execute(d1, m1, e1);
    var r2 := agent.Execute(d2, m2, e2);
    trades := agent.trades;
  }
}
