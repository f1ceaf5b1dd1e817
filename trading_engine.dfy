/**
 * The trading engine: one cycle runs the market stage, the decision stage and the execution
 * stage in turn, numbers the cycle, and records a log line per stage. A failure of the market
 * stage turns the whole cycle into an error result.
 */
module Engine {
  import opened Common
  import opened MarketMonitor
  import opened Inference
  import opened Execution

  datatype MarketView = MarketView(symbol: string, price: real, indicators: map<string, real>, source: string)

  datatype Logs = Logs(market: string, decision: string, execution: string)

  /** The response of one cycle. */
  datatype CycleResult = CycleResult(
    cycleId: nat, timestamp: int, market: MarketView, decision: Decision,
    execution: ExecutionResult, logs: Logs)

  /**
   * What one cycle takes from the world: the market client's answer, the scaler and
   * classifier as a function of the feature vector, what the execution agent sees, and the
   * clock at the start of the cycle.
   */
  datatype CycleEnv = CycleEnv(feed: Result<Feed>, infer: seq<real> -> Output, execution: ExecutionEnv, clock: int)

  function MarketLog(symbol: string): string
  {
    "Received live price and calculated indicators for " + symbol
  }

  /** "Model predicted <action> with <confidence to two decimals> confidence". */
  function DecisionLog(d: Decision): (s: string)
    ensures |s| > 27 && s[..16] == "Model predicted "
    ensures s[|s| - 11..] == " confidence"
  {
    var s := "Model predicted " + ActionName(d.action) + " with " + Fixed2(d.confidence) + " confidence";
    assert s[..16] == "Model predicted ";
    s
  }

  function ExecutionLog(r: ExecutionResult): string
  {
    if r.executed then "Trade executed successfully"
    else if r.status == Skipped then "Trade skipped (HOLD action)"
    else "Trade " + Lower(StatusName(r.status))
  }

  /** The execution log line for each status an execution result can carry. */
  lemma ExecutionLogTable(r: ExecutionResult)
    requires r.executed <==> r.status == Filled
    ensures r.status == Filled ==> ExecutionLog(r) == "Trade executed successfully"
    ensures r.status == Skipped ==> ExecutionLog(r) == "Trade skipped (HOLD action)"
    ensures r.status == Rejected ==> ExecutionLog(r) == "Trade rejected"
    ensures r.status == Error ==> ExecutionLog(r) == "Trade error"
  {
    if r.status == Rejected {
      assert Lower("REJECTED") == "rejected";
    } else if r.status == Error {
      assert Lower("ERROR") == "error";
    }
  }

  /** The decision and market dictionaries the execution agent receives: every key is present. */
  function DecisionInputOf(d: Decision): DecisionInput { DecisionInput(Some(d.action), Some(d.confidence)) }

  function MarketInputOf(m: MarketData): MarketInput { MarketInput(Some(m.price), Some(m.symbol)) }

  /** The error response: nothing executed, order id "ERROR-<cycle id>", and the market log as it stood. */
  function ErrorResult(cycleId: nat, timestamp: int, symbol: string, message: string, marketLog: string): CycleResult
  {
    CycleResult(
      cycleId, timestamp,
      MarketView(symbol, 0.0, map[], "error"),
      Decision(Hold, 0.0, "Error: " + message),
      ExecutionResult(false, 0.0, "ERROR-" + NatToString(cycleId), Error, timestamp),
      Logs(marketLog, "", ""))
  }

  /** The three stages of a cycle, run on the loader state the registry holds. */
  datatype Stages = Stages(data: MarketData, decision: Decision, execution: ExecutionOutcome)

  function RunStages(symbol: string, env: CycleEnv, state: Option<LoaderState>): Result<Stages>
    requires ValidEnv(env.execution)
  {
    match MarketProcess(symbol, env.feed)
    case Err(m) => Err(m)
    case Ok(data) =>
      var decision := Predict(state, data.features, env.infer);
      Ok(Stages(data, decision, Process(DecisionInputOf(decision), MarketInputOf(data), env.execution)))
  }

  /** The response of the cycle numbered cycleId. */
  function Cycle(cycleId: nat, symbol: string, env: CycleEnv, state: Option<LoaderState>): CycleResult
    requires ValidEnv(env.execution)
  {
    match RunStages(symbol, env, state)
    case Err(m) => ErrorResult(cycleId, env.clock, symbol, m, "")
    case Ok(s) =>
      var e := s.execution.result;
      CycleResult(
        cycleId, env.clock,
        MarketView(s.data.symbol, s.data.price, s.data.features, "binance"),
        s.decision, e,
        Logs(MarketLog(symbol), DecisionLog(s.decision), ExecutionLog(e)))
  }

  /** The trades a cycle leaves stored: none when the market stage fails. */
  function CycleTrades(symbol: string, env: CycleEnv, state: Option<LoaderState>): seq<Trade>
    requires ValidEnv(env.execution)
  {
    match RunStages(symbol, env, state)
    case Err(_) => []
    case Ok(s) => StoredTrades(s.execution)
  }

  /**
   * A successful cycle reports the requested symbol with the fetched price and the extracted
   * features from "binance", the prediction on those features, and the execution of that
   * prediction at that price, with a log line for each stage.
   */
  lemma SuccessfulCycle(cycleId: nat, symbol: string, env: CycleEnv, state: Option<LoaderState>)
    requires ValidEnv(env.execution) && MarketProcess(symbol, env.feed).Ok?
    ensures var r := Cycle(cycleId, symbol, env, state);
      var feed := env.feed.value;
      var d := Predict(state, ExtractFeatures(feed.klines).value, env.infer);
      && r.cycleId == cycleId && r.timestamp == env.clock
      && r.market == MarketView(symbol, feed.price, ExtractFeatures(feed.klines).value, "binance")
      && r.decision == d
      && r.execution == Process(DecisionInput(Some(d.action), Some(d.confidence)), MarketInput(Some(feed.price), Some(symbol)), env.execution).result
      && r.logs == Logs(MarketLog(symbol), DecisionLog(d), ExecutionLog(r.execution))
  {
    MarketProcessReports(symbol, env.feed.value);
  }

  /**
   * A cycle whose market stage raises reports HOLD at confidence 0 with the message, price 0
   * from "error", an ERROR execution with the cycle's id and start time, and empty logs.
   */
  lemma FailedCycle(cycleId: nat, symbol: string, env: CycleEnv, state: Option<LoaderState>)
    requires ValidEnv(env.execution) && MarketProcess(symbol, env.feed).Err?
    ensures var r := Cycle(cycleId, symbol, env, state);
      var m := MarketProcess(symbol, env.feed).message;
      && r.cycleId == cycleId && r.timestamp == env.clock
      && r.market == MarketView(symbol, 0.0, map[], "error")
      && r.decision == Decision(Hold, 0.0, "Error: " + m)
      && r.execution == ExecutionResult(false, 0.0, "ERROR-" + NatToString(cycleId), Error, env.clock)
      && r.logs == Logs("", "", "")
    ensures CycleTrades(symbol, env, state) == []
  {
  }

  /** The source is "error" exactly when the market stage failed; an ERROR status also comes from a failed commit. */
  lemma ErrorStatusCauses(cycleId: nat, symbol: string, env: CycleEnv, state: Option<LoaderState>)
    requires ValidEnv(env.execution)
    ensures var r := Cycle(cycleId, symbol, env, state);
      var failed := MarketProcess(symbol, env.feed).Err?;
      && (r.market.source == "error" <==> failed)
      && (r.execution.status == Error <==> failed || !env.execution.stored)
      && (r.execution.executed ==> !failed && env.execution.stored)
  {
    var r := Cycle(cycleId, symbol, env, state);
    if MarketProcess(symbol, env.feed).Ok? {
      var s := RunStages(symbol, env, state).value;
      var f := Settle(ActionOrHold(DecisionInputOf(s.decision)), s.decision.confidence, s.data.price);
      assert r.market.source == "binance";
      if env.execution.stored {
        assert r.execution.status == f.status;
      }
    }
  }

  /** Error order ids of different cycles differ. */
  lemma ErrorOrderIdsDistinct(c1: nat, c2: nat, symbol: string, e1: CycleEnv, e2: CycleEnv, state: Option<LoaderState>)
    requires ValidEnv(e1.execution) && ValidEnv(e2.execution)
    requires MarketProcess(symbol, e1.feed).Err? && MarketProcess(symbol, e2.feed).Err?
    requires c1 != c2
    ensures Cycle(c1, symbol, e1, state).execution.orderId != Cycle(c2, symbol, e2, state).execution.orderId
  {
    NatToStringInjective(c1, c2);
    var s1, s2 := NatToString(c1), NatToString(c2);
    assert ("ERROR-" + s1)[6..] == s1;
    assert ("ERROR-" + s2)[6..] == s2;
  }

  /**
   * When every probability the classifier gives lies in [0, 1], every confidence a cycle
   * reports does too, as the response schema demands.
   */
  lemma CycleConfidenceInUnitInterval(cycleId: nat, symbol: string, env: CycleEnv, state: Option<LoaderState>)
    requires ValidEnv(env.execution)
    requires forall x :: env.infer(x).Predicted? ==>
      forall k :: 0 <= k < |env.infer(x).probabilities| ==> 0.0 <= env.infer(x).probabilities[k] <= 1.0
    ensures 0.0 <= Cycle(cycleId, symbol, env, state).decision.confidence <= 1.0
  {
    if MarketProcess(symbol, env.feed).Ok? {
      ConfidenceInUnitInterval(state, MarketProcess(symbol, env.feed).value.features, env.infer);
    }
  }

  class TradingEngine {
    var cycleCounter: nat
    const registry: Registry
    const executor: ExecutionAgent

    constructor(registry: Registry, executor: ExecutionAgent)
      ensures cycleCounter == 0
      ensures this.registry == registry && this.executor == executor
    {
      cycleCounter := 0;
      this.registry := registry;
      this.executor := executor;
    }

    /**
     * `run_cycle`: number the cycle, then run the stages, filling in each log line as its
     * stage completes; a raised market stage becomes the error result.
     */
    method RunCycle(symbol: string, env: CycleEnv) returns (r: CycleResult)
      requires ValidEnv(env.execution)
      modifies this, executor
      ensures cycleCounter == old(cycleCounter) + 1
      ensures r == Cycle(cycleCounter, symbol, env, registry.State())
      ensures executor.trades == old(executor.trades) + CycleTrades(symbol, env, registry.State())
    {
      cycleCounter := cycleCounter + 1;
      var cycleId := cycleCounter;
      var timestamp := env.clock;
      var logs := Logs("", "", "");
      var market := MarketProcess(symbol, env.feed);
      if market.Err? {
        return ErrorResult(cycleId, timestamp, symbol, market.message, logs.market);
      }
      var data := market.value;
      logs := logs.(market := MarketLog(symbol));
      var decision := registry.PredictAction(data.features, env.infer);
      logs := logs.(decision := DecisionLog(decision));
      var execution := executor.Execute(DecisionInputOf(decision), MarketInputOf(data), env.execution);
      logs := logs.(execution := ExecutionLog(execution));
      r := CycleResult(
        cycleId, timestamp,
        MarketView(data.symbol, data.price, data.features, "binance"),
        decision, execution, logs);
    }
  }

  /** A new engine numbers its cycles 1, 2, ... */
  method FirstTwoCycles(symbol: string, e1: CycleEnv, e2: CycleEnv) returns (r1: CycleResult, r2: CycleResult)
    requires ValidEnv(e1.execution) && ValidEnv(e2.execution)
    ensures r1.cycleId == 1 && r2.cycleId == 2
    ensures r1.timestamp == e1.clock && r2.timestamp == e2.clock
  {
    var registry := new Registry();
    var executor := new ExecutionAgent();
    var engine := new TradingEngine(registry, executor);
    r1 := engine.RunCycle(symbol, e1);
    r2 := engine.RunCycle(symbol, e2);
  }
}
