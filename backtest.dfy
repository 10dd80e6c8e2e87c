/** The replay loop of the backtester and its summary metrics.

    For every bar the loop records the equity, asks the strategy for an
    order, rests that order in the book at the close, has the order manager
    approve it, lets the matching engine fill it at the close, and applies
    the fill.  The whole run is specified by `Replay`, a function over the
    `State` of every component; the loop's invariant ties the objects to it
    bar by bar. */
module Backtesting {
  import opened Wrappers
  import PyText
  import Books
  import Matching
  import OM = OrderManagement
  import opened Strategies

  /** Which strategy drives the run and the object holding its memory. */
  datatype StrategyRef =
    | MACross(ma: MACrossoverStrategy)
    | Rsi(rsiConfig: RSIConfig)
    | Momentum(mo: MomentumStrategy)

  /** A strategy's configuration, without its memory. */
  datatype StrategySpec =
    | MASpec(maConfig: MAConfig)
    | RsiSpec(rsi: RSIConfig)
    | MomentumSpec(momentumConfig: MomentumConfig)

  /** A strategy's memory between bars. */
  datatype Memory = MAMemory(prevSignal: Option<int>) | NoMemory | MomentumMemory(prevPosition: int)

  function SpecOf(r: StrategyRef): StrategySpec {
    match r
    case MACross(ma) => MASpec(ma.config)
    case Rsi(c) => RsiSpec(c)
    case Momentum(mo) => MomentumSpec(mo.config)
  }

  function StrategyObjects(r: StrategyRef): set<object> {
    match r
    case MACross(ma) => {ma}
    case Rsi(_) => {}
    case Momentum(mo) => {mo}
  }

  ghost function MemoryOf(r: StrategyRef): Memory
    reads StrategyObjects(r)
  {
    match r
    case MACross(ma) => MAMemory(ma.prevSignal)
    case Rsi(_) => NoMemory
    case Momentum(mo) => MomentumMemory(mo.prevPosition)
  }

  ghost predicate StrategyValid(r: StrategyRef)
    reads StrategyObjects(r)
  {
    r.Momentum? ==> r.mo.Valid()
  }

  /** `generate_order` of any strategy: the decision and the new memory. */
  function Decide(spec: StrategySpec, mem: Memory, row: Bar): (Decision, Memory) {
    match spec
    case MASpec(c) =>
      var r := MAStep(if mem.MAMemory? then mem.prevSignal else None, row.signal.GetOr(0), c.units);
      (r.0, MAMemory(r.1))
    case RsiSpec(c) => (RsiDecision(c, row.rsi), NoMemory)
    case MomentumSpec(c) =>
      var prev := if mem.MomentumMemory? then mem.prevPosition else 0;
      var t := Triggers(row, c.breakoutPct);
      var p := DesiredPosition(prev, t.0, t.1);
      (Edge(p - prev, c.units), MomentumMemory(p))
  }

  /** Every strategy orders either nothing or a BUY/SELL of its units. */
  lemma DecideShape(spec: StrategySpec, mem: Memory, row: Bar)
    ensures var d := Decide(spec, mem, row).0;
      d == NoOrder || d.side == Some("BUY") || d.side == Some("SELL")
  {
  }

  /** The dispatch `self.strategy.generate_order(row)`. */
  method GenerateOrder(r: StrategyRef, row: Bar) returns (d: Decision)
    requires StrategyValid(r)
    modifies StrategyObjects(r)
    ensures StrategyValid(r)
    ensures (d, MemoryOf(r)) == Decide(SpecOf(r), old(MemoryOf(r)), row)
  {
    match r
    case MACross(ma) =>
      d := ma.GenerateOrder(row);
    case Rsi(c) =>
      d := RsiDecision(c, row.rsi);
    case Momentum(mo) =>
      d := mo.GenerateOrder(row);
  }

  /** Everything a run reads and writes: strategy memory, both sides of the
      book and its id counter, the order manager's cash, position, window
      and log, and the backtester's three output lists. */
  datatype State = State(
    mem: Memory,
    bids: seq<Books.Order>, asks: seq<Books.Order>, nextId: nat,
    cash: real, position: int, window: seq<real>, log: seq<OM.LogRecord>,
    equity: seq<real>, timestamps: seq<real>, trades: seq<Matching.ExecutionReport>)

  /** The equity of `s` marked at `price`. */
  function Equity(s: State, price: real): real {
    s.cash + s.position as real * price
  }

  /** One bar of `run`, with `now` the wall-clock reading of the bar and
      `outcome` the matching engine's draw: record the equity at the close,
      ask the strategy, and submit and execute its order if it has one. */
  function Step(spec: StrategySpec, config: OM.RiskConfig, s: State, row: Bar, now: real,
                outcome: Matching.Outcome): State
  {
    var s1 := s.(equity := s.equity + [Equity(s, row.close)], timestamps := s.timestamps + [row.timestamp]);
    var (d, mem) := Decide(spec, s.mem, row);
    var s2 := s1.(mem := mem);
    if d.side.None? || d.qty <= 0 then s2
    else
      var (order, ok, s3) := Submit(config, s2, row.close, row.timestamp, d, now);
      if !ok then s3 else Execute(s3, order, row.close, now, outcome)
  }

  /** The order for decision `d` at the close, added to its side of the
      book, then checked by the order manager: the order, whether it was
      approved, and the state with the book, window and log updated. */
  function Submit(config: OM.RiskConfig, s: State, price: real, timestamp: real, d: Decision, now: real)
    : (Books.Order, bool, State)
    requires d.side.Some?
  {
    var order := Books.NewOrder(price, d.qty, PyText.Upper(d.side.value), s.nextId, timestamp);
    var recent := OM.Pruned(s.window, now);
    var ok := OM.RiskAllows(config, s.cash, s.position, |recent|, order.side, order.price, order.quantity);
    var s' := s.(nextId := s.nextId + 1,
                 bids := if order.side == "BUY" then Books.Insert(s.bids, order) else s.bids,
                 asks := if order.side == "BUY" then s.asks else Books.Insert(s.asks, order),
                 window := recent + (if ok then [now] else []),
                 log := s.log + [if ok then OM.Row(now, "SENT", order, OM.Note("approved"))
                                 else OM.Row(now, "REJECTED", order, OM.Note("risk_limit"))]);
    (order, ok, s')
  }

  /** An approved order sent to the matching engine at the close: a
      positive fill moves cash and position and is logged, and the report
      is appended to the trades either way. */
  function Execute(s: State, order: Books.Order, price: real, now: real, outcome: Matching.Outcome): State {
    var report := Matching.SubmitOrder(order, price, outcome);
    var s' := if report.filledQty > 0 then
                var f := OM.Filled(s.cash, s.position, order.side, report.avgPrice, report.filledQty);
                s.(cash := f.0, position := f.1,
                   log := s.log + [OM.Row(now, "FILLED", order, OM.FillDetails(report.avgPrice, report.filledQty))])
              else s;
    s'.(trades := s.trades + [report])
  }

  /** The state after the first `n` bars. */
  function Replay(spec: StrategySpec, config: OM.RiskConfig, s: State, bars: seq<Bar>, clock: seq<real>,
                  outcomes: seq<Matching.Outcome>, n: nat): State
    requires n <= |bars| && |clock| == |bars| && |outcomes| == |bars|
  {
    if n == 0 then s
    else Step(spec, config, Replay(spec, config, s, bars, clock, outcomes, n - 1), bars[n - 1], clock[n - 1], outcomes[n - 1])
  }

  /** Per bar: the book gains one order exactly when the strategy decided
      one (rejected orders stay in the book), each decided order takes the
      next id and logs at least one row, and a report is appended exactly
      when that order was approved. */
  lemma StepAccounting(spec: StrategySpec, config: OM.RiskConfig, s: State, row: Bar, now: real,
                       outcome: Matching.Outcome)
    ensures var s' := Step(spec, config, s, row, now, outcome);
      var d := Decide(spec, s.mem, row).0;
      var decided := d.side.Some? && d.qty > 0;
      && |s'.bids| + |s'.asks| == |s.bids| + |s.asks| + (if decided then 1 else 0)
      && s'.nextId == s.nextId + (if decided then 1 else 0)
      && |s'.log| >= |s.log| + (if decided then 1 else 0)
      && (|s'.trades| == |s.trades| + 1 <==> decided && s'.log[|s.log|].eventType == "SENT")
      && (|s'.trades| != |s.trades| + 1 ==> s'.trades == s.trades)
  {
    var (d, mem) := Decide(spec, s.mem, row);
    var s2 := s.(equity := s.equity + [Equity(s, row.close)], timestamps := s.timestamps + [row.timestamp], mem := mem);
    var s' := Step(spec, config, s, row, now, outcome);
    if d.side.Some? && d.qty > 0 {
      var (order, ok, s3) := Submit(config, s2, row.close, row.timestamp, d, now);
      SubmitAccounting(config, s2, row.close, row.timestamp, d, now);
      assert s3.log[|s.log|].eventType == (if ok then "SENT" else "REJECTED");
      if ok {
        assert s' == Execute(s3, order, row.close, now, outcome);
        ExecuteAccounting(s3, order, row.close, now, outcome);
        assert s'.log[|s.log|] == s3.log[|s.log|];
      } else {
        assert s' == s3;
      }
    } else {
      assert s' == s2;
    }
  }

  /** Per bar: exactly one equity value and one timestamp, appended before
      the order; cash and position move only through a fill with a positive
      quantity, and such a fill at the close leaves the bar's equity
      unchanged. */
  lemma StepKeepsEquity(spec: StrategySpec, config: OM.RiskConfig, s: State, row: Bar, now: real,
                        outcome: Matching.Outcome)
    ensures var s' := Step(spec, config, s, row, now, outcome);
      && s'.equity == s.equity + [Equity(s, row.close)]
      && s'.timestamps == s.timestamps + [row.timestamp]
      && ((s'.cash, s'.position) != (s.cash, s.position) ==>
            |s'.trades| == |s.trades| + 1 && s'.trades[|s.trades|].filledQty > 0)
  {
    var (d, mem) := Decide(spec, s.mem, row);
    var s2 := s.(equity := s.equity + [Equity(s, row.close)], timestamps := s.timestamps + [row.timestamp], mem := mem);
    var s' := Step(spec, config, s, row, now, outcome);
    if d.side.Some? && d.qty > 0 {
      var (order, ok, s3) := Submit(config, s2, row.close, row.timestamp, d, now);
      SubmitAccounting(config, s2, row.close, row.timestamp, d, now);
      if ok {
        assert s' == Execute(s3, order, row.close, now, outcome);
        ExecuteAccounting(s3, order, row.close, now, outcome);
      } else {
        assert s' == s3;
      }
    } else {
      assert s' == s2;
    }
  }

  /** A bar's order, filled or not, leaves the equity at the close as it
      was before the order. */
  lemma StepEquityAtClose(spec: StrategySpec, config: OM.RiskConfig, s: State, row: Bar, now: real,
                          outcome: Matching.Outcome)
    ensures Equity(Step(spec, config, s, row, now, outcome), row.close) == Equity(s, row.close)
  {
    var (d, mem) := Decide(spec, s.mem, row);
    var s2 := s.(equity := s.equity + [Equity(s, row.close)], timestamps := s.timestamps + [row.timestamp], mem := mem);
    var s' := Step(spec, config, s, row, now, outcome);
    if d.side.Some? && d.qty > 0 {
      var (order, ok, s3) := Submit(config, s2, row.close, row.timestamp, d, now);
      SubmitAccounting(config, s2, row.close, row.timestamp, d, now);
      SameAccount(s3, s, row.close);
      if ok {
        assert s' == Execute(s3, order, row.close, now, outcome);
        ExecuteAccounting(s3, order, row.close, now, outcome);
      } else {
        assert s' == s3;
      }
    } else {
      assert s' == s2;
      SameAccount(s2, s, row.close);
    }
  }

  lemma SameAccount(a: State, b: State, price: real)
    requires a.cash == b.cash && a.position == b.position
    ensures Equity(a, price) == Equity(b, price)
  {
  }

  /** Submitting adds the order to exactly one side of the book under the
      next id and logs exactly one SENT or REJECTED row, leaving cash,
      position and the outputs alone. */
  lemma SubmitAccounting(config: OM.RiskConfig, s: State, price: real, timestamp: real, d: Decision, now: real)
    requires d.side.Some?
    ensures var (order, ok, s') := Submit(config, s, price, timestamp, d, now);
      && s'.equity == s.equity && s'.timestamps == s.timestamps && s'.trades == s.trades
      && s'.cash == s.cash && s'.position == s.position && s'.mem == s.mem
      && |s'.bids| + |s'.asks| == |s.bids| + |s.asks| + 1
      && s'.nextId == s.nextId + 1 && order.orderId == s.nextId
      && |s'.log| == |s.log| + 1 && s'.log[..|s.log|] == s.log
      && s'.log[|s.log|].eventType == (if ok then "SENT" else "REJECTED")
  {
    var order := Books.NewOrder(price, d.qty, PyText.Upper(d.side.value), s.nextId, timestamp);
    var (_, ok, s') := Submit(config, s, price, timestamp, d, now);
    assert s'.log[..|s.log|] == s.log;
  }

  /** Executing appends one report and at most one FILLED row; cash and
      position move only for a positive fill, and at the fill price the
      equity is unchanged. */
  lemma ExecuteAccounting(s: State, order: Books.Order, price: real, now: real, outcome: Matching.Outcome)
    ensures var s' := Execute(s, order, price, now, outcome);
      var report := Matching.SubmitOrder(order, price, outcome);
      && s'.equity == s.equity && s'.timestamps == s.timestamps
      && s'.bids == s.bids && s'.asks == s.asks && s'.nextId == s.nextId && s'.mem == s.mem
      && s'.trades == s.trades + [report]
      && |s'.log| >= |s.log| && s'.log[..|s.log|] == s.log
      && ((s'.cash, s'.position) != (s.cash, s.position) ==> report.filledQty > 0)
      && Equity(s', price) == Equity(s, price)
  {
    var report := Matching.SubmitOrder(order, price, outcome);
    var s' := Execute(s, order, price, now, outcome);
    if report.filledQty > 0 {
      OM.FillPreservesValue(s.cash, s.position, order.side, report.avgPrice, report.filledQty);
      assert s'.log[..|s.log|] == s.log;
    } else {
      assert s' == s.(trades := s.trades + [report]);
    }
  }

  /** The risk checks keep the account inside its limits for a whole run:
      starting flat-enough and solvent, the position never exceeds
      `maxPosition` in absolute value and cash never goes negative, as long
      as prices are not negative. */
  lemma {:induction false} ReplayWithinLimits(spec: StrategySpec, config: OM.RiskConfig, s: State, bars: seq<Bar>,
                                              clock: seq<real>, outcomes: seq<Matching.Outcome>, n: nat)
    requires n <= |bars| && |clock| == |bars| && |outcomes| == |bars|
    requires forall i :: 0 <= i < |bars| ==> bars[i].close >= 0.0
    requires -config.maxPosition <= s.position <= config.maxPosition && s.cash >= 0.0
    ensures var r := Replay(spec, config, s, bars, clock, outcomes, n);
      -config.maxPosition <= r.position <= config.maxPosition && r.cash >= 0.0
  {
    if n > 0 {
      ReplayWithinLimits(spec, config, s, bars, clock, outcomes, n - 1);
      StepWithinLimits(spec, config, Replay(spec, config, s, bars, clock, outcomes, n - 1), bars[n - 1], clock[n - 1], outcomes[n - 1]);
    }
  }

  lemma StepWithinLimits(spec: StrategySpec, config: OM.RiskConfig, s: State, row: Bar, now: real,
                         outcome: Matching.Outcome)
    requires row.close >= 0.0
    requires -config.maxPosition <= s.position <= config.maxPosition && s.cash >= 0.0
    ensures var r := Step(spec, config, s, row, now, outcome);
      -config.maxPosition <= r.position <= config.maxPosition && r.cash >= 0.0
  {
    var (d, mem) := Decide(spec, s.mem, row);
    var s2 := s.(equity := s.equity + [Equity(s, row.close)], timestamps := s.timestamps + [row.timestamp], mem := mem);
    var s' := Step(spec, config, s, row, now, outcome);
    if d.side.Some? && d.qty > 0 {
      var (order, ok, s3) := Submit(config, s2, row.close, row.timestamp, d, now);
      SubmitAccounting(config, s2, row.close, row.timestamp, d, now);
      if ok {
        assert s' == Execute(s3, order, row.close, now, outcome);
        var report := Matching.SubmitOrder(order, row.close, outcome);
        Matching.FillBounds(order, row.close, outcome);
        if report.filledQty > 0 {
          FillWithinLimits(config, s.cash, s.position, |OM.Pruned(s.window, now)|, order.side, row.close,
                           order.quantity, report.filledQty);
        }
      } else {
        assert s' == s3;
      }
    } else {
      assert s' == s2;
    }
  }

  /** A fill of at most the approved quantity, at the approved price, keeps
      the account within the limits the approval checked. */
  lemma FillWithinLimits(config: OM.RiskConfig, cash: real, position: int, recent: nat, side: string,
                         price: real, quantity: int, q: int)
    requires price >= 0.0 && 0 <= q <= quantity
    requires -config.maxPosition <= position <= config.maxPosition && cash >= 0.0
    requires OM.RiskAllows(config, cash, position, recent, side, price, quantity)
    ensures var f := OM.Filled(cash, position, side, price, q);
      -config.maxPosition <= f.1 <= config.maxPosition && f.0 >= 0.0
  {
    OM.RiskAllowsExactly(config, cash, position, recent, side, price, quantity);
    var f := OM.Filled(cash, position, side, price, q);
    if side == "BUY" {
      BuyKeepsCash(cash, price, q as real, quantity as real);
      assert f.0 == cash - price * q as real;
      assert position <= f.1 <= position + quantity;
    } else {
      MulMonotone(price, 0.0, q as real);
      assert f.0 == cash + price * q as real;
      assert position - quantity <= f.1 <= position;
    }
  }

  /** Paying for part of an order the cash covered leaves cash. */
  lemma BuyKeepsCash(cash: real, price: real, q: real, quantity: real)
    requires price >= 0.0 && q <= quantity && price * quantity <= cash
    ensures cash - price * q >= 0.0
  {
    MulMonotone(price, q, quantity);
  }

  lemma MulMonotone(p: real, a: real, b: real)
    requires p >= 0.0 && a <= b
    ensures p * a <= p * b
  {
  }

  /** Each bar adds exactly one equity point: after `n` bars the curve has
      grown by `n` and has as many points as timestamps. */
  lemma {:induction false} ReplayEquityPerBar(spec: StrategySpec, config: OM.RiskConfig, s: State, bars: seq<Bar>,
                                              clock: seq<real>, outcomes: seq<Matching.Outcome>, n: nat)
    requires n <= |bars| && |clock| == |bars| && |outcomes| == |bars|
    ensures |Replay(spec, config, s, bars, clock, outcomes, n).equity| == |s.equity| + n
    ensures |Replay(spec, config, s, bars, clock, outcomes, n).timestamps| == |s.timestamps| + n
    ensures |Replay(spec, config, s, bars, clock, outcomes, n).trades| <= |s.trades| + n
  {
    var k := 0;
    while k < n
      invariant k <= n
      invariant |Replay(spec, config, s, bars, clock, outcomes, k).equity| == |s.equity| + k
      invariant |Replay(spec, config, s, bars, clock, outcomes, k).timestamps| == |s.timestamps| + k
      invariant |Replay(spec, config, s, bars, clock, outcomes, k).trades| <= |s.trades| + k
    {
      ReplayLengths(spec, config, s, bars, clock, outcomes, k + 1);
      k := k + 1;
    }
  }

  /** One bar adds one equity point and one timestamp, and at most one
      report. */
  lemma ReplayLengths(spec: StrategySpec, config: OM.RiskConfig, s: State, bars: seq<Bar>, clock: seq<real>,
                      outcomes: seq<Matching.Outcome>, n: nat)
    requires 1 <= n <= |bars| && |clock| == |bars| && |outcomes| == |bars|
    ensures var prev := Replay(spec, config, s, bars, clock, outcomes, n - 1);
      var r := Replay(spec, config, s, bars, clock, outcomes, n);
      |r.equity| == |prev.equity| + 1 && |r.timestamps| == |prev.timestamps| + 1
      && |r.trades| <= |prev.trades| + 1
  {
    var prev := Replay(spec, config, s, bars, clock, outcomes, n - 1);
    ReplayNext(spec, config, s, bars, clock, outcomes, n - 1);
    StepAccounting(spec, config, prev, bars[n - 1], clock[n - 1], outcomes[n - 1]);
    StepKeepsEquity(spec, config, prev, bars[n - 1], clock[n - 1], outcomes[n - 1]);
  }

  lemma ReplayNext(spec: StrategySpec, config: OM.RiskConfig, s: State, bars: seq<Bar>, clock: seq<real>,
                   outcomes: seq<Matching.Outcome>, i: nat)
    requires i < |bars| && |clock| == |bars| && |outcomes| == |bars|
    ensures Replay(spec, config, s, bars, clock, outcomes, i + 1)
         == Step(spec, config, Replay(spec, config, s, bars, clock, outcomes, i), bars[i], clock[i], outcomes[i])
  {
  }

  /** `_compute_metrics`, restricted to the profit and the final equity. */
  datatype Metrics = Metrics(totalPnl: real, finalEquity: real)

  /** `_compute_metrics`: nothing for fewer than two equity points, else
      the last point minus the first and the last point. */
  function ComputeMetrics(eq: seq<real>): (m: Option<Metrics>)
    ensures m.None? <==> |eq| < 2
    ensures m.Some? ==> m.value.finalEquity == eq[|eq| - 1]
  {
    if |eq| < 2 then None else Some(Metrics(eq[|eq| - 1] - eq[0], eq[|eq| - 1]))
  }

  /** Sum of the bar-to-bar changes of an equity curve. */
  function SumOfChanges(eq: seq<real>): real
    decreases |eq|
  {
    if |eq| < 2 then 0.0 else (eq[1] - eq[0]) + SumOfChanges(eq[1..])
  }

  /** The total profit is the sum of the bar-to-bar profits. */
  lemma {:induction false} TotalPnlTelescopes(eq: seq<real>)
    requires |eq| >= 2
    ensures ComputeMetrics(eq).value.totalPnl == SumOfChanges(eq)
    decreases |eq|
  {
    if |eq| > 2 {
      TotalPnlTelescopes(eq[1..]);
    }
  }

  /** `Backtester`: a strategy, a fresh book, an order manager with the
      default risk limits, and the three output lists. */
  class Backtester {
    const strategy: StrategyRef
    const orderBook: Books.OrderBook
    const orderManager: OM.OrderManager
    var equityCurve: seq<real>
    var timestamps: seq<real>
    var trades: seq<Matching.ExecutionReport>

    ghost predicate Valid()
      reads this, orderBook, orderManager, StrategyObjects(strategy)
    {
      orderBook.Valid() && StrategyValid(strategy)
    }

    ghost function Abstract(): State
      reads this, orderBook, orderManager, StrategyObjects(strategy)
    {
      State(MemoryOf(strategy),
            orderBook.bids, orderBook.asks, orderBook.nextId,
            orderManager.cash, orderManager.position, orderManager.ordersLastMinute, orderManager.log,
            equityCurve, timestamps, trades)
    }

    constructor (strategy: StrategyRef, startingCash: real)
      requires StrategyValid(strategy)
      ensures Valid() && this.strategy == strategy
      ensures Abstract() == State(old(MemoryOf(strategy)), [], [], 0, startingCash, 0, [], [], [], [], [])
      ensures orderManager.riskConfig == OM.DefaultRiskConfig
      ensures fresh(orderBook) && fresh(orderManager)
    {
      this.strategy := strategy;
      orderBook := new Books.OrderBook();
      orderManager := new OM.OrderManager(startingCash, OM.DefaultRiskConfig);
      equityCurve, timestamps, trades := [], [], [];
    }

    /** `run`: replay every bar; the final state of all components is that
        of `Replay`.  `clock[i]` is the wall clock during bar `i` and
        `outcomes[i]` the engine's draw for that bar's order. */
    method Run(bars: seq<Bar>, clock: seq<real>, outcomes: seq<Matching.Outcome>)
      requires Valid() && |clock| == |bars| && |outcomes| == |bars|
      modifies this, orderBook, orderManager, StrategyObjects(strategy)
      ensures Valid()
      ensures Abstract() == Replay(SpecOf(strategy), orderManager.riskConfig, old(Abstract()), bars, clock, outcomes, |bars|)
    {
      ghost var spec, config, s0 := SpecOf(strategy), orderManager.riskConfig, Abstract();
      var i := 0;
      while i < |bars|
        invariant 0 <= i <= |bars|
        invariant Valid()
        invariant Abstract() == Replay(spec, config, s0, bars, clock, outcomes, i)
      {
        RunBar(bars[i], clock[i], outcomes[i]);
        ReplayNext(spec, config, s0, bars, clock, outcomes, i);
        i := i + 1;
      }
    }

    /** The body of `run`'s loop for one bar. */
    method RunBar(row: Bar, now: real, outcome: Matching.Outcome)
      requires Valid()
      modifies this, orderBook, orderManager, StrategyObjects(strategy)
      ensures Valid()
      ensures Abstract() == Step(SpecOf(strategy), orderManager.riskConfig, old(Abstract()), row, now, outcome)
    {
      var d := RecordBar(row);
      ghost var s2 := Abstract();
      if d.side.None? || d.qty <= 0 {
        return;
      }
      var order, ok := SubmitOrder(d, row.close, row.timestamp, now);
      ghost var s3 := Abstract();
      assert (order, ok, s3) == Submit(orderManager.riskConfig, s2, row.close, row.timestamp, d, now);
      if ok {
        ExecuteOrder(order, row.close, now, outcome);
      }
    }

    /** The start of a bar: the equity at the close and the timestamp are
        recorded, then the strategy is asked for its decision. */
    method RecordBar(row: Bar) returns (d: Decision)
      requires Valid()
      modifies this, StrategyObjects(strategy)
      ensures Valid()
      ensures var (d', mem) := Decide(SpecOf(strategy), old(Abstract()).mem, row);
        && d == d'
        && Abstract() == old(Abstract()).(equity := old(Abstract()).equity + [Equity(old(Abstract()), row.close)],
                                          timestamps := old(Abstract()).timestamps + [row.timestamp], mem := mem)
    {
      ghost var s0 := Abstract();
      var price := row.close;
      var equity := orderManager.cash + orderManager.position as real * price;
      assert equity == Equity(s0, price);
      equityCurve := equityCurve + [equity];
      timestamps := timestamps + [row.timestamp];
      d := GenerateOrder(strategy, row);
    }

    /** `add_order` and `approve_order` for the strategy's decision. */
    method SubmitOrder(d: Decision, price: real, timestamp: real, now: real) returns (order: Books.Order, ok: bool)
      requires Valid() && d.side.Some? && d.qty > 0
      modifies orderBook, orderManager
      ensures Valid()
      ensures (order, ok, Abstract()) == Submit(orderManager.riskConfig, old(Abstract()), price, timestamp, d, now)
    {
      ghost var s0 := Abstract();
      ghost var sub := Submit(orderManager.riskConfig, s0, price, timestamp, d, now);
      order := orderBook.AddOrder(price, d.qty, d.side.value, timestamp);
      assert order == sub.0;
      assert orderBook.bids == sub.2.bids;
      assert orderBook.asks == sub.2.asks;
      assert orderBook.nextId == sub.2.nextId;
      ok := orderManager.ApproveOrder(order, now);
      assert ok == sub.1;
      assert orderManager.ordersLastMinute == sub.2.window;
      assert orderManager.log == sub.2.log;
      assert MemoryOf(strategy) == sub.2.mem;
      assert Abstract() == sub.2;
    }

    /** `submit_order`, `apply_fill` for a positive fill, and the report
        appended to the trades. */
    method ExecuteOrder(order: Books.Order, price: real, now: real, outcome: Matching.Outcome)
      modifies this, orderManager
      ensures Abstract() == Execute(old(Abstract()), order, price, now, outcome)
    {
      var report := Matching.SubmitOrder(order, price, outcome);
      if report.filledQty > 0 {
        orderManager.ApplyFill(order, report.avgPrice, report.filledQty, now);
      }
      trades := trades + [report];
    }
  }
}
