/** The backtester's three strategies.  Each turns the columns of one bar
    into at most one order: a side ("BUY" or "SELL") and a quantity, or no
    order at all.  The indicator columns (moving averages, RSI, lookback
    extremes) are inputs of the bar. */
module Strategies {
  import opened Wrappers

  /** One bar as `generate_order` sees it.  An absent `high`, `low`,
      `signal` or `rsi` is a column the row does not have.  `lookbackHigh`
      and `lookbackLow` are `None` when no earlier bar exists (the column
      then holds NaN, and every comparison with it is false). */
  datatype Bar = Bar(timestamp: real, close: real, high: Option<real>, low: Option<real>,
                     signal: Option<int>, rsi: Option<real>,
                     lookbackHigh: Option<real>, lookbackLow: Option<real>)

  /** What `generate_order` returns: `(side, qty)`, with `(None, 0)` for
      "no order". */
  datatype Decision = Decision(side: Option<string>, qty: int)

  const NoOrder := Decision(None, 0)

  /** The crossover signal column: 1 when the fast average is above the
      slow one, -1 when below, 0 when they are equal. */
  function MaSignal(maFast: real, maSlow: real): (s: int)
    ensures s == 1 <==> maFast > maSlow
    ensures s == -1 <==> maFast < maSlow
    ensures s == 0 <==> maFast == maSlow
  {
    if maFast < maSlow then -1 else if maFast > maSlow then 1 else 0
  }

  /** Swapping the two averages flips the signal. */
  lemma MaSignalAntisymmetric(maFast: real, maSlow: real)
    ensures MaSignal(maSlow, maFast) == -MaSignal(maFast, maSlow)
  {
  }

  /** Orders of `units` in the direction of `change`: BUY when it is
      positive, SELL when negative, nothing when zero. */
  function Edge(change: int, units: int): (d: Decision)
    ensures change > 0 ==> d == Decision(Some("BUY"), units)
    ensures change < 0 ==> d == Decision(Some("SELL"), units)
    ensures change == 0 ==> d == NoOrder
  {
    if change > 0 then Decision(Some("BUY"), units)
    else if change < 0 then Decision(Some("SELL"), units)
    else NoOrder
  }

  /** `MACrossoverConfig`: window lengths (used only to compute the input
      columns) and the order size. */
  datatype MAConfig = MAConfig(maFast: int, maSlow: int, units: int)

  const DefaultMAConfig := MAConfig(20, 60, 10)

  /** One call of the crossover strategy on the remembered signal `prev`
      and the bar's signal `curr`: the decision and the new memory. */
  function MAStep(prev: Option<int>, curr: int, units: int): (r: (Decision, Option<int>))
    ensures r.1 == Some(curr)
    ensures prev.None? ==> r.0 == NoOrder
    ensures prev.Some? ==> r.0 == Edge(curr - prev.value, units)
  {
    if prev.None? then (NoOrder, Some(curr))
    else (Edge(curr - prev.value, units), Some(curr))
  }

  /** The crossover strategy over a stream of signals, from memory `prev`. */
  function MARun(prev: Option<int>, signals: seq<int>, units: int): (ds: seq<Decision>)
    ensures |ds| == |signals|
    decreases |signals|
  {
    if signals == [] then []
    else
      var r := MAStep(prev, signals[0], units);
      [r.0] + MARun(r.1, signals[1..], units)
  }

  /** A signal that never changes never trades, whatever came before it
      was the same signal or nothing. */
  lemma {:induction false} ConstantSignalNeverTrades(prev: Option<int>, signals: seq<int>, units: int, c: int)
    requires prev == None || prev == Some(c)
    requires forall i :: 0 <= i < |signals| ==> signals[i] == c
    ensures forall i :: 0 <= i < |signals| ==> MARun(prev, signals, units)[i] == NoOrder
    decreases |signals|
  {
    if signals != [] {
      ConstantSignalNeverTrades(Some(c), signals[1..], units, c);
    }
  }

  /** A jump from short to long is one BUY of `units`, not two. */
  lemma ReversalIsOneOrder(units: int)
    ensures MARun(Some(-1), [1], units) == [Decision(Some("BUY"), units)]
  {
  }

  /** `MovingAverageCrossoverStrategy`: trades when the signal changes. */
  class MACrossoverStrategy {
    const config: MAConfig
    var prevSignal: Option<int>

    constructor (config: MAConfig)
      ensures this.config == config && prevSignal == None
    {
      this.config := config;
      prevSignal := None;
    }

    /** `generate_order`: the first call only records the signal; later
        calls trade `units` in the direction the signal moved.  A missing
        signal column reads as 0. */
    method GenerateOrder(row: Bar) returns (d: Decision)
      modifies this
      ensures (d, prevSignal) == MAStep(old(prevSignal), row.signal.GetOr(0), config.units)
    {
      var currSignal := row.signal.GetOr(0);
      if prevSignal == None {
        prevSignal := Some(currSignal);
        return NoOrder;
      }
      var tradeSignal := currSignal - prevSignal.value;
      prevSignal := Some(currSignal);
      if tradeSignal > 0 {
        return Decision(Some("BUY"), config.units);
      } else if tradeSignal < 0 {
        return Decision(Some("SELL"), config.units);
      }
      return NoOrder;
    }
  }

  /** `RSIMeanReversionConfig`. */
  datatype RSIConfig = RSIConfig(rsiPeriod: int, oversold: real, overbought: real, units: int)

  const DefaultRSIConfig := RSIConfig(14, 30.0, 70.0, 10)

  /** `RSIMeanReversionStrategy.generate_order`: BUY below `oversold`, SELL
      above `overbought`, nothing in between; a missing RSI reads as 50. */
  function RsiDecision(config: RSIConfig, rsi: Option<real>): (d: Decision)
    ensures var v := rsi.GetOr(50.0);
      && (d.side == Some("BUY") <==> v < config.oversold)
      && (d.side == Some("SELL") <==> !(v < config.oversold) && v > config.overbought)
      && (d.side.None? <==> config.oversold <= v && !(v > config.overbought))
      && d.qty == (if d.side.Some? then config.units else 0)
  {
    var v := rsi.GetOr(50.0);
    if v < config.oversold then Decision(Some("BUY"), config.units)
    else if v > config.overbought then Decision(Some("SELL"), config.units)
    else NoOrder
  }

  /** `MomentumBreakoutConfig`. */
  datatype MomentumConfig = MomentumConfig(lookback: int, breakoutPct: real, units: int)

  const DefaultMomentumConfig := MomentumConfig(50, 0.01, 10)

  /** The long and short triggers of a bar: today's high above the prior
      high by more than `breakoutPct`, today's low below the prior low by
      more than `breakoutPct`.  High and low default to the close; with no
      prior bar neither trigger fires. */
  function Triggers(row: Bar, breakoutPct: real): (r: (bool, bool))
    ensures row.lookbackHigh.None? ==> !r.0
    ensures row.lookbackLow.None? ==> !r.1
  {
    var highToday := row.high.GetOr(row.close);
    var lowToday := row.low.GetOr(row.close);
    var longTrigger := row.lookbackHigh.Some? && highToday > row.lookbackHigh.value * (1.0 + breakoutPct);
    var shortTrigger := row.lookbackLow.Some? && lowToday < row.lookbackLow.value * (1.0 - breakoutPct);
    (longTrigger, shortTrigger)
  }

  /** The position the momentum strategy wants: long on a long trigger
      (which wins over a short one), short on a short trigger, otherwise
      unchanged. */
  function DesiredPosition(prev: int, longTrigger: bool, shortTrigger: bool): (p: int)
    ensures longTrigger ==> p == 1
    ensures !longTrigger && shortTrigger ==> p == -1
    ensures !longTrigger && !shortTrigger ==> p == prev
  {
    if longTrigger then 1 else if shortTrigger then -1 else prev
  }

  /** The momentum position stays in {-1, 0, 1} and, once away from flat,
      never returns to flat. */
  lemma DesiredPositionStaysInRange(prev: int, longTrigger: bool, shortTrigger: bool)
    requires -1 <= prev <= 1
    ensures var p := DesiredPosition(prev, longTrigger, shortTrigger);
      -1 <= p <= 1 && (prev != 0 ==> p != 0)
  {
  }

  /** `MomentumBreakoutStrategy`: holds a position of -1, 0 or 1 and trades
      `units` whenever the desired position changes. */
  class MomentumStrategy {
    const config: MomentumConfig
    var prevPosition: int

    ghost predicate Valid()
      reads this
    {
      -1 <= prevPosition <= 1
    }

    constructor (config: MomentumConfig)
      ensures Valid() && this.config == config && prevPosition == 0
    {
      this.config := config;
      prevPosition := 0;
    }

    /** `generate_order`: move to the desired position and trade the
        difference's direction (BUY up, SELL down), possibly on the very
        first call; the position stays in range and never returns to
        flat. */
    method GenerateOrder(row: Bar) returns (d: Decision)
      requires Valid()
      modifies this
      ensures Valid()
      ensures var t := Triggers(row, config.breakoutPct);
        prevPosition == DesiredPosition(old(prevPosition), t.0, t.1)
      ensures d == Edge(prevPosition - old(prevPosition), config.units)
      ensures old(prevPosition) != 0 ==> prevPosition != 0
    {
      var triggers := Triggers(row, config.breakoutPct);
      var desiredPos := prevPosition;
      if triggers.0 {
        desiredPos := 1;
      } else if triggers.1 {
        desiredPos := -1;
      }
      var tradeSignal := desiredPos - prevPosition;
      prevPosition := desiredPos;
      if tradeSignal > 0 {
        return Decision(Some("BUY"), config.units);
      } else if tradeSignal < 0 {
        return Decision(Some("SELL"), config.units);
      }
      return NoOrder;
    }
  }

  /** The lookback high column at bar `i`: the largest of the highs of the
      (at most) `lookback` bars strictly before `i`, or `None` for the first
      bar. */
  function PriorHigh(highs: seq<real>, i: nat, lookback: nat): (r: Option<real>)
    requires i <= |highs| && lookback >= 1
    ensures r.None? <==> i == 0
    ensures r.Some? ==> exists j :: i - lookback <= j < i && 0 <= j && highs[j] == r.value
    ensures r.Some? ==> forall j :: i - lookback <= j < i && 0 <= j ==> highs[j] <= r.value
    decreases i
  {
    if i == 0 then None
    else if i == 1 || lookback == 1 then Some(highs[i - 1])
    else
      var rest := PriorHigh(highs, i - 1, lookback - 1);
      Some(if highs[i - 1] > rest.value then highs[i - 1] else rest.value)
  }

  /** The lookback low column at bar `i`: the smallest of the lows of the
      (at most) `lookback` bars strictly before `i`. */
  function PriorLow(lows: seq<real>, i: nat, lookback: nat): (r: Option<real>)
    requires i <= |lows| && lookback >= 1
    ensures r.None? <==> i == 0
    ensures r.Some? ==> exists j :: i - lookback <= j < i && 0 <= j && lows[j] == r.value
    ensures r.Some? ==> forall j :: i - lookback <= j < i && 0 <= j ==> r.value <= lows[j]
    decreases i
  {
    if i == 0 then None
    else if i == 1 || lookback == 1 then Some(lows[i - 1])
    else
      var rest := PriorLow(lows, i - 1, lookback - 1);
      Some(if lows[i - 1] < rest.value then lows[i - 1] else rest.value)
  }

  /** The current bar never takes part in its own lookback: changing bar
      `i` and anything after it leaves the lookback high at `i` unchanged. */
  lemma {:induction false} PriorHighExcludesCurrent(highs: seq<real>, other: seq<real>, i: nat, lookback: nat)
    requires i <= |highs| && i <= |other| && lookback >= 1
    requires highs[..i] == other[..i]
    ensures PriorHigh(highs, i, lookback) == PriorHigh(other, i, lookback)
    decreases i
  {
    if i > 1 && lookback > 1 {
      assert highs[..i - 1] == other[..i - 1] by {
        assert highs[..i - 1] == highs[..i][..i - 1];
        assert other[..i - 1] == other[..i][..i - 1];
      }
      PriorHighExcludesCurrent(highs, other, i - 1, lookback - 1);
    }
    if i > 0 {
      assert highs[i - 1] == highs[..i][i - 1];
      assert other[i - 1] == other[..i][i - 1];
    }
  }
}
