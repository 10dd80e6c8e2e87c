/** The two tick strategies of the design-patterns package.  Each keeps
    the history of prices it has seen and, once it has at least `window` of
    them, compares the new price with the last `window` prices: mean
    reversion against their average, breakout against their extremes.  A
    signal is a BUY or SELL of 100 units of the tick's symbol. */
module SignalStrategies {
  import opened Wrappers
  import PyText
  import PortfolioModels

  /** A signal dict: action, symbol, quantity (a dict built elsewhere may
      lack it) and the reason tag. */
  datatype Signal = Signal(action: string, symbol: string, qty: Option<int>, reason: string)

  const SignalQty: int := 100
  const DefaultMeanReversionLookback: int := 5
  const DefaultMeanReversionThreshold: real := 0.02
  const DefaultBreakoutLookback: int := 20

  /** `kwargs.get(first, kwargs.get(second, fallback))`. */
  function Alias<T>(first: Option<T>, second: Option<T>, fallback: T): (r: T)
    ensures first.Some? ==> r == first.value
    ensures first.None? && second.Some? ==> r == second.value
    ensures first.None? && second.None? ==> r == fallback
  {
    first.GetOr(second.GetOr(fallback))
  }

  /** Python's `s[k:]`: a negative start counts from the end, and both
      ends are clamped to the list. */
  function SliceFrom(s: seq<real>, k: int): (r: seq<real>)
    ensures |r| <= |s| && r == s[|s| - |r|..]
    ensures k < 0 ==> |r| == if -k < |s| then -k else |s|
    ensures k >= 0 ==> |r| == if k < |s| then |s| - k else 0
  {
    if k < 0 then (if -k >= |s| then s else s[|s| + k..])
    else if k >= |s| then []
    else s[k..]
  }

  /** `h[-window:]`: the prices the decision looks at. */
  function Window(h: seq<real>, window: int): seq<real> {
    SliceFrom(h, -window)
  }

  function Max(xs: seq<real>): (m: real)
    requires xs != []
    ensures forall i :: 0 <= i < |xs| ==> xs[i] <= m
    ensures exists i :: 0 <= i < |xs| && xs[i] == m
    decreases |xs|
  {
    if |xs| == 1 then xs[0]
    else
      var rest := Max(xs[..|xs| - 1]);
      assert forall i :: 0 <= i < |xs| - 1 ==> xs[..|xs| - 1][i] == xs[i];
      if xs[|xs| - 1] > rest then xs[|xs| - 1] else rest
  }

  function Min(xs: seq<real>): (m: real)
    requires xs != []
    ensures forall i :: 0 <= i < |xs| ==> m <= xs[i]
    ensures exists i :: 0 <= i < |xs| && xs[i] == m
    decreases |xs|
  {
    if |xs| == 1 then xs[0]
    else
      var rest := Min(xs[..|xs| - 1]);
      assert forall i :: 0 <= i < |xs| - 1 ==> xs[..|xs| - 1][i] == xs[i];
      if xs[|xs| - 1] < rest then xs[|xs| - 1] else rest
  }

  function Buy(symbol: string, reason: string): Signal {
    Signal("BUY", symbol, Some(SignalQty), reason)
  }

  function Sell(symbol: string, reason: string): Signal {
    Signal("SELL", symbol, Some(SignalQty), reason)
  }

  /** Every signal a strategy emits is one order of 100 units of the
      tick's symbol. */
  predicate Emitted(r: Option<seq<Signal>>, symbol: string, reason: string) {
    r.Some? ==> r.value in {[], [Buy(symbol, reason)], [Sell(symbol, reason)]}
  }

  /** The decision of mean reversion on the history `h`, which already
      ends with the tick's price; `None` is the `ZeroDivisionError` of a
      zero window or a zero average. */
  function MeanReversionSignals(window: int, threshold: real, h: seq<real>, tick: PortfolioModels.Tick)
    : (r: Option<seq<Signal>>)
    ensures Emitted(r, tick.symbol, "mr")
    ensures |h| < window ==> r == Some([])
  {
    if |h| < window then Some([])
    else if window == 0 then None
    else
      var avg := PyText.Sum(Window(h, window)) / window as real;
      if avg == 0.0 then None
      else
        var change := tick.price / avg - 1.0;
        if change < -threshold then Some([Buy(tick.symbol, "mr")])
        else if change > threshold then Some([Sell(tick.symbol, "mr")])
        else Some([])
  }

  lemma DivLess(x: real, a: real, c: real)
    requires a > 0.0
    ensures x / a < c <==> x < a * c
    ensures x / a > c <==> x > a * c
  {
    assert x / a * a == x;
    if x / a < c {
      assert x / a * a < c * a;
    }
    if x / a > c {
      assert x / a * a > c * a;
    }
  }

  /** With a full window of positive average `avg`, mean reversion buys
      exactly when the price is below `avg * (1 - threshold)`, sells
      exactly when it is otherwise above `avg * (1 + threshold)`, and emits
      nothing inside the closed band. */
  lemma MeanReversionBand(window: int, threshold: real, h: seq<real>, tick: PortfolioModels.Tick)
    requires 1 <= window <= |h|
    requires PyText.Sum(Window(h, window)) > 0.0
    ensures var avg := PyText.Sum(Window(h, window)) / window as real;
      var r := MeanReversionSignals(window, threshold, h, tick);
      && avg > 0.0
      && (r == Some([Buy(tick.symbol, "mr")]) <==> tick.price < avg * (1.0 - threshold))
      && (r == Some([Sell(tick.symbol, "mr")]) <==>
            !(tick.price < avg * (1.0 - threshold)) && tick.price > avg * (1.0 + threshold))
      && (r == Some([]) <==>
            avg * (1.0 - threshold) <= tick.price && tick.price <= avg * (1.0 + threshold))
  {
    var avg := PyText.Sum(Window(h, window)) / window as real;
    DivPositive(PyText.Sum(Window(h, window)), window as real);
    DivLess(tick.price, avg, 1.0 - threshold);
    DivLess(tick.price, avg, 1.0 + threshold);
  }

  lemma DivPositive(a: real, b: real)
    requires a > 0.0 && b > 0.0
    ensures a / b > 0.0
  {
  }

  /** A zero window or a zero average raises instead of deciding. */
  lemma MeanReversionRaises(window: int, threshold: real, h: seq<real>, tick: PortfolioModels.Tick)
    requires window <= |h|
    ensures window == 0 ==> MeanReversionSignals(window, threshold, h, tick).None?
    ensures window != 0 && PyText.Sum(Window(h, window)) == 0.0 ==> MeanReversionSignals(window, threshold, h, tick).None?
  {
  }

  /** The decision of breakout on the history `h`, which already ends with
      the tick's price; `None` is the `ValueError` of `max` on an empty
      window. */
  function BreakoutSignals(window: int, h: seq<real>, tick: PortfolioModels.Tick): (r: Option<seq<Signal>>)
    ensures Emitted(r, tick.symbol, "bo")
    ensures |h| < window ==> r == Some([])
    ensures r.None? <==> |h| >= window && Window(h, window) == []
  {
    if |h| < window then Some([])
    else
      var w := Window(h, window);
      if w == [] then None
      else if tick.price >= Max(w) then Some([Buy(tick.symbol, "bo")])
      else if tick.price <= Min(w) then Some([Sell(tick.symbol, "bo")])
      else Some([])
  }

  /** The window always holds the newest price, so breakout buys exactly
      when the price is the window's highest, sells exactly when it is the
      lowest without being the highest, and a flat window buys. */
  lemma BreakoutAtExtremes(window: int, h: seq<real>, tick: PortfolioModels.Tick)
    requires h != [] && h[|h| - 1] == tick.price
    requires |h| >= window && Window(h, window) != []
    ensures var w := Window(h, window);
      var r := BreakoutSignals(window, h, tick);
      && (r == Some([Buy(tick.symbol, "bo")]) <==> tick.price == Max(w))
      && (r == Some([Sell(tick.symbol, "bo")]) <==> tick.price != Max(w) && tick.price == Min(w))
      && (Max(w) == Min(w) ==> r == Some([Buy(tick.symbol, "bo")]))
  {
    var w := Window(h, window);
    assert w[|w| - 1] == tick.price;
  }

  /** A window of at least one price is never empty. */
  lemma WindowHoldsNewest(h: seq<real>, window: int)
    requires h != [] && window >= 0
    ensures Window(h, window) != [] && Window(h, window)[|Window(h, window)| - 1] == h[|h| - 1]
    ensures window >= 1 ==> |Window(h, window)| == if window < |h| then window else |h|
  {
  }

  /** `MeanReversionStrategy`. */
  class MeanReversionStrategy {
    const window: int
    const threshold: real
    var history: seq<real>

    /** `__init__`: `lookback_window`, else `window`, else `lookback` sets
        the window; `threshold_pct`, else `band`, else `threshold` sets the
        threshold. */
    constructor (lookback: int, threshold: real, lookbackWindow: Option<int>, windowArg: Option<int>,
                 thresholdPct: Option<real>, band: Option<real>)
      ensures window == Alias(lookbackWindow, windowArg, lookback)
      ensures this.threshold == Alias(thresholdPct, band, threshold)
      ensures history == []
    {
      window := Alias(lookbackWindow, windowArg, lookback);
      this.threshold := Alias(thresholdPct, band, threshold);
      history := [];
    }

    /** `generate_signals`: record the price, then decide. */
    method GenerateSignals(tick: PortfolioModels.Tick) returns (r: Option<seq<Signal>>)
      modifies this
      ensures history == old(history) + [tick.price]
      ensures r == MeanReversionSignals(window, threshold, history, tick)
    {
      history := history + [tick.price];
      if |history| < window {
        return Some([]);
      }
      if window == 0 {
        return None;
      }
      var avg := PyText.Sum(Window(history, window)) / window as real;
      if avg == 0.0 {
        return None;
      }
      var change := tick.price / avg - 1.0;
      if change < -threshold {
        return Some([Buy(tick.symbol, "mr")]);
      }
      if change > threshold {
        return Some([Sell(tick.symbol, "mr")]);
      }
      return Some([]);
    }
  }

  /** `BreakoutStrategy`. */
  class BreakoutStrategy {
    const window: int
    var history: seq<real>

    /** `__init__`: `lookback_window`, else `window`, else `lookback`. */
    constructor (lookback: int, lookbackWindow: Option<int>, windowArg: Option<int>)
      ensures window == Alias(lookbackWindow, windowArg, lookback)
      ensures history == []
    {
      window := Alias(lookbackWindow, windowArg, lookback);
      history := [];
    }

    /** `generate_signals`: record the price, then decide. */
    method GenerateSignals(tick: PortfolioModels.Tick) returns (r: Option<seq<Signal>>)
      modifies this
      ensures history == old(history) + [tick.price]
      ensures r == BreakoutSignals(window, history, tick)
    {
      history := history + [tick.price];
      if |history| < window {
        return Some([]);
      }
      var w := Window(history, window);
      if w == [] {
        return None;
      }
      var hi := Max(w);
      var lo := Min(w);
      if tick.price >= hi {
        return Some([Buy(tick.symbol, "bo")]);
      }
      if tick.price <= lo {
        return Some([Sell(tick.symbol, "bo")]);
      }
      return Some([]);
    }
  }
}
