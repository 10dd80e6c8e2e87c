/** The instrument and portfolio model of the design-patterns package:
    instruments that collect prices, decorators that wrap an instrument and
    add a metric, and a composite portfolio whose value is the sum of its
    positions' values. */
module PortfolioModels {
  import opened Wrappers

  /** `MarketDataPoint`: one price observation of a symbol. */
  datatype Tick = Tick(symbol: string, ts: string, price: real, volume: real)

  /** The subclass an instrument was created as. */
  datatype InstrumentKind = Stock | Bond | ETF

  /** What `get_metrics` returns: the symbol, the last price (`None` where
      Python puts NaN because there is no price yet), and the maximum
      drawdown when a drawdown decorator added it. */
  datatype Metrics = Metrics(symbol: Option<string>, last: Option<real>, maxDrawdown: Option<real>)

  /** `Instrument`: a symbol and a name (either may be `None` when the
      factory found no value for it) and the prices added so far. */
  class Instrument {
    const kind: InstrumentKind
    const symbol: Option<string>
    const name: Option<string>
    var prices: seq<real>

    constructor (kind: InstrumentKind, symbol: Option<string>, name: Option<string>)
      ensures this.kind == kind && this.symbol == symbol && this.name == name
      ensures prices == []
    {
      this.kind, this.symbol, this.name := kind, symbol, name;
      prices := [];
    }

    /** `add_price`: one more price, at the end. */
    method AddPrice(p: real)
      modifies this
      ensures prices == old(prices) + [p]
    {
      prices := prices + [p];
    }

    /** `get_metrics`: the symbol and the last price. */
    function GetMetrics(): (m: Metrics)
      reads this
      ensures m.symbol == symbol && m.maxDrawdown.None?
      ensures m.last.None? <==> prices == []
      ensures prices != [] ==> m.last == Some(prices[|prices| - 1])
    {
      Metrics(symbol, if prices == [] then None else Some(prices[|prices| - 1]), None)
    }
  }

  /** A chain of decorators around one instrument.  The volatility and beta
      decorators carry their own statistics, which this model does not
      compute; like every decorator they delegate prices to what they wrap. */
  datatype Decorated =
    | Plain(instrument: Instrument)
    | Volatility(inner: Decorated)
    | Beta(inner: Decorated, marketReturns: seq<real>)
    | Drawdown(inner: Decorated)
  {
    /** The instrument at the bottom of the chain. */
    function Wrapped(): Instrument {
      match this
      case Plain(i) => i
      case Volatility(inner) => inner.Wrapped()
      case Beta(inner, _) => inner.Wrapped()
      case Drawdown(inner) => inner.Wrapped()
    }

    /** The `prices` property: each decorator reads its inner prices. */
    function Prices(): (ps: seq<real>)
      reads Wrapped()
      ensures ps == Wrapped().prices
    {
      match this
      case Plain(i) => i.prices
      case Volatility(inner) => inner.Prices()
      case Beta(inner, _) => inner.Prices()
      case Drawdown(inner) => inner.Prices()
    }

    function Symbol(): Option<string> {
      Wrapped().symbol
    }
  }

  /** The `prices` setter of a decorator: it replaces the inner prices, and
      so in the end those of the wrapped instrument. */
  method SetPrices(d: Decorated, v: seq<real>)
    modifies d.Wrapped()
    ensures d.Wrapped().prices == v
    decreases d
  {
    match d
    case Plain(i) => i.prices := v;
    case Volatility(inner) => SetPrices(inner, v);
    case Beta(inner, _) => SetPrices(inner, v);
    case Drawdown(inner) => SetPrices(inner, v);
  }

  /** `add_price` through a chain of decorators: the price lands on the
      wrapped instrument. */
  method AddPrice(d: Decorated, p: real)
    modifies d.Wrapped()
    ensures d.Wrapped().prices == old(d.Wrapped().prices) + [p]
    decreases d
  {
    match d
    case Plain(i) => i.AddPrice(p);
    case Volatility(inner) => AddPrice(inner, p);
    case Beta(inner, _) => AddPrice(inner, p);
    case Drawdown(inner) => AddPrice(inner, p);
  }

  /** The starting peak of the drawdown loop, -1e18. */
  const InitialPeak: real := -1000000000000000000.0

  /** The running peak after `ps`: the largest of the starting peak and
      the prices. */
  function Peak(ps: seq<real>): (pk: real)
    ensures pk >= InitialPeak
    ensures forall i :: 0 <= i < |ps| ==> ps[i] <= pk
    ensures pk == InitialPeak || exists i :: 0 <= i < |ps| && ps[i] == pk
    decreases |ps|
  {
    if ps == [] then InitialPeak
    else
      var prev := Peak(ps[..|ps| - 1]);
      assert forall i :: 0 <= i < |ps| - 1 ==> ps[..|ps| - 1][i] == ps[i];
      if prev >= ps[|ps| - 1] then prev else ps[|ps| - 1]
  }

  /** The drawdown after `ps`: the smallest `p / peak - 1` over the prices
      seen while the running peak was positive, and 0 if there is none. */
  function DrawdownOf(ps: seq<real>): (dd: real)
    ensures dd <= 0.0
    decreases |ps|
  {
    if ps == [] then 0.0
    else
      var prev := DrawdownOf(ps[..|ps| - 1]);
      var pk := Peak(ps);
      if pk > 0.0 && ps[|ps| - 1] / pk - 1.0 < prev then ps[|ps| - 1] / pk - 1.0 else prev
  }

  /** The drawdown is no larger than the fall of any price below the peak
      reached so far. */
  lemma {:induction false} DrawdownIsWorst(ps: seq<real>, i: nat)
    requires i < |ps| && Peak(ps[..i + 1]) > 0.0
    ensures DrawdownOf(ps) <= ps[i] / Peak(ps[..i + 1]) - 1.0
    decreases |ps|
  {
    if i < |ps| - 1 {
      var init := ps[..|ps| - 1];
      assert init[..i + 1] == ps[..i + 1];
      DrawdownIsWorst(init, i);
    } else {
      assert ps[..i + 1] == ps;
    }
  }

  /** The drawdown is 0 or one of those falls. */
  lemma {:induction false} DrawdownAttained(ps: seq<real>)
    ensures DrawdownOf(ps) == 0.0 ||
      exists i :: 0 <= i < |ps| && Peak(ps[..i + 1]) > 0.0 && DrawdownOf(ps) == ps[i] / Peak(ps[..i + 1]) - 1.0
    decreases |ps|
  {
    if ps != [] {
      var init := ps[..|ps| - 1];
      DrawdownAttained(init);
      assert ps[..|ps|] == ps;
      if DrawdownOf(ps) != DrawdownOf(init) {
        assert Peak(ps[..|ps|]) > 0.0;
      } else if DrawdownOf(init) != 0.0 {
        var i :| 0 <= i < |init| && Peak(init[..i + 1]) > 0.0 && DrawdownOf(init) == init[i] / Peak(init[..i + 1]) - 1.0;
        assert init[..i + 1] == ps[..i + 1];
      }
    }
  }

  /** With no negative prices a drawdown never goes below -1 (a fall to
      zero). */
  lemma {:induction false} DrawdownAtLeastMinusOne(ps: seq<real>)
    requires forall i :: 0 <= i < |ps| ==> ps[i] >= 0.0
    ensures DrawdownOf(ps) >= -1.0
    decreases |ps|
  {
    if ps != [] {
      var init := ps[..|ps| - 1];
      DrawdownAtLeastMinusOne(init);
      var pk := Peak(ps);
      if pk > 0.0 {
        DivNonNegative(ps[|ps| - 1], pk);
      }
    }
  }

  lemma DivNonNegative(a: real, b: real)
    requires a >= 0.0 && b > 0.0
    ensures a / b >= 0.0
  {
  }

  /** Prices that never fall have no drawdown. */
  lemma {:induction false} NoDrawdownWhenRising(ps: seq<real>)
    requires forall i, j :: 0 <= i < j < |ps| ==> ps[i] <= ps[j]
    ensures DrawdownOf(ps) == 0.0
    decreases |ps|
  {
    if ps != [] {
      var n := |ps| - 1;
      var init := ps[..n];
      forall i, j | 0 <= i < j < |init|
        ensures init[i] <= init[j]
      {
        assert init[i] == ps[i] && init[j] == ps[j];
      }
      NoDrawdownWhenRising(init);
      var pk := Peak(ps);
      if pk > 0.0 {
        var i :| 0 <= i < |ps| && ps[i] == pk;
        assert i == n || ps[i] <= ps[n];
        DivSelf(pk);
      }
    }
  }

  lemma DivSelf(a: real)
    requires a > 0.0
    ensures a / a == 1.0
  {
  }

  /** The drawdown loop of `DrawdownDecorator.get_metrics`. */
  method MaxDrawdown(prices: seq<real>) returns (dd: real)
    ensures dd == DrawdownOf(prices)
  {
    var peak := InitialPeak;
    dd := 0.0;
    for i := 0 to |prices|
      invariant peak == Peak(prices[..i])
      invariant dd == DrawdownOf(prices[..i])
    {
      var p := prices[i];
      assert prices[..i + 1][..i] == prices[..i];
      peak := if peak >= p then peak else p;
      if peak > 0.0 {
        dd := if dd <= p / peak - 1.0 then dd else p / peak - 1.0;
      }
    }
    assert prices[..|prices|] == prices;
  }

  /** `get_metrics` through a chain of decorators: the wrapped instrument's
      metrics, with the drawdown of its prices when a drawdown decorator is
      on the chain. */
  method GetMetrics(d: Decorated) returns (m: Metrics)
    ensures m.symbol == d.Wrapped().symbol
    ensures m.last == d.Wrapped().GetMetrics().last
    ensures m.maxDrawdown == if HasDrawdown(d) then Some(DrawdownOf(d.Wrapped().prices)) else None
    decreases d
  {
    match d
    case Plain(i) =>
      m := i.GetMetrics();
    case Volatility(inner) =>
      m := GetMetrics(inner);
    case Beta(inner, _) =>
      m := GetMetrics(inner);
    case Drawdown(inner) =>
      m := GetMetrics(inner);
      var dd := MaxDrawdown(inner.Prices());
      m := m.(maxDrawdown := Some(dd));
  }

  predicate HasDrawdown(d: Decorated) {
    match d
    case Plain(_) => false
    case Volatility(inner) => HasDrawdown(inner)
    case Beta(inner, _) => HasDrawdown(inner)
    case Drawdown(_) => true
  }

  /** A portfolio: a position in one instrument, or a named group of
      components. */
  datatype Component =
    | Position(instrument: Instrument, quantity: real, price: real)
    | Group(name: string, children: seq<Component>)

  /** The instruments a component's value depends on. */
  function Instruments(c: Component): set<Instrument>
    decreases c
  {
    match c
    case Position(i, _, _) => {i}
    case Group(_, ch) => ChildrenInstruments(ch)
  }

  function ChildrenInstruments(cs: seq<Component>): set<Instrument>
    decreases cs
  {
    if cs == [] then {} else ChildrenInstruments(cs[..|cs| - 1]) + Instruments(cs[|cs| - 1])
  }

  /** No short position and no negative price anywhere in the tree: every
      position has a non-negative quantity, entry price and price history. */
  predicate LongOnly(c: Component)
    reads Instruments(c)
    decreases c
  {
    match c
    case Position(i, q, p) => q >= 0.0 && p >= 0.0 && forall k :: 0 <= k < |i.prices| ==> i.prices[k] >= 0.0
    case Group(_, ch) => ChildrenLongOnly(ch)
  }

  predicate ChildrenLongOnly(cs: seq<Component>)
    reads ChildrenInstruments(cs)
    decreases cs
  {
    cs == [] || (ChildrenLongOnly(cs[..|cs| - 1]) && LongOnly(cs[|cs| - 1]))
  }

  /** The price a position is valued at: the instrument's last price, or
      the entry price when the instrument has none. */
  function Mark(p: Component): (m: real)
    requires p.Position?
    reads p.instrument
    ensures p.instrument.prices == [] ==> m == p.price
    ensures p.instrument.prices != [] ==> m == p.instrument.prices[|p.instrument.prices| - 1]
  {
    var ps := p.instrument.prices;
    if ps == [] then p.price else ps[|ps| - 1]
  }

  /** `get_value`: quantity times the mark for a position, the sum over the
      children for a group; a long-only portfolio is never worth less than
      nothing. */
  function Value(c: Component): (v: real)
    reads Instruments(c)
    ensures c.Position? ==> v == c.quantity * Mark(c)
    ensures LongOnly(c) ==> v >= 0.0
    decreases c
  {
    match c
    case Position(_, q, _) => q * Mark(c)
    case Group(_, ch) => ChildrenValue(ch)
  }

  /** The sum of the children's values; long-only children are never worth
      less than nothing. */
  function ChildrenValue(cs: seq<Component>): (v: real)
    reads ChildrenInstruments(cs)
    ensures cs == [] ==> v == 0.0
    ensures ChildrenLongOnly(cs) ==> v >= 0.0
    decreases cs
  {
    if cs == [] then 0.0 else ChildrenValue(cs[..|cs| - 1]) + Value(cs[|cs| - 1])
  }

  /** `get_positions`: a position itself, or the concatenation of the
      children's positions in order. */
  function Positions(c: Component): (ps: seq<Component>)
    ensures forall i :: 0 <= i < |ps| ==> ps[i].Position?
    decreases c
  {
    match c
    case Position(_, _, _) => [c]
    case Group(_, ch) => ChildrenPositions(ch)
  }

  function ChildrenPositions(cs: seq<Component>): (ps: seq<Component>)
    ensures forall i :: 0 <= i < |ps| ==> ps[i].Position?
    decreases cs
  {
    if cs == [] then [] else ChildrenPositions(cs[..|cs| - 1]) + Positions(cs[|cs| - 1])
  }

  /** `add`: the child goes at the end of the group. */
  function Add(g: Component, child: Component): (r: Component)
    requires g.Group?
    ensures r.Group? && r.name == g.name
    ensures |r.children| == |g.children| + 1 && r.children[..|g.children|] == g.children
    ensures r.children[|g.children|] == child
  {
    g.(children := g.children + [child])
  }

  /** Sums of values split over a concatenation. */
  lemma {:induction false} ChildrenValueAppend(a: seq<Component>, b: seq<Component>)
    ensures ChildrenInstruments(a + b) == ChildrenInstruments(a) + ChildrenInstruments(b)
    ensures ChildrenValue(a + b) == ChildrenValue(a) + ChildrenValue(b)
    decreases |b|
  {
    if b != [] {
      var b' := b[..|b| - 1];
      assert (a + b)[..|a + b| - 1] == a + b';
      ChildrenValueAppend(a, b');
    } else {
      assert a + b == a;
    }
  }

  /** Adding a component adds its value to the group's value and its
      positions after the group's positions. */
  lemma AddValue(g: Component, child: Component)
    requires g.Group?
    ensures Value(Add(g, child)) == Value(g) + Value(child)
    ensures Positions(Add(g, child)) == Positions(g) + Positions(child)
  {
    assert (g.children + [child])[..|g.children|] == g.children;
  }

  /** A portfolio is worth exactly what its positions are worth together:
      flattening it into `get_positions` loses no value. */
  lemma {:induction false} ValueIsSumOfPositions(c: Component)
    ensures ChildrenInstruments(Positions(c)) == Instruments(c)
    ensures ChildrenValue(Positions(c)) == Value(c)
    decreases c, 1
  {
    match c
    case Position(_, _, _) =>
      assert [c][..0] == [];
    case Group(_, ch) =>
      ChildrenValueIsSumOfPositions(ch);
  }

  lemma {:induction false} ChildrenValueIsSumOfPositions(cs: seq<Component>)
    ensures ChildrenInstruments(ChildrenPositions(cs)) == ChildrenInstruments(cs)
    ensures ChildrenValue(ChildrenPositions(cs)) == ChildrenValue(cs)
    decreases cs, 0
  {
    if cs != [] {
      var init := cs[..|cs| - 1];
      var last := cs[|cs| - 1];
      ChildrenValueIsSumOfPositions(init);
      ValueIsSumOfPositions(last);
      ChildrenValueAppend(ChildrenPositions(init), Positions(last));
    }
  }
}
