/** The per-symbol risk engine of the FIX gateway: an order must have a
    positive quantity no larger than `maxOrderSize`, a FIX side of '1'
    (buy) or '2' (sell), and must keep the symbol's net position within
    `maxPosition` in absolute value.  What Python raises as `ValueError`
    is a `Failure` carrying a `RiskError`. */
module FixRisk {
  import opened Wrappers
  import PyText
  import FixOrders

  const DefaultMaxOrderSize: int := 1000
  const DefaultMaxPosition: int := 2000

  /** Why an order was refused. */
  datatype RiskError =
    | NonPositiveQty
    | OrderTooLarge(qty: int, maxOrderSize: int)
    | UnknownSide(side: string)
    | PositionLimit(projected: int, symbol: string, maxPosition: int)

  type Positions = map<string, int>

  /** `_side_sign`: '1' buys, '2' sells, anything else is refused. */
  function SideSign(side: string): (r: Result<int, RiskError>)
    ensures r.Success? <==> side == "1" || side == "2"
    ensures r.Success? ==> (r.value == 1 <==> side == "1") && (r.value == -1 <==> side == "2")
    ensures r.Failure? ==> r.error == UnknownSide(side)
  {
    if side == "1" then Success(1)
    else if side == "2" then Success(-1)
    else Failure(UnknownSide(side))
  }

  /** `positions.get(symbol, 0)`. */
  function Get(positions: Positions, symbol: string): int {
    if symbol in positions then positions[symbol] else 0
  }

  /** The positions after `symbol` moved by `delta`. */
  function Moved(positions: Positions, symbol: string, delta: int): (r: Positions)
    ensures symbol in r && r.Keys == positions.Keys + {symbol}
  {
    positions[symbol := Get(positions, symbol) + delta]
  }

  /** Moving one symbol changes that symbol by `delta` and no other. */
  lemma MovedOnly(positions: Positions, symbol: string, delta: int, other: string)
    ensures Get(Moved(positions, symbol, delta), other) ==
      if other == symbol then Get(positions, symbol) + delta else Get(positions, other)
  {
  }

  /** Two moves of one symbol add up, so a buy followed by a sell of the
      same quantity leaves every symbol's position as it was. */
  lemma MovedTwice(positions: Positions, symbol: string, a: int, b: int)
    ensures Moved(Moved(positions, symbol, a), symbol, b) == Moved(positions, symbol, a + b)
  {
  }

  lemma BuyThenSellRestores(positions: Positions, symbol: string, qty: int, other: string)
    ensures Get(Moved(Moved(positions, symbol, qty), symbol, -qty), other) == Get(positions, other)
  {
    MovedTwice(positions, symbol, qty, -qty);
  }

  /** Every symbol's position is within `maxPosition` in absolute value. */
  ghost predicate WithinLimits(positions: Positions, maxPosition: int) {
    forall s :: s in positions ==> PyText.Abs(positions[s]) <= maxPosition
  }

  /** `check`: quantity first, then size, then side, then the projected
      position; `true` when all pass. */
  function CheckOrder(maxOrderSize: int, maxPosition: int, positions: Positions,
                      symbol: string, qty: int, side: string): (r: Result<bool, RiskError>)
    ensures r.Success? ==> r.value
  {
    if qty <= 0 then Failure(NonPositiveQty)
    else if PyText.Abs(qty) > maxOrderSize then Failure(OrderTooLarge(qty, maxOrderSize))
    else
      match SideSign(side)
      case Failure(e) => Failure(e)
      case Success(sign) =>
        var projected := Get(positions, symbol) + sign * qty;
        if PyText.Abs(projected) > maxPosition then Failure(PositionLimit(projected, symbol, maxPosition))
        else Success(true)
  }

  class RiskEngine {
    const maxOrderSize: int
    const maxPosition: int
    /** `positions[symbol]`: net position per symbol. */
    var positions: Positions

    /** `__init__`: the two limits and no positions. */
    constructor (maxOrderSize: int, maxPosition: int)
      ensures this.maxOrderSize == maxOrderSize && this.maxPosition == maxPosition
      ensures positions == map[]
    {
      this.maxOrderSize, this.maxPosition := maxOrderSize, maxPosition;
      positions := map[];
    }

    /** `check`, on this engine's limits and positions.  Nothing is
        changed. */
    function Check(order: FixOrders.Order): Result<bool, RiskError>
      reads this
    {
      CheckOrder(maxOrderSize, maxPosition, positions, order.symbol, order.qty, order.side)
    }

    /** `update_position`: move the order's symbol by its signed quantity,
        with no limit check; an unknown side raises before anything
        changes. */
    method UpdatePosition(order: FixOrders.Order) returns (err: Option<RiskError>)
      modifies this
      ensures var sign := SideSign(order.side);
        && (sign.Failure? ==> err == Some(sign.error) && positions == old(positions))
        && (sign.Success? ==> err.None? && positions == Moved(old(positions), order.symbol, sign.value * order.qty))
    {
      var sign := SideSign(order.side);
      if sign.Failure? {
        return Some(sign.error);
      }
      var current := Get(positions, order.symbol);
      positions := positions[order.symbol := current + sign.value * order.qty];
      return None;
    }
  }

  /** `check` passes exactly when the quantity is positive and at most
      `maxOrderSize` (equality passes), the side is '1' or '2', and the
      projected position of that symbol (unknown symbols start at 0) is
      within `maxPosition`; a non-positive quantity is reported before
      anything else, and an oversized one before the side. */
  lemma CheckExactly(maxOrderSize: int, maxPosition: int, positions: Positions,
                     symbol: string, qty: int, side: string)
    ensures var sign := if side == "1" then 1 else -1;
      CheckOrder(maxOrderSize, maxPosition, positions, symbol, qty, side).Success? <==>
        && 0 < qty <= maxOrderSize
        && (side == "1" || side == "2")
        && -maxPosition <= Get(positions, symbol) + sign * qty <= maxPosition
    ensures qty <= 0 ==> CheckOrder(maxOrderSize, maxPosition, positions, symbol, qty, side) == Failure(NonPositiveQty)
    ensures 0 < qty && qty > maxOrderSize ==>
      CheckOrder(maxOrderSize, maxPosition, positions, symbol, qty, side) == Failure(OrderTooLarge(qty, maxOrderSize))
  {
  }

  /** An order that passed `check` and is then applied keeps every symbol
      within the position limit, if they all were before. */
  lemma CheckedMoveWithinLimits(maxOrderSize: int, maxPosition: int, positions: Positions,
                                symbol: string, qty: int, side: string)
    requires WithinLimits(positions, maxPosition)
    requires CheckOrder(maxOrderSize, maxPosition, positions, symbol, qty, side).Success?
    ensures SideSign(side).Success?
    ensures WithinLimits(Moved(positions, symbol, SideSign(side).value * qty), maxPosition)
  {
    var m := Moved(positions, symbol, SideSign(side).value * qty);
    forall s | s in m
      ensures PyText.Abs(m[s]) <= maxPosition
    {
      MovedOnly(positions, symbol, SideSign(side).value * qty, s);
    }
  }
}
