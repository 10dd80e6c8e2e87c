/** The backtester's order manager: cash, position, a trailing one-minute
    window of approval times, four risk checks applied in a fixed order, and
    an append-only event log.

    The wall clock is a `now` argument (one reading per call) and the CSV
    log is the sequence `log` of records. */
module OrderManagement {
  import PyText
  import Books

  /** `RiskConfig`: per-order notional cap, absolute position cap and the
      number of approvals allowed in any trailing 60 seconds. */
  datatype RiskConfig = RiskConfig(maxNotional: real, maxPosition: int, maxOrdersPerMin: int)

  /** The defaults of `RiskConfig()`. */
  const DefaultRiskConfig := RiskConfig(100000.0, 1000, 60)

  /** The free-text `details` column: a fixed note, or the fill price and
      quantity of a fill. */
  datatype Details = Note(text: string) | FillDetails(fillPrice: real, fillQty: int)

  /** One row of the order log: time, event type, and the order's id, side,
      price and quantity as they were on the order. */
  datatype LogRecord = LogRecord(time: real, eventType: string, orderId: nat, side: string,
                                 price: real, quantity: int, details: Details)

  /** `_log`: the row written for `order`. */
  function Row(now: real, eventType: string, order: Books.Order, details: Details): (r: LogRecord)
    ensures r.orderId == order.orderId && r.side == order.side
    ensures r.price == order.price && r.quantity == order.quantity
  {
    LogRecord(now, eventType, order.orderId, order.side, order.price, order.quantity, details)
  }

  /** The approval times still inside the window at `now`, in order. */
  function Pruned(times: seq<real>, now: real): (r: seq<real>)
    ensures |r| <= |times|
    ensures forall t :: t in r <==> t in times && now - t < 60.0
  {
    if times == [] then []
    else (if now - times[0] < 60.0 then [times[0]] else []) + Pruned(times[1..], now)
  }

  /** Pruning twice at the same instant removes nothing more. */
  lemma {:induction false} PrunedIdempotent(times: seq<real>, now: real)
    ensures Pruned(Pruned(times, now), now) == Pruned(times, now)
  {
    if times != [] {
      PrunedIdempotent(times[1..], now);
      PrunedConcat(if now - times[0] < 60.0 then [times[0]] else [], Pruned(times[1..], now), now);
    }
  }

  lemma {:induction false} PrunedConcat(a: seq<real>, b: seq<real>, now: real)
    ensures Pruned(a + b, now) == Pruned(a, now) + Pruned(b, now)
  {
    if a != [] {
      assert (a + b)[1..] == a[1..] + b;
      PrunedConcat(a[1..], b, now);
    } else {
      assert a + b == b;
    }
  }

  /** `_check_risk_limits` once the window has been pruned to `recent`
      entries: the four checks in their order. */
  predicate RiskAllows(config: RiskConfig, cash: real, position: int, recent: nat,
                       side: string, price: real, quantity: int)
  {
    var notional := price * quantity as real;
    var newPosition := position + (if side == "BUY" then quantity else -quantity);
    if recent >= config.maxOrdersPerMin then false
    else if notional > config.maxNotional then false
    else if PyText.Abs(newPosition) > config.maxPosition then false
    else if side == "BUY" && cash < notional then false
    else true
  }

  /** The risk checks accept exactly when the window has room, the notional
      is within its cap (equality passes), the projected position is within
      its cap, and a BUY can be paid for; a sell is never cash-checked. */
  lemma RiskAllowsExactly(config: RiskConfig, cash: real, position: int, recent: nat,
                          side: string, price: real, quantity: int)
    ensures var notional := price * quantity as real;
      var projected := if side == "BUY" then position + quantity else position - quantity;
      RiskAllows(config, cash, position, recent, side, price, quantity) <==>
        && recent < config.maxOrdersPerMin
        && notional <= config.maxNotional
        && -config.maxPosition <= projected <= config.maxPosition
        && (side == "BUY" ==> notional <= cash)
  {
  }

  /** Cash and position after a fill of `qty` at `price`. */
  function Filled(cash: real, position: int, side: string, price: real, qty: int): (r: (real, int))
    ensures side == "BUY" ==> r.1 == position + qty
    ensures side != "BUY" ==> r.1 == position - qty
  {
    var notional := price * qty as real;
    if side == "BUY" then (cash - notional, position + qty) else (cash + notional, position - qty)
  }

  /** A fill moves value between cash and position without creating any:
      marked at the fill price, `cash + position * price` is unchanged. */
  lemma FillPreservesValue(cash: real, position: int, side: string, price: real, qty: int)
    ensures var r := Filled(cash, position, side, price, qty);
      r.0 + r.1 as real * price == cash + position as real * price
  {
  }

  /** Buying and then selling the same quantity at the same price restores
      cash and position exactly. */
  lemma BuyThenSellRestores(cash: real, position: int, side: string, price: real, qty: int)
    requires side != "BUY"
    ensures var b := Filled(cash, position, "BUY", price, qty);
      Filled(b.0, b.1, side, price, qty) == (cash, position)
  {
  }

  class OrderManager {
    var cash: real
    var position: int
    const riskConfig: RiskConfig
    /** `orders_last_minute`: times of approvals, oldest first. */
    var ordersLastMinute: seq<real>
    var log: seq<LogRecord>

    /** `__init__`: the given cash, a flat position, an empty window and an
        empty log. */
    constructor (startingCash: real, config: RiskConfig)
      ensures cash == startingCash && position == 0 && riskConfig == config
      ensures ordersLastMinute == [] && log == []
    {
      cash, position, riskConfig := startingCash, 0, config;
      ordersLastMinute, log := [], [];
    }

    /** `_update_orders_per_minute`: drop every approval 60 seconds old or
        older. */
    method UpdateOrdersPerMinute(now: real)
      modifies this
      ensures ordersLastMinute == Pruned(old(ordersLastMinute), now)
      ensures cash == old(cash) && position == old(position) && log == old(log)
    {
      ordersLastMinute := Pruned(ordersLastMinute, now);
    }

    /** `_check_risk_limits`: prune the window, then apply the four checks. */
    method CheckRiskLimits(side: string, price: real, quantity: int, now: real) returns (ok: bool)
      modifies this
      ensures ordersLastMinute == Pruned(old(ordersLastMinute), now)
      ensures ok == RiskAllows(riskConfig, cash, position, |ordersLastMinute|, side, price, quantity)
      ensures cash == old(cash) && position == old(position) && log == old(log)
    {
      UpdateOrdersPerMinute(now);
      if |ordersLastMinute| >= riskConfig.maxOrdersPerMin {
        return false;
      }
      var notional := price * quantity as real;
      if notional > riskConfig.maxNotional {
        return false;
      }
      var newPosition := position + (if side == "BUY" then quantity else -quantity);
      if PyText.Abs(newPosition) > riskConfig.maxPosition {
        return false;
      }
      if side == "BUY" && cash < notional {
        return false;
      }
      assert RiskAllows(riskConfig, cash, position, |ordersLastMinute|, side, price, quantity);
      return true;
    }

    /** `approve_order`: run the risk checks, log exactly one SENT/approved
        or REJECTED/risk_limit row, and record the approval time only when
        approved.  Cash and position are untouched; an approval never takes
        the window past its cap. */
    method ApproveOrder(order: Books.Order, now: real) returns (ok: bool)
      modifies this
      ensures ok == RiskAllows(riskConfig, cash, position, |Pruned(old(ordersLastMinute), now)|,
                               order.side, order.price, order.quantity)
      ensures ordersLastMinute == Pruned(old(ordersLastMinute), now) + (if ok then [now] else [])
      ensures log == old(log) + [if ok then Row(now, "SENT", order, Note("approved"))
                                 else Row(now, "REJECTED", order, Note("risk_limit"))]
      ensures cash == old(cash) && position == old(position)
      ensures ok ==> |ordersLastMinute| <= riskConfig.maxOrdersPerMin
      ensures forall t :: t in ordersLastMinute ==> now - t < 60.0
    {
      ok := CheckRiskLimits(order.side, order.price, order.quantity, now);
      log := log + [Row(now, if ok then "SENT" else "REJECTED", order, Note(if ok then "approved" else "risk_limit"))];
      if ok {
        ordersLastMinute := ordersLastMinute + [now];
      }
    }

    /** `apply_fill`: a BUY pays `fill_price * fill_qty` and gains the
        quantity, anything else receives the notional and loses it; no
        limit is checked and one FILLED row is logged. */
    method ApplyFill(order: Books.Order, fillPrice: real, fillQty: int, now: real)
      modifies this
      ensures (cash, position) == Filled(old(cash), old(position), order.side, fillPrice, fillQty)
      ensures log == old(log) + [Row(now, "FILLED", order, FillDetails(fillPrice, fillQty))]
      ensures ordersLastMinute == old(ordersLastMinute)
    {
      var notional := fillPrice * fillQty as real;
      if order.side == "BUY" {
        cash := cash - notional;
        position := position + fillQty;
      } else {
        cash := cash + notional;
        position := position - fillQty;
      }
      log := log + [Row(now, "FILLED", order, FillDetails(fillPrice, fillQty))];
    }
  }
}
