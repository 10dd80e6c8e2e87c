/** The simulated exchange of the backtester: every submitted order is
    filled in full, filled in part, or cancelled.  The outcome that Python
    draws with `random.choice` is an input here. */
module Matching {
  import Books

  /** The three outcomes `submit_order` draws from. */
  datatype Outcome = Full | Partial | Cancel

  /** `ExecutionReport`: the order as submitted, "FILLED", "PARTIAL" or
      "CANCELLED", how much was filled and at what average price. */
  datatype ExecutionReport = ExecutionReport(order: Books.Order, status: string, filledQty: int, avgPrice: real)

  function Max(a: int, b: int): (m: int)
    ensures m >= a && m >= b && (m == a || m == b)
  {
    if a >= b then a else b
  }

  /** `submit_order`: a cancel fills nothing at price 0.0; a full fill takes
      the whole quantity at the mid price; a partial fill takes half the
      quantity rounded down, but at least one unit, at the mid price.  The
      order itself is returned untouched. */
  function SubmitOrder(order: Books.Order, midPrice: real, outcome: Outcome): (r: ExecutionReport)
    ensures r.order == order
    ensures r.status == (match outcome case Full => "FILLED" case Partial => "PARTIAL" case Cancel => "CANCELLED")
    ensures outcome == Cancel ==> r.filledQty == 0 && r.avgPrice == 0.0
    ensures outcome == Full ==> r.filledQty == order.quantity && r.avgPrice == midPrice
    ensures outcome == Partial ==>
      && r.avgPrice == midPrice
      && (order.quantity < 2 ==> r.filledQty == 1)
      && (order.quantity >= 2 ==> 2 * r.filledQty <= order.quantity < 2 * r.filledQty + 2)
  {
    match outcome
    case Cancel => ExecutionReport(order, "CANCELLED", 0, 0.0)
    case Partial => ExecutionReport(order, "PARTIAL", Max(1, order.quantity / 2), midPrice)
    case Full => ExecutionReport(order, "FILLED", order.quantity, midPrice)
  }

  /** For a positive quantity every outcome fills between nothing and the
      whole order; something is filled exactly when the order was not
      cancelled, and a partial fill of one unit fills the whole order. */
  lemma FillBounds(order: Books.Order, midPrice: real, outcome: Outcome)
    requires order.quantity >= 1
    ensures var r := SubmitOrder(order, midPrice, outcome);
      && 0 <= r.filledQty <= order.quantity
      && (r.filledQty > 0 <==> outcome != Cancel)
      && (outcome == Partial && order.quantity == 1 ==> r.filledQty == 1)
      && (outcome == Partial && order.quantity >= 2 ==> r.filledQty < order.quantity)
  {
  }
}
