/** `handle_message` of the FIX gateway: parse the message, build an order
    from tags 55, 38 and 54, log its creation, then either pass the risk
    check, ACK, apply the position and FILL, or be REJECTED with the risk
    error as the reason.  Parse errors and a bad quantity are raised before
    any of that and leave everything unchanged. */
module FixPipeline {
  import opened Wrappers
  import PyText
  import FixParsing
  import FixOrders
  import FixRisk

  /** What an event carries: the parsed message, or the order's symbol,
      quantity and side, with the refusal reason for a rejection. */
  datatype EventData =
    | MessageData(fields: FixParsing.Fields)
    | OrderData(symbol: string, qty: int, side: string)
    | RejectData(symbol: string, qty: int, side: string, reason: FixRisk.RiskError)

  datatype Event = Event(eventType: string, data: EventData)

  /** The event list of the logger. */
  class Logger {
    var events: seq<Event>

    constructor ()
      ensures events == []
    {
      events := [];
    }

    /** `log`: append one event. */
    method Log(eventType: string, data: EventData)
      modifies this
      ensures events == old(events) + [Event(eventType, data)]
    {
      events := events + [Event(eventType, data)];
    }
  }

  /** What `handle_message` raises. */
  datatype HandleError =
    | ParseFailed(error: FixParsing.ParseError)
    | MissingKey(tag: string)
    | BadQuantity(text: string)

  /** `msg["55"]`, `int(msg["38"])` and `msg["54"]`, in that order. */
  function Intake(msg: FixParsing.Fields): (r: Result<(string, int, string), HandleError>)
    ensures r.Success? <==>
      "55" in msg && "38" in msg && "54" in msg && PyText.ParseInt(msg["38"]).Some?
    ensures r.Success? ==> r.value == (msg["55"], PyText.ParseInt(msg["38"]).value, msg["54"])
  {
    if "55" !in msg then Failure(MissingKey("55"))
    else if "38" !in msg then Failure(MissingKey("38"))
    else
      match PyText.ParseInt(msg["38"])
      case None => Failure(BadQuantity(msg["38"]))
      case Some(qty) =>
        if "54" !in msg then Failure(MissingKey("54"))
        else Success((msg["55"], qty, msg["54"]))
  }

  /** The outcome of handling one message: the order's symbol, quantity
      and side, its final state, the positions, and the events logged. */
  datatype Handled = Handled(order: (string, int, string), state: FixOrders.OrderState,
                             positions: FixRisk.Positions, events: seq<Event>)

  /** `handle_message` on the parser's required tags, the engine's limits
      and positions. */
  function Handle(required: seq<string>, raw: string, maxOrderSize: int, maxPosition: int,
                  positions: FixRisk.Positions): Result<Handled, HandleError>
  {
    match FixParsing.ParseMessage(required, raw)
    case Failure(e) => Failure(ParseFailed(e))
    case Success(msg) =>
      match Intake(msg)
      case Failure(e) => Failure(e)
      case Success(order) => Success(Process(msg, order, maxOrderSize, maxPosition, positions))
  }

  /** The part of `handle_message` after the order is built: log it, then
      risk-check it and fill or reject it. */
  function Process(msg: FixParsing.Fields, order: (string, int, string), maxOrderSize: int, maxPosition: int,
                   positions: FixRisk.Positions): Handled
  {
    var (symbol, qty, side) := order;
    var created := Event("OrderCreated", MessageData(msg));
    match FixRisk.CheckOrder(maxOrderSize, maxPosition, positions, symbol, qty, side)
    case Success(_) =>
      var sign := if side == "1" then 1 else -1;
      var state := FixOrders.Next(FixOrders.Next(FixOrders.New, FixOrders.Acked), FixOrders.Filled);
      Handled(order, state, FixRisk.Moved(positions, symbol, sign * qty),
              [created, Event("OrderFilled", OrderData(symbol, qty, side))])
    case Failure(e) =>
      Handled(order, FixOrders.Next(FixOrders.New, FixOrders.Rejected), positions,
              [created, Event("OrderRejected", RejectData(symbol, qty, side, e))])
  }

  /** Every handled message logs exactly two events, "OrderCreated" with
      the parsed message and then the verdict; the order ends FILLED with
      the symbol moved by its signed quantity exactly when the risk check
      passed, and otherwise ends REJECTED with the check's error as the
      reason and no position changed. */
  lemma ProcessOutcome(msg: FixParsing.Fields, order: (string, int, string), maxOrderSize: int, maxPosition: int,
                       positions: FixRisk.Positions)
    ensures var h := Process(msg, order, maxOrderSize, maxPosition, positions);
      var (symbol, qty, side) := order;
      var check := FixRisk.CheckOrder(maxOrderSize, maxPosition, positions, symbol, qty, side);
      && h.order == order
      && |h.events| == 2 && h.events[0] == Event("OrderCreated", MessageData(msg))
      && (h.state == FixOrders.Filled <==> check.Success?)
      && (check.Success? ==>
            && h.events[1] == Event("OrderFilled", OrderData(symbol, qty, side))
            && h.positions == FixRisk.Moved(positions, symbol, FixRisk.SideSign(side).value * qty))
      && (check.Failure? ==>
            && h.state == FixOrders.Rejected
            && h.events[1] == Event("OrderRejected", RejectData(symbol, qty, side, check.error))
            && h.positions == positions)
  {
  }

  /** A message fails to be handled exactly when it does not parse or its
      symbol, quantity or side cannot be read; the risk check never makes
      it fail, and a handled message is processed as the order read from
      it. */
  lemma HandleFailsExactly(required: seq<string>, raw: string, maxOrderSize: int, maxPosition: int,
                           positions: FixRisk.Positions)
    ensures Handle(required, raw, maxOrderSize, maxPosition, positions).Failure? <==>
      || FixParsing.ParseMessage(required, raw).Failure?
      || Intake(FixParsing.ParseMessage(required, raw).value).Failure?
    ensures var h := Handle(required, raw, maxOrderSize, maxPosition, positions);
      h.Success? ==>
        var msg := FixParsing.ParseMessage(required, raw).value;
        h.value == Process(msg, Intake(msg).value, maxOrderSize, maxPosition, positions)
  {
  }

  /** Handling a message never takes a symbol past the position limit. */
  lemma HandleWithinLimits(required: seq<string>, raw: string, maxOrderSize: int, maxPosition: int,
                           positions: FixRisk.Positions)
    requires FixRisk.WithinLimits(positions, maxPosition)
    ensures var h := Handle(required, raw, maxOrderSize, maxPosition, positions);
      h.Success? ==> FixRisk.WithinLimits(h.value.positions, maxPosition)
  {
    var h := Handle(required, raw, maxOrderSize, maxPosition, positions);
    if h.Success? {
      var msg := FixParsing.ParseMessage(required, raw).value;
      var (symbol, qty, side) := Intake(msg).value;
      assert h.value == Process(msg, (symbol, qty, side), maxOrderSize, maxPosition, positions);
      if FixRisk.CheckOrder(maxOrderSize, maxPosition, positions, symbol, qty, side).Success? {
        FixRisk.CheckedMoveWithinLimits(maxOrderSize, maxPosition, positions, symbol, qty, side);
      }
    }
  }

  /** `handle_message`: the order it created, or what it raised. */
  method HandleMessage(raw: string, fix: FixParsing.FixParser, risk: FixRisk.RiskEngine, log: Logger)
    returns (r: Result<FixOrders.Order, HandleError>)
    modifies risk, log
    ensures var h := Handle(fix.requiredTags, raw, risk.maxOrderSize, risk.maxPosition, old(risk.positions));
      && (h.Failure? ==> r == Failure(h.error) && risk.positions == old(risk.positions) && log.events == old(log.events))
      && (h.Success? ==>
            && r.Success? && fresh(r.value)
            && (r.value.symbol, r.value.qty, r.value.side) == h.value.order
            && r.value.state == h.value.state
            && risk.positions == h.value.positions
            && log.events == old(log.events) + h.value.events)
  {
    var parsed := fix.Parse(raw);
    if parsed.Failure? {
      return Failure(ParseFailed(parsed.error));
    }
    var msg := parsed.value;
    if "55" !in msg {
      return Failure(MissingKey("55"));
    }
    var symbol := msg["55"];
    if "38" !in msg {
      return Failure(MissingKey("38"));
    }
    var qty := PyText.ParseInt(msg["38"]);
    if qty.None? {
      return Failure(BadQuantity(msg["38"]));
    }
    if "54" !in msg {
      return Failure(MissingKey("54"));
    }
    var side := msg["54"];
    var order := ProcessOrder(msg, symbol, qty.value, side, risk, log);
    return Success(order);
  }

  /** Build the order, log it, and fill or reject it on the risk check. */
  method ProcessOrder(msg: FixParsing.Fields, symbol: string, qty: int, side: string,
                      risk: FixRisk.RiskEngine, log: Logger) returns (order: FixOrders.Order)
    modifies risk, log
    ensures var h := Process(msg, (symbol, qty, side), risk.maxOrderSize, risk.maxPosition, old(risk.positions));
      && fresh(order)
      && order.symbol == symbol && order.qty == qty && order.side == side
      && order.state == h.state
      && risk.positions == h.positions
      && log.events == old(log.events) + h.events
  {
    order := new FixOrders.Order(symbol, qty, side);
    log.Log("OrderCreated", MessageData(msg));
    var verdict := risk.Check(order);
    if verdict.Success? {
      order.Transition(FixOrders.Acked);
      var _ := risk.UpdatePosition(order);
      order.Transition(FixOrders.Filled);
      log.Log("OrderFilled", OrderData(order.symbol, order.qty, order.side));
    } else {
      order.Transition(FixOrders.Rejected);
      log.Log("OrderRejected", RejectData(order.symbol, order.qty, order.side, verdict.error));
    }
  }
}
