/** The order lifecycle of the FIX gateway: NEW may become ACKED or
    REJECTED, ACKED may become FILLED or CANCELED, and the other three
    states are terminal.  A request the table does not allow is ignored. */
module FixOrders {

  datatype OrderState = New | Acked | Filled | Canceled | Rejected

  /** The `allowed` table of `transition`; terminal states have no entry. */
  const Allowed: map<OrderState, set<OrderState>> :=
    map[New := {Acked, Rejected}, Acked := {Filled, Canceled}]

  predicate Terminal(s: OrderState) {
    s !in Allowed
  }

  /** The state after requesting `requested` in state `current`. */
  function Next(current: OrderState, requested: OrderState): (r: OrderState)
    ensures r == current || r == requested
  {
    if current in Allowed && requested in Allowed[current] then requested else current
  }

  /** A request takes effect exactly for the four edges of the table; every
      other request, a self-transition included, leaves the state as it
      was. */
  lemma NextExactly(current: OrderState, requested: OrderState)
    ensures Next(current, requested) == requested <==>
      || current == requested
      || (current == New && (requested == Acked || requested == Rejected))
      || (current == Acked && (requested == Filled || requested == Canceled))
    ensures Next(current, current) == current
  {
  }

  /** FILLED, CANCELED and REJECTED are exactly the terminal states. */
  lemma TerminalStates(s: OrderState)
    ensures Terminal(s) <==> s == Filled || s == Canceled || s == Rejected
  {
  }

  /** The state after a sequence of requests. */
  function NextAll(current: OrderState, requests: seq<OrderState>): OrderState
    decreases |requests|
  {
    if requests == [] then current else NextAll(Next(current, requests[0]), requests[1..])
  }

  /** How far along its life an order is. */
  function Stage(s: OrderState): nat {
    match s
    case New => 0
    case Acked => 1
    case _ => 2
  }

  /** Whatever is requested, an order never goes back a stage, and a
      terminal order stays where it is. */
  lemma {:induction false} NextAllMonotone(current: OrderState, requests: seq<OrderState>)
    ensures Stage(NextAll(current, requests)) >= Stage(current)
    ensures Terminal(current) ==> NextAll(current, requests) == current
    decreases |requests|
  {
    if requests != [] {
      NextAllMonotone(Next(current, requests[0]), requests[1..]);
    }
  }

  /** An order that starts NEW can end FILLED or CANCELED only if ACKED
      was requested on the way. */
  lemma {:induction false} DoneNeedsAck(requests: seq<OrderState>)
    ensures NextAll(New, requests) == Filled || NextAll(New, requests) == Canceled ==> Acked in requests
    decreases |requests|
  {
    if requests != [] {
      var n := Next(New, requests[0]);
      if n == New {
        DoneNeedsAck(requests[1..]);
      } else if n == Rejected {
        NextAllMonotone(n, requests[1..]);
      }
    }
  }

  /** `Order`: symbol, quantity and FIX side ('1' buy, '2' sell) as given,
      and the lifecycle state. */
  class Order {
    const symbol: string
    const qty: int
    const side: string
    var state: OrderState

    /** `__init__`: a new order starts in NEW. */
    constructor (symbol: string, qty: int, side: string)
      ensures this.symbol == symbol && this.qty == qty && this.side == side
      ensures state == New
    {
      this.symbol, this.qty, this.side := symbol, qty, side;
      state := New;
    }

    /** `transition`: move to `newState` if the table allows it, else keep
        the current state. */
    method Transition(newState: OrderState)
      modifies this
      ensures state == Next(old(state), newState)
    {
      var current := state;
      if current in Allowed && newState in Allowed[current] {
        state := newState;
      }
    }
  }
}
