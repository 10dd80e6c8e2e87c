/** The event engine of the design-patterns package: on every tick it asks
    its strategy for signals and, signal by signal, notifies the publisher
    and books the order through the command invoker, so that bookings can
    be undone and redone. */
module PatternEngine {
  import opened Wrappers
  import PyText
  import PortfolioModels
  import SignalStrategies
  import Observers
  import Commands

  type Signal = SignalStrategies.Signal

  /** The strategy the engine runs: one of the two strategy classes. */
  datatype SignalSource =
    | MeanReversion(mr: SignalStrategies.MeanReversionStrategy)
    | Breakout(bo: SignalStrategies.BreakoutStrategy)
  {
    function Obj(): object {
      match this
      case MeanReversion(m) => m
      case Breakout(b) => b
    }

    function History(): seq<real>
      reads Obj()
    {
      match this
      case MeanReversion(m) => m.history
      case Breakout(b) => b.history
    }

    /** The strategy's decision on its current history, which already ends
        with the tick's price: at most one signal, always with a quantity. */
    function Decide(tick: PortfolioModels.Tick): (r: Option<seq<Signal>>)
      reads Obj()
      ensures r.Some? ==> |r.value| <= 1
      ensures r.Some? ==> forall i :: 0 <= i < |r.value| ==> r.value[i].qty == Some(SignalStrategies.SignalQty)
    {
      match this
      case MeanReversion(m) => SignalStrategies.MeanReversionSignals(m.window, m.threshold, m.history, tick)
      case Breakout(b) => SignalStrategies.BreakoutSignals(b.window, b.history, tick)
    }
  }

  /** `strategy.generate_signals(tick)`. */
  method Generate(src: SignalSource, tick: PortfolioModels.Tick) returns (r: Option<seq<Signal>>)
    modifies src.Obj()
    ensures src.History() == old(src.History()) + [tick.price]
    ensures r == src.Decide(tick)
  {
    match src
    case MeanReversion(m) => r := m.GenerateSignals(tick);
    case Breakout(b) => r := b.GenerateSignals(tick);
  }

  /** The order booked for a signal: its symbol, action and quantity only. */
  function OrderOf(sig: Signal): Commands.BookOrder
    requires sig.qty.Some?
  {
    Commands.BookOrder(sig.symbol, sig.action, sig.qty.value)
  }

  predicate HaveQty(sigs: seq<Signal>) {
    forall i :: 0 <= i < |sigs| ==> sigs[i].qty.Some?
  }

  /** The orders booked for signals, in signal order. */
  function OrdersOf(sigs: seq<Signal>): (os: seq<Commands.BookOrder>)
    requires HaveQty(sigs)
    ensures |os| == |sigs|
    ensures forall i :: 0 <= i < |sigs| ==> os[i] == OrderOf(sigs[i])
  {
    seq(|sigs|, i requires 0 <= i < |sigs| => OrderOf(sigs[i]))
  }

  /** The orders of a list of commands. */
  function CommandOrders(cmds: seq<Commands.ExecuteOrderCommand>): (os: seq<Commands.BookOrder>)
    ensures |os| == |cmds|
    ensures forall i :: 0 <= i < |cmds| ==> os[i] == cmds[i].order
    decreases |cmds|
  {
    if cmds == [] then [] else CommandOrders(cmds[..|cmds| - 1]) + [cmds[|cmds| - 1].order]
  }

  /** What notifying signal after signal appends to one list. */
  function DeliveredAll(obs: seq<Observers.ObserverRef>, log: Observers.SignalLog, sigs: seq<Signal>): seq<Signal>
    decreases |sigs|
  {
    if sigs == [] then []
    else DeliveredAll(obs, log, sigs[..|sigs| - 1]) + Observers.Delivered(obs, log, sigs[|sigs| - 1])
  }

  /** The contents of the lists `sinks`. */
  ghost function Snapshot(sinks: set<Observers.SignalLog>): (m: map<Observers.SignalLog, seq<Signal>>)
    reads sinks
    ensures m.Keys == sinks && forall log :: log in sinks ==> m[log] == log.entries
  {
    map log | log in sinks :: log.entries
  }

  /** One more signal adds its order at the end ... */
  lemma OrdersGrow(sigs: seq<Signal>, i: nat)
    requires i < |sigs| && HaveQty(sigs)
    ensures OrdersOf(sigs[..i + 1]) == OrdersOf(sigs[..i]) + [OrderOf(sigs[i])]
  {
    assert sigs[..i + 1][..i] == sigs[..i] && sigs[..i + 1][i] == sigs[i];
  }

  /** ... and its deliveries after the earlier ones. */
  lemma DeliveriesGrow(obs: seq<Observers.ObserverRef>, sigs: seq<Signal>, i: nat)
    requires i < |sigs|
    ensures forall log ::
      DeliveredAll(obs, log, sigs[..i + 1]) == DeliveredAll(obs, log, sigs[..i]) + Observers.Delivered(obs, log, sigs[i])
  {
    assert sigs[..i + 1][..i] == sigs[..i] && sigs[..i + 1][i] == sigs[i];
  }

  /** A command pushed after the first `k` adds its order at the end of
      the orders of the commands after them. */
  lemma CommandOrdersGrow(cmds: seq<Commands.ExecuteOrderCommand>, k: nat, c: Commands.ExecuteOrderCommand)
    requires k <= |cmds|
    ensures (cmds + [c])[..k] == cmds[..k]
    ensures CommandOrders((cmds + [c])[k..]) == CommandOrders(cmds[k..]) + [c.order]
  {
    assert (cmds + [c])[k..] == cmds[k..] + [c];
    assert (cmds[k..] + [c])[..|cmds[k..]|] == cmds[k..];
  }

  lemma AppendAssoc(a: seq<Signal>, b: seq<Signal>, c: seq<Signal>)
    ensures a + (b + c) == (a + b) + c
  {
  }

  /** `Engine`: the strategy, the publisher, the invoker and the order
      list the engine's commands book into. */
  class Engine {
    const strategy: SignalSource
    const publisher: Observers.SignalPublisher
    const invoker: Commands.CommandInvoker
    const orderBook: Commands.OrderList

    /** Every command on the invoker's stacks books into this engine's list. */
    ghost predicate Valid()
      reads invoker
    {
      forall c :: c in invoker.done + invoker.undone ==> c.book == orderBook
    }

    /** `__init__`: a fresh invoker and an empty order list. */
    constructor (strategy: SignalSource, publisher: Observers.SignalPublisher)
      ensures this.strategy == strategy && this.publisher == publisher
      ensures fresh(invoker) && fresh(orderBook)
      ensures invoker.done == [] && invoker.undone == [] && orderBook.orders == []
      ensures Valid()
    {
      this.strategy, this.publisher := strategy, publisher;
      invoker := new Commands.CommandInvoker();
      orderBook := new Commands.OrderList();
    }

    /** `on_tick`: `raised` when the strategy raised, and then only its
        history changed.  Otherwise the signals are dispatched in order. */
    method OnTick(tick: PortfolioModels.Tick) returns (raised: bool)
      requires Valid()
      modifies strategy.Obj(), Observers.Sinks(publisher.observers), invoker, orderBook
      ensures Valid()
      ensures strategy.History() == old(strategy.History()) + [tick.price]
      ensures raised <==> strategy.Decide(tick).None?
      ensures raised ==> unchanged(invoker, orderBook) && unchanged(Observers.Sinks(publisher.observers))
      ensures !raised ==> Dispatched(strategy.Decide(tick).value, old(invoker.done), old(invoker.undone),
                                     old(orderBook.orders), old(Snapshot(Observers.Sinks(publisher.observers))))
    {
      var out := Generate(strategy, tick);
      if out.None? {
        return true;
      }
      ghost var sinks := Observers.Sinks(publisher.observers);
      assert unchanged(sinks) && unchanged(invoker, orderBook);
      assert Snapshot(sinks) == old(Snapshot(sinks));
      DispatchAll(out.value);
      return false;
    }

    /** What dispatching `sigs` did, from the stacks `done0` and `undone0`,
        the orders `orders0` and the observers' lists with the contents
        `entries0` before it: every signal booked its order through a new
        command and was delivered to every list; a signal clears the undone
        stack, and no signals change neither the order list nor the
        stacks. */
    ghost predicate Dispatched(sigs: seq<Signal>, done0: seq<Commands.ExecuteOrderCommand>,
                               undone0: seq<Commands.ExecuteOrderCommand>, orders0: seq<Commands.BookOrder>,
                               entries0: map<Observers.SignalLog, seq<Signal>>)
      reads this, publisher, invoker, orderBook, entries0.Keys
    {
      HaveQty(sigs) && Booked(sigs, done0, undone0, orders0) && Reached(sigs, entries0)
    }

    /** The bookings of `sigs`: one new command per signal, in order. */
    ghost predicate Booked(sigs: seq<Signal>, done0: seq<Commands.ExecuteOrderCommand>,
                           undone0: seq<Commands.ExecuteOrderCommand>, orders0: seq<Commands.BookOrder>)
      requires HaveQty(sigs)
      reads invoker, orderBook
    {
      && orderBook.orders == orders0 + OrdersOf(sigs)
      && |invoker.done| >= |done0| && invoker.done[..|done0|] == done0
      && CommandOrders(invoker.done[|done0|..]) == OrdersOf(sigs)
      && invoker.undone == (if sigs == [] then undone0 else [])
    }

    /** The deliveries of `sigs` to the lists whose earlier contents are
        `entries0`. */
    ghost predicate Reached(sigs: seq<Signal>, entries0: map<Observers.SignalLog, seq<Signal>>)
      reads this, publisher, entries0.Keys
    {
      forall log :: log in entries0 ==> log.entries == entries0[log] + DeliveredAll(publisher.observers, log, sigs)
    }

    /** The loop of `on_tick` over the signals. */
    method DispatchAll(sigs: seq<Signal>)
      requires Valid() && HaveQty(sigs)
      modifies Observers.Sinks(publisher.observers), invoker, orderBook
      ensures Valid()
      ensures Dispatched(sigs, old(invoker.done), old(invoker.undone), old(orderBook.orders),
                         old(Snapshot(Observers.Sinks(publisher.observers))))
    {
      ghost var entries0 := Snapshot(Observers.Sinks(publisher.observers));
      assert sigs[..0] == [];
      for i := 0 to |sigs|
        invariant Valid()
        invariant Dispatched(sigs[..i], old(invoker.done), old(invoker.undone), old(orderBook.orders), entries0)
      {
        Deliver(sigs, i, entries0);
        Book(sigs, i, old(invoker.done), old(invoker.undone), old(orderBook.orders));
      }
      assert sigs[..|sigs|] == sigs;
    }

    /** The first half of one turn of that loop: `notify` the publisher of
        `sigs[i]`, which extends the deliveries of the first `i` signals to
        the first `i + 1`. */
    method Deliver(sigs: seq<Signal>, i: nat, ghost entries0: map<Observers.SignalLog, seq<Signal>>)
      requires i < |sigs|
      requires entries0.Keys == Observers.Sinks(publisher.observers)
      requires Reached(sigs[..i], entries0)
      modifies Observers.Sinks(publisher.observers)
      ensures Reached(sigs[..i + 1], entries0)
    {
      DeliveriesGrow(publisher.observers, sigs, i);
      label before:
      publisher.Notify(sigs[i]);
      forall log | log in entries0
        ensures log.entries == entries0[log] + DeliveredAll(publisher.observers, log, sigs[..i + 1])
      {
        var earlier := entries0[log] + DeliveredAll(publisher.observers, log, sigs[..i]);
        assert old@before(log.entries) == earlier;
        assert log.entries == earlier + Observers.Delivered(publisher.observers, log, sigs[i]);
        AppendAssoc(entries0[log], DeliveredAll(publisher.observers, log, sigs[..i]),
                    Observers.Delivered(publisher.observers, log, sigs[i]));
      }
    }

    /** The second half: book the order of `sigs[i]` through a new command,
        which extends the bookings of the first `i` signals to the first
        `i + 1`. */
    method Book(sigs: seq<Signal>, i: nat, ghost done0: seq<Commands.ExecuteOrderCommand>,
                ghost undone0: seq<Commands.ExecuteOrderCommand>, ghost orders0: seq<Commands.BookOrder>)
      requires i < |sigs| && HaveQty(sigs) && Valid()
      requires Booked(sigs[..i], done0, undone0, orders0)
      modifies invoker, orderBook
      ensures Valid()
      ensures Booked(sigs[..i + 1], done0, undone0, orders0)
    {
      OrdersGrow(sigs, i);
      var cmd := new Commands.ExecuteOrderCommand(orderBook, OrderOf(sigs[i]));
      ghost var before := invoker.done;
      invoker.Do(cmd);
      CommandOrdersGrow(before, |done0|, cmd);
    }

    /** `undo_last`: the invoker's undo, on this engine's list. */
    method UndoLast()
      requires Valid()
      modifies invoker, orderBook
      ensures Valid()
      ensures old(invoker.done) == [] ==>
        invoker.done == [] && invoker.undone == old(invoker.undone) && orderBook.orders == old(orderBook.orders)
      ensures old(invoker.done) != [] ==>
        var c := old(invoker.done)[|old(invoker.done)| - 1];
        && invoker.done == old(invoker.done)[..|old(invoker.done)| - 1]
        && invoker.undone == old(invoker.undone) + [c]
        && orderBook.orders == PyText.RemoveFirst(old(orderBook.orders), c.order)
    {
      assert invoker.Books() <= {orderBook};
      invoker.Undo();
    }

    /** `redo_last`: the invoker's redo, on this engine's list. */
    method RedoLast()
      requires Valid()
      modifies invoker, orderBook
      ensures Valid()
      ensures old(invoker.undone) == [] ==>
        invoker.undone == [] && invoker.done == old(invoker.done) && orderBook.orders == old(orderBook.orders)
      ensures old(invoker.undone) != [] ==>
        var c := old(invoker.undone)[|old(invoker.undone)| - 1];
        && invoker.undone == old(invoker.undone)[..|old(invoker.undone)| - 1]
        && invoker.done == old(invoker.done) + [c]
        && orderBook.orders == old(orderBook.orders) + [c.order]
    {
      assert invoker.Books() <= {orderBook};
      invoker.Redo();
    }
  }
}
