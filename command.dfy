/** The command pattern of the design-patterns package: a command books
    one order into a shared order list or takes it out again, and the
    invoker keeps the stacks of done and undone commands for undo and
    redo. */
module Commands {
  import PyText

  /** An order as the engine books it: only symbol, action and quantity. */
  datatype BookOrder = BookOrder(symbol: string, action: string, qty: int)

  /** The order list the engine owns and every command appends to. */
  class OrderList {
    var orders: seq<BookOrder>

    constructor ()
      ensures orders == []
    {
      orders := [];
    }
  }

  /** `ExecuteOrderCommand`: one order and the list it goes into. */
  class ExecuteOrderCommand {
    const book: OrderList
    const order: BookOrder

    constructor (book: OrderList, order: BookOrder)
      ensures this.book == book && this.order == order
    {
      this.book, this.order := book, order;
    }

    /** `execute`: append a copy of the order; always succeeds. */
    method Execute() returns (ok: bool)
      modifies book
      ensures ok
      ensures book.orders == old(book.orders) + [order]
    {
      book.orders := book.orders + [order];
      return true;
    }

    /** `undo`: remove the first order equal to this one, if there is one. */
    method Undo() returns (ok: bool)
      modifies book
      ensures ok <==> order in old(book.orders)
      ensures book.orders == PyText.RemoveFirst(old(book.orders), order)
    {
      if order in book.orders {
        book.orders := PyText.RemoveFirst(book.orders, order);
        return true;
      }
      return false;
    }
  }

  /** A command undone right after it was done leaves the list with the
      orders it had; when the order was not booked before, the list is
      exactly as it was. */
  lemma DoThenUndoRestores(orders: seq<BookOrder>, order: BookOrder)
    ensures multiset(PyText.RemoveFirst(orders + [order], order)) == multiset(orders)
    ensures order !in orders ==> PyText.RemoveFirst(orders + [order], order) == orders
  {
    var booked := orders + [order];
    assert booked[|orders|] == order;
    assert multiset(booked) == multiset(orders) + multiset{order};
    if order !in orders {
      var i := PyText.IndexOf(booked, order);
      assert i == |orders|;
      assert booked[..i] == orders;
    }
  }

  /** Redoing an undone command puts its order back: the contents are those
      before the undo. */
  lemma UndoThenRedoRestores(orders: seq<BookOrder>, order: BookOrder)
    requires order in orders
    ensures multiset(PyText.RemoveFirst(orders, order) + [order]) == multiset(orders)
  {
  }

  /** `CommandInvoker`: the done and undone stacks, tops at the end. */
  class CommandInvoker {
    var done: seq<ExecuteOrderCommand>
    var undone: seq<ExecuteOrderCommand>

    constructor ()
      ensures done == [] && undone == []
    {
      done, undone := [], [];
    }

    /** The order lists the stacked commands act on. */
    ghost function Books(): set<OrderList>
      reads this
    {
      set c | c in done + undone :: c.book
    }

    /** `do`: execute the command; on success push it and forget what was
        undone. */
    method Do(cmd: ExecuteOrderCommand)
      modifies this, cmd.book
      ensures cmd.book.orders == old(cmd.book.orders) + [cmd.order]
      ensures done == old(done) + [cmd] && undone == []
    {
      var ok := cmd.Execute();
      if ok {
        done := done + [cmd];
        undone := [];
      }
    }

    /** `undo`: nothing without a done command; otherwise pop the last
        one, undo it and push it on the undone stack. */
    method Undo()
      modifies this, Books()
      ensures old(done) == [] ==> done == [] && undone == old(undone) && unchanged(Books())
      ensures old(done) != [] ==>
        var c := old(done)[|old(done)| - 1];
        && done == old(done)[..|old(done)| - 1] && undone == old(undone) + [c]
        && c.book.orders == PyText.RemoveFirst(old(c.book.orders), c.order)
        && forall b :: b in old(Books()) && b != c.book ==> b.orders == old(b.orders)
    {
      if done != [] {
        var c := done[|done| - 1];
        done := done[..|done| - 1];
        var _ := c.Undo();
        undone := undone + [c];
      }
    }

    /** `redo`: nothing without an undone command; otherwise pop the last
        one, execute it again and push it back on the done stack.  The rest
        of the undone stack stays. */
    method Redo()
      modifies this, Books()
      ensures old(undone) == [] ==> undone == [] && done == old(done) && unchanged(Books())
      ensures old(undone) != [] ==>
        var c := old(undone)[|old(undone)| - 1];
        && undone == old(undone)[..|old(undone)| - 1] && done == old(done) + [c]
        && c.book.orders == old(c.book.orders) + [c.order]
        && forall b :: b in old(Books()) && b != c.book ==> b.orders == old(b.orders)
    {
      if undone != [] {
        var c := undone[|undone| - 1];
        undone := undone[..|undone| - 1];
        var _ := c.Execute();
        done := done + [c];
      }
    }
  }
}
