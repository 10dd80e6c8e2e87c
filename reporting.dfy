/** `summarize_orders` of the design-patterns package: the booked orders
    grouped by (symbol, action), with their quantities added up. */
module Reporting {
  import Commands

  type Order = Commands.BookOrder
  type Key = (string, string)

  function KeyOf(o: Order): Key {
    (o.symbol, o.action)
  }

  /** `out.get(key, 0)`. */
  function Get(m: map<Key, int>, k: Key): int {
    if k in m then m[k] else 0
  }

  /** The summary of `book`, built as the loop builds it: each order adds
      its quantity to the entry of its pair, creating the entry at 0. */
  function Summary(book: seq<Order>): map<Key, int>
    decreases |book|
  {
    if book == [] then map[]
    else
      var s := Summary(book[..|book| - 1]);
      var o := book[|book| - 1];
      s[KeyOf(o) := Get(s, KeyOf(o)) + o.qty]
  }

  /** The summary has an entry for exactly the pairs that occur in the
      book; an empty book gives an empty summary. */
  lemma {:induction false} SummaryKeys(book: seq<Order>)
    ensures Summary(book).Keys == set o | o in book :: KeyOf(o)
    decreases |book|
  {
    if book != [] {
      var init := book[..|book| - 1];
      var o := book[|book| - 1];
      assert forall x :: x in book <==> x in init || x == o;
      SummaryKeys(init);
    }
  }

  /** An independent definition of one entry: the quantities of the
      orders with pair `k`, added from the front. */
  function QtyOf(book: seq<Order>, k: Key): int
    decreases |book|
  {
    if book == [] then 0
    else (if KeyOf(book[0]) == k then book[0].qty else 0) + QtyOf(book[1..], k)
  }

  /** The total quantity of the book. */
  function TotalQty(book: seq<Order>): int
    decreases |book|
  {
    if book == [] then 0 else book[0].qty + TotalQty(book[1..])
  }

  lemma {:induction false} QtyOfSnoc(book: seq<Order>, o: Order, k: Key)
    ensures QtyOf(book + [o], k) == QtyOf(book, k) + if KeyOf(o) == k then o.qty else 0
    ensures TotalQty(book + [o]) == TotalQty(book) + o.qty
    decreases |book|
  {
    if book == [] {
      assert book + [o] == [o];
      assert [o][1..] == [];
    } else {
      assert (book + [o])[0] == book[0] && (book + [o])[1..] == book[1..] + [o];
      QtyOfSnoc(book[1..], o, k);
    }
  }

  /** Each entry of the summary is the quantity of the orders with its
      pair, and a pair with no order has no entry (its quantity is 0). */
  lemma {:induction false} SummaryIsQtyOf(book: seq<Order>, k: Key)
    ensures Get(Summary(book), k) == QtyOf(book, k)
    decreases |book|
  {
    if book != [] {
      var init := book[..|book| - 1];
      var o := book[|book| - 1];
      assert book == init + [o];
      SummaryIsQtyOf(init, k);
      QtyOfSnoc(init, o, k);
    }
  }

  /** The sum of the values of a map. */
  ghost function SumValues(m: map<Key, int>): int
    decreases |m.Keys|
  {
    if m == map[] then 0
    else
      var k :| k in m;
      m[k] + SumValues(m - {k})
  }

  /** `SumValues` does not depend on which key it takes first. */
  lemma {:induction false} SumValuesAt(m: map<Key, int>, k: Key)
    requires k in m
    ensures SumValues(m) == m[k] + SumValues(m - {k})
    decreases |m.Keys|
  {
    var j :| j in m && SumValues(m) == m[j] + SumValues(m - {j});
    if j != k {
      var mj := m - {j};
      var mk := m - {k};
      assert |mj.Keys| < |m.Keys| by { assert mj.Keys < m.Keys; }
      assert |mk.Keys| < |m.Keys| by { assert mk.Keys < m.Keys; }
      SumValuesAt(mj, k);
      SumValuesAt(mk, j);
      assert mj - {k} == mk - {j};
    }
  }

  /** Adding `x` to one entry, or creating it at `x`, adds `x` to the sum. */
  lemma SumValuesAdd(m: map<Key, int>, k: Key, x: int)
    ensures SumValues(m[k := Get(m, k) + x]) == SumValues(m) + x
  {
    var m' := m[k := Get(m, k) + x];
    SumValuesAt(m', k);
    assert m' - {k} == m - {k};
    if k in m {
      SumValuesAt(m, k);
    } else {
      assert m - {k} == m;
    }
  }

  /** The entries of the summary add up to the total quantity of the book. */
  lemma {:induction false} SummaryTotal(book: seq<Order>)
    ensures SumValues(Summary(book)) == TotalQty(book)
    decreases |book|
  {
    if book != [] {
      var init := book[..|book| - 1];
      var o := book[|book| - 1];
      assert book == init + [o];
      var s := Summary(init);
      assert Summary(book) == s[KeyOf(o) := Get(s, KeyOf(o)) + o.qty];
      SummaryTotal(init);
      SumValuesAdd(s, KeyOf(o), o.qty);
      QtyOfSnoc(init, o, KeyOf(o));
    }
  }

  /** `summarize_orders`: the loop over the book. */
  method SummarizeOrders(book: seq<Order>) returns (out: map<Key, int>)
    ensures out == Summary(book)
    ensures out.Keys == set o | o in book :: KeyOf(o)
    ensures forall k :: k in out ==> out[k] == QtyOf(book, k)
    ensures SumValues(out) == TotalQty(book)
  {
    out := map[];
    for i := 0 to |book|
      invariant out == Summary(book[..i])
    {
      assert book[..i + 1][..i] == book[..i] && book[..i + 1][i] == book[i];
      var k := KeyOf(book[i]);
      out := out[k := (if k in out then out[k] else 0) + book[i].qty];
    }
    assert book[..|book|] == book;
    SummaryKeys(book);
    SummaryTotal(book);
    forall k | k in out
      ensures out[k] == QtyOf(book, k)
    {
      SummaryIsQtyOf(book, k);
    }
  }
}
