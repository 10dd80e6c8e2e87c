/** The backtester's limit order book: two price-time-priority queues of
    resting orders and the crossing loop `match`.

    Python keeps each side as a `heapq` binary heap of `Order` dataclasses
    compared with `order=True`.  Only the heap's first element is ever read,
    so the model keeps each side as a sequence sorted by the same comparison:
    same orders, same first element (order ids are unique, so the minimum is
    unique). */
module Books {
  import opened Wrappers
  import PyText

  /** A resting order.  `sortIndex` is fixed when the order is created;
      `quantity` is the only field that changes afterwards. */
  datatype Order = Order(sortIndex: (real, real), price: real, quantity: int, side: string, orderId: nat, timestamp: real)

  /** The priority key of `__post_init__`: (-price, timestamp) for a BUY and
      (price, timestamp) for every other side, so that ascending order is
      best-first. */
  function SortIndex(price: real, side: string, timestamp: real): (real, real) {
    if PyText.Upper(side) == "BUY" then (-price, timestamp) else (price, timestamp)
  }

  /** The `Order(...)` constructor followed by `__post_init__`. */
  function NewOrder(price: real, quantity: int, side: string, orderId: nat, timestamp: real): (o: Order)
    ensures o.price == price && o.quantity == quantity && o.side == side
    ensures o.orderId == orderId && o.timestamp == timestamp
    ensures o.sortIndex == SortIndex(price, side, timestamp)
  {
    Order(SortIndex(price, side, timestamp), price, quantity, side, orderId, timestamp)
  }

  /** The dataclass ordering `x <= y`: fields compared left to right, i.e.
      sort_index, then price, quantity, side, order_id, timestamp. */
  predicate Precedes(x: Order, y: Order) {
    if x.sortIndex.0 != y.sortIndex.0 then x.sortIndex.0 < y.sortIndex.0
    else if x.sortIndex.1 != y.sortIndex.1 then x.sortIndex.1 < y.sortIndex.1
    else if x.price != y.price then x.price < y.price
    else if x.quantity != y.quantity then x.quantity < y.quantity
    else if x.side != y.side then PyText.StrLt(x.side, y.side)
    else if x.orderId != y.orderId then x.orderId < y.orderId
    else x.timestamp <= y.timestamp
  }

  lemma PrecedesTotal(x: Order, y: Order)
    ensures Precedes(x, y) || Precedes(y, x)
  {
    if x.side != y.side {
      PyText.StrLtTotal(x.side, y.side);
    }
  }

  lemma PrecedesTransitive(x: Order, y: Order, z: Order)
    requires Precedes(x, y) && Precedes(y, z)
    ensures Precedes(x, z)
  {
    if x.sortIndex == y.sortIndex == z.sortIndex && x.price == y.price == z.price && x.quantity == y.quantity == z.quantity {
      if x.side != y.side && y.side != z.side {
        PyText.StrLtTransitive(x.side, y.side, z.side);
        if x.side == z.side {
          PyText.StrLtIrreflexive(x.side);
        }
      }
    }
  }

  /** Two orders with different ids never compare equal: the priority order
      is strict on a book whose ids are unique. */
  lemma PrecedesAntisymmetric(x: Order, y: Order)
    requires Precedes(x, y) && Precedes(y, x)
    ensures x.orderId == y.orderId
  {
    if x.side != y.side {
      PyText.StrLtTransitive(x.side, y.side, x.side);
      PyText.StrLtIrreflexive(x.side);
    }
  }

  /** Price-time priority: on either side an order with a better price
      comes strictly first, and at equal prices the earlier one does. */
  lemma PriceTimePriority(x: Order, y: Order, buy: bool)
    requires Keyed(x, buy) && Keyed(y, buy)
    ensures (if buy then x.price > y.price else x.price < y.price) ==> Precedes(x, y) && !Precedes(y, x)
    ensures x.price == y.price && x.timestamp < y.timestamp ==> Precedes(x, y) && !Precedes(y, x)
  {
  }

  predicate Sorted(s: seq<Order>) {
    forall i, j :: 0 <= i < j < |s| ==> Precedes(s[i], s[j])
  }

  /** `heappush` on the sorted-sequence view of a heap: the new order goes
      in front of the first order it precedes. */
  function Insert(s: seq<Order>, o: Order): (r: seq<Order>)
    ensures |r| == |s| + 1
  {
    if s == [] then [o]
    else if Precedes(o, s[0]) then [o] + s
    else [s[0]] + Insert(s[1..], o)
  }

  /** `heappush` adds exactly the new order: the side is a permutation of the
      old side plus `o`. */
  lemma {:induction false} InsertPermutation(s: seq<Order>, o: Order)
    ensures multiset(Insert(s, o)) == multiset(s) + multiset{o}
  {
    if s != [] && !Precedes(o, s[0]) {
      InsertPermutation(s[1..], o);
      assert s == [s[0]] + s[1..];
    }
  }

  lemma {:induction false} InsertElements(s: seq<Order>, o: Order)
    ensures forall x :: x in Insert(s, o) <==> x == o || x in s
  {
    if s != [] && !Precedes(o, s[0]) {
      InsertElements(s[1..], o);
      assert s == [s[0]] + s[1..];
    }
  }

  /** `heappush` keeps a side in priority order. */
  lemma {:induction false} InsertSorted(s: seq<Order>, o: Order)
    requires Sorted(s)
    ensures Sorted(Insert(s, o))
  {
    if s == [] {
    } else if Precedes(o, s[0]) {
      var r := [o] + s;
      forall i, j | 0 <= i < j < |r| ensures Precedes(r[i], r[j]) {
        if i == 0 && j > 1 {
          PrecedesTransitive(o, s[0], s[j - 1]);
        }
      }
    } else {
      var rest := Insert(s[1..], o);
      InsertSorted(s[1..], o);
      InsertElements(s[1..], o);
      PrecedesTotal(o, s[0]);
      var r := [s[0]] + rest;
      forall j | 0 <= j < |rest| ensures Precedes(s[0], rest[j]) {
        if rest[j] != o {
          assert rest[j] in s[1..];
          var k :| 0 <= k < |s[1..]| && s[1..][k] == rest[j];
          assert s[k + 1] == rest[j];
        }
      }
      forall i, j | 0 <= i < j < |r| ensures Precedes(r[i], r[j]) {
        if i == 0 {
          assert r[j] == rest[j - 1];
        } else {
          assert r[i] == rest[i - 1] && r[j] == rest[j - 1];
        }
      }
    }
  }

  function Min(a: int, b: int): (m: int)
    ensures m <= a && m <= b && (m == a || m == b)
  {
    if a <= b then a else b
  }

  /** One fill of `match`: the buy and sell orders as they stand after the
      fill, the traded quantity and the trade price. */
  datatype Trade = Trade(buy: Order, sell: Order, qty: int, price: real)

  /** What `match` leaves behind: the trades in order and both sides. */
  datatype Crossing = Crossing(trades: seq<Trade>, bids: seq<Order>, asks: seq<Order>)

  predicate IsCrossed(bids: seq<Order>, asks: seq<Order>) {
    bids != [] && asks != [] && bids[0].price >= asks[0].price
  }

  /** The first side after one fill: the head decremented, or popped when
      its quantity reaches zero. */
  function AfterFill(side: seq<Order>, q: int): seq<Order>
    requires side != []
  {
    var head := side[0].(quantity := side[0].quantity - q);
    if head.quantity == 0 then side[1..] else [head] + side[1..]
  }

  /** The crossing algorithm of `match`, as a function of both sides. */
  function Cross(bids: seq<Order>, asks: seq<Order>): Crossing
    decreases |bids| + |asks|
  {
    if !IsCrossed(bids, asks) then Crossing([], bids, asks)
    else
      var b, a := bids[0], asks[0];
      var q := Min(b.quantity, a.quantity);
      var t := Trade(b.(quantity := b.quantity - q), a.(quantity := a.quantity - q), q, (b.price + a.price) / 2.0);
      var rest := Cross(AfterFill(bids, q), AfterFill(asks, q));
      Crossing([t] + rest.trades, rest.bids, rest.asks)
  }

  predicate AllPositive(s: seq<Order>) {
    forall i :: 0 <= i < |s| ==> s[i].quantity > 0
  }

  function TotalQty(s: seq<Order>): int {
    if s == [] then 0 else s[0].quantity + TotalQty(s[1..])
  }

  function TradedQty(ts: seq<Trade>): int {
    if ts == [] then 0 else ts[0].qty + TradedQty(ts[1..])
  }

  /** After `match` the book is never crossed: one side is empty or the best
      bid is strictly below the best ask. */
  lemma {:induction false} CrossLeavesBookUncrossed(bids: seq<Order>, asks: seq<Order>)
    ensures var c := Cross(bids, asks); !IsCrossed(c.bids, c.asks)
    decreases |bids| + |asks|
  {
    if IsCrossed(bids, asks) {
      var q := Min(bids[0].quantity, asks[0].quantity);
      CrossLeavesBookUncrossed(AfterFill(bids, q), AfterFill(asks, q));
    }
  }

  /** Every fill pops at least one order, so `match` makes at most
      |bids| + |asks| fills, and each side only shrinks. */
  lemma {:induction false} CrossIsBounded(bids: seq<Order>, asks: seq<Order>)
    ensures var c := Cross(bids, asks);
      |c.trades| + |c.bids| + |c.asks| <= |bids| + |asks|
      && |c.bids| <= |bids| && |c.asks| <= |asks|
    decreases |bids| + |asks|
  {
    if IsCrossed(bids, asks) {
      var q := Min(bids[0].quantity, asks[0].quantity);
      CrossIsBounded(AfterFill(bids, q), AfterFill(asks, q));
    }
  }

  /** Each fill trades the smaller remaining quantity at the midpoint of a
      crossed pair, and leaves one of the two orders empty. */
  lemma {:induction false} CrossTradesAreFair(bids: seq<Order>, asks: seq<Order>)
    requires AllPositive(bids) && AllPositive(asks)
    ensures AllFair(Cross(bids, asks).trades)
    decreases |bids| + |asks|
  {
    if IsCrossed(bids, asks) {
      var q := Min(bids[0].quantity, asks[0].quantity);
      AfterFillPositive(bids, q);
      AfterFillPositive(asks, q);
      CrossTradesAreFair(AfterFill(bids, q), AfterFill(asks, q));
    }
  }

  predicate AllFair(ts: seq<Trade>) {
    forall i :: 0 <= i < |ts| ==> FairTrade(ts[i])
  }

  /** A fill of a positive quantity at the midpoint of a crossed pair that
      empties at least one of the two orders. */
  predicate FairTrade(t: Trade) {
    && t.qty > 0 && t.price == (t.buy.price + t.sell.price) / 2.0
    && t.buy.price >= t.sell.price
    && t.buy.quantity >= 0 && t.sell.quantity >= 0
    && (t.buy.quantity == 0 || t.sell.quantity == 0)
  }

  lemma AfterFillPositive(side: seq<Order>, q: int)
    requires side != [] && AllPositive(side) && 0 <= q <= side[0].quantity
    ensures AllPositive(AfterFill(side, q))
  {
  }

  /** Quantity is conserved: what the trades add up to is exactly what left
      each side. */
  lemma {:induction false} CrossConservesQuantity(bids: seq<Order>, asks: seq<Order>)
    ensures var c := Cross(bids, asks);
      TradedQty(c.trades) == TotalQty(bids) - TotalQty(c.bids)
      && TradedQty(c.trades) == TotalQty(asks) - TotalQty(c.asks)
    decreases |bids| + |asks|
  {
    if IsCrossed(bids, asks) {
      var q := Min(bids[0].quantity, asks[0].quantity);
      AfterFillTotal(bids, q);
      AfterFillTotal(asks, q);
      CrossConservesQuantity(AfterFill(bids, q), AfterFill(asks, q));
    }
  }

  lemma AfterFillTotal(side: seq<Order>, q: int)
    requires side != []
    ensures TotalQty(AfterFill(side, q)) == TotalQty(side) - q
  {
    var head := side[0].(quantity := side[0].quantity - q);
    if head.quantity != 0 {
      assert ([head] + side[1..])[1..] == side[1..];
    }
  }

  /** An uncrossed book is left exactly as it was, with no trades. */
  lemma CrossUncrossedIsIdentity(bids: seq<Order>, asks: seq<Order>)
    requires bids == [] || asks == [] || bids[0].price < asks[0].price
    ensures Cross(bids, asks) == Crossing([], bids, asks)
  {
  }

  /** Decrementing the quantity of a side's first order keeps it first. */
  lemma {:induction false} AfterFillSorted(side: seq<Order>, q: int)
    requires side != [] && Sorted(side) && q >= 0
    ensures Sorted(AfterFill(side, q))
  {
    var head := side[0].(quantity := side[0].quantity - q);
    if head.quantity != 0 {
      var r := [head] + side[1..];
      forall i, j | 0 <= i < j < |r| ensures Precedes(r[i], r[j]) {
        if i == 0 {
          assert Precedes(side[0], side[j]);
        } else {
          assert Precedes(side[i], side[j]);
        }
      }
    }
  }

  /** Every order of `s` is on the bid side (`buy`) or on the ask side, and
      carries the priority key of that side. */
  predicate AllSide(s: seq<Order>, buy: bool) {
    forall i :: 0 <= i < |s| ==> Keyed(s[i], buy)
  }

  /** `o` belongs on the bid side (`buy`) or the ask side and carries that
      side's priority key. */
  predicate Keyed(o: Order, buy: bool) {
    && (o.side == "BUY") == buy
    && o.sortIndex == (if buy then (-o.price, o.timestamp) else (o.price, o.timestamp))
  }

  /** The set of order ids on a side (or on the whole book). */
  function Ids(s: seq<Order>): set<nat> {
    if s == [] then {} else {s[0].orderId} + Ids(s[1..])
  }

  predicate IdsBelow(s: seq<Order>, n: nat) {
    forall id :: id in Ids(s) ==> id < n
  }

  /** No id occurs twice: there are as many ids as orders. */
  predicate IdsDistinct(s: seq<Order>) {
    |Ids(s)| == |s|
  }

  lemma {:induction false} IdsBound(s: seq<Order>)
    ensures |Ids(s)| <= |s|
  {
    if s != [] {
      IdsBound(s[1..]);
    }
  }

  lemma {:induction false} IdsConcat(a: seq<Order>, b: seq<Order>)
    ensures Ids(a + b) == Ids(a) + Ids(b)
  {
    if a != [] {
      assert (a + b)[1..] == a[1..] + b;
      assert (a + b)[0] == a[0];
      IdsConcat(a[1..], b);
    } else {
      assert a + b == b;
    }
  }

  lemma {:induction false} IdsInsert(s: seq<Order>, o: Order)
    ensures Ids(Insert(s, o)) == Ids(s) + {o.orderId}
  {
    if s != [] && !Precedes(o, s[0]) {
      IdsInsert(s[1..], o);
      assert ([s[0]] + Insert(s[1..], o))[1..] == Insert(s[1..], o);
    }
  }

  /** Two different positions of a book with distinct ids hold different ids. */
  lemma {:induction false} IdsDistinctAt(s: seq<Order>, i: int, j: int)
    requires IdsDistinct(s) && 0 <= i < j < |s|
    ensures s[i].orderId != s[j].orderId
  {
    IdsBound(s[1..]);
    if i == 0 {
      IdsMember(s[1..], j - 1);
    } else {
      IdsDistinctAt(s[1..], i - 1, j - 1);
    }
  }

  lemma {:induction false} IdsMember(s: seq<Order>, k: int)
    requires 0 <= k < |s|
    ensures s[k].orderId in Ids(s)
  {
    if k > 0 {
      IdsMember(s[1..], k - 1);
    }
  }

  class OrderBook {
    var bids: seq<Order>
    var asks: seq<Order>
    /** `itertools.count()`: the id the next order will get. */
    var nextId: nat

    /** Every id issued so far is below `nextId`; see `BookValid`. */
    ghost predicate Valid()
      reads this
    {
      BookValid(bids, asks, nextId)
    }

    constructor ()
      ensures Valid() && bids == [] && asks == [] && nextId == 0
    {
      bids, asks, nextId := [], [], 0;
    }

    /** `add_order`: the side is upper-cased, the order takes the next id and
        goes to the bids iff its side is "BUY", to the asks otherwise.
        Quantity must be positive, which every caller guarantees. */
    method AddOrder(price: real, quantity: int, side: string, timestamp: real) returns (o: Order)
      requires Valid() && quantity > 0
      modifies this
      ensures Valid()
      ensures o == NewOrder(price, quantity, PyText.Upper(side), old(nextId), timestamp)
      ensures nextId == old(nextId) + 1
      ensures o.side == "BUY" ==> bids == Insert(old(bids), o) && asks == old(asks)
      ensures o.side != "BUY" ==> asks == Insert(old(asks), o) && bids == old(bids)
    {
      o := NewOrder(price, quantity, PyText.Upper(side), nextId, timestamp);
      PyText.UpperIdempotent(side);
      if o.side == "BUY" {
        InsertSorted(bids, o);
        bids := Insert(bids, o);
      } else {
        InsertSorted(asks, o);
        asks := Insert(asks, o);
      }
      InsertKeeps(old(bids), old(asks), o, bids, asks, nextId);
      nextId := nextId + 1;
    }

    /** `_best_bid`: the first bid, which has the highest price and, among
        equal prices, the earliest timestamp. */
    function BestBid(): (r: Option<Order>)
      requires Valid()
      reads this
      ensures r.Some? <==> bids != []
      ensures r.Some? ==> r.value in bids
      ensures r.Some? ==> forall o :: o in bids ==>
        o.price <= r.value.price && (o.price == r.value.price ==> r.value.timestamp <= o.timestamp)
    {
      if bids != [] then
        assert forall j :: 0 <= j < |bids| ==> Precedes(bids[0], bids[j]) && Keyed(bids[j], true);
        Some(bids[0])
      else None
    }

    /** `_best_ask`: the first ask, which has the lowest price and, among
        equal prices, the earliest timestamp. */
    function BestAsk(): (r: Option<Order>)
      requires Valid()
      reads this
      ensures r.Some? <==> asks != []
      ensures r.Some? ==> r.value in asks
      ensures r.Some? ==> forall o :: o in asks ==>
        r.value.price <= o.price && (o.price == r.value.price ==> r.value.timestamp <= o.timestamp)
    {
      if asks != [] then
        assert forall j :: 0 <= j < |asks| ==> Precedes(asks[0], asks[j]) && Keyed(asks[j], false);
        Some(asks[0])
      else None
    }

    /** `match`: cross the book until a side is empty or the prices no longer
        cross; the result and the new sides are those of `Cross`. */
    method Match() returns (trades: seq<Trade>)
      requires Valid()
      modifies this
      ensures Valid() && nextId == old(nextId)
      ensures Cross(old(bids), old(asks)) == Crossing(trades, bids, asks)
      ensures !IsCrossed(bids, asks)
    {
      trades := [];
      var b, a := bids, asks;
      ghost var total := Cross(b, a);
      while b != [] && a != []
        invariant BookValid(b, a, nextId) && nextId == old(nextId)
        invariant total == Resume(trades, Cross(b, a))
        decreases |b| + |a|
      {
        var bestBid, bestAsk := b[0], a[0];
        if bestBid.price >= bestAsk.price {
          var tradedQty := Min(bestBid.quantity, bestAsk.quantity);
          var tradePrice := (bestBid.price + bestAsk.price) / 2.0;
          bestBid := bestBid.(quantity := bestBid.quantity - tradedQty);
          bestAsk := bestAsk.(quantity := bestAsk.quantity - tradedQty);
          var trade := Trade(bestBid, bestAsk, tradedQty, tradePrice);
          FillStep(total, trades, b, a, tradedQty, trade, nextId);
          ghost var newBids, newAsks := AfterFill(b, tradedQty), AfterFill(a, tradedQty);
          trades := trades + [trade];
          if bestBid.quantity == 0 {
            b := b[1..];
          } else {
            b := [bestBid] + b[1..];
          }
          assert b == newBids;
          if bestAsk.quantity == 0 {
            a := a[1..];
          } else {
            a := [bestAsk] + a[1..];
          }
          assert a == newAsks;
        } else {
          break;
        }
      }
      CrossDone(total, trades, b, a);
      bids, asks := b, a;
    }
  }

  /** Both sides in priority order, only BUY orders on the bid side, only
      live (positive) quantities, and every id below `n` and unique. */
  ghost predicate BookValid(bids: seq<Order>, asks: seq<Order>, n: nat) {
    && Sorted(bids) && Sorted(asks)
    && AllSide(bids, true) && AllSide(asks, false)
    && AllPositive(bids) && AllPositive(asks)
    && IdsBelow(bids + asks, n) && IdsDistinct(bids + asks)
  }

  /** The outcome of `match` once `done` trades have already been made. */
  function Resume(done: seq<Trade>, c: Crossing): Crossing {
    Crossing(done + c.trades, c.bids, c.asks)
  }

  /** One iteration of `match`'s loop keeps the book valid and is one
      unfolding of `Cross`: if the trades made so far followed by crossing the
      current book give `total`, so do those trades plus this fill followed
      by crossing what the fill leaves. */
  lemma FillStep(total: Crossing, done: seq<Trade>, bids: seq<Order>, asks: seq<Order>, q: int, t: Trade, n: nat)
    requires BookValid(bids, asks, n) && IsCrossed(bids, asks)
    requires total == Resume(done, Cross(bids, asks))
    requires q == Min(bids[0].quantity, asks[0].quantity)
    requires t == Trade(bids[0].(quantity := bids[0].quantity - q), asks[0].(quantity := asks[0].quantity - q),
                        q, (bids[0].price + asks[0].price) / 2.0)
    ensures BookValid(AfterFill(bids, q), AfterFill(asks, q), n)
    ensures total == Resume(done + [t], Cross(AfterFill(bids, q), AfterFill(asks, q)))
  {
    FillKeepsValid(bids, asks, q, n);
    CrossStep(total, done, bids, asks, q, t, AfterFill(bids, q), AfterFill(asks, q));
  }

  lemma CrossStep(total: Crossing, done: seq<Trade>, bids: seq<Order>, asks: seq<Order>,
                  q: int, t: Trade, bids': seq<Order>, asks': seq<Order>)
    requires IsCrossed(bids, asks) && total == Resume(done, Cross(bids, asks))
    requires q == Min(bids[0].quantity, asks[0].quantity)
    requires t == Trade(bids[0].(quantity := bids[0].quantity - q), asks[0].(quantity := asks[0].quantity - q),
                        q, (bids[0].price + asks[0].price) / 2.0)
    requires bids' == AfterFill(bids, q) && asks' == AfterFill(asks, q)
    ensures total == Resume(done + [t], Cross(bids', asks'))
  {
    var rest := Cross(bids', asks');
    CrossUnfold(bids, asks, q, t);
    assert done + ([t] + rest.trades) == done + [t] + rest.trades;
  }

  /** A crossed book's first fill is `t`, and the rest is crossing what the
      fill leaves. */
  lemma CrossUnfold(bids: seq<Order>, asks: seq<Order>, q: int, t: Trade)
    requires IsCrossed(bids, asks)
    requires q == Min(bids[0].quantity, asks[0].quantity)
    requires t == Trade(bids[0].(quantity := bids[0].quantity - q), asks[0].(quantity := asks[0].quantity - q),
                        q, (bids[0].price + asks[0].price) / 2.0)
    ensures var rest := Cross(AfterFill(bids, q), AfterFill(asks, q));
      Cross(bids, asks) == Crossing([t] + rest.trades, rest.bids, rest.asks)
  {
  }

  /** Once the book no longer crosses, `total` is the trades made so far and
      the book as it stands. */
  lemma CrossDone(total: Crossing, done: seq<Trade>, bids: seq<Order>, asks: seq<Order>)
    requires !IsCrossed(bids, asks) && total == Resume(done, Cross(bids, asks))
    ensures total == Crossing(done, bids, asks)
  {
    assert done + [] == done;
  }

  /** Book invariants after one `heappush` of a fresh order. */
  lemma InsertKeeps(bids: seq<Order>, asks: seq<Order>, o: Order, bids': seq<Order>, asks': seq<Order>, n: nat)
    requires BookValid(bids, asks, n)
    requires o.orderId == n && o.quantity > 0 && Keyed(o, o.side == "BUY")
    requires o.side == "BUY" ==> bids' == Insert(bids, o) && asks' == asks
    requires o.side != "BUY" ==> asks' == Insert(asks, o) && bids' == bids
    ensures BookValid(bids', asks', n + 1)
  {
    if o.side == "BUY" {
      InsertSorted(bids, o);
      InsertKeepsSide(bids, o, true);
    } else {
      InsertSorted(asks, o);
      InsertKeepsSide(asks, o, false);
    }
    InsertKeepsIds(bids, asks, o, bids', asks', n);
  }

  lemma InsertKeepsIds(bids: seq<Order>, asks: seq<Order>, o: Order, bids': seq<Order>, asks': seq<Order>, n: nat)
    requires IdsBelow(bids + asks, n) && IdsDistinct(bids + asks) && o.orderId == n
    requires (bids' == Insert(bids, o) && asks' == asks) || (asks' == Insert(asks, o) && bids' == bids)
    ensures IdsBelow(bids' + asks', n + 1) && IdsDistinct(bids' + asks')
  {
    if bids' == Insert(bids, o) && asks' == asks {
      IdsInsert(bids, o);
    } else {
      IdsInsert(asks, o);
    }
    IdsConcat(bids, asks);
    IdsConcat(bids', asks');
    assert Ids(bids' + asks') == Ids(bids + asks) + {n};
    assert n !in Ids(bids + asks);
  }

  lemma {:induction false} InsertKeepsSide(s: seq<Order>, o: Order, buy: bool)
    requires AllSide(s, buy) && AllPositive(s)
    requires o.quantity > 0 && Keyed(o, buy)
    ensures AllSide(Insert(s, o), buy) && AllPositive(Insert(s, o))
  {
    if s != [] && !Precedes(o, s[0]) {
      InsertKeepsSide(s[1..], o, buy);
    }
  }

  /** Book invariants after one fill of `match`. */
  lemma FillKeepsValid(bids: seq<Order>, asks: seq<Order>, q: int, n: nat)
    requires bids != [] && asks != [] && BookValid(bids, asks, n)
    requires q == Min(bids[0].quantity, asks[0].quantity)
    ensures BookValid(AfterFill(bids, q), AfterFill(asks, q), n)
  {
    FillKeepsSide(bids, q, true);
    FillKeepsSide(asks, q, false);
    FillKeepsIds(bids, asks, q, n);
  }

  lemma FillKeepsSide(side: seq<Order>, q: int, buy: bool)
    requires side != [] && Sorted(side) && AllSide(side, buy) && AllPositive(side)
    requires 0 <= q <= side[0].quantity
    ensures var r := AfterFill(side, q); Sorted(r) && AllSide(r, buy) && AllPositive(r)
  {
    AfterFillSorted(side, q);
    AfterFillPositive(side, q);
  }

  lemma FillKeepsIds(bids: seq<Order>, asks: seq<Order>, q: int, n: nat)
    requires bids != [] && asks != []
    requires IdsBelow(bids + asks, n) && IdsDistinct(bids + asks)
    ensures var b, a := AfterFill(bids, q), AfterFill(asks, q);
      IdsBelow(b + a, n) && IdsDistinct(b + a)
  {
    var b, a := AfterFill(bids, q), AfterFill(asks, q);
    AfterFillIds(bids, q);
    AfterFillIds(asks, q);
    IdsConcat(bids, asks);
    IdsConcat(b, a);
    IdsBound(b);
    IdsBound(a);
    IdsBound(bids[1..]);
    IdsBound(asks[1..]);
    IdsConcat(bids[1..], asks);
    IdsConcat(b, asks[1..]);
    IdsBound(b + asks[1..]);
    IdsBound(bids[1..] + asks);
    IdsBound(b + a);
  }

  lemma AfterFillIds(side: seq<Order>, q: int)
    requires side != []
    ensures Ids(side) == {side[0].orderId} + Ids(side[1..])
    ensures var r := AfterFill(side, q); r == side[1..] || (|r| == |side| && Ids(r) == Ids(side))
  {
    var head := side[0].(quantity := side[0].quantity - q);
    if head.quantity != 0 {
      assert ([head] + side[1..])[1..] == side[1..];
    }
  }
}
