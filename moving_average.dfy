/** The three moving-average calculators of the streaming strategies: the
    naive one keeps every price and averages all of them on every tick, the
    cumulative one keeps only a count and a sum, and the windowed one keeps
    the last `window` prices in a bounded deque with an incrementally
    maintained running sum.  Every tick yields two signals: the average and
    the price. */
module MovingAverages {
  import opened Wrappers
  import PyText

  const DefaultWindow: int := 50

  type Signals = seq<(string, real)>

  /** The two signals of a tick: `(name, average)` and `("price", price)`. */
  function Emit(name: string, avg: real, price: real): (r: Signals)
    ensures |r| == 2 && r[0] == (name, avg) && r[1] == ("price", price)
  {
    [(name, avg), ("price", price)]
  }

  /** The arithmetic mean of a non-empty list of prices. */
  function Mean(xs: seq<real>): real
    requires xs != []
  {
    PyText.Sum(xs) / |xs| as real
  }

  /** Summing from the front is summing from the back. */
  lemma {:induction false} SumCons(x: real, xs: seq<real>)
    ensures PyText.Sum([x] + xs) == x + PyText.Sum(xs)
    decreases |xs|
  {
    if xs == [] {
      assert [x] + xs == [x];
      assert [x][..0] == [];
    } else {
      var init := xs[..|xs| - 1];
      assert ([x] + xs)[..|[x] + xs| - 1] == [x] + init;
      SumCons(x, init);
    }
  }

  /** The last `w` prices of `ps`, or all of them when there are fewer:
      what a deque with `maxlen=w` holds after receiving `ps`. */
  function Last(ps: seq<real>, w: nat): (r: seq<real>)
    ensures |r| == if |ps| <= w then |ps| else w
    ensures r == ps[|ps| - |r|..]
  {
    if |ps| <= w then ps else ps[|ps| - w..]
  }

  /** `deque.append` on a deque with `maxlen=w` holding `buf`: when full,
      the oldest price falls out on the left. */
  function Push(buf: seq<real>, w: nat, p: real): seq<real>
    requires w >= 1
  {
    if |buf| == w then buf[1..] + [p] else buf + [p]
  }

  /** A bounded deque that has received `ps` receives `p`. */
  lemma LastPush(ps: seq<real>, w: nat, p: real)
    requires w >= 1
    ensures Last(ps + [p], w) == Push(Last(ps, w), w, p)
  {
    var q := ps + [p];
    if |ps| >= w {
      assert q[|q| - w..] == ps[|ps| - w..][1..] + [p];
    }
  }

  /** The windowed state: the deque and the running sum. */
  datatype WindowState = WindowState(buf: seq<real>, runningSum: real)

  /** One tick of the windowed strategy as written: the price leaving a
      full deque is subtracted only while the deque holds more than one
      price. */
  function WindowStep(w: nat, s: WindowState, p: real): WindowState
    requires w >= 1
  {
    var removed := if |s.buf| == w then s.buf[0] else 0.0;
    var buf := Push(s.buf, w, p);
    var sum := if |buf| > 1 && |buf| == w then s.runningSum - removed else s.runningSum;
    WindowState(buf, sum + p)
  }

  /** One tick as intended: the price leaving a full deque is always
      subtracted. */
  function CorrectedWindowStep(w: nat, s: WindowState, p: real): WindowState
    requires w >= 1
  {
    var removed := if |s.buf| == w then s.buf[0] else 0.0;
    var buf := Push(s.buf, w, p);
    var sum := if |buf| == w then s.runningSum - removed else s.runningSum;
    WindowState(buf, sum + p)
  }

  /** The state after the stream `ps`, starting from an empty deque and a
      zero sum. */
  function RunWindow(w: nat, ps: seq<real>): WindowState
    requires w >= 1
    decreases |ps|
  {
    if ps == [] then WindowState([], 0.0) else WindowStep(w, RunWindow(w, ps[..|ps| - 1]), ps[|ps| - 1])
  }

  function RunCorrected(w: nat, ps: seq<real>): WindowState
    requires w >= 1
    decreases |ps|
  {
    if ps == [] then WindowState([], 0.0) else CorrectedWindowStep(w, RunCorrected(w, ps[..|ps| - 1]), ps[|ps| - 1])
  }

  /** The corrected step keeps the running sum equal to the sum of the
      deque, for every window of at least one price. */
  lemma CorrectedStepKeepsSum(w: nat, s: WindowState, p: real)
    requires w >= 1 && |s.buf| <= w && s.runningSum == PyText.Sum(s.buf)
    ensures var t := CorrectedWindowStep(w, s, p); |t.buf| <= w && t.runningSum == PyText.Sum(t.buf)
  {
    var t := CorrectedWindowStep(w, s, p);
    if |s.buf| == w {
      assert s.buf == [s.buf[0]] + s.buf[1..];
      SumCons(s.buf[0], s.buf[1..]);
      assert t.buf[..|t.buf| - 1] == s.buf[1..];
    } else {
      assert t.buf[..|t.buf| - 1] == s.buf;
    }
  }

  /** The corrected strategy: the deque holds the last `w` prices and the
      running sum is their sum, after every tick. */
  lemma {:induction false} CorrectedRunKeepsSum(w: nat, ps: seq<real>)
    requires w >= 1
    ensures RunCorrected(w, ps).buf == Last(ps, w)
    ensures RunCorrected(w, ps).runningSum == PyText.Sum(Last(ps, w))
    decreases |ps|
  {
    if ps != [] {
      var init := ps[..|ps| - 1];
      CorrectedRunKeepsSum(w, init);
      assert ps == init + [ps[|ps| - 1]];
      LastPush(init, w, ps[|ps| - 1]);
      CorrectedStepKeepsSum(w, RunCorrected(w, init), ps[|ps| - 1]);
    }
  }

  /** With a window of two or more the guard never matters: the code as
      written is the corrected step. */
  lemma WindowStepAgrees(w: nat, s: WindowState, p: real)
    requires w >= 2
    ensures WindowStep(w, s, p) == CorrectedWindowStep(w, s, p)
  {
  }

  /** So for a window of two or more the running sum is the sum of the
      deque after every tick. */
  lemma {:induction false} WindowRunKeepsSum(w: nat, ps: seq<real>)
    requires w >= 2
    ensures RunWindow(w, ps) == RunCorrected(w, ps)
    ensures RunWindow(w, ps).runningSum == PyText.Sum(RunWindow(w, ps).buf)
    decreases |ps|
  {
    if ps != [] {
      WindowRunKeepsSum(w, ps[..|ps| - 1]);
      WindowStepAgrees(w, RunWindow(w, ps[..|ps| - 1]), ps[|ps| - 1]);
    }
    CorrectedRunKeepsSum(w, ps);
  }

  /** With a window of one the subtraction never happens: the running sum
      is the sum of every price seen, while the deque holds only the last. */
  lemma {:induction false} WindowOneAccumulates(ps: seq<real>)
    ensures RunWindow(1, ps).buf == Last(ps, 1)
    ensures RunWindow(1, ps).runningSum == PyText.Sum(ps)
    decreases |ps|
  {
    if ps != [] {
      var init := ps[..|ps| - 1];
      WindowOneAccumulates(init);
      assert ps == init + [ps[|ps| - 1]];
      LastPush(init, 1, ps[|ps| - 1]);
    }
  }

  /** The prices 1 then 2 through a window of one: the deque holds [2] but
      the running sum is 3, so the reported average is 3 instead of 2. */
  lemma WindowOneCounterexample()
    ensures RunWindow(1, [1.0, 2.0]) == WindowState([2.0], 3.0)
    ensures PyText.Sum(RunWindow(1, [1.0, 2.0]).buf) == 2.0
    ensures RunCorrected(1, [1.0, 2.0]) == WindowState([2.0], 2.0)
  {
    assert [1.0, 2.0][..1] == [1.0];
    assert [1.0][..0] == [];
  }

  /** The stream grows by one price: the state of the class after it. */
  lemma NextWindow(w: nat, ps: seq<real>, p: real)
    requires w >= 1
    ensures RunWindow(w, ps + [p]) == WindowStep(w, RunWindow(w, ps), p)
  {
    assert (ps + [p])[..|ps|] == ps;
  }

  lemma DivOne(x: real, d: real)
    requires d == 1.0
    ensures x / d == x
  {
  }

  /** `NaiveMovingAverageStrategy`: the full history. */
  class NaiveMovingAverage {
    var history: seq<real>

    constructor ()
      ensures history == []
    {
      history := [];
    }

    /** `generate_signals`: record the price, then average everything. */
    method GenerateSignals(price: real) returns (r: Signals)
      modifies this
      ensures history == old(history) + [price]
      ensures r == Emit("ma_naive", Mean(history), price)
    {
      history := history + [price];
      var s := PyText.Sum(history);
      r := Emit("ma_naive", s / |history| as real, price);
    }
  }

  /** `OptimizedCumulativeAverageStrategy`: a count and a sum, which stand
      for the prices `seen` so far. */
  class CumulativeAverage {
    var count: int
    var sumPrices: real
    ghost var seen: seq<real>

    ghost predicate Valid()
      reads this
    {
      count == |seen| && sumPrices == PyText.Sum(seen)
    }

    constructor ()
      ensures Valid() && seen == []
    {
      count, sumPrices, seen := 0, 0.0, [];
    }

    /** `generate_signals`: the average it reports is the naive strategy's
        average over the same stream. */
    method GenerateSignals(price: real) returns (r: Signals)
      requires Valid()
      modifies this
      ensures Valid() && seen == old(seen) + [price]
      ensures r == Emit("ma_cum", Mean(seen), price)
    {
      seen := seen + [price];
      assert seen[..|seen| - 1] == old(seen);
      count := count + 1;
      sumPrices := sumPrices + price;
      r := Emit("ma_cum", sumPrices / count as real, price);
    }
  }

  /** `WindowedMovingAverageStrategy`: the deque of capacity `window`, the
      running sum, and the prices `seen` so far. */
  class WindowedMovingAverage {
    const window: int
    var buf: seq<real>
    var runningSum: real
    ghost var seen: seq<real>

    /** The deque and the running sum are what the stream `seen` leaves
        in them through the step as written; a zero window never gets a
        price in. */
    ghost predicate Valid()
      reads this
    {
      && window >= 0
      && (window == 0 ==> seen == [] && buf == [] && runningSum == 0.0)
      && (window >= 1 ==> WindowState(buf, runningSum) == RunWindow(window, seen))
    }

    /** `__init__`: a negative capacity is a `ValueError` of the deque. */
    constructor (window: int)
      requires window >= 0
      ensures this.window == window && Valid() && seen == []
    {
      this.window := window;
      buf, runningSum, seen := [], 0.0, [];
    }

    /** `generate_signals`.  A zero window raises `IndexError` (`None`) on
        the empty deque and changes nothing.  Otherwise the step as written
        runs and the average is the running sum over the deque's length:
        the mean of the last `window` prices when `window >= 2`, but the
        sum of every price seen when `window == 1`. */
    method GenerateSignals(price: real) returns (r: Option<Signals>)
      requires Valid()
      modifies this
      ensures Valid()
      ensures window == 0 <==> r.None?
      ensures window == 0 ==> seen == old(seen) && buf == old(buf) && runningSum == old(runningSum)
      ensures window >= 1 ==> seen == old(seen) + [price]
      ensures window >= 1 ==> WindowState(buf, runningSum) == WindowStep(window, old(WindowState(buf, runningSum)), price)
      ensures window >= 1 ==> buf == Last(seen, window)
      ensures window >= 2 ==> runningSum == PyText.Sum(buf)
      ensures window >= 2 ==> buf != [] && r == Some(Emit("ma_window", Mean(Last(seen, window)), price))
      ensures window == 1 ==> r == Some(Emit("ma_window", PyText.Sum(seen), price))
    {
      if |buf| == window && buf == [] {
        return None;
      }
      Receive(price);
      var avg := runningSum / |buf| as real;
      r := Some(Emit("ma_window", avg, price));
      if window >= 2 {
        WindowRunKeepsSum(window, seen);
        CorrectedRunKeepsSum(window, seen);
      } else {
        WindowOneAccumulates(seen);
        DivOne(runningSum, |buf| as real);
      }
    }

    /** The state change of `generate_signals` on a window of at least
        one: remember the leaving price, append, adjust the running sum. */
    method Receive(price: real)
      requires Valid() && window >= 1
      modifies this
      ensures Valid() && seen == old(seen) + [price] && buf != []
      ensures WindowState(buf, runningSum) == WindowStep(window, old(WindowState(buf, runningSum)), price)
    {
      var removed := if |buf| == window then buf[0] else 0.0;
      var next := Push(buf, window, price);
      var sum := runningSum;
      if |next| > 1 && |next| == window {
        sum := sum - removed;
      }
      sum := sum + price;
      assert WindowState(next, sum) == WindowStep(window, WindowState(buf, runningSum), price);
      NextWindow(window, seen, price);
      buf, runningSum, seen := next, sum, seen + [price];
    }
  }
}
