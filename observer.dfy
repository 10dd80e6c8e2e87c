/** The observer pattern of the design-patterns package: a publisher keeps
    a list of registered observers and hands every signal to each
    registration in order.  A logger observer appends every signal to the
    list it was given; an alert observer keeps the signals whose quantity
    is at least its threshold in absolute value. */
module Observers {
  import opened Wrappers
  import PyText
  import SignalStrategies

  type Signal = SignalStrategies.Signal

  const DefaultAlertThreshold: int := 500

  /** A list observers append signals to. */
  class SignalLog {
    var entries: seq<Signal>

    constructor ()
      ensures entries == []
    {
      entries := [];
    }
  }

  /** Whether an alert observer with threshold `threshold` keeps `s`: a
      signal without a quantity counts as quantity 0. */
  predicate Alerting(threshold: int, s: Signal) {
    PyText.Abs(s.qty.GetOr(0)) >= threshold
  }

  /** `LoggerObserver`: it appends to the list it was built with, which
      the caller may share. */
  class LoggerObserver {
    const log: SignalLog

    constructor (log: SignalLog)
      ensures this.log == log
    {
      this.log := log;
    }

    /** `update`: append the signal. */
    method Update(s: Signal)
      modifies log
      ensures log.entries == old(log.entries) + [s]
    {
      log.entries := log.entries + [s];
    }
  }

  /** `AlertObserver`: a threshold and its own list of alerts. */
  class AlertObserver {
    const threshold: int
    const alerts: SignalLog

    constructor (threshold: int)
      ensures this.threshold == threshold && fresh(alerts) && alerts.entries == []
    {
      this.threshold := threshold;
      alerts := new SignalLog();
    }

    /** `update`: keep the signal if its quantity reaches the threshold. */
    method Update(s: Signal)
      modifies alerts
      ensures alerts.entries == old(alerts.entries) + if Alerting(threshold, s) then [s] else []
    {
      if PyText.Abs(s.qty.GetOr(0)) >= threshold {
        alerts.entries := alerts.entries + [s];
      }
    }
  }

  /** A registered observer: one of the two observer classes. */
  datatype ObserverRef = Logger(logger: LoggerObserver) | Alert(alert: AlertObserver)

  /** The list an observer appends to. */
  function Sink(o: ObserverRef): SignalLog {
    match o
    case Logger(l) => l.log
    case Alert(a) => a.alerts
  }

  /** Whether an observer appends `s` when it is notified. */
  predicate Records(o: ObserverRef, s: Signal) {
    match o
    case Logger(_) => true
    case Alert(a) => Alerting(a.threshold, s)
  }

  /** `o.update(s)`, whichever class `o` is. */
  method Update(o: ObserverRef, s: Signal)
    modifies Sink(o)
    ensures Sink(o).entries == old(Sink(o).entries) + if Records(o, s) then [s] else []
  {
    match o
    case Logger(l) => l.Update(s);
    case Alert(a) => a.Update(s);
  }

  function Sinks(obs: seq<ObserverRef>): set<SignalLog> {
    set o | o in obs :: Sink(o)
  }

  /** What notifying the registrations `obs` of `s` appends to `log`: one
      copy of `s` per registration that writes to `log` and keeps `s`, in
      registration order. */
  function Delivered(obs: seq<ObserverRef>, log: SignalLog, s: Signal): seq<Signal>
    decreases |obs|
  {
    if obs == [] then []
    else
      var o := obs[|obs| - 1];
      Delivered(obs[..|obs| - 1], log, s) + if Sink(o) == log && Records(o, s) then [s] else []
  }

  /** A list no registration writes to receives nothing. */
  lemma {:induction false} DeliveredElsewhere(obs: seq<ObserverRef>, log: SignalLog, s: Signal)
    requires log !in Sinks(obs)
    ensures Delivered(obs, log, s) == []
    decreases |obs|
  {
    if obs != [] {
      var init := obs[..|obs| - 1];
      assert Sinks(init) <= Sinks(obs);
      DeliveredElsewhere(init, log, s);
    }
  }

  /** When every registration has a list of its own, each list receives
      the signal exactly once if its observer keeps it, and nothing
      otherwise. */
  lemma {:induction false} DeliveredOnce(obs: seq<ObserverRef>, i: nat, s: Signal)
    requires i < |obs|
    requires forall j :: 0 <= j < |obs| && j != i ==> Sink(obs[j]) != Sink(obs[i])
    ensures Delivered(obs, Sink(obs[i]), s) == if Records(obs[i], s) then [s] else []
    decreases |obs|
  {
    var n := |obs| - 1;
    var init := obs[..n];
    if i < n {
      DeliveredOnce(init, i, s);
    } else {
      assert Sink(obs[i]) !in Sinks(init);
      DeliveredElsewhere(init, Sink(obs[i]), s);
    }
  }

  /** Attaching one logger twice delivers each signal to its list twice. */
  lemma AttachedTwice(obs: seq<ObserverRef>, l: LoggerObserver, s: Signal)
    ensures Delivered(obs + [Logger(l), Logger(l)], l.log, s) == Delivered(obs, l.log, s) + [s, s]
  {
    var once := obs + [Logger(l)];
    var twice := once + [Logger(l)];
    assert twice[..|once|] == once && twice[|once|] == Logger(l);
    assert once[..|obs|] == obs && once[|obs|] == Logger(l);
    assert Delivered(once, l.log, s) == Delivered(obs, l.log, s) + [s];
    assert Delivered(twice, l.log, s) == Delivered(once, l.log, s) + [s];
    assert twice == obs + [Logger(l), Logger(l)];
    assert Delivered(obs, l.log, s) + [s] + [s] == Delivered(obs, l.log, s) + [s, s];
  }

  /** `SignalPublisher`: the registrations in attach order. */
  class SignalPublisher {
    var observers: seq<ObserverRef>

    constructor ()
      ensures observers == []
    {
      observers := [];
    }

    /** `attach`: register at the end; registering twice is allowed. */
    method Attach(o: ObserverRef)
      modifies this
      ensures observers == old(observers) + [o]
    {
      observers := observers + [o];
    }

    /** `detach`: drop the first registration of `o`; without one Python
        raises (`ok` is false) and nothing changes. */
    method Detach(o: ObserverRef) returns (ok: bool)
      modifies this
      ensures ok <==> o in old(observers)
      ensures observers == PyText.RemoveFirst(old(observers), o)
    {
      if o !in observers {
        return false;
      }
      observers := PyText.RemoveFirst(observers, o);
      return true;
    }

    /** `notify`: update every registration of a snapshot of the list, in
        order.  Each list receives exactly what `Delivered` says. */
    method Notify(s: Signal)
      modifies Sinks(observers)
      ensures forall log :: log in old(Sinks(observers)) ==>
        log.entries == old(log.entries) + Delivered(observers, log, s)
    {
      var snapshot := observers;
      for i := 0 to |snapshot|
        invariant forall log :: log in Sinks(snapshot) ==>
          log.entries == old(log.entries) + Delivered(snapshot[..i], log, s)
      {
        assert snapshot[..i + 1][..i] == snapshot[..i];
        Update(snapshot[i], s);
      }
      assert snapshot[..|snapshot|] == snapshot;
    }
  }
}
