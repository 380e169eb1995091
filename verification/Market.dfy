/** Values shared by the backtest: bars, signals, trades and equity points. */
module Market {
  import opened Wrappers

  // Timestamps are instants on a line; prices are exact, standing for Decimal.
  datatype Bar = Bar(timestamp: int, open: real, high: real, low: real, close: real, volume: nat)

  datatype SignalType = Buy | Sell

  datatype Signal = Signal(timestamp: int, kind: SignalType)

  datatype ExitReason = StrategyExit | StopLoss | TakeProfit | FinalLiquidation

  datatype Trade = Trade(
    signalTimestamp: int,
    entryTimestamp: int,
    entryPrice: real,
    quantity: nat,
    exitSignalTimestamp: Option<int>,
    exitTimestamp: int,
    exitPrice: real,
    profitLoss: real,
    returnPercentage: real,
    reason: ExitReason)

  datatype EquityPoint = EquityPoint(timestamp: int, equity: real)

  /** The range constraints that the market_data table and the CSV importer enforce. */
  predicate ValidBar(b: Bar) {
    0.0 < b.low <= b.open <= b.high && b.low <= b.close <= b.high
  }

  ghost predicate PricedBars(bars: seq<Bar>) {
    forall i :: 0 <= i < |bars| ==> ValidBar(bars[i])
  }

  /** Bars as `load_market_bars` returns them: valid, and in strictly increasing time order
      (symbol, interval and timestamp form the primary key). */
  ghost predicate ValidBars(bars: seq<Bar>) {
    && PricedBars(bars)
    && (forall i, j :: 0 <= i < j < |bars| ==> bars[i].timestamp < bars[j].timestamp)
  }

  /** The signals stamped `timestamp`, in the order given. */
  function SignalsAt(signals: seq<Signal>, timestamp: int): seq<Signal> {
    if signals == [] then []
    else
      var last := signals[|signals| - 1];
      SignalsAt(signals[..|signals| - 1], timestamp) + (if last.timestamp == timestamp then [last] else [])
  }

  lemma {:induction false} SignalsAtConcat(a: seq<Signal>, b: seq<Signal>, timestamp: int)
    ensures SignalsAt(a + b, timestamp) == SignalsAt(a, timestamp) + SignalsAt(b, timestamp)
  {
    if b == [] {
      assert a + b == a;
    } else {
      assert (a + b)[..|a + b| - 1] == a + b[..|b| - 1];
      SignalsAtConcat(a, b[..|b| - 1], timestamp);
    }
  }

  /** A list of signals of one time is found as a whole, or not at all. */
  lemma {:induction false} SignalsAtOwn(signals: seq<Signal>, stamp: int, timestamp: int)
    requires forall s :: s in signals ==> s.timestamp == stamp
    ensures SignalsAt(signals, timestamp) == if stamp == timestamp then signals else []
  {
    if signals != [] {
      assert signals[|signals| - 1] in signals;
      SignalsAtOwn(signals[..|signals| - 1], stamp, timestamp);
    }
  }

  lemma SignalsAtAppend(earlier: seq<Signal>, signals: seq<Signal>, all: seq<Signal>, stamp: int, timestamp: int)
    requires all == earlier + signals && forall s :: s in signals ==> s.timestamp == stamp
    ensures SignalsAt(all, timestamp) == SignalsAt(earlier, timestamp) + if stamp == timestamp then signals else []
  {
    SignalsAtConcat(earlier, signals, timestamp);
    SignalsAtOwn(signals, stamp, timestamp);
  }

  /**
   Signals made bar by bar: `own` those of each bar, `sofar` those of the bars up to each. Looking up a bar's
   time among them finds exactly the signals of that bar.
   */
  lemma SignalsFoundByBar(bars: seq<Bar>, own: seq<seq<Signal>>, sofar: seq<seq<Signal>>, i: nat, n: nat)
    requires ValidBars(bars) && |own| == |bars| && |sofar| == |bars| + 1 && i < |bars| && n <= |bars|
    requires sofar[0] == [] && forall m :: 0 <= m < |bars| ==> sofar[m + 1] == sofar[m] + own[m]
    requires forall m, s :: 0 <= m < |bars| && s in own[m] ==> s.timestamp == bars[m].timestamp
    ensures SignalsAt(sofar[n], bars[i].timestamp) == if i < n then own[i] else []
  {
    var found := [];
    for m := 0 to n
      invariant found == SignalsAt(sofar[m], bars[i].timestamp)
      invariant found == if i < m then own[i] else []
    {
      SignalsAtAppend(sofar[m], own[m], sofar[m + 1], bars[m].timestamp, bars[i].timestamp);
      assert m != i ==> bars[m].timestamp != bars[i].timestamp;
      found := if m == i then own[i] else found;
    }
  }

  lemma {:induction false} SignalsAtStamped(signals: seq<Signal>, timestamp: int)
    ensures forall s :: s in SignalsAt(signals, timestamp) ==> s.timestamp == timestamp
  {
    if signals != [] {
      SignalsAtStamped(signals[..|signals| - 1], timestamp);
    }
  }

  /** The per-bar list holds each signal of that bar as often as the whole list does. */
  lemma {:induction false} SignalsAtCount(signals: seq<Signal>, timestamp: int, s: Signal)
    ensures multiset(SignalsAt(signals, timestamp))[s]
         == if s.timestamp == timestamp then multiset(signals)[s] else 0
  {
    if signals != [] {
      var front, last := signals[..|signals| - 1], signals[|signals| - 1];
      SignalsAtCount(front, timestamp, s);
      assert signals == front + [last];
    }
  }
}
