/** Every run uses each signal exactly once: as an entry, as a strategy exit, or not at all. */
module SignalLaws {
  import opened Wrappers
  import opened Market
  import opened Engine

  // ----- one signal -----

  /** How many trades signal `s` opened, and how many it closed. */
  ghost function Entries(trades: seq<Trade>, s: Signal): nat {
    if trades == [] then 0
    else
      var t := trades[|trades| - 1];
      Entries(trades[..|trades| - 1], s) + if s == Signal(t.signalTimestamp, Buy) then 1 else 0
  }

  ghost function Exits(trades: seq<Trade>, s: Signal): nat {
    if trades == [] then 0
    else
      var t := trades[|trades| - 1];
      Exits(trades[..|trades| - 1], s) + if s.kind.Sell? && t.exitSignalTimestamp == Some(s.timestamp) then 1 else 0
  }

  ghost function Ignored(signals: seq<Signal>, s: Signal): nat {
    multiset(signals)[s]
  }

  ghost function Spent(book: Book, s: Signal): nat {
    Ignored(book.ignored, s) + Entries(book.trades, s) + Exits(book.trades, s)
    + if book.position.Held? && s == Signal(book.position.signalTimestamp, Buy) then 1 else 0
  }

  lemma CloseSpends(book: Book, bar: Bar, price: real, reason: ExitReason, exitSignal: Option<int>, s: Signal)
    requires book.Sound() && book.position.Held? && price > 0.0
    ensures Spent(Close(book, bar, price, reason, exitSignal), s)
         == Spent(book, s) + if s.kind.Sell? && exitSignal == Some(s.timestamp) then 1 else 0
  {
    var after := Close(book, bar, price, reason, exitSignal);
    assert after.trades[..|after.trades| - 1] == book.trades;
  }

  lemma IgnoringSpends(book: Book, signals: seq<Signal>, s: Signal)
    ensures Spent(Ignore(book, signals), s) == Spent(book, s) + Ignored(signals, s)
  {
    assert multiset(book.ignored + signals) == multiset(book.ignored) + multiset(signals);
  }

  lemma SignalSpends(book: Book, signal: Signal, bar: Bar, n: nat, risk: Risk, s: Signal)
    requires bar.open > 0.0 && book.Sound() && ValidRisk(risk)
    ensures Spent(ApplySignal(book, signal, bar, n, risk), s) == Spent(book, s) + if s == signal then 1 else 0
  {
    IgnoringSpends(book, [signal], s);
    if signal.kind.Sell? && book.position.Held? {
      CloseSpends(book, bar, bar.open, StrategyExit, Some(signal.timestamp), s);
    }
  }

  lemma {:induction false} SignalsSpend(book: Book, pending: seq<Signal>, bar: Bar, n: nat, risk: Risk, s: Signal)
    requires bar.open > 0.0 && book.Sound() && ValidRisk(risk)
    ensures Spent(ApplySignals(book, pending, bar, n, risk), s) == Spent(book, s) + Ignored(pending, s)
  {
    if pending != [] {
      var front, last := pending[..|pending| - 1], pending[|pending| - 1];
      SignalsSpend(book, front, bar, n, risk, s);
      SignalSpends(ApplySignals(book, front, bar, n, risk), last, bar, n, risk, s);
      assert pending == front + [last];
    }
  }

  lemma StepSpends(book: Book, pending: seq<Signal>, bar: Bar, n: nat, risk: Risk, s: Signal)
    requires ValidBar(bar) && book.Sound() && ValidRisk(risk)
    ensures Spent(StepBar(book, pending, bar, n, risk), s) == Spent(book, s) + Ignored(pending, s)
  {
    var exit := OpeningExit(book.position, bar, n);
    if exit.Some? {
      CloseSpends(book, bar, exit.value.0, exit.value.1, None, s);
      IgnoringSpends(Close(book, bar, exit.value.0, exit.value.1, None), pending, s);
    } else {
      SignalsSpend(book, pending, bar, n, risk, s);
    }
    var atOpen := OpenBar(book, pending, bar, n, risk);
    var intraday := IntradayExit(atOpen.position, bar, n);
    if intraday.Some? {
      CloseSpends(atOpen, bar, intraday.value.0, intraday.value.1, None, s);
    }
  }

  /** How often `s` is pending over the first `n` bars. */
  ghost function Stamped(bars: seq<Bar>, signals: seq<Signal>, n: nat, s: Signal): nat
    requires n <= |bars|
  {
    if n == 0 then 0 else Stamped(bars, signals, n - 1, s) + Ignored(Pending(bars, signals, n - 1), s)
  }

  lemma BarSpends(bars: seq<Bar>, signals: seq<Signal>, cash: real, risk: Risk, n: nat, s: Signal)
    requires PricedBars(bars) && cash > 0.0 && ValidRisk(risk) && n < |bars|
    ensures Spent(RunTo(bars, signals, cash, risk, n + 1), s)
         == Spent(RunTo(bars, signals, cash, risk, n), s) + Ignored(Pending(bars, signals, n), s)
  {
    RunUnfolds(bars, signals, cash, risk, n);
    StepSpends(RunTo(bars, signals, cash, risk, n), Pending(bars, signals, n), bars[n], n, risk, s);
  }

  lemma RunSpends(bars: seq<Bar>, signals: seq<Signal>, cash: real, risk: Risk, n: nat, s: Signal)
    requires PricedBars(bars) && cash > 0.0 && ValidRisk(risk) && n <= |bars|
    ensures Spent(RunTo(bars, signals, cash, risk, n), s) == Stamped(bars, signals, n, s)
  {
    for k := 0 to n
      invariant Spent(RunTo(bars, signals, cash, risk, k), s) == Stamped(bars, signals, k, s)
    {
      BarSpends(bars, signals, cash, risk, k, s);
    }
  }

  /** `timestamp` is the time of one of the first `n` bars. */
  ghost predicate OnFirst(bars: seq<Bar>, n: nat, timestamp: int)
    requires n <= |bars|
  {
    exists i :: 0 <= i < n && bars[i].timestamp == timestamp
  }

  lemma OnNext(bars: seq<Bar>, n: nat, timestamp: int)
    requires n < |bars|
    ensures OnFirst(bars, n + 1, timestamp) <==> OnFirst(bars, n, timestamp) || bars[n].timestamp == timestamp
  {
  }

  /** Bar times are distinct, so no signal is pending twice. */
  lemma StampedCount(bars: seq<Bar>, signals: seq<Signal>, n: nat, s: Signal)
    requires ValidBars(bars) && n < |bars|
    ensures Stamped(bars, signals, n + 1, s) == if OnFirst(bars, n, s.timestamp) then multiset(signals)[s] else 0
  {
    assert Stamped(bars, signals, 1, s) == 0 && !OnFirst(bars, 0, s.timestamp) by {
      StampedNext(bars, signals, 0, s);
    }
    for k := 0 to n
      invariant Stamped(bars, signals, k + 1, s) == if OnFirst(bars, k, s.timestamp) then multiset(signals)[s] else 0
    {
      StampedNext(bars, signals, k + 1, s);
      OnNext(bars, k, s.timestamp);
    }
  }

  lemma StampedNext(bars: seq<Bar>, signals: seq<Signal>, n: nat, s: Signal)
    requires ValidBars(bars) && n < |bars|
    ensures Stamped(bars, signals, n + 1, s)
         == Stamped(bars, signals, n, s)
            + if n > 0 && bars[n - 1].timestamp == s.timestamp then multiset(signals)[s] else 0
    ensures n > 0 && bars[n - 1].timestamp == s.timestamp ==> !OnFirst(bars, n - 1, s.timestamp)
  {
    if n > 0 {
      SignalsAtCount(signals, bars[n - 1].timestamp, s);
    } else {
      assert Ignored(Pending(bars, signals, 0), s) == 0;
    }
  }

  /** Each signal stamped on a bar that has a next bar is used exactly once, as the entry of a trade,
      as a strategy exit or as an ignored signal; no other signal is used at all. */
  lemma SignalsConserved(bars: seq<Bar>, signals: seq<Signal>, cash: real, risk: Risk, s: Signal)
    requires ValidBars(bars) && Execute(bars, signals, cash, risk).Ok?
    ensures var run := Execute(bars, signals, cash, risk).value;
            Ignored(run.ignored, s) + Entries(run.trades, s) + Exits(run.trades, s)
            == if OnFirst(bars, |bars| - 1, s.timestamp) then multiset(signals)[s] else 0
  {
    assert ValidBar(bars[|bars| - 1]);
    var last := RunTo(bars, signals, cash, risk, |bars|);
    RunSpends(bars, signals, cash, risk, |bars|, s);
    StampedCount(bars, signals, |bars| - 1, s);
    if last.position.Held? {
      CloseSpends(last, bars[|bars| - 1], bars[|bars| - 1].close, FinalLiquidation, None, s);
    }
  }

  // ----- all signals -----

  ghost function StrategyExits(trades: seq<Trade>): nat {
    if trades == [] then 0
    else StrategyExits(trades[..|trades| - 1]) + if trades[|trades| - 1].exitSignalTimestamp.Some? then 1 else 0
  }

  /** How many signals a book has used up. */
  ghost function Used(book: Book): nat {
    |book.ignored| + |book.trades| + StrategyExits(book.trades) + if book.position.Held? then 1 else 0
  }

  lemma CloseUses(book: Book, bar: Bar, price: real, reason: ExitReason, exitSignal: Option<int>)
    requires book.Sound() && book.position.Held? && price > 0.0
    ensures Used(Close(book, bar, price, reason, exitSignal)) == Used(book) + if exitSignal.Some? then 1 else 0
  {
    var after := Close(book, bar, price, reason, exitSignal);
    assert after.trades[..|after.trades| - 1] == book.trades;
  }

  lemma SignalUses(book: Book, signal: Signal, bar: Bar, n: nat, risk: Risk)
    requires bar.open > 0.0 && book.Sound() && ValidRisk(risk)
    ensures Used(ApplySignal(book, signal, bar, n, risk)) == Used(book) + 1
  {
    if signal.kind.Sell? && book.position.Held? {
      CloseUses(book, bar, bar.open, StrategyExit, Some(signal.timestamp));
    }
  }

  lemma {:induction false} SignalsUse(book: Book, pending: seq<Signal>, bar: Bar, n: nat, risk: Risk)
    requires bar.open > 0.0 && book.Sound() && ValidRisk(risk)
    ensures Used(ApplySignals(book, pending, bar, n, risk)) == Used(book) + |pending|
  {
    if pending != [] {
      var front, last := pending[..|pending| - 1], pending[|pending| - 1];
      SignalsUse(book, front, bar, n, risk);
      SignalUses(ApplySignals(book, front, bar, n, risk), last, bar, n, risk);
    }
  }

  lemma StepUses(book: Book, pending: seq<Signal>, bar: Bar, n: nat, risk: Risk)
    requires ValidBar(bar) && book.Sound() && ValidRisk(risk)
    ensures Used(StepBar(book, pending, bar, n, risk)) == Used(book) + |pending|
  {
    var exit := OpeningExit(book.position, bar, n);
    if exit.Some? {
      CloseUses(book, bar, exit.value.0, exit.value.1, None);
    } else {
      SignalsUse(book, pending, bar, n, risk);
    }
    var atOpen := OpenBar(book, pending, bar, n, risk);
    var intraday := IntradayExit(atOpen.position, bar, n);
    if intraday.Some? {
      CloseUses(atOpen, bar, intraday.value.0, intraday.value.1, None);
    }
  }

  /** How many signals are stamped on one of the first `n` bars. */
  ghost function StampedOn(bars: seq<Bar>, n: nat, signals: seq<Signal>): nat
    requires n <= |bars|
  {
    if signals == [] then 0
    else
      StampedOn(bars, n, signals[..|signals| - 1])
      + if OnFirst(bars, n, signals[|signals| - 1].timestamp) then 1 else 0
  }

  lemma {:induction false} StampedOnNext(bars: seq<Bar>, n: nat, signals: seq<Signal>)
    requires ValidBars(bars) && n < |bars|
    ensures StampedOn(bars, n + 1, signals) == StampedOn(bars, n, signals) + |SignalsAt(signals, bars[n].timestamp)|
  {
    if signals != [] {
      var last := signals[|signals| - 1];
      StampedOnNext(bars, n, signals[..|signals| - 1]);
      OnNext(bars, n, last.timestamp);
    }
  }

  lemma {:induction false} NoneOnNoBar(bars: seq<Bar>, signals: seq<Signal>)
    ensures StampedOn(bars, 0, signals) == 0
  {
    if signals != [] {
      NoneOnNoBar(bars, signals[..|signals| - 1]);
    }
  }

  /** One bar uses the signals pending on it. */
  lemma BarUses(bars: seq<Bar>, signals: seq<Signal>, cash: real, risk: Risk, n: nat, book: Book) returns (next: Book)
    requires PricedBars(bars) && cash > 0.0 && ValidRisk(risk) && n < |bars|
    requires book == RunTo(bars, signals, cash, risk, n)
    ensures next == RunTo(bars, signals, cash, risk, n + 1)
    ensures Used(next) == Used(book) + |Pending(bars, signals, n)|
  {
    RunUnfolds(bars, signals, cash, risk, n);
    StepUses(book, Pending(bars, signals, n), bars[n], n, risk);
    next := StepBar(book, Pending(bars, signals, n), bars[n], n, risk);
  }

  /** Through bar `n` exactly the signals of the bars before it have been used. */
  lemma RunUses(bars: seq<Bar>, signals: seq<Signal>, cash: real, risk: Risk, n: nat) returns (book: Book)
    requires ValidBars(bars) && cash > 0.0 && ValidRisk(risk) && n < |bars|
    ensures book == RunTo(bars, signals, cash, risk, n + 1) && Used(book) == StampedOn(bars, n, signals)
  {
    NoneOnNoBar(bars, signals);
    book := BarUses(bars, signals, cash, risk, 0, OpeningBook(cash));
    for m := 0 to n
      invariant book == RunTo(bars, signals, cash, risk, m + 1)
      invariant Used(book) == StampedOn(bars, m, signals)
    {
      book := BarUses(bars, signals, cash, risk, m + 1, book);
      StampedOnNext(bars, m, signals);
    }
  }

  /** In total: ignored signals, trades and strategy exits are as many as the signals on bars with a next bar. */
  lemma SignalsConservedInTotal(bars: seq<Bar>, signals: seq<Signal>, cash: real, risk: Risk)
    requires ValidBars(bars) && Execute(bars, signals, cash, risk).Ok?
    ensures var run := Execute(bars, signals, cash, risk).value;
            |run.ignored| + |run.trades| + StrategyExits(run.trades) == StampedOn(bars, |bars| - 1, signals)
  {
    assert ValidBar(bars[|bars| - 1]);
    var last := RunUses(bars, signals, cash, risk, |bars| - 1);
    if last.position.Held? {
      CloseUses(last, bars[|bars| - 1], bars[|bars| - 1].close, FinalLiquidation, None);
    }
  }
}
