/** No look-ahead: a backtest of a shorter history is what the longer one had shown by then. */
module Causality {
  import opened Wrappers
  import opened Market
  import opened Engine
  import opened Specification
  import opened Compiler

  function Controls(strategy: Strategy): Risk {
    Risk(strategy.stopLoss, strategy.takeProfit)
  }

  /** Compile, then execute. */
  function Backtest(strategy: Strategy, bars: seq<Bar>, cash: real): Result<Execution, EngineError>
    requires ValidStrategy(strategy) && PricedBars(bars)
  {
    Execute(bars, Signals(strategy, bars), cash, Controls(strategy))
  }

  // ----- books only grow -----

  ghost predicate Grows(before: Book, after: Book) {
    && before.trades <= after.trades && before.ignored <= after.ignored
    && (forall i :: |before.trades| <= i < |after.trades| ==> !after.trades[i].reason.FinalLiquidation?)
  }

  lemma {:induction false} SignalsGrow(book: Book, pending: seq<Signal>, bar: Bar, i: nat, risk: Risk)
    requires bar.open > 0.0 && book.Sound() && ValidRisk(risk)
    ensures Grows(book, ApplySignals(book, pending, bar, i, risk))
  {
    if pending != [] {
      SignalsGrow(book, pending[..|pending| - 1], bar, i, risk);
    }
  }

  lemma StepGrows(book: Book, pending: seq<Signal>, bar: Bar, i: nat, risk: Risk)
    requires ValidBar(bar) && book.Sound() && ValidRisk(risk)
    ensures Grows(book, StepBar(book, pending, bar, i, risk))
  {
    if OpeningExit(book.position, bar, i).None? {
      SignalsGrow(book, pending, bar, i, risk);
    }
  }

  lemma GrowsTransitive(a: Book, b: Book, c: Book)
    requires Grows(a, b) && Grows(b, c)
    ensures Grows(a, c)
  {
    assert forall i :: 0 <= i < |b.trades| ==> b.trades[i] == c.trades[i];
  }

  lemma BarGrows(bars: seq<Bar>, signals: seq<Signal>, cash: real, risk: Risk, n: nat)
    requires PricedBars(bars) && cash > 0.0 && ValidRisk(risk) && n < |bars|
    ensures Grows(RunTo(bars, signals, cash, risk, n), RunTo(bars, signals, cash, risk, n + 1))
  {
    RunUnfolds(bars, signals, cash, risk, n);
    StepGrows(RunTo(bars, signals, cash, risk, n), Pending(bars, signals, n), bars[n], n, risk);
  }

  lemma RunGrows(bars: seq<Bar>, signals: seq<Signal>, cash: real, risk: Risk, m: nat, n: nat)
    requires PricedBars(bars) && cash > 0.0 && ValidRisk(risk) && m <= n <= |bars|
    ensures Grows(RunTo(bars, signals, cash, risk, m), RunTo(bars, signals, cash, risk, n))
  {
    var early := RunTo(bars, signals, cash, risk, m);
    var now := early;
    for k := m to n
      invariant now == RunTo(bars, signals, cash, risk, k) && Grows(early, now)
    {
      var next := RunTo(bars, signals, cash, risk, k + 1);
      BarGrows(bars, signals, cash, risk, k);
      GrowsTransitive(early, now, next);
      now := next;
    }
  }

  /** The signals that a backtest executes at a bar are those of the bar before. */
  lemma BacktestPending(strategy: Strategy, bars: seq<Bar>, n: nat)
    requires ValidStrategy(strategy) && ValidBars(bars) && n < |bars|
    ensures Pending(bars, Signals(strategy, bars), n) == if n == 0 then [] else BarSignals(strategy, bars, n - 1)
  {
    if n > 0 {
      SignalsOfBar(strategy, bars, n - 1);
    }
  }

  lemma BacktestBar(strategy: Strategy, bars: seq<Bar>, cash: real, n: nat, book: Book) returns (next: Book)
    requires ValidStrategy(strategy) && ValidBars(bars) && cash > 0.0 && n < |bars|
    requires book == RunTo(bars, Signals(strategy, bars), cash, Controls(strategy), n)
    ensures ValidBar(bars[n]) && next == RunTo(bars, Signals(strategy, bars), cash, Controls(strategy), n + 1)
    ensures next == StepBar(book, if n == 0 then [] else BarSignals(strategy, bars, n - 1), bars[n], n,
                            Controls(strategy))
  {
    BacktestPending(strategy, bars, n);
    next := RunStep(bars, Signals(strategy, bars), cash, Controls(strategy), n, book,
                    if n == 0 then [] else BarSignals(strategy, bars, n - 1));
  }

  // ----- a run on a prefix is a prefix of the run -----

  lemma PendingOfPrefix(strategy: Strategy, bars: seq<Bar>, k: nat, i: nat)
    requires ValidStrategy(strategy) && ValidBars(bars) && i < k <= |bars|
    ensures Pending(bars[..k], Signals(strategy, bars[..k]), i) == Pending(bars, Signals(strategy, bars), i)
  {
    if i > 0 {
      SignalsOfBar(strategy, bars, i - 1);
      SignalsOfBar(strategy, bars[..k], i - 1);
      BarSignalsOfPrefix(strategy, bars, k, i - 1);
    }
  }

  /** One more bar of two runs that agree so far, and have the same bar and pending signals next. */
  lemma BarOfBoth(bars: seq<Bar>, signals: seq<Signal>, bars': seq<Bar>, signals': seq<Signal>, cash: real, risk: Risk,
                  n: nat, book: Book)
    returns (next: Book)
    requires PricedBars(bars) && PricedBars(bars') && cash > 0.0 && ValidRisk(risk) && n < |bars| && n < |bars'|
    requires bars[n] == bars'[n] && Pending(bars, signals, n) == Pending(bars', signals', n)
    requires book == RunTo(bars, signals, cash, risk, n) && book == RunTo(bars', signals', cash, risk, n)
    ensures next == RunTo(bars, signals, cash, risk, n + 1) && next == RunTo(bars', signals', cash, risk, n + 1)
  {
    RunUnfolds(bars, signals, cash, risk, n);
    RunUnfolds(bars', signals', cash, risk, n);
    next := StepBar(book, Pending(bars, signals, n), bars[n], n, risk);
  }

  lemma RunOfBoth(bars: seq<Bar>, signals: seq<Signal>, bars': seq<Bar>, signals': seq<Signal>, cash: real, risk: Risk,
                  n: nat)
    returns (book: Book)
    requires PricedBars(bars) && PricedBars(bars') && cash > 0.0 && ValidRisk(risk) && n <= |bars| && n <= |bars'|
    requires forall i :: 0 <= i < n ==> bars[i] == bars'[i] && Pending(bars, signals, i) == Pending(bars', signals', i)
    ensures book == RunTo(bars, signals, cash, risk, n) && book == RunTo(bars', signals', cash, risk, n)
  {
    book := OpeningBook(cash);
    for m := 0 to n
      invariant book == RunTo(bars, signals, cash, risk, m)
      invariant book == RunTo(bars', signals', cash, risk, m)
    {
      book := BarOfBoth(bars, signals, bars', signals', cash, risk, m, book);
    }
  }

  lemma RunOfPrefix(strategy: Strategy, bars: seq<Bar>, cash: real, k: nat, n: nat)
    requires ValidStrategy(strategy) && ValidBars(bars) && cash > 0.0 && n <= k <= |bars|
    ensures RunTo(bars[..k], Signals(strategy, bars[..k]), cash, Controls(strategy), n)
         == RunTo(bars, Signals(strategy, bars), cash, Controls(strategy), n)
  {
    forall i | 0 <= i < n
      ensures Pending(bars[..k], Signals(strategy, bars[..k]), i) == Pending(bars, Signals(strategy, bars), i)
    {
      PendingOfPrefix(strategy, bars, k, i);
    }
    var book := RunOfBoth(bars[..k], Signals(strategy, bars[..k]), bars, Signals(strategy, bars), cash,
                          Controls(strategy), n);
  }

  /** The trades that the market or the rules ended, without one forced by the end of the data. */
  function Settled(trades: seq<Trade>): seq<Trade> {
    if trades != [] && trades[|trades| - 1].reason.FinalLiquidation? then trades[..|trades| - 1] else trades
  }

  lemma SettledIsRun(bars: seq<Bar>, signals: seq<Signal>, cash: real, risk: Risk)
    requires PricedBars(bars) && Execute(bars, signals, cash, risk).Ok?
    ensures var run, last := Execute(bars, signals, cash, risk).value, RunTo(bars, signals, cash, risk, |bars|);
            && Settled(run.trades) == last.trades <= run.trades
            && run.ignored == last.ignored
            && run.equity == EquityTo(bars, signals, cash, risk, |bars|)
  {
    RunGrows(bars, signals, cash, risk, 0, |bars|);
    assert ValidBar(bars[|bars| - 1]);
  }

  /** For every k, compiling and executing on the first k bars gives exactly the first k equity points,
      and a prefix of the ignored signals and of the settled trades, of the run on all bars. */
  lemma NoLookAhead(strategy: Strategy, bars: seq<Bar>, cash: real, k: nat)
    requires ValidStrategy(strategy) && ValidBars(bars) && cash > 0.0 && 0 < k <= |bars|
    ensures PricedBars(bars[..k]) && Backtest(strategy, bars[..k], cash).Ok? && Backtest(strategy, bars, cash).Ok?
    ensures var part, full := Backtest(strategy, bars[..k], cash).value, Backtest(strategy, bars, cash).value;
            && part.equity == full.equity[..k]
            && part.ignored <= full.ignored
            && Settled(part.trades) <= Settled(full.trades) <= full.trades
  {
    var head := bars[..k];
    assert PricedBars(head);
    RunOfPrefix(strategy, bars, cash, k, k);
    RunGrows(bars, Signals(strategy, bars), cash, Controls(strategy), k, |bars|);
    SettledIsRun(head, Signals(strategy, head), cash, Controls(strategy));
    SettledIsRun(bars, Signals(strategy, bars), cash, Controls(strategy));
    EquityOfPrefix(strategy, bars, cash, k);
  }

  lemma EquityOfPrefix(strategy: Strategy, bars: seq<Bar>, cash: real, k: nat)
    requires ValidStrategy(strategy) && ValidBars(bars) && cash > 0.0 && 0 < k <= |bars|
    ensures PricedBars(bars[..k])
    ensures EquityTo(bars[..k], Signals(strategy, bars[..k]), cash, Controls(strategy), k)
         == EquityTo(bars, Signals(strategy, bars), cash, Controls(strategy), |bars|)[..k]
  {
    var head := bars[..k];
    assert PricedBars(head);
    var early := EquityTo(head, Signals(strategy, head), cash, Controls(strategy), k);
    var late := EquityTo(bars, Signals(strategy, bars), cash, Controls(strategy), |bars|);
    forall i | 0 <= i < k
      ensures early[i] == late[i]
    {
      PointOfPrefix(strategy, bars, cash, k, i);
    }
  }

  lemma PointOfPrefix(strategy: Strategy, bars: seq<Bar>, cash: real, k: nat, i: nat)
    requires ValidStrategy(strategy) && ValidBars(bars) && cash > 0.0 && i < k <= |bars| && PricedBars(bars[..k])
    ensures EquityTo(bars[..k], Signals(strategy, bars[..k]), cash, Controls(strategy), k)[i]
         == EquityTo(bars, Signals(strategy, bars), cash, Controls(strategy), |bars|)[i]
  {
    EquityAt(bars[..k], Signals(strategy, bars[..k]), cash, Controls(strategy), k, i);
    EquityAt(bars, Signals(strategy, bars), cash, Controls(strategy), |bars|, i);
    RunOfPrefix(strategy, bars, cash, k, i + 1);
  }
}
