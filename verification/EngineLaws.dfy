/** What every run of the engine keeps: money, solvency, fills inside the bar, and ordered trades. */
module EngineLaws {
  import opened Wrappers
  import opened Market
  import opened Engine
  import opened Reals

  // ----- the invariant, at bar `n` -----

  ghost predicate Money(book: Book, start: real) {
    book.cash + Cost(book.position) == start + Realised(book.trades)
  }

  ghost predicate Solvent(book: Book) {
    if book.position.Flat? then book.cash > 0.0 else 0.0 <= book.cash < book.position.entryPrice
  }

  /** A held position was filled at the open of an earlier or the current bar, one bar after its signal. */
  ghost predicate PositionFits(bars: seq<Bar>, risk: Risk, position: Position, n: nat) {
    position.Held? ==>
      var e := position.entryBar;
      && 1 <= e <= n < |bars|
      && position.quantity > 0
      && bars[e].open > 0.0
      && position.entryPrice == bars[e].open
      && position.entryTimestamp == bars[e].timestamp
      && position.signalTimestamp == bars[e - 1].timestamp
      && (position.stop, position.target) == RiskLevels(bars[e].open, risk)
  }

  /** `trade` was entered at the open of bar `e`, one bar after its signal, and left inside bar `x`. */
  ghost predicate TradeFits(bars: seq<Bar>, risk: Risk, trade: Trade, e: nat, x: nat) {
    && 1 <= e <= x < |bars| && bars[e].open > 0.0
    && trade.quantity > 0
    && trade.signalTimestamp == bars[e - 1].timestamp
    && trade.entryTimestamp == bars[e].timestamp
    && trade.entryPrice == bars[e].open
    && trade.exitTimestamp == bars[x].timestamp
    && bars[x].low <= trade.exitPrice <= bars[x].high
    && trade.profitLoss == Value(trade.quantity, trade.exitPrice) - Value(trade.quantity, trade.entryPrice)
    && trade.entryPrice > 0.0
    && trade.returnPercentage == (trade.exitPrice / trade.entryPrice - 1.0) * 100.0
    && (trade.exitPrice < trade.entryPrice <==> trade.profitLoss < 0.0)
    && (trade.exitPrice > trade.entryPrice <==> trade.profitLoss > 0.0)
    && ReasonFits(bars, risk, trade, e, x)
  }

  /** Where a level fills: at the open if the gap is already through it, and otherwise at the level itself. */
  function StopFill(bar: Bar, stop: real): real {
    if bar.open <= stop then bar.open else stop
  }

  function TargetFill(bar: Bar, target: real): real {
    if bar.open >= target then bar.open else target
  }

  /** The stop outranks the target: a target is only taken in a bar whose open or whole range is above the stop. */
  predicate StopMissed(bar: Bar, stop: Option<real>, target: real) {
    stop.Some? ==> stop.value < if bar.open >= target then bar.open else bar.low
  }

  ghost predicate ReasonFits(bars: seq<Bar>, risk: Risk, trade: Trade, e: nat, x: nat)
    requires 1 <= e <= x < |bars| && bars[e].open > 0.0
  {
    var (stop, target) := RiskLevels(bars[e].open, risk);
    match trade.reason
    case StrategyExit => trade.exitSignalTimestamp == Some(bars[x - 1].timestamp) && trade.exitPrice == bars[x].open
    case StopLoss =>
      && trade.exitSignalTimestamp == None && e < x && trade.profitLoss < 0.0
      && stop.Some? && trade.exitPrice == StopFill(bars[x], stop.value)
    case TakeProfit =>
      && trade.exitSignalTimestamp == None && e < x && trade.profitLoss > 0.0
      && target.Some? && trade.exitPrice == TargetFill(bars[x], target.value) && StopMissed(bars[x], stop, target.value)
    case FinalLiquidation => trade.exitSignalTimestamp == None && trade.exitPrice == bars[x].close
  }

  ghost predicate TradesFit(bars: seq<Bar>, risk: Risk, trades: seq<Trade>, n: nat) {
    forall i :: 0 <= i < |trades| ==> TradeFitsBy(bars, risk, trades[i], n)
  }

  ghost predicate TradeFitsBy(bars: seq<Bar>, risk: Risk, trade: Trade, n: nat) {
    exists e: nat, x: nat :: x <= n && TradeFits(bars, risk, trade, e, x)
  }

  /** No two trades overlap: each is left no later than the next is entered. */
  ghost predicate InOrder(trades: seq<Trade>) {
    && (forall i :: 0 <= i < |trades| ==> trades[i].entryTimestamp <= trades[i].exitTimestamp)
    && (forall i, j :: 0 <= i < j < |trades| ==> trades[i].exitTimestamp <= trades[j].entryTimestamp)
  }

  ghost predicate EndedBy(trades: seq<Trade>, timestamp: int) {
    forall i :: 0 <= i < |trades| ==> trades[i].exitTimestamp <= timestamp
  }

  ghost predicate Kept(bars: seq<Bar>, risk: Risk, start: real, book: Book, n: nat) {
    && book.Sound()
    && n < |bars|
    && Money(book, start)
    && Solvent(book)
    && PositionFits(bars, risk, book.position, n)
    && TradesFit(bars, risk, book.trades, n)
    && InOrder(book.trades)
    && EndedBy(book.trades, if book.position.Held? then book.position.entryTimestamp else bars[n].timestamp)
  }

  // ----- one fill at a time -----

  lemma ProfitSign(quantity: nat, entryPrice: real, exitPrice: real)
    requires quantity > 0
    ensures var profit := Value(quantity, exitPrice) - Value(quantity, entryPrice);
            && (exitPrice < entryPrice <==> profit < 0.0)
            && (exitPrice > entryPrice <==> profit > 0.0)
  {
    var q := quantity as real;
    if exitPrice < entryPrice {
      ProductMonotone(exitPrice, entryPrice, q);
    } else if exitPrice > entryPrice {
      ProductMonotone(entryPrice, exitPrice, q);
    }
    assert Value(quantity, exitPrice) == exitPrice * q && Value(quantity, entryPrice) == entryPrice * q;
  }

  /** The return of a trade does not depend on how many shares it held. */
  lemma ReturnIsPriceChange(quantity: nat, entryPrice: real, exitPrice: real)
    requires quantity > 0 && entryPrice > 0.0
    ensures PercentOf(Value(quantity, exitPrice) - Value(quantity, entryPrice), Value(quantity, entryPrice))
         == (exitPrice / entryPrice - 1.0) * 100.0
  {
    var ratio := exitPrice / entryPrice;
    var cost := Value(quantity, entryPrice);
    ProductReorders(quantity as real, ratio, entryPrice);
    assert ratio * entryPrice == exitPrice;
    assert Value(quantity, exitPrice) == ratio * cost;
    ScaledDifference(ratio, cost);
  }

  lemma ScaledDifference(ratio: real, cost: real)
    requires cost != 0.0
    ensures (ratio * cost - cost) / cost == ratio - 1.0
  {
    var less := ratio - 1.0;
    assert less * cost == ratio * cost - cost;
    QuotientOfProduct(ratio * cost - cost, less, cost);
  }

  /** When an exit of `position` at `price` in bar `n` is one that the trade facts allow. */
  ghost predicate ExitFits(bars: seq<Bar>, risk: Risk, position: Position, n: nat, price: real, reason: ExitReason,
                           exitSignal: Option<int>)
    requires position.Held? && n < |bars|
  {
    && bars[n].low <= price <= bars[n].high
    && match reason
       case StrategyExit => n > 0 && exitSignal == Some(bars[n - 1].timestamp) && price == bars[n].open
       case StopLoss =>
         && exitSignal == None && position.entryBar < n && price < position.entryPrice
         && position.stop.Some? && price == StopFill(bars[n], position.stop.value)
       case TakeProfit =>
         && exitSignal == None && position.entryBar < n && price > position.entryPrice
         && position.target.Some? && price == TargetFill(bars[n], position.target.value)
         && StopMissed(bars[n], position.stop, position.target.value)
       case FinalLiquidation => exitSignal == None && price == bars[n].close
  }

  lemma ClosedTradeFits(bars: seq<Bar>, risk: Risk, p: Position, n: nat, price: real, reason: ExitReason,
                        exitSignal: Option<int>)
    requires n < |bars| && ValidBar(bars[n]) && p.Held? && p.WellFormed() && PositionFits(bars, risk, p, n)
    requires ExitFits(bars, risk, p, n, price, reason, exitSignal)
    ensures TradeFitsBy(bars, risk, TradeOf(p, bars[n], price, reason, exitSignal), n)
  {
    var trade := TradeOf(p, bars[n], price, reason, exitSignal);
    ProfitSign(p.quantity, p.entryPrice, price);
    ReturnIsPriceChange(p.quantity, p.entryPrice, price);
    assert TradeFits(bars, risk, trade, p.entryBar, n);
  }

  lemma CloseKeepsMoney(start: real, book: Book, bar: Bar, price: real, reason: ExitReason, exitSignal: Option<int>)
    requires book.Sound() && book.position.Held? && price > 0.0 && Money(book, start)
    ensures Money(Close(book, bar, price, reason, exitSignal), start)
  {
    var after := Close(book, bar, price, reason, exitSignal);
    assert after.trades[..|after.trades| - 1] == book.trades;
  }

  lemma CloseKeeps(bars: seq<Bar>, risk: Risk, start: real, book: Book, n: nat, price: real, reason: ExitReason,
                   exitSignal: Option<int>)
    requires ValidBars(bars) && Kept(bars, risk, start, book, n) && book.position.Held?
    requires ExitFits(bars, risk, book.position, n, price, reason, exitSignal)
    ensures price > 0.0 && Kept(bars, risk, start, Close(book, bars[n], price, reason, exitSignal), n)
  {
    assert ValidBar(bars[n]);
    ClosedTradeFits(bars, risk, book.position, n, price, reason, exitSignal);
    CloseKeepsMoney(start, book, bars[n], price, reason, exitSignal);
    TradeAppends(bars, risk, book.trades, TradeOf(book.position, bars[n], price, reason, exitSignal), n);
  }

  lemma TradeAppends(bars: seq<Bar>, risk: Risk, trades: seq<Trade>, trade: Trade, n: nat)
    requires ValidBars(bars) && n < |bars|
    requires TradesFit(bars, risk, trades, n) && InOrder(trades) && EndedBy(trades, trade.entryTimestamp)
    requires TradeFitsBy(bars, risk, trade, n)
    ensures TradesFit(bars, risk, trades + [trade], n) && InOrder(trades + [trade])
    ensures EndedBy(trades + [trade], bars[n].timestamp)
  {
    FitTimes(bars, risk, trade, n);
    LaterTrade(trades, trade, bars[n].timestamp);
  }

  lemma FitTimes(bars: seq<Bar>, risk: Risk, trade: Trade, n: nat)
    requires ValidBars(bars) && n < |bars| && TradeFitsBy(bars, risk, trade, n)
    ensures trade.entryTimestamp <= trade.exitTimestamp <= bars[n].timestamp
  {
    var e: nat, x: nat :| x <= n && TradeFits(bars, risk, trade, e, x);
    assert bars[e].timestamp <= bars[x].timestamp <= bars[n].timestamp;
  }

  lemma LaterTrade(trades: seq<Trade>, trade: Trade, end: int)
    requires InOrder(trades) && EndedBy(trades, trade.entryTimestamp)
    requires trade.entryTimestamp <= trade.exitTimestamp <= end
    ensures InOrder(trades + [trade]) && EndedBy(trades + [trade], end)
  {
  }

  lemma BuyKeeps(bars: seq<Bar>, risk: Risk, start: real, book: Book, n: nat, signal: Signal)
    requires ValidBars(bars) && ValidRisk(risk) && Kept(bars, risk, start, book, n)
    requires 1 <= n && signal.timestamp == bars[n - 1].timestamp
    ensures bars[n].open > 0.0 && Kept(bars, risk, start, BuyAtOpen(book, signal, bars[n], n, risk), n)
  {
    assert ValidBar(bars[n]);
    LeftoverCash(book.cash, bars[n].open);
  }

  lemma SignalKeeps(bars: seq<Bar>, risk: Risk, start: real, book: Book, n: nat, signal: Signal)
    requires ValidBars(bars) && ValidRisk(risk) && Kept(bars, risk, start, book, n)
    requires 1 <= n && signal.timestamp == bars[n - 1].timestamp
    ensures bars[n].open > 0.0 && Kept(bars, risk, start, ApplySignal(book, signal, bars[n], n, risk), n)
  {
    assert ValidBar(bars[n]);
    if signal.kind.Buy? {
      BuyKeeps(bars, risk, start, book, n, signal);
    } else if book.position.Held? {
      CloseKeeps(bars, risk, start, book, n, bars[n].open, StrategyExit, Some(signal.timestamp));
    }
  }

  lemma {:induction false} SignalsKeep(bars: seq<Bar>, risk: Risk, start: real, book: Book, n: nat,
                                       pending: seq<Signal>)
    requires ValidBars(bars) && ValidRisk(risk) && Kept(bars, risk, start, book, n)
    requires 1 <= n && (forall s :: s in pending ==> s.timestamp == bars[n - 1].timestamp)
    ensures bars[n].open > 0.0 && Kept(bars, risk, start, ApplySignals(book, pending, bars[n], n, risk), n)
  {
    assert ValidBar(bars[n]);
    if pending != [] {
      SignalsKeep(bars, risk, start, book, n, pending[..|pending| - 1]);
      SignalKeeps(bars, risk, start, ApplySignals(book, pending[..|pending| - 1], bars[n], n, risk), n,
                  pending[|pending| - 1]);
    }
  }

  /** Signals at the open either leave a position alone or replace it by one entered on this bar. */
  lemma {:induction false} SignalsAge(book: Book, pending: seq<Signal>, bar: Bar, n: nat, risk: Risk)
    requires bar.open > 0.0 && book.Sound() && ValidRisk(risk)
    ensures var after := ApplySignals(book, pending, bar, n, risk).position;
            after.Held? ==> after == book.position || after.entryBar == n
  {
    if pending != [] {
      SignalsAge(book, pending[..|pending| - 1], bar, n, risk);
    }
  }

  /** An intraday fill is inside the bar because the opening check has already failed. */
  lemma IntradayKeeps(bars: seq<Bar>, risk: Risk, start: real, book: Book, n: nat)
    requires ValidBars(bars) && ValidRisk(risk) && Kept(bars, risk, start, book, n)
    requires book.position.Held? && book.position.entryBar < n ==> OpeningExit(book.position, bars[n], n).None?
    ensures ValidBar(bars[n]) && Kept(bars, risk, start, TradeBar(book, bars[n], n), n)
  {
    assert ValidBar(bars[n]);
    var exit := IntradayExit(book.position, bars[n], n);
    if exit.Some? {
      CloseKeeps(bars, risk, start, book, n, exit.value.0, exit.value.1, None);
    }
  }

  lemma OpenKeeps(bars: seq<Bar>, risk: Risk, start: real, book: Book, n: nat, pending: seq<Signal>)
    requires ValidBars(bars) && ValidRisk(risk) && Kept(bars, risk, start, book, n)
    requires forall s :: s in pending ==> n >= 1 && s.timestamp == bars[n - 1].timestamp
    ensures bars[n].open > 0.0
    ensures var after := OpenBar(book, pending, bars[n], n, risk);
            && Kept(bars, risk, start, after, n)
            && (after.position.Held? && after.position.entryBar < n ==> OpeningExit(after.position, bars[n], n).None?)
  {
    assert ValidBar(bars[n]);
    var exit := OpeningExit(book.position, bars[n], n);
    if exit.Some? {
      CloseKeeps(bars, risk, start, book, n, exit.value.0, exit.value.1, None);
    } else {
      SignalsAge(book, pending, bars[n], n, risk);
      if pending != [] {
        assert pending[0] in pending;
        SignalsKeep(bars, risk, start, book, n, pending);
      }
    }
  }

  // ----- whole runs -----

  lemma PendingStamped(bars: seq<Bar>, signals: seq<Signal>, n: nat)
    requires n < |bars|
    ensures forall s :: s in Pending(bars, signals, n) ==> n >= 1 && s.timestamp == bars[n - 1].timestamp
  {
    if n > 0 {
      SignalsAtStamped(signals, bars[n - 1].timestamp);
    }
  }

  lemma AdvanceBar(bars: seq<Bar>, risk: Risk, start: real, book: Book, n: nat)
    requires ValidBars(bars) && Kept(bars, risk, start, book, n) && n + 1 < |bars|
    ensures Kept(bars, risk, start, book, n + 1)
  {
    assert bars[n].timestamp < bars[n + 1].timestamp;
    forall i | 0 <= i < |book.trades|
      ensures TradeFitsBy(bars, risk, book.trades[i], n + 1)
    {
      assert TradeFitsBy(bars, risk, book.trades[i], n);
      var e: nat, x: nat :| x <= n && TradeFits(bars, risk, book.trades[i], e, x);
      assert x <= n + 1 && TradeFits(bars, risk, book.trades[i], e, x);
    }
  }

  lemma BarKeeps(bars: seq<Bar>, signals: seq<Signal>, cash: real, risk: Risk, n: nat)
    requires ValidBars(bars) && cash > 0.0 && ValidRisk(risk) && n < |bars|
    requires Kept(bars, risk, cash, RunTo(bars, signals, cash, risk, n), n)
    ensures Kept(bars, risk, cash, RunTo(bars, signals, cash, risk, n + 1), n)
  {
    RunUnfolds(bars, signals, cash, risk, n);
    var before, pending := RunTo(bars, signals, cash, risk, n), Pending(bars, signals, n);
    PendingStamped(bars, signals, n);
    OpenKeeps(bars, risk, cash, before, n, pending);
    IntradayKeeps(bars, risk, cash, OpenBar(before, pending, bars[n], n, risk), n);
  }

  /** After every bar of every run the invariant holds. */
  lemma RunKeeps(bars: seq<Bar>, signals: seq<Signal>, cash: real, risk: Risk, n: nat)
    requires ValidBars(bars) && cash > 0.0 && ValidRisk(risk) && n < |bars|
    ensures Kept(bars, risk, cash, RunTo(bars, signals, cash, risk, n + 1), n)
  {
    assert Kept(bars, risk, cash, OpeningBook(cash), 0);
    for k := 0 to n
      invariant Kept(bars, risk, cash, RunTo(bars, signals, cash, risk, k), k)
    {
      BarKeeps(bars, signals, cash, risk, k);
      AdvanceBar(bars, risk, cash, RunTo(bars, signals, cash, risk, k + 1), k);
    }
    BarKeeps(bars, signals, cash, risk, n);
  }

  lemma LiquidationKeeps(bars: seq<Bar>, signals: seq<Signal>, cash: real, risk: Risk)
    requires ValidBars(bars) && cash > 0.0 && ValidRisk(risk) && bars != []
    ensures ValidBar(bars[|bars| - 1])
    ensures var last := RunTo(bars, signals, cash, risk, |bars|);
            && Kept(bars, risk, cash, last, |bars| - 1)
            && Kept(bars, risk, cash, Liquidate(last, bars[|bars| - 1]), |bars| - 1)
  {
    var n := |bars| - 1;
    assert ValidBar(bars[n]);
    RunKeeps(bars, signals, cash, risk, n);
    var last := RunTo(bars, signals, cash, risk, |bars|);
    if last.position.Held? {
      CloseKeeps(bars, risk, cash, last, n, bars[n].close, FinalLiquidation, None);
    }
  }

  /** When a run fails, and with which error: the first check that does not pass. */
  lemma ExecuteErrors(bars: seq<Bar>, signals: seq<Signal>, cash: real, risk: Risk)
    requires PricedBars(bars)
    ensures var result := Execute(bars, signals, cash, risk);
            var badStop := risk.stopLoss.Some? && risk.stopLoss.value <= 0.0;
            var badTarget := risk.takeProfit.Some? && risk.takeProfit.value <= 0.0;
            && (result.Ok? <==> cash > 0.0 && bars != [] && !badStop && !badTarget)
            && (cash <= 0.0 <==> result == Err(NonPositiveStartingCash))
            && (cash > 0.0 && bars == [] <==> result == Err(NoBars))
            && (cash > 0.0 && bars != [] && badStop <==> result == Err(InvalidStopLoss))
            && (cash > 0.0 && bars != [] && !badStop && badTarget <==> result == Err(InvalidTakeProfit))
  {
  }

  /** Money is conserved: after every bar the cash and the cost of what is held are the starting cash
      and what has been realised; the run ends with exactly the last point of its equity curve. */
  lemma MoneyConserved(bars: seq<Bar>, signals: seq<Signal>, cash: real, risk: Risk)
    requires ValidBars(bars) && Execute(bars, signals, cash, risk).Ok?
    ensures var run := Execute(bars, signals, cash, risk).value;
            && (forall n :: 0 <= n <= |bars| ==> Money(RunTo(bars, signals, cash, risk, n), cash))
            && run.finalValue == cash + run.totalRealised
            && |run.equity| == |bars|
            && run.finalValue == run.equity[|bars| - 1].equity
  {
    forall n | 0 <= n <= |bars|
      ensures Money(RunTo(bars, signals, cash, risk, n), cash)
    {
      if n > 0 {
        RunKeeps(bars, signals, cash, risk, n - 1);
      }
    }
    LiquidationKeeps(bars, signals, cash, risk);
    EquityAt(bars, signals, cash, risk, |bars|, |bars| - 1);
  }

  /** Every fill is a price its bar traded at, exits happen at the price of their reason, risk exits come
      after the entry bar and have the sign their name says, and trades follow one another. */
  lemma TradesAreSound(bars: seq<Bar>, signals: seq<Signal>, cash: real, risk: Risk)
    requires ValidBars(bars) && Execute(bars, signals, cash, risk).Ok?
    ensures var run := Execute(bars, signals, cash, risk).value;
            && TradesFit(bars, risk, run.trades, |bars| - 1)
            && InOrder(run.trades)
  {
    LiquidationKeeps(bars, signals, cash, risk);
  }

  /** Solvency: cash is never negative, is less than the price paid while shares are held and positive
      while flat, and every equity point is positive, whatever the stop percentage. */
  lemma AlwaysSolvent(bars: seq<Bar>, signals: seq<Signal>, cash: real, risk: Risk)
    requires ValidBars(bars) && Execute(bars, signals, cash, risk).Ok?
    ensures var run := Execute(bars, signals, cash, risk).value;
            && (forall n :: 0 <= n <= |bars| ==> Solvent(RunTo(bars, signals, cash, risk, n)))
            && |run.equity| == |bars|
            && (forall i :: 0 <= i < |bars| ==>
                  run.equity[i].equity > 0.0 && run.equity[i].timestamp == bars[i].timestamp)
            && run.finalValue > 0.0
  {
    forall n | 0 <= n <= |bars|
      ensures Solvent(RunTo(bars, signals, cash, risk, n))
    {
      if n > 0 {
        RunKeeps(bars, signals, cash, risk, n - 1);
      }
    }
    forall i | 0 <= i < |bars|
      ensures Execute(bars, signals, cash, risk).value.equity[i].equity > 0.0
      ensures Execute(bars, signals, cash, risk).value.equity[i].timestamp == bars[i].timestamp
    {
      assert ValidBar(bars[i]);
      EquityAt(bars, signals, cash, risk, |bars|, i);
      assert Solvent(RunTo(bars, signals, cash, risk, i + 1));
    }
    LiquidationKeeps(bars, signals, cash, risk);
  }
}
