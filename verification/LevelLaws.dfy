/** No risk level is ever passed over: stated with bars and percentages alone, for every bar that a position saw. */
module LevelLaws {
  import opened Wrappers
  import opened Market
  import opened Engine
  import opened EngineLaws

  // ----- what staying between the levels means -----

  /** `price` is above the stop of a fill at `entryPrice`. */
  predicate AboveStop(price: real, entryPrice: real, risk: Risk) {
    risk.stopLoss.Some? ==> price * 100.0 > entryPrice * 100.0 - entryPrice * risk.stopLoss.value
  }

  predicate BelowTarget(price: real, entryPrice: real, risk: Risk) {
    risk.takeProfit.Some? ==> price * 100.0 < entryPrice * 100.0 + entryPrice * risk.takeProfit.value
  }

  /** The whole bar stays above the stop and below the target. */
  predicate StaysBetween(bar: Bar, entryPrice: real, risk: Risk) {
    AboveStop(bar.low, entryPrice, risk) && BelowTarget(bar.high, entryPrice, risk)
  }

  predicate OpensBetween(bar: Bar, entryPrice: real, risk: Risk) {
    AboveStop(bar.open, entryPrice, risk) && BelowTarget(bar.open, entryPrice, risk)
  }

  /** A position still held after bar `n` has not met a level on any bar since its entry. */
  ghost predicate Unmet(bars: seq<Bar>, risk: Risk, position: Position, n: int) {
    position.Held? ==>
      forall k :: position.entryBar < k <= n && k < |bars| ==> StaysBetween(bars[k], position.entryPrice, risk)
  }

  /** A trade entered on bar `e` met no level before bar `x`, nor on `x` ahead of the exit that it took there. */
  ghost predicate ExitsFirst(bars: seq<Bar>, risk: Risk, trade: Trade, e: nat, x: nat)
    requires e < |bars| && x < |bars|
  {
    && (forall k :: e < k < x ==> StaysBetween(bars[k], trade.entryPrice, risk))
    && (e < x && trade.reason.FinalLiquidation? ==> StaysBetween(bars[x], trade.entryPrice, risk))
    && (e < x && trade.reason.StrategyExit? ==> OpensBetween(bars[x], trade.entryPrice, risk))
  }

  ghost predicate TradeExitsFirst(bars: seq<Bar>, risk: Risk, trade: Trade) {
    forall e: nat, x: nat ::
      e < |bars| && x < |bars| && bars[e].timestamp == trade.entryTimestamp && bars[x].timestamp == trade.exitTimestamp
      ==> ExitsFirst(bars, risk, trade, e, x)
  }

  ghost predicate AllExitFirst(bars: seq<Bar>, risk: Risk, trades: seq<Trade>) {
    forall i :: 0 <= i < |trades| ==> TradeExitsFirst(bars, risk, trades[i])
  }

  // ----- one fill at a time -----

  /** The levels of a position, in percentages of its entry price. */
  lemma LevelsOf(bars: seq<Bar>, risk: Risk, position: Position, n: nat, price: real)
    requires PositionFits(bars, risk, position, n) && position.Held?
    ensures AboveStop(price, position.entryPrice, risk) <==> (position.stop.Some? ==> position.stop.value < price)
    ensures BelowTarget(price, position.entryPrice, risk) <==> (position.target.Some? ==> price < position.target.value)
  {
    LevelsArePercentages(position.entryPrice, risk);
  }

  lemma OneTrade(bars: seq<Bar>, risk: Risk, trade: Trade, e: nat, x: nat)
    requires ValidBars(bars) && e < |bars| && x < |bars|
    requires bars[e].timestamp == trade.entryTimestamp && bars[x].timestamp == trade.exitTimestamp
    requires ExitsFirst(bars, risk, trade, e, x)
    ensures TradeExitsFirst(bars, risk, trade)
  {
  }

  /** Closing a position that has met no level before bar `n`. */
  lemma CloseExitsFirst(bars: seq<Bar>, risk: Risk, book: Book, n: nat, price: real, reason: ExitReason,
                        exitSignal: Option<int>)
    requires ValidBars(bars) && n < |bars| && book.Sound() && book.position.Held? && price > 0.0
    requires PositionFits(bars, risk, book.position, n) && Unmet(bars, risk, book.position, n - 1)
    requires AllExitFirst(bars, risk, book.trades)
    requires book.position.entryBar < n && reason.FinalLiquidation? ==>
               StaysBetween(bars[n], book.position.entryPrice, risk)
    requires book.position.entryBar < n && reason.StrategyExit? ==>
               OpensBetween(bars[n], book.position.entryPrice, risk)
    ensures AllExitFirst(bars, risk, Close(book, bars[n], price, reason, exitSignal).trades)
  {
    var trade := TradeOf(book.position, bars[n], price, reason, exitSignal);
    OneTrade(bars, risk, trade, book.position.entryBar, n);
  }

  // ----- the open of one bar -----

  /** What holds between the opening check and the end of the open: an older position's open is between its levels. */
  ghost predicate Watched(bars: seq<Bar>, risk: Risk, start: real, book: Book, n: nat) {
    && Kept(bars, risk, start, book, n)
    && Unmet(bars, risk, book.position, n - 1)
    && AllExitFirst(bars, risk, book.trades)
    && (book.position.Held? && book.position.entryBar < n ==> OpensBetween(bars[n], book.position.entryPrice, risk))
  }

  lemma SignalWatched(bars: seq<Bar>, risk: Risk, start: real, book: Book, n: nat, signal: Signal)
    requires ValidBars(bars) && ValidRisk(risk) && Watched(bars, risk, start, book, n)
    requires 1 <= n && signal.timestamp == bars[n - 1].timestamp
    ensures bars[n].open > 0.0 && Watched(bars, risk, start, ApplySignal(book, signal, bars[n], n, risk), n)
  {
    assert ValidBar(bars[n]);
    SignalKeeps(bars, risk, start, book, n, signal);
    if signal.kind.Sell? && book.position.Held? {
      CloseExitsFirst(bars, risk, book, n, bars[n].open, StrategyExit, Some(signal.timestamp));
    }
  }

  lemma {:induction false} SignalsWatched(bars: seq<Bar>, risk: Risk, start: real, book: Book, n: nat,
                                          pending: seq<Signal>)
    requires ValidBars(bars) && ValidRisk(risk) && Watched(bars, risk, start, book, n)
    requires forall s :: s in pending ==> n >= 1 && s.timestamp == bars[n - 1].timestamp
    ensures bars[n].open > 0.0 && Watched(bars, risk, start, ApplySignals(book, pending, bars[n], n, risk), n)
  {
    assert ValidBar(bars[n]);
    if pending != [] {
      var front, last := pending[..|pending| - 1], pending[|pending| - 1];
      assert forall s :: s in front ==> s in pending;
      SignalsWatched(bars, risk, start, book, n, front);
      assert last in pending;
      SignalWatched(bars, risk, start, ApplySignals(book, front, bars[n], n, risk), n, last);
    }
  }

  /** When the opening check finds nothing, the open is between the levels. */
  lemma NoGap(bars: seq<Bar>, risk: Risk, position: Position, n: nat)
    requires PositionFits(bars, risk, position, n) && position.Held? && position.entryBar < n < |bars|
    ensures OpeningExit(position, bars[n], n).None? ==> OpensBetween(bars[n], position.entryPrice, risk)
  {
    LevelsOf(bars, risk, position, n, bars[n].open);
  }

  lemma OpenWatched(bars: seq<Bar>, risk: Risk, start: real, book: Book, n: nat, pending: seq<Signal>)
    requires ValidBars(bars) && ValidRisk(risk) && Kept(bars, risk, start, book, n)
    requires Unmet(bars, risk, book.position, n - 1) && AllExitFirst(bars, risk, book.trades)
    requires forall s :: s in pending ==> n >= 1 && s.timestamp == bars[n - 1].timestamp
    ensures bars[n].open > 0.0 && Watched(bars, risk, start, OpenBar(book, pending, bars[n], n, risk), n)
  {
    assert ValidBar(bars[n]);
    OpenKeeps(bars, risk, start, book, n, pending);
    var exit := OpeningExit(book.position, bars[n], n);
    if exit.Some? {
      CloseExitsFirst(bars, risk, book, n, exit.value.0, exit.value.1, None);
    } else {
      if book.position.Held? && book.position.entryBar < n {
        NoGap(bars, risk, book.position, n);
      }
      SignalsWatched(bars, risk, start, book, n, pending);
    }
  }

  // ----- the rest of the bar -----

  /** When the intraday check finds nothing, the whole bar is between the levels. */
  lemma NoTouch(bars: seq<Bar>, risk: Risk, position: Position, n: nat)
    requires PositionFits(bars, risk, position, n) && position.Held? && position.entryBar < n < |bars|
    ensures IntradayExit(position, bars[n], n).None? ==> StaysBetween(bars[n], position.entryPrice, risk)
  {
    LevelsOf(bars, risk, position, n, bars[n].low);
    LevelsOf(bars, risk, position, n, bars[n].high);
  }

  lemma TradeBarWatched(bars: seq<Bar>, risk: Risk, start: real, book: Book, n: nat)
    requires ValidBars(bars) && ValidRisk(risk) && Watched(bars, risk, start, book, n)
    ensures ValidBar(bars[n])
    ensures var after := TradeBar(book, bars[n], n);
            Unmet(bars, risk, after.position, n) && AllExitFirst(bars, risk, after.trades)
  {
    assert ValidBar(bars[n]);
    var exit := IntradayExit(book.position, bars[n], n);
    if exit.Some? {
      CloseExitsFirst(bars, risk, book, n, exit.value.0, exit.value.1, None);
    } else if book.position.Held? && book.position.entryBar < n {
      NoTouch(bars, risk, book.position, n);
    }
  }

  // ----- whole runs -----

  lemma BarWatched(bars: seq<Bar>, signals: seq<Signal>, cash: real, risk: Risk, n: nat, book: Book)
    returns (next: Book)
    requires ValidBars(bars) && cash > 0.0 && ValidRisk(risk) && n < |bars|
    requires book == RunTo(bars, signals, cash, risk, n) && Kept(bars, risk, cash, book, n)
    requires Unmet(bars, risk, book.position, n - 1) && AllExitFirst(bars, risk, book.trades)
    ensures next == RunTo(bars, signals, cash, risk, n + 1)
    ensures Unmet(bars, risk, next.position, n) && AllExitFirst(bars, risk, next.trades)
  {
    var pending := Pending(bars, signals, n);
    next := RunStep(bars, signals, cash, risk, n, book, pending);
    PendingStamped(bars, signals, n);
    OpenWatched(bars, risk, cash, book, n, pending);
    TradeBarWatched(bars, risk, cash, OpenBar(book, pending, bars[n], n, risk), n);
  }

  /** The invariant at the start of bar `n` of a run. */
  lemma KeptBefore(bars: seq<Bar>, signals: seq<Signal>, cash: real, risk: Risk, n: nat, book: Book)
    requires ValidBars(bars) && cash > 0.0 && ValidRisk(risk) && n < |bars|
    requires book == RunTo(bars, signals, cash, risk, n)
    ensures Kept(bars, risk, cash, book, n)
  {
    if n > 0 {
      RunKeeps(bars, signals, cash, risk, n - 1);
      AdvanceBar(bars, risk, cash, book, n - 1);
    }
  }

  lemma RunWatched(bars: seq<Bar>, signals: seq<Signal>, cash: real, risk: Risk, n: nat) returns (book: Book)
    requires ValidBars(bars) && cash > 0.0 && ValidRisk(risk) && n <= |bars|
    ensures book == RunTo(bars, signals, cash, risk, n)
    ensures Unmet(bars, risk, book.position, n - 1) && AllExitFirst(bars, risk, book.trades)
  {
    book := OpeningBook(cash);
    for m := 0 to n
      invariant book == RunTo(bars, signals, cash, risk, m)
      invariant Unmet(bars, risk, book.position, m - 1) && AllExitFirst(bars, risk, book.trades)
    {
      KeptBefore(bars, signals, cash, risk, m, book);
      book := BarWatched(bars, signals, cash, risk, m, book);
    }
  }

  /** After every bar of every run, whatever is still held has met neither of its levels since its entry bar. */
  lemma HeldBetweenLevels(bars: seq<Bar>, signals: seq<Signal>, cash: real, risk: Risk, n: nat)
    requires ValidBars(bars) && cash > 0.0 && ValidRisk(risk) && n < |bars|
    ensures Unmet(bars, risk, RunTo(bars, signals, cash, risk, n + 1).position, n)
  {
    var book := RunWatched(bars, signals, cash, risk, n + 1);
  }

  /**
   No level is passed over. Between its entry bar and its exit bar a trade met neither its stop nor its target; a
   strategy exit only happens at an open between them, and a final liquidation only after a bar between them.
   */
  lemma NoLevelPassedOver(bars: seq<Bar>, signals: seq<Signal>, cash: real, risk: Risk)
    requires ValidBars(bars) && Execute(bars, signals, cash, risk).Ok?
    ensures AllExitFirst(bars, risk, Execute(bars, signals, cash, risk).value.trades)
  {
    var n := |bars| - 1;
    var book := RunWatched(bars, signals, cash, risk, |bars|);
    RunKeeps(bars, signals, cash, risk, n);
    assert ValidBar(bars[n]);
    if book.position.Held? {
      CloseExitsFirst(bars, risk, book, n, bars[n].close, FinalLiquidation, None);
    }
  }
}
