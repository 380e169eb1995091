/** The engine as the program writes it: one loop over mutable variables and three growing lists. */
module EngineLoop {
  import opened Wrappers
  import opened Market
  import opened Engine

  /** The six entry variables of the loop, cleared together when a position closes. */
  datatype Entry = Entry(price: Option<real>, timestamp: Option<int>, signal: Option<int>, bar: Option<nat>,
                         stop: Option<real>, target: Option<real>)

  function ClearedPosition(): Entry {
    Entry(None, None, None, None, None, None)
  }

  /** The entry variables are all set while shares are held, and all cleared while flat. */
  ghost predicate Represents(position: Position, quantity: nat, entry: Entry) {
    if position.Flat? then quantity == 0 && entry == ClearedPosition()
    else
      && quantity == position.quantity > 0
      && entry == Entry(Some(position.entryPrice), Some(position.entryTimestamp), Some(position.signalTimestamp),
                        Some(position.entryBar), position.stop, position.target)
  }

  /** The dictionary from timestamps to signals that the engine builds first. */
  method GroupByTimestamp(signals: seq<Signal>) returns (groups: map<int, seq<Signal>>)
    ensures forall t :: (if t in groups then groups[t] else []) == SignalsAt(signals, t)
  {
    groups := map[];
    for k := 0 to |signals|
      invariant forall t :: (if t in groups then groups[t] else []) == SignalsAt(signals[..k], t)
    {
      var s := signals[k];
      assert signals[..k + 1][..k] == signals[..k];
      groups := groups[s.timestamp := (if s.timestamp in groups then groups[s.timestamp] else []) + [s]];
    }
    assert signals[..|signals|] == signals;
  }

  function EvaluateOpeningRiskExit(bar: Bar, quantity: nat, entry: Entry, index: nat): Option<(real, ExitReason)> {
    if quantity == 0 || entry.bar.None? || index <= entry.bar.value then None
    else if entry.stop.Some? && bar.open <= entry.stop.value then Some((bar.open, StopLoss))
    else if entry.target.Some? && bar.open >= entry.target.value then Some((bar.open, TakeProfit))
    else None
  }

  function EvaluateIntradayRiskExit(bar: Bar, quantity: nat, entry: Entry, index: nat): Option<(real, ExitReason)> {
    if quantity == 0 || entry.bar.None? || index <= entry.bar.value then None
    else if entry.stop.Some? && bar.low <= entry.stop.value then Some((entry.stop.value, StopLoss))
    else if entry.target.Some? && bar.high >= entry.target.value then Some((entry.target.value, TakeProfit))
    else None
  }

  function ClosePosition(bar: Bar, price: real, reason: ExitReason, cash: real, quantity: nat, entry: Entry,
                         exitSignal: Option<int>): Result<(real, Trade), EngineError>
    requires entry.price.Some? ==> entry.price.value > 0.0
  {
    if quantity == 0 then Err(ClosingFlatPosition)
    else if entry.price.None? || entry.timestamp.None? || entry.signal.None? then Err(MissingEntryDetails)
    else
      Ok((cash + Value(quantity, price),
          RecordTrade(entry.signal.value, entry.timestamp.value, entry.price.value, quantity, bar, price, reason,
                      exitSignal)))
  }

  /** Closing never meets a flat position or missing entry details, and is the fold's `Close`. */
  lemma ClosePositionIsClose(book: Book, bar: Bar, price: real, reason: ExitReason, quantity: nat, entry: Entry,
                             exitSignal: Option<int>)
    requires book.Sound() && book.position.Held? && Represents(book.position, quantity, entry) && price > 0.0
    ensures var closed := ClosePosition(bar, price, reason, book.cash, quantity, entry, exitSignal);
            && closed.Ok?
            && Close(book, bar, price, reason, exitSignal)
               == Book(closed.value.0, Flat, book.trades + [closed.value.1], book.ignored)
  {
  }

  method ExecuteBuy(signal: Signal, bar: Bar, cash: real, quantity: nat, entry: Entry, ignored: seq<Signal>)
    returns (cash': real, quantity': nat, entry': Entry, ignored': seq<Signal>)
    requires bar.open > 0.0 && cash >= 0.0
    ensures quantity > 0 || cash < bar.open ==>
              cash' == cash && quantity' == quantity && entry' == entry && ignored' == ignored + [signal]
    ensures quantity == 0 && bar.open <= cash ==>
              && quantity' == Shares(cash, bar.open) > 0 && cash' == cash - Value(quantity', bar.open) < bar.open
              && entry' == entry.(price := Some(bar.open), timestamp := Some(bar.timestamp),
                  signal := Some(signal.timestamp))
              && ignored' == ignored
  {
    cash', quantity', entry', ignored' := cash, quantity, entry, ignored;
    LeftoverCash(cash, bar.open);
    AffordableIffShares(cash, bar.open);
    if quantity > 0 {
      ignored' := ignored + [signal];
      return;
    }
    var sharesToBuy := Shares(cash, bar.open);
    if sharesToBuy == 0 {
      ignored' := ignored + [signal];
      return;
    }
    cash', quantity' := cash - Value(sharesToBuy, bar.open), sharesToBuy;
    entry' := entry.(price := Some(bar.open), timestamp := Some(bar.timestamp), signal := Some(signal.timestamp));
  }

  method ExecuteSell(signal: Signal, bar: Bar, cash: real, quantity: nat, entry: Entry, ignored: seq<Signal>)
    returns (outcome: Result<(real, nat, Option<Trade>), EngineError>, ignored': seq<Signal>)
    requires entry.price.Some? ==> entry.price.value > 0.0
    ensures quantity == 0 ==> outcome == Ok((cash, 0, None)) && ignored' == ignored + [signal]
    ensures quantity > 0 ==>
              && ignored' == ignored
              && var closed := ClosePosition(bar, bar.open, StrategyExit, cash, quantity, entry,
                  Some(signal.timestamp));
                 outcome == if closed.Err? then Err(closed.error)
                            else Ok((closed.value.0, 0, Some(closed.value.1)))
  {
    ignored' := ignored;
    if quantity == 0 {
      ignored' := ignored + [signal];
      return Ok((cash, 0, None)), ignored';
    }
    if entry.price.None? || entry.timestamp.None? || entry.signal.None? {
      return Err(MissingEntryDetails), ignored';
    }
    var trade := RecordTrade(entry.signal.value, entry.timestamp.value, entry.price.value, quantity, bar, bar.open,
                             StrategyExit, Some(signal.timestamp));
    outcome := Ok((cash + Value(quantity, bar.open), 0, Some(trade)));
  }

  /** The inner loop: the pending signals in order, at one open. */
  method ExecutePending(pending: seq<Signal>, bar: Bar, index: nat, risk: Risk, ghost book: Book,
                        cash: real, quantity: nat, entry: Entry, trades: seq<Trade>, ignored: seq<Signal>)
    returns (cash': real, quantity': nat, entry': Entry, trades': seq<Trade>, ignored': seq<Signal>, closedAtOpen: bool)
    requires bar.open > 0.0 && book.Sound() && ValidRisk(risk)
    requires Represents(book.position, quantity, entry)
    requires cash == book.cash && trades == book.trades && ignored == book.ignored
    ensures var after := ApplySignals(book, pending, bar, index, risk);
            && Represents(after.position, quantity', entry')
            && cash' == after.cash && trades' == after.trades && ignored' == after.ignored
            && (closedAtOpen && after.position.Held? ==> after.position.entryBar == index)
  {
    cash', quantity', entry', trades', ignored', closedAtOpen := cash, quantity, entry, trades, ignored, false;
    ghost var current := book;
    for k := 0 to |pending|
      invariant current == ApplySignals(book, pending[..k], bar, index, risk)
      invariant Represents(current.position, quantity', entry')
      invariant cash' == current.cash && trades' == current.trades && ignored' == current.ignored
      invariant closedAtOpen && current.position.Held? ==> current.position.entryBar == index
    {
      var signal := pending[k];
      assert pending[..k + 1][..k] == pending[..k];
      ghost var before := current;
      current := ApplySignal(current, signal, bar, index, risk);
      AffordableIffShares(cash', bar.open);
      if signal.kind.Buy? {
        var wasFlat := quantity' == 0;
        cash', quantity', entry', ignored' := ExecuteBuy(signal, bar, cash', quantity', entry', ignored');
        if wasFlat && quantity' > 0 && entry'.price.Some? {
          var levels := RiskLevels(entry'.price.value, risk);
          entry' := entry'.(bar := Some(index), stop := levels.0, target := levels.1);
        }
      } else {
        if before.position.Held? {
          ClosePositionIsClose(before, bar, bar.open, StrategyExit, quantity', entry', Some(signal.timestamp));
        }
        var outcome;
        outcome, ignored' := ExecuteSell(signal, bar, cash', quantity', entry', ignored');
        assert outcome.Ok?;
        cash', quantity' := outcome.value.0, outcome.value.1;
        if outcome.value.2.Some? {
          trades' := trades' + [outcome.value.2.value];
          entry' := ClearedPosition();
          closedAtOpen := true;
        }
      }
    }
    assert pending[..|pending|] == pending;
  }

  /** The open of one bar: a gap exit that discards the pending signals, or else the signals. */
  method ExecuteOpen(pending: seq<Signal>, bar: Bar, index: nat, risk: Risk, ghost book: Book,
                     cash: real, quantity: nat, entry: Entry, trades: seq<Trade>, ignored: seq<Signal>)
    returns (cash': real, quantity': nat, entry': Entry, trades': seq<Trade>, ignored': seq<Signal>, closedAtOpen: bool)
    requires bar.open > 0.0 && book.Sound() && ValidRisk(risk)
    requires Represents(book.position, quantity, entry)
    requires cash == book.cash && trades == book.trades && ignored == book.ignored
    ensures var after := OpenBar(book, pending, bar, index, risk);
            && Represents(after.position, quantity', entry')
            && cash' == after.cash && trades' == after.trades && ignored' == after.ignored
            && (closedAtOpen && after.position.Held? ==> after.position.entryBar == index)
  {
    var openingExit := EvaluateOpeningRiskExit(bar, quantity, entry, index);
    if openingExit.Some? {
      ClosePositionIsClose(book, bar, openingExit.value.0, openingExit.value.1, quantity, entry, None);
      var closed := ClosePosition(bar, openingExit.value.0, openingExit.value.1, cash, quantity, entry, None);
      cash', trades' := closed.value.0, trades + [closed.value.1];
      quantity', entry' := 0, ClearedPosition();
      ignored', closedAtOpen := ignored + pending, true;
    } else {
      cash', quantity', entry', trades', ignored', closedAtOpen :=
        ExecutePending(pending, bar, index, risk, book, cash, quantity, entry, trades, ignored);
    }
  }

  /** The trading of one bar after its open. */
  method ExecuteIntraday(bar: Bar, index: nat, closedAtOpen: bool, ghost book: Book,
                         cash: real, quantity: nat, entry: Entry, trades: seq<Trade>)
    returns (cash': real, quantity': nat, entry': Entry, trades': seq<Trade>)
    requires ValidBar(bar) && book.Sound()
    requires Represents(book.position, quantity, entry) && cash == book.cash && trades == book.trades
    requires closedAtOpen && book.position.Held? ==> book.position.entryBar == index
    ensures var after := TradeBar(book, bar, index);
            && Represents(after.position, quantity', entry')
            && cash' == after.cash && trades' == after.trades && after.ignored == book.ignored
  {
    cash', quantity', entry', trades' := cash, quantity, entry, trades;
    if quantity > 0 && !closedAtOpen {
      var intradayExit := EvaluateIntradayRiskExit(bar, quantity, entry, index);
      assert intradayExit == IntradayExit(book.position, bar, index);
      if intradayExit.Some? {
        ClosePositionIsClose(book, bar, intradayExit.value.0, intradayExit.value.1, quantity, entry, None);
        var closed := ClosePosition(bar, intradayExit.value.0, intradayExit.value.1, cash, quantity, entry, None);
        cash', trades' := closed.value.0, trades + [closed.value.1];
        quantity', entry' := 0, ClearedPosition();
      }
    }
  }

  /** One bar of the main loop: its open, unless it is the first, its intraday exits, and its equity point. A
      position closed and reopened at one open is never old enough for an intraday exit, so the program's
      `position_closed_at_open` flag never changes what the fold does. */
  method ExecuteBar(pending: seq<Signal>, bar: Bar, index: nat, risk: Risk, ghost book: Book,
                    cash: real, quantity: nat, entry: Entry, trades: seq<Trade>, ignored: seq<Signal>)
    returns (cash': real, quantity': nat, entry': Entry, trades': seq<Trade>, ignored': seq<Signal>, point: EquityPoint)
    requires ValidBar(bar) && book.Sound() && ValidRisk(risk)
    requires Represents(book.position, quantity, entry)
    requires cash == book.cash && trades == book.trades && ignored == book.ignored
    requires index == 0 ==> pending == [] && book.position.Flat?
    ensures var after := StepBar(book, pending, bar, index, risk);
            && Represents(after.position, quantity', entry')
            && cash' == after.cash && trades' == after.trades && ignored' == after.ignored
            && point == Mark(after, bar)
  {
    cash', quantity', entry', trades', ignored' := cash, quantity, entry, trades, ignored;
    var closedAtOpen := false;
    if index > 0 {
      cash', quantity', entry', trades', ignored', closedAtOpen :=
        ExecuteOpen(pending, bar, index, risk, book, cash, quantity, entry, trades, ignored);
    }
    ghost var atOpen := OpenBar(book, pending, bar, index, risk);
    cash', quantity', entry', trades' := ExecuteIntraday(bar, index, closedAtOpen, atOpen, cash', quantity', entry',
        trades');
    point := EquityPoint(bar.timestamp, cash' + Value(quantity', bar.close));
  }

  /** Whatever is still held is sold at the last close. */
  method LiquidateAtClose(finalBar: Bar, ghost book: Book, cash: real, quantity: nat, entry: Entry, trades: seq<Trade>)
    returns (cash': real, trades': seq<Trade>)
    requires ValidBar(finalBar) && book.Sound() && Represents(book.position, quantity, entry)
    requires cash == book.cash && trades == book.trades
    ensures cash' == Liquidate(book, finalBar).cash && trades' == Liquidate(book, finalBar).trades
  {
    cash', trades' := cash, trades;
    if quantity > 0 {
      ClosePositionIsClose(book, finalBar, finalBar.close, FinalLiquidation, quantity, entry, None);
      var closed := ClosePosition(finalBar, finalBar.close, FinalLiquidation, cash, quantity, entry, None);
      cash', trades' := closed.value.0, trades + [closed.value.1];
    }
  }

  /** The main loop, over the signals grouped by time. */
  method ExecuteBars(bars: seq<Bar>, ghost signals: seq<Signal>, groups: map<int, seq<Signal>>, startingCash: real,
                     risk: Risk)
    returns (cash: real, quantity: nat, entry: Entry, trades: seq<Trade>, equity: seq<EquityPoint>,
        ignored: seq<Signal>)
    requires PricedBars(bars) && startingCash > 0.0 && ValidRisk(risk)
    requires forall t :: (if t in groups then groups[t] else []) == SignalsAt(signals, t)
    ensures var book := RunTo(bars, signals, startingCash, risk, |bars|);
            && Represents(book.position, quantity, entry)
            && cash == book.cash && trades == book.trades && ignored == book.ignored
    ensures equity == EquityTo(bars, signals, startingCash, risk, |bars|)
  {
    cash, quantity, entry := startingCash, 0, ClearedPosition();
    trades, equity, ignored := [], [], [];
    ghost var book := RunTo(bars, signals, startingCash, risk, 0);
    for index := 0 to |bars|
      invariant book == RunTo(bars, signals, startingCash, risk, index)
      invariant index == 0 ==> book.position.Flat?
      invariant Represents(book.position, quantity, entry)
      invariant cash == book.cash && trades == book.trades && ignored == book.ignored
      invariant equity == EquityTo(bars, signals, startingCash, risk, index)
    {
      RunUnfolds(bars, signals, startingCash, risk, index);
      var pending := [];
      if index > 0 {
        var previous := bars[index - 1].timestamp;
        pending := if previous in groups then groups[previous] else [];
      }
      var point;
      cash, quantity, entry, trades, ignored, point :=
        ExecuteBar(pending, bars[index], index, risk, book, cash, quantity, entry, trades, ignored);
      book := RunTo(bars, signals, startingCash, risk, index + 1);
      EquityStep(bars, signals, startingCash, risk, index, book);
      equity := equity + [point];
    }
  }

  method ExecuteLongOnlySignals(bars: seq<Bar>, signals: seq<Signal>, startingCash: real, risk: Risk)
    returns (result: Result<Execution, EngineError>)
    requires PricedBars(bars)
    ensures result == Execute(bars, signals, startingCash, risk)
  {
    if startingCash <= 0.0 { return Err(NonPositiveStartingCash); }
    if bars == [] { return Err(NoBars); }
    if !PositiveControl(risk.stopLoss) { return Err(InvalidStopLoss); }
    if !PositiveControl(risk.takeProfit) { return Err(InvalidTakeProfit); }

    var groups := GroupByTimestamp(signals);
    var cash, quantity, entry, trades, equity, ignored := ExecuteBars(bars, signals, groups, startingCash, risk);
    ghost var book := RunTo(bars, signals, startingCash, risk, |bars|);
    cash, trades := LiquidateAtClose(bars[|bars| - 1], book, cash, quantity, entry, trades);
    var total := SumProfitLoss(trades);
    result := Ok(Execution(cash, total, trades, equity, ignored));
  }

  method SumProfitLoss(trades: seq<Trade>) returns (total: real)
    ensures total == Realised(trades)
  {
    total := 0.0;
    for k := 0 to |trades|
      invariant total == Realised(trades[..k])
    {
      assert trades[..k + 1][..k] == trades[..k];
      total := total + trades[k].profitLoss;
    }
    assert trades[..|trades|] == trades;
  }
}
