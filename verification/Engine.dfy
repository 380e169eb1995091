/**
 The long-only execution engine.

 The functions give the meaning of a run as a left fold over the bars. `EngineLoop` follows the program's
 own loop over separate mutable variables, and is proved against these functions.
 */
module Engine {
  import opened Wrappers
  import opened Market
  import opened Reals

  datatype EngineError =
    | NonPositiveStartingCash
    | NoBars
    | InvalidStopLoss
    | InvalidTakeProfit
    | ClosingFlatPosition
    | MissingEntryDetails

  /** Optional position-level risk controls, in percent of the entry price. */
  datatype Risk = Risk(stopLoss: Option<real>, takeProfit: Option<real>)

  datatype Position =
    | Flat
    | Held(quantity: nat, entryPrice: real, entryTimestamp: int, signalTimestamp: int, entryBar: nat,
           stop: Option<real>, target: Option<real>)
  {
    ghost predicate WellFormed() {
      Held? ==> quantity > 0 && entryPrice > 0.0 && (target.Some? ==> target.value > 0.0)
    }

    function Quantity(): nat {
      if Held? then quantity else 0
    }
  }

  /** What the loop carries from bar to bar, apart from the equity curve. */
  datatype Book = Book(cash: real, position: Position, trades: seq<Trade>, ignored: seq<Signal>) {
    ghost predicate Sound() {
      cash >= 0.0 && position.WellFormed()
    }
  }

  datatype Execution = Execution(
    finalValue: real,
    totalRealised: real,
    trades: seq<Trade>,
    equity: seq<EquityPoint>,
    ignored: seq<Signal>)

  predicate PositiveControl(control: Option<real>) {
    control.Some? ==> control.value > 0.0
  }

  predicate ValidRisk(risk: Risk) {
    PositiveControl(risk.stopLoss) && PositiveControl(risk.takeProfit)
  }

  // ----- pure helpers -----

  /** Stop and target prices for a fill. */
  function RiskLevels(entryPrice: real, risk: Risk): (levels: (Option<real>, Option<real>))
    requires entryPrice > 0.0
    ensures levels.0.Some? <==> risk.stopLoss.Some?
    ensures levels.1.Some? <==> risk.takeProfit.Some?
    ensures risk.stopLoss.Some? && risk.stopLoss.value > 0.0 ==> levels.0.value < entryPrice
    ensures risk.takeProfit.Some? && risk.takeProfit.value > 0.0 ==> levels.1.value > entryPrice > 0.0
  {
    ScalingMovesAway(entryPrice, risk);
    (if risk.stopLoss.Some? then Some(entryPrice * (1.0 - risk.stopLoss.value / 100.0)) else None,
     if risk.takeProfit.Some? then Some(entryPrice * (1.0 + risk.takeProfit.value / 100.0)) else None)
  }

  /** The levels are the given percentages away from the entry price. */
  lemma LevelsArePercentages(entryPrice: real, risk: Risk)
    requires entryPrice > 0.0
    ensures var levels := RiskLevels(entryPrice, risk);
            && (risk.stopLoss.Some? ==> levels.0.value * 100.0 == entryPrice * 100.0 - entryPrice * risk.stopLoss.value)
            && (risk.takeProfit.Some? ==>
                  levels.1.value * 100.0 == entryPrice * 100.0 + entryPrice * risk.takeProfit.value)
  {
    if risk.stopLoss.Some? {
      PercentOfPrice(entryPrice, risk.stopLoss.value, risk.stopLoss.value / 100.0);
    }
    if risk.takeProfit.Some? {
      PercentOfPrice(entryPrice, risk.takeProfit.value, risk.takeProfit.value / 100.0);
    }
  }

  lemma PercentOfPrice(price: real, percent: real, fraction: real)
    requires fraction == percent / 100.0
    ensures price * (1.0 - fraction) * 100.0 == price * 100.0 - price * percent
    ensures price * (1.0 + fraction) * 100.0 == price * 100.0 + price * percent
  {
    var part := price * fraction;
    assert part * 100.0 == price * percent by {
      assert percent == fraction * 100.0;
    }
    assert price * (1.0 - fraction) == price - part;
    assert price * (1.0 + fraction) == price + part;
  }

  lemma ScalingMovesAway(price: real, risk: Risk)
    requires price > 0.0
    ensures risk.stopLoss.Some? && risk.stopLoss.value > 0.0 ==> price * (1.0 - risk.stopLoss.value / 100.0) < price
    ensures risk.takeProfit.Some? && risk.takeProfit.value > 0.0 ==>
        price * (1.0 + risk.takeProfit.value / 100.0) > price
  {
    if risk.stopLoss.Some? && risk.stopLoss.value > 0.0 {
      ProductPositive(price, risk.stopLoss.value / 100.0);
    }
    if risk.takeProfit.Some? && risk.takeProfit.value > 0.0 {
      ProductPositive(price, risk.takeProfit.value / 100.0);
    }
  }

  /** The exit at the open of `bar`, if the gap is through a level; the stop comes first. */
  function OpeningExit(position: Position, bar: Bar, index: nat): Option<(real, ExitReason)> {
    if position.Flat? || index <= position.entryBar then None
    else if position.stop.Some? && bar.open <= position.stop.value then Some((bar.open, StopLoss))
    else if position.target.Some? && bar.open >= position.target.value then Some((bar.open, TakeProfit))
    else None
  }

  /** The exit inside `bar`, at the level itself; the stop comes first. */
  function IntradayExit(position: Position, bar: Bar, index: nat): Option<(real, ExitReason)> {
    if position.Flat? || index <= position.entryBar then None
    else if position.stop.Some? && bar.low <= position.stop.value then Some((position.stop.value, StopLoss))
    else if position.target.Some? && bar.high >= position.target.value then Some((position.target.value, TakeProfit))
    else None
  }

  /** The money that `quantity` shares are worth at `price`. */
  function Value(quantity: nat, price: real): (value: real)
    ensures quantity > 0 && price > 0.0 ==> value > 0.0
    ensures quantity == 0 ==> value == 0.0
  {
    if quantity > 0 && price > 0.0 then
      ProductPositive(quantity as real, price);
      quantity as real * price
    else quantity as real * price
  }

  function Cost(position: Position): real {
    if position.Held? then Value(position.quantity, position.entryPrice) else 0.0
  }

  function PercentOf(part: real, whole: real): real
    requires whole != 0.0
  {
    part / whole * 100.0
  }

  /** The trade recorded when shares bought at `entryPrice` are sold at `price`. */
  function RecordTrade(signalTimestamp: int, entryTimestamp: int, entryPrice: real, quantity: nat, bar: Bar,
                       price: real, reason: ExitReason, exitSignal: Option<int>): Trade
    requires quantity > 0 && entryPrice > 0.0
  {
    var cost := Value(quantity, entryPrice);
    var profit := Value(quantity, price) - cost;
    Trade(signalTimestamp, entryTimestamp, entryPrice, quantity, exitSignal, bar.timestamp, price, profit,
          PercentOf(profit, cost), reason)
  }

  function TradeOf(position: Position, bar: Bar, price: real, reason: ExitReason, exitSignal: Option<int>): Trade
    requires position.Held? && position.WellFormed()
  {
    RecordTrade(position.signalTimestamp, position.entryTimestamp, position.entryPrice, position.quantity, bar,
                price, reason, exitSignal)
  }

  function Close(book: Book, bar: Bar, price: real, reason: ExitReason, exitSignal: Option<int>): (after: Book)
    requires book.position.Held? && book.Sound() && price > 0.0
    ensures after.Sound() && after.position.Flat? && after.cash > book.cash
  {
    Book(book.cash + Value(book.position.quantity, price),
         Flat,
         book.trades + [TradeOf(book.position, bar, price, reason, exitSignal)],
         book.ignored)
  }

  function Ignore(book: Book, signals: seq<Signal>): Book {
    book.(ignored := book.ignored + signals)
  }

  /** Whole shares affordable at `price`. */
  function Shares(cash: real, price: real): nat
    requires price > 0.0 && cash >= 0.0
  {
    QuotientNonNegative(cash, price);
    (cash / price).Floor
  }

  lemma QuotientNonNegative(a: real, b: real)
    requires a >= 0.0 && b > 0.0
    ensures (a / b).Floor >= 0
  {
  }

  function BuyAtOpen(book: Book, signal: Signal, bar: Bar, index: nat, risk: Risk): (after: Book)
    requires bar.open > 0.0 && book.Sound() && ValidRisk(risk)
    ensures after.Sound()
  {
    LeftoverCash(book.cash, bar.open);
    var shares := Shares(book.cash, bar.open);
    if book.position.Held? || shares == 0 then Ignore(book, [signal])
    else
      var levels := RiskLevels(bar.open, risk);
      book.(cash := book.cash - Value(shares, bar.open),
            position := Held(shares, bar.open, bar.timestamp, signal.timestamp, index, levels.0, levels.1))
  }

  /** Whole-share sizing leaves less than the price of one share. */
  lemma LeftoverCash(cash: real, price: real)
    requires price > 0.0 && cash >= 0.0
    ensures 0.0 <= cash - Value(Shares(cash, price), price) < price
  {
    var ratio := cash / price;
    assert ratio * price == cash;
    FractionOf(cash, ratio, ratio.Floor as real, price);
  }

  lemma FractionOf(cash: real, ratio: real, whole: real, price: real)
    requires whole <= ratio < whole + 1.0 && price > 0.0 && ratio * price == cash
    ensures whole * price <= cash < whole * price + price
  {
    var up := whole + 1.0;
    ProductMonotone(ratio, up, price);
    assert cash < up * price;
    assert up * price == whole * price + price;
    if whole < ratio {
      ProductMonotone(whole, ratio, price);
    }
  }

  lemma AffordableIffShares(cash: real, price: real)
    requires cash >= 0.0 && price > 0.0
    ensures Shares(cash, price) > 0 <==> price <= cash
  {
    LeftoverCash(cash, price);
    var shares := Shares(cash, price);
    if shares > 0 {
      var more := (shares - 1) as real;
      ProductNonNegative(more, price);
      assert Value(shares, price) == more * price + price;
    } else {
      assert Value(shares, price) == 0.0;
    }
  }

  function SellAtOpen(book: Book, signal: Signal, bar: Bar): (after: Book)
    requires bar.open > 0.0 && book.Sound()
    ensures after.Sound()
  {
    if book.position.Flat? then Ignore(book, [signal])
    else Close(book, bar, bar.open, StrategyExit, Some(signal.timestamp))
  }

  function ApplySignal(book: Book, signal: Signal, bar: Bar, index: nat, risk: Risk): (after: Book)
    requires bar.open > 0.0 && book.Sound() && ValidRisk(risk)
    ensures after.Sound()
  {
    if signal.kind.Buy? then BuyAtOpen(book, signal, bar, index, risk) else SellAtOpen(book, signal, bar)
  }

  /** The pending signals of the previous bar, applied at this bar's open in order. */
  function ApplySignals(book: Book, pending: seq<Signal>, bar: Bar, index: nat, risk: Risk): (after: Book)
    requires bar.open > 0.0 && book.Sound() && ValidRisk(risk)
    ensures after.Sound()
  {
    if pending == [] then book
    else
      var before := ApplySignals(book, pending[..|pending| - 1], bar, index, risk);
      ApplySignal(before, pending[|pending| - 1], bar, index, risk)
  }

  // ----- the fold over bars -----

  /** The signals executed at the open of bar `index`: those stamped on the bar before. */
  function Pending(bars: seq<Bar>, signals: seq<Signal>, index: nat): seq<Signal>
    requires index < |bars|
  {
    if index == 0 then [] else SignalsAt(signals, bars[index - 1].timestamp)
  }

  /** A gap exit outranks, and discards, the pending signals. */
  function OpenBar(book: Book, pending: seq<Signal>, bar: Bar, index: nat, risk: Risk): (after: Book)
    requires bar.open > 0.0 && book.Sound() && ValidRisk(risk)
    ensures after.Sound()
  {
    match OpeningExit(book.position, bar, index)
    case Some(exit) => Ignore(Close(book, bar, exit.0, exit.1, None), pending)
    case None => ApplySignals(book, pending, bar, index, risk)
  }

  function TradeBar(book: Book, bar: Bar, index: nat): (after: Book)
    requires ValidBar(bar) && book.Sound()
    ensures after.Sound()
  {
    match IntradayExit(book.position, bar, index)
    case Some(exit) => Close(book, bar, exit.0, exit.1, None)
    case None => book
  }

  function StepBar(book: Book, pending: seq<Signal>, bar: Bar, index: nat, risk: Risk): (after: Book)
    requires ValidBar(bar) && book.Sound() && ValidRisk(risk)
    ensures after.Sound()
  {
    TradeBar(OpenBar(book, pending, bar, index, risk), bar, index)
  }

  function Mark(book: Book, bar: Bar): EquityPoint {
    EquityPoint(bar.timestamp, book.cash + Value(book.position.Quantity(), bar.close))
  }

  function OpeningBook(cash: real): Book {
    Book(cash, Flat, [], [])
  }

  /** The book after the first `n` bars. */
  function RunTo(bars: seq<Bar>, signals: seq<Signal>, cash: real, risk: Risk, n: nat): (book: Book)
    requires n <= |bars| && PricedBars(bars)
    requires cash > 0.0 && ValidRisk(risk)
    ensures book.Sound()
  {
    if n == 0 then OpeningBook(cash)
    else StepBar(RunTo(bars, signals, cash, risk, n - 1), Pending(bars, signals, n - 1), bars[n - 1], n - 1, risk)
  }

  lemma RunUnfolds(bars: seq<Bar>, signals: seq<Signal>, cash: real, risk: Risk, n: nat)
    requires n < |bars| && PricedBars(bars) && cash > 0.0 && ValidRisk(risk)
    ensures ValidBar(bars[n])
    ensures RunTo(bars, signals, cash, risk, n + 1)
         == StepBar(RunTo(bars, signals, cash, risk, n), Pending(bars, signals, n), bars[n], n, risk)
  {
  }

  /** One more bar of a run, its pending signals and its book being known. */
  lemma RunStep(bars: seq<Bar>, signals: seq<Signal>, cash: real, risk: Risk, n: nat, book: Book, pending: seq<Signal>)
    returns (next: Book)
    requires n < |bars| && PricedBars(bars) && cash > 0.0 && ValidRisk(risk)
    requires book == RunTo(bars, signals, cash, risk, n) && pending == Pending(bars, signals, n)
    ensures ValidBar(bars[n]) && next == RunTo(bars, signals, cash, risk, n + 1)
    ensures next == StepBar(book, pending, bars[n], n, risk)
  {
    RunUnfolds(bars, signals, cash, risk, n);
    next := RunTo(bars, signals, cash, risk, n + 1);
  }

  /** One point per bar, marked to the close. */
  function EquityTo(bars: seq<Bar>, signals: seq<Signal>, cash: real, risk: Risk, n: nat): (curve: seq<EquityPoint>)
    requires n <= |bars| && PricedBars(bars)
    requires cash > 0.0 && ValidRisk(risk)
    ensures |curve| == n
  {
    if n == 0 then []
    else EquityTo(bars, signals, cash, risk, n - 1) + [Mark(RunTo(bars, signals, cash, risk, n), bars[n - 1])]
  }

  lemma EquityStep(bars: seq<Bar>, signals: seq<Signal>, cash: real, risk: Risk, n: nat, book: Book)
    requires n < |bars| && PricedBars(bars) && cash > 0.0 && ValidRisk(risk)
    requires book == RunTo(bars, signals, cash, risk, n + 1)
    ensures EquityTo(bars, signals, cash, risk, n + 1) == EquityTo(bars, signals, cash, risk, n) + [Mark(book, bars[n])]
  {
  }

  lemma {:induction false} EquityAt(bars: seq<Bar>, signals: seq<Signal>, cash: real, risk: Risk, n: nat, i: nat)
    requires i < n <= |bars| && PricedBars(bars)
    requires cash > 0.0 && ValidRisk(risk)
    ensures EquityTo(bars, signals, cash, risk, n)[i] == Mark(RunTo(bars, signals, cash, risk, i + 1), bars[i])
  {
    if i < n - 1 {
      EquityAt(bars, signals, cash, risk, n - 1, i);
    }
  }

  /** A position still open after the last bar is sold at its close. */
  function Liquidate(book: Book, bar: Bar): (after: Book)
    requires ValidBar(bar) && book.Sound()
    ensures after.Sound() && after.position.Flat?
  {
    if book.position.Flat? then book else Close(book, bar, bar.close, FinalLiquidation, None)
  }

  function Realised(trades: seq<Trade>): real {
    if trades == [] then 0.0 else Realised(trades[..|trades| - 1]) + trades[|trades| - 1].profitLoss
  }

  function Execute(bars: seq<Bar>, signals: seq<Signal>, cash: real, risk: Risk): Result<Execution, EngineError>
    requires PricedBars(bars)
  {
    if cash <= 0.0 then Err(NonPositiveStartingCash)
    else if bars == [] then Err(NoBars)
    else if !PositiveControl(risk.stopLoss) then Err(InvalidStopLoss)
    else if !PositiveControl(risk.takeProfit) then Err(InvalidTakeProfit)
    else
      var book := Liquidate(RunTo(bars, signals, cash, risk, |bars|), bars[|bars| - 1]);
      Ok(Execution(book.cash, Realised(book.trades), book.trades,
                   EquityTo(bars, signals, cash, risk, |bars|), book.ignored))
  }
}
