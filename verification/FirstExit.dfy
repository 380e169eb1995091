/**
 A second account of a run, one position at a time: find the next affordable entry, then the earliest
 event that ends it, then carry on from there. The engine's bar-by-bar loop produces the same trades.
 */
module FirstExit {
  import opened Wrappers
  import opened Market
  import opened Engine

  // A slot (bar, k) is the open of `bar` once `k` of its pending signals have been dealt with.
  datatype Exit = Exit(bar: nat, price: real, reason: ExitReason, signal: Option<int>, nextBar: nat, nextSlot: nat)

  function Slots(bars: seq<Bar>, signals: seq<Signal>, i: nat): nat {
    if i < |bars| then |Pending(bars, signals, i)| else 0
  }

  /** The first SELL at or after slot `k`. */
  function FirstSell(pending: seq<Signal>, k: nat): (found: Option<nat>)
    requires k <= |pending|
    ensures found.Some? ==> k <= found.value < |pending| && pending[found.value].kind.Sell?
    ensures forall j :: k <= j < (if found.Some? then found.value else |pending|) ==> pending[j].kind.Buy?
    decreases |pending| - k
  {
    if k == |pending| then None
    else if pending[k].kind.Sell? then Some(k)
    else FirstSell(pending, k + 1)
  }

  /** Flat trading resumes later in the same bar after a SELL, and with the next bar otherwise. */
  ghost predicate Resumes(bars: seq<Bar>, signals: seq<Signal>, exit: Exit, i: nat, k: nat) {
    || (exit.nextBar == i + 1 && exit.nextSlot == 0)
    || (exit.nextBar == i && k < exit.nextSlot <= Slots(bars, signals, i))
  }

  /** What ends `position` in bar `i`, if anything does, in the order: gap through the stop, gap through
      the target, a pending SELL, the stop inside the bar, the target inside the bar. */
  function EventAt(bars: seq<Bar>, signals: seq<Signal>, position: Position, i: nat, k: nat): (event: Option<Exit>)
    requires i < |bars| && k <= Slots(bars, signals, i)
    ensures event.Some? ==> event.value.bar == i && Resumes(bars, signals, event.value, i, k)
  {
    var gap, sell, intraday :=
      OpeningExit(position, bars[i], i), FirstSell(Pending(bars, signals, i), k), IntradayExit(position, bars[i], i);
    if k == 0 && gap.Some? then Some(Exit(i, gap.value.0, gap.value.1, None, i + 1, 0))
    else if sell.Some? then
      Some(Exit(i, bars[i].open, StrategyExit, Some(Pending(bars, signals, i)[sell.value].timestamp), i,
          sell.value + 1))
    else if intraday.Some? then Some(Exit(i, intraday.value.0, intraday.value.1, None, i + 1, 0))
    else None
  }

  /** What would end a position entered at slot (i, k), bar by bar from `i` on. */
  function Events(bars: seq<Bar>, signals: seq<Signal>, position: Position, i: nat, k: nat): seq<Option<Exit>>
    requires i <= |bars| && k <= Slots(bars, signals, i)
  {
    seq(|bars| - i, d requires 0 <= d < |bars| - i => EventAt(bars, signals, position, i + d, if d == 0 then k else 0))
  }

  /** The index of the first bar with an event, or the number of bars. */
  function First(events: seq<Option<Exit>>): (d: nat)
    ensures d <= |events|
    ensures forall e :: 0 <= e < d ==> events[e].None?
    ensures d < |events| ==> events[d].Some?
  {
    if events == [] || events[0].Some? then 0 else 1 + First(events[1..])
  }

  /** The exit of a position entered at slot (i, k): the earliest event, or the close of the last bar. */
  function EarliestExit(bars: seq<Bar>, signals: seq<Signal>, position: Position, i: nat, k: nat): (exit: Exit)
    requires bars != [] && i <= |bars| && k <= Slots(bars, signals, i)
    ensures exit.bar < |bars| && exit.nextBar <= |bars|
    ensures exit.nextSlot <= Slots(bars, signals, exit.nextBar)
    ensures i < |bars| ==> exit.nextBar > i || (exit.nextBar == i && exit.nextSlot > k)
  {
    var events := Events(bars, signals, position, i, k);
    var d := First(events);
    assert d < |events| ==> events[d] == EventAt(bars, signals, position, i + d, if d == 0 then k else 0);
    if d < |events| then events[d].value
    else Exit(|bars| - 1, bars[|bars| - 1].close, FinalLiquidation, None, |bars|, 0)
  }

  lemma EventsAreStepwise(bars: seq<Bar>, signals: seq<Signal>, position: Position, i: nat, k: nat)
    requires i < |bars| && k <= Slots(bars, signals, i)
    ensures var events := Events(bars, signals, position, i, k);
            events[0] == EventAt(bars, signals, position, i, k)
                && events[1..] == Events(bars, signals, position, i + 1, 0)
  {
  }

  lemma EarliestStep(bars: seq<Bar>, signals: seq<Signal>, position: Position, i: nat, k: nat)
    requires i < |bars| && k <= Slots(bars, signals, i)
    ensures EarliestExit(bars, signals, position, i, k)
         == match EventAt(bars, signals, position, i, k)
            case Some(event) => event
            case None => EarliestExit(bars, signals, position, i + 1, 0)
  {
    EventsAreStepwise(bars, signals, position, i, k);
  }

  lemma EarliestAtEnd(bars: seq<Bar>, signals: seq<Signal>, position: Position)
    requires bars != []
    ensures EarliestExit(bars, signals, position, |bars|, 0)
         == Exit(|bars| - 1, bars[|bars| - 1].close, FinalLiquidation, None, |bars|, 0)
  {
  }

  function Opened(cash: real, signal: Signal, bar: Bar, i: nat, risk: Risk): (position: Position)
    requires bar.open > 0.0 && bar.open <= cash && ValidRisk(risk)
    ensures position.Held? && position.WellFormed()
  {
    AffordableIffShares(cash, bar.open);
    var levels := RiskLevels(bar.open, risk);
    Held(Shares(cash, bar.open), bar.open, bar.timestamp, signal.timestamp, i, levels.0, levels.1)
  }

  lemma EventPricePositive(bars: seq<Bar>, signals: seq<Signal>, position: Position, i: nat, k: nat)
    requires i < |bars| && k <= Slots(bars, signals, i) && ValidBar(bars[i]) && position.WellFormed()
    ensures var event := EventAt(bars, signals, position, i, k); event.Some? ==> event.value.price > 0.0
  {
  }

  lemma ExitPricePositive(bars: seq<Bar>, signals: seq<Signal>, position: Position, i: nat, k: nat)
    requires bars != [] && i <= |bars| && k <= Slots(bars, signals, i) && PricedBars(bars) && position.WellFormed()
    ensures EarliestExit(bars, signals, position, i, k).price > 0.0
  {
    var events := Events(bars, signals, position, i, k);
    var d := First(events);
    if d == |events| {
      assert ValidBar(bars[|bars| - 1]);
    } else {
      assert ValidBar(bars[i + d]);
      EventPricePositive(bars, signals, position, i + d, if d == 0 then k else 0);
    }
  }

  /** The trades of a run that is flat with `cash` at slot (i, k). */
  function TradesFrom(bars: seq<Bar>, signals: seq<Signal>, risk: Risk, cash: real, i: nat, k: nat): seq<Trade>
    requires bars != [] && PricedBars(bars) && ValidRisk(risk) && cash >= 0.0
    requires i <= |bars| && k <= Slots(bars, signals, i)
    decreases |bars| - i, Slots(bars, signals, i) - k, 0
  {
    if i == |bars| then []
    else
      var pending := Pending(bars, signals, i);
      assert ValidBar(bars[i]);
      if k == |pending| then TradesFrom(bars, signals, risk, cash, i + 1, 0)
      else if pending[k].kind.Sell? || cash < bars[i].open then TradesFrom(bars, signals, risk, cash, i, k + 1)
      else
        var position := Opened(cash, pending[k], bars[i], i, risk);
        LeftoverCash(cash, bars[i].open);
        ExitPricePositive(bars, signals, position, i, k + 1);
        TradesOfHeld(bars, signals, risk, cash - Value(position.quantity, bars[i].open), position,
                     EarliestExit(bars, signals, position, i, k + 1))
  }

  /** One trade for the position that ends with `exit`, and then the trades after it. */
  function TradesOfHeld(bars: seq<Bar>, signals: seq<Signal>, risk: Risk, cash: real, position: Position,
                        exit: Exit): seq<Trade>
    requires bars != [] && PricedBars(bars) && ValidRisk(risk) && cash >= 0.0
    requires position.Held? && position.WellFormed() && exit.price > 0.0
    requires exit.bar < |bars| && exit.nextBar <= |bars|
    requires exit.nextSlot <= Slots(bars, signals, exit.nextBar)
    decreases |bars| - exit.nextBar, Slots(bars, signals, exit.nextBar) - exit.nextSlot, 1
  {
    [TradeOf(position, bars[exit.bar], exit.price, exit.reason, exit.signal)]
    + TradesFrom(bars, signals, risk, cash + Value(position.quantity, exit.price), exit.nextBar, exit.nextSlot)
  }

  // ----- the engine from the middle of a run -----

  /** The engine's bars from `i` on, and the final liquidation. */
  function Finish(bars: seq<Bar>, signals: seq<Signal>, risk: Risk, book: Book, i: nat): Book
    requires bars != [] && PricedBars(bars) && ValidRisk(risk) && book.Sound() && i <= |bars|
    decreases |bars| - i
  {
    if i == |bars| then
      assert ValidBar(bars[i - 1]);
      Liquidate(book, bars[i - 1])
    else
      assert ValidBar(bars[i]);
      Finish(bars, signals, risk, StepBar(book, Pending(bars, signals, i), bars[i], i, risk), i + 1)
  }

  /** The engine from slot (i, k). */
  function FinishFrom(bars: seq<Bar>, signals: seq<Signal>, risk: Risk, book: Book, i: nat, k: nat): Book
    requires bars != [] && PricedBars(bars) && ValidRisk(risk) && book.Sound()
    requires i < |bars| && k <= |Pending(bars, signals, i)|
  {
    assert ValidBar(bars[i]);
    var after := ApplySignals(book, Pending(bars, signals, i)[k..], bars[i], i, risk);
    Finish(bars, signals, risk, TradeBar(after, bars[i], i), i + 1)
  }

  lemma {:induction false} ApplySignalsFromFront(book: Book, pending: seq<Signal>, bar: Bar, i: nat, risk: Risk)
    requires bar.open > 0.0 && book.Sound() && ValidRisk(risk) && pending != []
    ensures ApplySignals(book, pending, bar, i, risk)
         == ApplySignals(ApplySignal(book, pending[0], bar, i, risk), pending[1..], bar, i, risk)
    decreases |pending|
  {
    if |pending| > 1 {
      var front := pending[..|pending| - 1];
      ApplySignalsFromFront(book, front, bar, i, risk);
      assert front[1..] == pending[1..][..|pending| - 2];
    } else {
      assert pending[..0] == [];
    }
  }

  /** One slot of the engine. */
  lemma FinishSlot(bars: seq<Bar>, signals: seq<Signal>, risk: Risk, book: Book, i: nat, k: nat)
    requires bars != [] && PricedBars(bars) && ValidRisk(risk) && book.Sound()
    requires i < |bars| && k < |Pending(bars, signals, i)|
    ensures ValidBar(bars[i])
    ensures FinishFrom(bars, signals, risk, book, i, k)
         == FinishFrom(bars, signals, risk, ApplySignal(book, Pending(bars, signals, i)[k], bars[i], i, risk), i, k + 1)
  {
    assert ValidBar(bars[i]);
    var rest := Pending(bars, signals, i)[k..];
    ApplySignalsFromFront(book, rest, bars[i], i, risk);
    assert rest[1..] == Pending(bars, signals, i)[k + 1..];
  }

  lemma FinishNoGap(bars: seq<Bar>, signals: seq<Signal>, risk: Risk, book: Book, i: nat)
    requires bars != [] && PricedBars(bars) && ValidRisk(risk) && book.Sound() && i < |bars|
    requires OpeningExit(book.position, bars[i], i).None?
    ensures Finish(bars, signals, risk, book, i) == FinishFrom(bars, signals, risk, book, i, 0)
  {
    assert Pending(bars, signals, i)[0..] == Pending(bars, signals, i);
  }

  // ----- the loop produces the trades of the position-at-a-time account -----

  /** Skipping slots that hold no SELL does nothing to a held position but ignore its BUYs. */
  lemma {:induction false} HeldIgnoresBuys(book: Book, buys: seq<Signal>, bar: Bar, i: nat, risk: Risk)
    requires bar.open > 0.0 && book.Sound() && ValidRisk(risk) && book.position.Held?
    requires forall j :: 0 <= j < |buys| ==> buys[j].kind.Buy?
    ensures ApplySignals(book, buys, bar, i, risk) == Ignore(book, buys)
  {
    if buys == [] {
      assert book.ignored + buys == book.ignored;
    } else {
      var front, last := buys[..|buys| - 1], buys[|buys| - 1];
      HeldIgnoresBuys(book, front, bar, i, risk);
      assert Ignore(Ignore(book, front), [last]) == Ignore(book, buys) by {
        assert book.ignored + buys == (book.ignored + front) + [last];
      }
    }
  }

  lemma {:induction false} ApplySignalsConcat(book: Book, a: seq<Signal>, b: seq<Signal>, bar: Bar, i: nat, risk: Risk)
    requires bar.open > 0.0 && book.Sound() && ValidRisk(risk)
    ensures ApplySignals(book, a + b, bar, i, risk)
         == ApplySignals(ApplySignals(book, a, bar, i, risk), b, bar, i, risk)
  {
    if b == [] {
      assert a + b == a;
    } else {
      assert (a + b)[..|a + b| - 1] == a + b[..|b| - 1];
      ApplySignalsConcat(book, a, b[..|b| - 1], bar, i, risk);
    }
  }

  /** Before its first SELL, a held position's pending signals are ignored; the rest act on what that SELL leaves. */
  lemma HeldUntilSell(book: Book, pending: seq<Signal>, k: nat, s: nat, bar: Bar, i: nat, risk: Risk, sold: Book)
    requires bar.open > 0.0 && book.Sound() && ValidRisk(risk) && book.position.Held?
    requires k <= |pending| && FirstSell(pending, k) == Some(s)
    requires sold == SellAtOpen(Ignore(book, pending[k..s]), pending[s], bar)
    ensures ApplySignals(book, pending[k..], bar, i, risk) == ApplySignals(sold, pending[s + 1..], bar, i, risk)
  {
    assert pending[k..] == pending[k..s] + pending[s..];
    ApplySignalsConcat(book, pending[k..s], pending[s..], bar, i, risk);
    HeldIgnoresBuys(book, pending[k..s], bar, i, risk);
    ApplySignalsFromFront(Ignore(book, pending[k..s]), pending[s..], bar, i, risk);
    assert pending[s..][1..] == pending[s + 1..];
  }

  lemma SameFinish(bars: seq<Bar>, signals: seq<Signal>, risk: Risk, i: nat, a: Book, k: nat, b: Book, j: nat)
    requires bars != [] && PricedBars(bars) && ValidRisk(risk) && a.Sound() && b.Sound()
    requires i < |bars| && ValidBar(bars[i]) && k <= Slots(bars, signals, i) && j <= Slots(bars, signals, i)
    requires var pending := Pending(bars, signals, i);
             ApplySignals(a, pending[k..], bars[i], i, risk) == ApplySignals(b, pending[j..], bars[i], i, risk)
    ensures FinishFrom(bars, signals, risk, a, i, k) == FinishFrom(bars, signals, risk, b, i, j)
  {
  }

  lemma HeldSells(bars: seq<Bar>, signals: seq<Signal>, risk: Risk, book: Book, i: nat, k: nat, s: nat, sold: Book)
    requires bars != [] && PricedBars(bars) && ValidRisk(risk) && book.Sound() && book.position.Held?
    requires i < |bars| && k <= Slots(bars, signals, i) && FirstSell(Pending(bars, signals, i), k) == Some(s)
    requires var pending := Pending(bars, signals, i);
             bars[i].open > 0.0 && sold == SellAtOpen(Ignore(book, pending[k..s]), pending[s], bars[i])
    ensures FinishFrom(bars, signals, risk, book, i, k) == FinishFrom(bars, signals, risk, sold, i, s + 1)
  {
    assert ValidBar(bars[i]);
    HeldUntilSell(book, Pending(bars, signals, i), k, s, bars[i], i, risk, sold);
    SameFinish(bars, signals, risk, i, book, k, sold, s + 1);
  }

  /** The book that a SELL leaves, and the exit that it is. */
  lemma SellEnds(bars: seq<Bar>, signals: seq<Signal>, risk: Risk, book: Book, i: nat, k: nat, s: nat)
    returns (sold: Book, event: Exit)
    requires bars != [] && PricedBars(bars) && ValidRisk(risk) && book.Sound() && book.position.Held?
    requires i < |bars| && k <= Slots(bars, signals, i) && FirstSell(Pending(bars, signals, i), k) == Some(s)
    requires k == 0 ==> OpeningExit(book.position, bars[i], i).None?
    ensures EventAt(bars, signals, book.position, i, k) == Some(event)
    ensures event.price > 0.0 && event.bar == event.nextBar == i && event.nextSlot == s + 1 <= Slots(bars, signals, i)
    ensures sold.Sound() && sold.position.Flat? && sold.cash == book.cash + Value(book.position.quantity, event.price)
    ensures sold.trades
            == book.trades + [TradeOf(book.position, bars[i], event.price, event.reason, event.signal)]
    ensures FinishFrom(bars, signals, risk, book, i, k) == FinishFrom(bars, signals, risk, sold, i, s + 1)
  {
    assert ValidBar(bars[i]);
    var pending := Pending(bars, signals, i);
    sold := SellAtOpen(Ignore(book, pending[k..s]), pending[s], bars[i]);
    HeldSells(bars, signals, risk, book, i, k, s, sold);
    event := EventAt(bars, signals, book.position, i, k).value;
  }

  lemma HeldThroughOpen(bars: seq<Bar>, signals: seq<Signal>, risk: Risk, book: Book, i: nat, k: nat)
    requires bars != [] && PricedBars(bars) && ValidRisk(risk) && book.Sound() && book.position.Held?
    requires i < |bars| && k <= Slots(bars, signals, i) && FirstSell(Pending(bars, signals, i), k).None?
    ensures ValidBar(bars[i])
    ensures FinishFrom(bars, signals, risk, book, i, k)
         == Finish(bars, signals, risk, TradeBar(Ignore(book, Pending(bars, signals, i)[k..]), bars[i], i), i + 1)
  {
    assert ValidBar(bars[i]);
    HeldIgnoresBuys(book, Pending(bars, signals, i)[k..], bars[i], i, risk);
  }

  /** The book after a bar on which nothing ends the position. */
  lemma HeldOn(bars: seq<Bar>, signals: seq<Signal>, risk: Risk, book: Book, i: nat, k: nat) returns (kept: Book)
    requires bars != [] && PricedBars(bars) && ValidRisk(risk) && book.Sound() && book.position.Held?
    requires i < |bars| && k <= Slots(bars, signals, i) && FirstSell(Pending(bars, signals, i), k).None?
    requires k == 0 ==> OpeningExit(book.position, bars[i], i).None?
    requires IntradayExit(book.position, bars[i], i).None?
    ensures EventAt(bars, signals, book.position, i, k).None?
    ensures kept.Sound() && kept.position == book.position && kept.cash == book.cash && kept.trades == book.trades
    ensures FinishFrom(bars, signals, risk, book, i, k) == Finish(bars, signals, risk, kept, i + 1)
  {
    HeldThroughOpen(bars, signals, risk, book, i, k);
    kept := Ignore(book, Pending(bars, signals, i)[k..]);
  }

  /** The book that a level met inside the bar leaves, and the exit that it is. */
  lemma IntradayEnds(bars: seq<Bar>, signals: seq<Signal>, risk: Risk, book: Book, i: nat, k: nat)
    returns (closed: Book, event: Exit)
    requires bars != [] && PricedBars(bars) && ValidRisk(risk) && book.Sound() && book.position.Held?
    requires i < |bars| && k <= Slots(bars, signals, i) && FirstSell(Pending(bars, signals, i), k).None?
    requires k == 0 ==> OpeningExit(book.position, bars[i], i).None?
    requires IntradayExit(book.position, bars[i], i).Some?
    ensures EventAt(bars, signals, book.position, i, k) == Some(event)
    ensures event.price > 0.0 && event.bar == i && event.nextBar == i + 1 && event.nextSlot == 0
    ensures closed.Sound() && closed.position.Flat?
    ensures closed.cash == book.cash + Value(book.position.quantity, event.price)
    ensures closed.trades == book.trades + [TradeOf(book.position, bars[i], event.price, event.reason, event.signal)]
    ensures FinishFrom(bars, signals, risk, book, i, k) == Finish(bars, signals, risk, closed, i + 1)
  {
    HeldThroughOpen(bars, signals, risk, book, i, k);
    EventPricePositive(bars, signals, book.position, i, k);
    var intraday := IntradayExit(book.position, bars[i], i).value;
    closed := Close(Ignore(book, Pending(bars, signals, i)[k..]), bars[i], intraday.0, intraday.1, None);
    event := EventAt(bars, signals, book.position, i, k).value;
  }

  /** A position closed as `exit` says, followed by the trades of the flat book it leaves. */
  lemma TradeThenRest(bars: seq<Bar>, signals: seq<Signal>, risk: Risk, book: Book, exit: Exit, after: Book, end: Book)
    requires bars != [] && PricedBars(bars) && ValidRisk(risk) && book.Sound() && book.position.Held?
        && exit.price > 0.0
    requires exit.bar < |bars| && exit.nextBar <= |bars| && exit.nextSlot <= Slots(bars, signals, exit.nextBar)
    requires after.trades == book.trades + [TradeOf(book.position, bars[exit.bar], exit.price, exit.reason,
        exit.signal)]
    requires after.cash == book.cash + Value(book.position.quantity, exit.price)
    requires after.Sound()
    requires end.trades == after.trades + TradesFrom(bars, signals, risk, after.cash, exit.nextBar, exit.nextSlot)
    ensures end.trades == book.trades + TradesOfHeld(bars, signals, risk, book.cash, book.position, exit)
  {
  }

  /** The engine, holding a position at slot (i, k), ends it as `EarliestExit` says. */
  lemma {:induction false} HeldRefines(bars: seq<Bar>, signals: seq<Signal>, risk: Risk, book: Book, i: nat, k: nat)
    requires bars != [] && PricedBars(bars) && ValidRisk(risk) && book.Sound() && book.position.Held?
    requires i < |bars| && k <= Slots(bars, signals, i)
    requires k == 0 ==> OpeningExit(book.position, bars[i], i).None?
    ensures var exit := EarliestExit(bars, signals, book.position, i, k);
            && exit.price > 0.0
            && FinishFrom(bars, signals, risk, book, i, k).trades
               == book.trades + TradesOfHeld(bars, signals, risk, book.cash, book.position, exit)
    decreases |bars| - i, Slots(bars, signals, i) - k, 1
  {
    ExitPricePositive(bars, signals, book.position, i, k);
    EarliestStep(bars, signals, book.position, i, k);
    if FirstSell(Pending(bars, signals, i), k).Some? {
      HeldRefinesBySell(bars, signals, risk, book, i, k);
    } else if IntradayExit(book.position, bars[i], i).Some? {
      HeldLeavesIntraday(bars, signals, risk, book, i, k);
    } else {
      HeldOverBar(bars, signals, risk, book, i, k);
    }
  }

  lemma {:induction false} HeldRefinesBySell(bars: seq<Bar>, signals: seq<Signal>, risk: Risk, book: Book, i: nat,
                                             k: nat)
    requires bars != [] && PricedBars(bars) && ValidRisk(risk) && book.Sound() && book.position.Held?
    requires i < |bars| && k <= Slots(bars, signals, i) && FirstSell(Pending(bars, signals, i), k).Some?
    requires k == 0 ==> OpeningExit(book.position, bars[i], i).None?
    ensures var event := EventAt(bars, signals, book.position, i, k);
            && event.Some? && event.value.price > 0.0
            && FinishFrom(bars, signals, risk, book, i, k).trades
               == book.trades + TradesOfHeld(bars, signals, risk, book.cash, book.position, event.value)
    decreases |bars| - i, Slots(bars, signals, i) - k, 0
  {
    var s := FirstSell(Pending(bars, signals, i), k).value;
    var sold, event := SellEnds(bars, signals, risk, book, i, k, s);
    FlatRefines(bars, signals, risk, sold, i, s + 1);
    TradeThenRest(bars, signals, risk, book, event, sold, FinishFrom(bars, signals, risk, book, i, k));
  }

  /** No SELL is left on this bar and no level is reached in it. */
  lemma {:induction false} HeldOverBar(bars: seq<Bar>, signals: seq<Signal>, risk: Risk, book: Book, i: nat, k: nat)
    requires bars != [] && PricedBars(bars) && ValidRisk(risk) && book.Sound() && book.position.Held?
    requires i < |bars| && k <= Slots(bars, signals, i) && FirstSell(Pending(bars, signals, i), k).None?
    requires k == 0 ==> OpeningExit(book.position, bars[i], i).None?
    requires IntradayExit(book.position, bars[i], i).None?
    ensures EventAt(bars, signals, book.position, i, k).None?
    ensures var exit := EarliestExit(bars, signals, book.position, i + 1, 0);
            && exit.price > 0.0
            && FinishFrom(bars, signals, risk, book, i, k).trades
               == book.trades + TradesOfHeld(bars, signals, risk, book.cash, book.position, exit)
    decreases |bars| - i, Slots(bars, signals, i) - k, 0
  {
    var kept := HeldOn(bars, signals, risk, book, i, k);
    HeldBarRefines(bars, signals, risk, kept, i + 1);
  }

  /** No SELL is left on this bar, and a level is reached in it. */
  lemma {:induction false} HeldLeavesIntraday(bars: seq<Bar>, signals: seq<Signal>, risk: Risk, book: Book, i: nat,
                                              k: nat)
    requires bars != [] && PricedBars(bars) && ValidRisk(risk) && book.Sound() && book.position.Held?
    requires i < |bars| && k <= Slots(bars, signals, i) && FirstSell(Pending(bars, signals, i), k).None?
    requires k == 0 ==> OpeningExit(book.position, bars[i], i).None?
    requires IntradayExit(book.position, bars[i], i).Some?
    ensures var event := EventAt(bars, signals, book.position, i, k);
            && event.Some? && event.value.price > 0.0
            && FinishFrom(bars, signals, risk, book, i, k).trades
               == book.trades + TradesOfHeld(bars, signals, risk, book.cash, book.position, event.value)
    decreases |bars| - i, Slots(bars, signals, i) - k, 0
  {
    var closed, event := IntradayEnds(bars, signals, risk, book, i, k);
    FlatBarRefines(bars, signals, risk, closed, i + 1);
    TradeThenRest(bars, signals, risk, book, event, closed, FinishFrom(bars, signals, risk, book, i, k));
  }

  lemma FinishGap(bars: seq<Bar>, signals: seq<Signal>, risk: Risk, book: Book, i: nat)
    requires bars != [] && PricedBars(bars) && ValidRisk(risk) && book.Sound() && book.position.Held? && i < |bars|
    requires OpeningExit(book.position, bars[i], i).Some?
    ensures ValidBar(bars[i])
    ensures var gap := OpeningExit(book.position, bars[i], i).value;
            Finish(bars, signals, risk, book, i)
            == Finish(bars, signals, risk,
                      Ignore(Close(book, bars[i], gap.0, gap.1, None), Pending(bars, signals, i)), i + 1)
  {
    assert ValidBar(bars[i]);
  }

  lemma HeldAtEnd(bars: seq<Bar>, signals: seq<Signal>, risk: Risk, book: Book)
    requires bars != [] && PricedBars(bars) && ValidRisk(risk) && book.Sound() && book.position.Held?
    ensures var exit := EarliestExit(bars, signals, book.position, |bars|, 0);
            && exit.price > 0.0
            && Finish(bars, signals, risk, book, |bars|).trades
               == book.trades + TradesOfHeld(bars, signals, risk, book.cash, book.position, exit)
  {
    ExitPricePositive(bars, signals, book.position, |bars|, 0);
    EarliestAtEnd(bars, signals, book.position);
    var end := Finish(bars, signals, risk, book, |bars|);
    TradeThenRest(bars, signals, risk, book, EarliestExit(bars, signals, book.position, |bars|, 0), end, end);
  }

  /** A position that leaves at an opening gap. */
  lemma {:induction false} HeldGapRefines(bars: seq<Bar>, signals: seq<Signal>, risk: Risk, book: Book, i: nat)
    requires bars != [] && PricedBars(bars) && ValidRisk(risk) && book.Sound() && book.position.Held? && i < |bars|
    requires OpeningExit(book.position, bars[i], i).Some?
    ensures var exit := EarliestExit(bars, signals, book.position, i, 0);
            && exit.price > 0.0
            && Finish(bars, signals, risk, book, i).trades
               == book.trades + TradesOfHeld(bars, signals, risk, book.cash, book.position, exit)
    decreases |bars| - i, Slots(bars, signals, i), 1
  {
    ExitPricePositive(bars, signals, book.position, i, 0);
    EarliestStep(bars, signals, book.position, i, 0);
    FinishGap(bars, signals, risk, book, i);
    var gap := OpeningExit(book.position, bars[i], i).value;
    var closed := Ignore(Close(book, bars[i], gap.0, gap.1, None), Pending(bars, signals, i));
    FlatBarRefines(bars, signals, risk, closed, i + 1);
    TradeThenRest(bars, signals, risk, book, EarliestExit(bars, signals, book.position, i, 0), closed,
                  Finish(bars, signals, risk, book, i));
  }

  /** The engine holding a position at the start of bar `i`, or at the end of the data. */
  lemma {:induction false} HeldBarRefines(bars: seq<Bar>, signals: seq<Signal>, risk: Risk, book: Book, i: nat)
    requires bars != [] && PricedBars(bars) && ValidRisk(risk) && book.Sound() && book.position.Held? && i <= |bars|
    ensures var exit := EarliestExit(bars, signals, book.position, i, 0);
            && exit.price > 0.0
            && Finish(bars, signals, risk, book, i).trades
               == book.trades + TradesOfHeld(bars, signals, risk, book.cash, book.position, exit)
    decreases |bars| - i, Slots(bars, signals, i), 2
  {
    if i == |bars| {
      HeldAtEnd(bars, signals, risk, book);
    } else if OpeningExit(book.position, bars[i], i).Some? {
      HeldGapRefines(bars, signals, risk, book, i);
    } else {
      EarliestStep(bars, signals, book.position, i, 0);
      FinishNoGap(bars, signals, risk, book, i);
      HeldRefines(bars, signals, risk, book, i, 0);
    }
  }

  /** One slot of the flat account. */
  lemma FlatSlot(bars: seq<Bar>, signals: seq<Signal>, risk: Risk, book: Book, i: nat, k: nat)
    requires bars != [] && PricedBars(bars) && ValidRisk(risk) && book.Sound() && book.position.Flat?
    requires i < |bars| && k < Slots(bars, signals, i)
    ensures ValidBar(bars[i])
    ensures var next := ApplySignal(book, Pending(bars, signals, i)[k], bars[i], i, risk);
            && next.trades == book.trades
            && if next.position.Flat? then
                 && next.cash == book.cash
                 && TradesFrom(bars, signals, risk, book.cash, i, k)
                     == TradesFrom(bars, signals, risk, book.cash, i, k + 1)
               else
                 && EarliestExit(bars, signals, next.position, i, k + 1).price > 0.0
                 && TradesFrom(bars, signals, risk, book.cash, i, k)
                    == TradesOfHeld(bars, signals, risk, next.cash, next.position,
                                    EarliestExit(bars, signals, next.position, i, k + 1))
  {
    assert ValidBar(bars[i]);
    AffordableIffShares(book.cash, bars[i].open);
    var next := ApplySignal(book, Pending(bars, signals, i)[k], bars[i], i, risk);
    if next.position.Held? {
      assert next.position == Opened(book.cash, Pending(bars, signals, i)[k], bars[i], i, risk);
      ExitPricePositive(bars, signals, next.position, i, k + 1);
    }
  }

  lemma {:induction false} FlatRefines(bars: seq<Bar>, signals: seq<Signal>, risk: Risk, book: Book, i: nat, k: nat)
    requires bars != [] && PricedBars(bars) && ValidRisk(risk) && book.Sound() && book.position.Flat?
    requires i < |bars| && k <= Slots(bars, signals, i)
    ensures FinishFrom(bars, signals, risk, book, i, k).trades
         == book.trades + TradesFrom(bars, signals, risk, book.cash, i, k)
    decreases |bars| - i, Slots(bars, signals, i) - k, 1
  {
    if k == Slots(bars, signals, i) {
      FlatRestOfBar(bars, signals, risk, book, i);
      FlatBarRefines(bars, signals, risk, book, i + 1);
    } else {
      FinishSlot(bars, signals, risk, book, i, k);
      FlatSlot(bars, signals, risk, book, i, k);
      var next := ApplySignal(book, Pending(bars, signals, i)[k], bars[i], i, risk);
      if next.position.Flat? {
        FlatRefines(bars, signals, risk, next, i, k + 1);
      } else {
        HeldRefines(bars, signals, risk, next, i, k + 1);
      }
    }
  }

  lemma FlatRestOfBar(bars: seq<Bar>, signals: seq<Signal>, risk: Risk, book: Book, i: nat)
    requires bars != [] && PricedBars(bars) && ValidRisk(risk) && book.Sound() && book.position.Flat? && i < |bars|
    ensures FinishFrom(bars, signals, risk, book, i, Slots(bars, signals, i))
        == Finish(bars, signals, risk, book, i + 1)
    ensures TradesFrom(bars, signals, risk, book.cash, i, Slots(bars, signals, i))
         == TradesFrom(bars, signals, risk, book.cash, i + 1, 0)
  {
    assert Pending(bars, signals, i)[Slots(bars, signals, i)..] == [];
  }

  lemma {:induction false} FlatBarRefines(bars: seq<Bar>, signals: seq<Signal>, risk: Risk, book: Book, i: nat)
    requires bars != [] && PricedBars(bars) && ValidRisk(risk) && book.Sound() && book.position.Flat? && i <= |bars|
    ensures Finish(bars, signals, risk, book, i).trades
         == book.trades + TradesFrom(bars, signals, risk, book.cash, i, 0)
    decreases |bars| - i, Slots(bars, signals, i), 2
  {
    if i == |bars| {
      assert Finish(bars, signals, risk, book, i) == book;
    } else {
      FinishNoGap(bars, signals, risk, book, i);
      FlatRefines(bars, signals, risk, book, i, 0);
    }
  }

  /** The bars still to come do not depend on how the run reached this one. */
  lemma FinishUnfolds(bars: seq<Bar>, signals: seq<Signal>, cash: real, risk: Risk, book: Book, n: nat)
    returns (next: Book)
    requires bars != [] && PricedBars(bars) && ValidRisk(risk) && cash > 0.0 && n < |bars|
    requires book == RunTo(bars, signals, cash, risk, n)
    ensures next == RunTo(bars, signals, cash, risk, n + 1)
    ensures Finish(bars, signals, risk, book, n) == Finish(bars, signals, risk, next, n + 1)
  {
    RunUnfolds(bars, signals, cash, risk, n);
    next := StepBar(book, Pending(bars, signals, n), bars[n], n, risk);
  }

  lemma {:induction false} FinishOfRun(bars: seq<Bar>, signals: seq<Signal>, cash: real, risk: Risk, book: Book, n: nat)
    returns (last: Book)
    requires bars != [] && PricedBars(bars) && ValidRisk(risk) && cash > 0.0 && n <= |bars|
    requires book == RunTo(bars, signals, cash, risk, n)
    ensures last == RunTo(bars, signals, cash, risk, |bars|)
    ensures Finish(bars, signals, risk, book, n) == Finish(bars, signals, risk, last, |bars|)
    decreases |bars| - n
  {
    if n == |bars| {
      last := book;
    } else {
      var next := FinishUnfolds(bars, signals, cash, risk, book, n);
      last := FinishOfRun(bars, signals, cash, risk, next, n + 1);
    }
  }

  lemma FinishAtEnd(bars: seq<Bar>, signals: seq<Signal>, risk: Risk, book: Book)
    requires bars != [] && PricedBars(bars) && ValidRisk(risk) && book.Sound()
    ensures ValidBar(bars[|bars| - 1])
    ensures Finish(bars, signals, risk, book, |bars|) == Liquidate(book, bars[|bars| - 1])
  {
    assert ValidBar(bars[|bars| - 1]);
  }

  lemma FinishIsRun(bars: seq<Bar>, signals: seq<Signal>, cash: real, risk: Risk)
    requires bars != [] && PricedBars(bars) && ValidRisk(risk) && cash > 0.0
    ensures ValidBar(bars[|bars| - 1])
    ensures Finish(bars, signals, risk, OpeningBook(cash), 0)
         == Liquidate(RunTo(bars, signals, cash, risk, |bars|), bars[|bars| - 1])
  {
    var last := FinishOfRun(bars, signals, cash, risk, OpeningBook(cash), 0);
    FinishAtEnd(bars, signals, risk, last);
  }

  /** The first-exit theorem: the trades of the engine are those of the position-at-a-time account. */
  lemma EngineFollowsFirstExits(bars: seq<Bar>, signals: seq<Signal>, cash: real, risk: Risk)
    requires PricedBars(bars) && Execute(bars, signals, cash, risk).Ok?
    ensures Execute(bars, signals, cash, risk).value.trades == TradesFrom(bars, signals, risk, cash, 0, 0)
  {
    FlatBarRefines(bars, signals, risk, OpeningBook(cash), 0);
    FinishIsRun(bars, signals, cash, risk);
  }
}
