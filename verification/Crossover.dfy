/** The hard-coded SMA crossover generator, its agreement with the compiler, and what it makes the engine hold. */
module Crossover {
  import opened Wrappers
  import opened Market
  import opened Engine
  import opened Indicators
  import opened Specification
  import opened Compiler
  import opened Causality

  datatype CrossoverError = WindowNotPositive | WindowsNotOrdered

  predicate Windows(short: int, long: int) {
    0 < short < long
  }

  predicate BuyAt(bars: seq<Bar>, short: nat, long: nat, i: nat)
    requires Windows(short, long) && i < |bars|
  {
    && long <= i
    && CrossedAbove(Sma(bars, short, i - 1).value, Sma(bars, long, i - 1).value, Sma(bars, short, i).value,
        Sma(bars, long, i).value)
  }

  predicate SellAt(bars: seq<Bar>, short: nat, long: nat, i: nat)
    requires Windows(short, long) && i < |bars|
  {
    && long <= i
    && CrossedBelow(Sma(bars, short, i - 1).value, Sma(bars, long, i - 1).value, Sma(bars, short, i).value,
        Sma(bars, long, i).value)
  }

  /** At most one signal for an exact crossing on bar `i`. */
  function CrossingOf(bars: seq<Bar>, short: nat, long: nat, i: nat): (signals: seq<Signal>)
    requires Windows(short, long) && i < |bars|
    ensures |signals| <= 1 && forall s :: s in signals ==> s.timestamp == bars[i].timestamp
  {
    if BuyAt(bars, short, long, i) then [Signal(bars[i].timestamp, Buy)]
    else if SellAt(bars, short, long, i) then [Signal(bars[i].timestamp, Sell)]
    else []
  }

  function CrossingsTo(bars: seq<Bar>, short: nat, long: nat, n: nat): seq<Signal>
    requires Windows(short, long) && n <= |bars|
  {
    if n == 0 then [] else CrossingsTo(bars, short, long, n - 1) + CrossingOf(bars, short, long, n - 1)
  }

  /** One more bar of the crossings, from the averages there and on the bar before. */
  lemma NextCrossing(bars: seq<Bar>, short: nat, long: nat, i: nat, signals: seq<Signal>) returns (next: seq<Signal>)
    requires Windows(short, long) && i < |bars| && signals == CrossingsTo(bars, short, long, i)
    ensures next == CrossingsTo(bars, short, long, i + 1)
    ensures i < long ==> next == signals
    ensures long <= i ==> Sma(bars, short, i - 1).Some? && Sma(bars, long, i - 1).Some?
                          && Sma(bars, short, i).Some? && Sma(bars, long, i).Some?
    ensures BuyAt(bars, short, long, i) ==> next == signals + [Signal(bars[i].timestamp, Buy)]
    ensures !BuyAt(bars, short, long, i) && SellAt(bars, short, long, i) ==>
              next == signals + [Signal(bars[i].timestamp, Sell)]
    ensures !BuyAt(bars, short, long, i) && !SellAt(bars, short, long, i) ==> next == signals
  {
    next := signals + CrossingOf(bars, short, long, i);
  }

  method GenerateSmaCrossoverSignals(bars: seq<Bar>, shortWindow: int, longWindow: int)
    returns (result: Result<seq<Signal>, CrossoverError>)
    ensures shortWindow <= 0 || longWindow <= 0 ==> result == Err(WindowNotPositive)
    ensures 0 < longWindow <= shortWindow ==> result == Err(WindowsNotOrdered)
    ensures Windows(shortWindow, longWindow) ==> result == Ok(CrossingsTo(bars, shortWindow, longWindow, |bars|))
  {
    if shortWindow <= 0 || longWindow <= 0 { return Err(WindowNotPositive); }
    if shortWindow >= longWindow { return Err(WindowsNotOrdered); }
    var shortResult := SimpleMovingAverages(bars, shortWindow);
    var longResult := SimpleMovingAverages(bars, longWindow);
    var shortSmas, longSmas := shortResult.value, longResult.value;
    var signals: seq<Signal> := [];
    if |bars| == 0 { return Ok([]); }
    ghost var _ := NextCrossing(bars, shortWindow, longWindow, 0, []);
    for index := 1 to |bars|
      invariant signals == CrossingsTo(bars, shortWindow, longWindow, index)
    {
      var previousShort, previousLong := shortSmas[index - 1], longSmas[index - 1];
      var currentShort, currentLong := shortSmas[index], longSmas[index];
      ghost var next := NextCrossing(bars, shortWindow, longWindow, index, signals);
      if previousShort.None? || previousLong.None? || currentShort.None? || currentLong.None? {
        continue;
      }
      if CrossedAbove(previousShort.value, previousLong.value, currentShort.value, currentLong.value) {
        signals := signals + [Signal(bars[index].timestamp, Buy)];
      } else if CrossedBelow(previousShort.value, previousLong.value, currentShort.value, currentLong.value) {
        signals := signals + [Signal(bars[index].timestamp, Sell)];
      }
    }
    result := Ok(signals);
  }

  // ----- agreement with the compiled specification -----

  /** The complementary crossover specification of two SMA periods, without risk controls. */
  function CrossoverStrategy(short: int, long: int): Strategy {
    var left, right := Indicator(SMA, short), Indicator(SMA, long);
    Strategy(Condition(left, CrossesAbove, right), Condition(left, CrossesBelow, right), None, None)
  }

  lemma ConditionsAreCrossings(bars: seq<Bar>, short: nat, long: nat, i: nat)
    requires Windows(short, long) && long <= MAX_PERIOD && i < |bars|
    ensures ConditionAt(CrossoverStrategy(short, long).entry, bars, i) <==> BuyAt(bars, short, long, i)
    ensures ConditionAt(CrossoverStrategy(short, long).exit, bars, i) <==> SellAt(bars, short, long, i)
  {
  }

  lemma NextSignals(bars: seq<Bar>, short: nat, long: nat, n: nat, signals: seq<Signal>) returns (next: seq<Signal>)
    requires Windows(short, long) && long <= MAX_PERIOD && n < |bars|
    requires signals == SignalsTo(CrossoverStrategy(short, long), bars, n)
    requires signals == CrossingsTo(bars, short, long, n)
    ensures next == SignalsTo(CrossoverStrategy(short, long), bars, n + 1)
    ensures next == CrossingsTo(bars, short, long, n + 1)
  {
    ConditionsAreCrossings(bars, short, long, n);
    next := signals + CrossingOf(bars, short, long, n);
  }

  /** For all bars and ordered windows: the compiler accepts the crossover specification exactly when the
      long window is within its period limit, and then emits exactly the hard-coded signals. */
  lemma CompiledEqualsHardCoded(bars: seq<Bar>, short: nat, long: nat)
    requires Windows(short, long)
    ensures ValidStrategy(CrossoverStrategy(short, long)) <==> long <= MAX_PERIOD
    ensures long <= MAX_PERIOD ==>
              Signals(CrossoverStrategy(short, long), bars) == CrossingsTo(bars, short, long, |bars|)
  {
    if long <= MAX_PERIOD {
      var strategy := CrossoverStrategy(short, long);
      var signals := [];
      for n := 0 to |bars|
        invariant signals == SignalsTo(strategy, bars, n)
        invariant signals == CrossingsTo(bars, short, long, n)
      {
        signals := NextSignals(bars, short, long, n, signals);
      }
    }
  }

  // ----- what a crossover run holds -----

  /** The short average is at or above the long one on bar `i`, both being defined there. */
  predicate ShortOnTop(bars: seq<Bar>, short: nat, long: nat, i: int)
    requires Windows(short, long) && i < |bars|
  {
    long - 1 <= i && Sma(bars, short, i).value >= Sma(bars, long, i).value
  }

  /** The short average stays on top from one bar to the next unless a SELL is stamped. */
  lemma StaysOnTop(bars: seq<Bar>, short: nat, long: nat, i: nat)
    requires Windows(short, long) && i < |bars| && ShortOnTop(bars, short, long, i - 1) && !SellAt(bars, short, long, i)
    ensures ShortOnTop(bars, short, long, i)
  {
  }

  /** Two BUYs with no SELL between them happen only if the short average never falls below the long
      one between them, and touches it just before the second. */
  lemma RepeatedBuysTouch(bars: seq<Bar>, short: nat, long: nat, first: nat, second: nat)
    requires Windows(short, long) && first < second < |bars|
    requires BuyAt(bars, short, long, first) && BuyAt(bars, short, long, second)
    requires forall i :: first < i < second ==> !SellAt(bars, short, long, i)
    ensures forall i :: first <= i <= second ==> ShortOnTop(bars, short, long, i)
    ensures first < second - 1 && Sma(bars, short, second - 1).value == Sma(bars, long, second - 1).value
  {
    for m := first + 1 to second
      invariant forall i :: first <= i < m ==> ShortOnTop(bars, short, long, i)
    {
      StaysOnTop(bars, short, long, m);
    }
    assert ShortOnTop(bars, short, long, second - 1);
    assert BuyAt(bars, short, long, second);
  }

  ghost predicate HeldOnTop(bars: seq<Bar>, short: nat, long: nat, position: Position, n: nat)
    requires Windows(short, long) && n < |bars|
  {
    position.Held? ==> ShortOnTop(bars, short, long, n - 1)
  }

  lemma NoControlsNoRiskExit(position: Position, bar: Bar, i: nat)
    requires position.Held? ==> position.stop.None? && position.target.None?
    ensures OpeningExit(position, bar, i).None? && IntradayExit(position, bar, i).None?
  {
  }

  lemma OneSignal(book: Book, signal: Signal, bar: Bar, n: nat)
    requires bar.open > 0.0 && book.Sound()
    requires book.position.Held? ==> book.position.stop.None? && book.position.target.None?
    ensures var after := ApplySignals(book, [signal], bar, n, Risk(None, None));
            && (signal.kind.Sell? ==> after.position.Flat?)
            && (after.position.Held? ==> after.position.stop.None? && after.position.target.None?)
  {
    assert [signal][..0] == [];
    assert ApplySignals(book, [signal], bar, n, Risk(None, None))
        == ApplySignal(book, signal, bar, n, Risk(None, None));
  }

  /** At most one signal, and no risk levels: a SELL leaves nothing held, and no signal changes nothing. */
  lemma OpenBarWithoutControls(book: Book, pending: seq<Signal>, bar: Bar, n: nat)
    requires bar.open > 0.0 && book.Sound() && |pending| <= 1
    requires book.position.Held? ==> book.position.stop.None? && book.position.target.None?
    ensures var after := OpenBar(book, pending, bar, n, Risk(None, None));
            && (pending == [] ==> after == book)
            && (pending != [] && pending[0].kind.Sell? ==> after.position.Flat?)
            && (after.position.Held? ==> after.position.stop.None? && after.position.target.None?)
  {
    NoControlsNoRiskExit(book.position, bar, n);
    if pending != [] {
      assert pending == [pending[0]];
      OneSignal(book, pending[0], bar, n);
    }
  }

  /** Looking a bar's time up among all crossings finds exactly the crossing of that bar. */
  lemma CrossingsOfBar(bars: seq<Bar>, short: nat, long: nat, i: nat)
    requires Windows(short, long) && ValidBars(bars) && i < |bars|
    ensures SignalsAt(CrossingsTo(bars, short, long, |bars|), bars[i].timestamp) == CrossingOf(bars, short, long, i)
  {
    var own := seq(|bars|, m requires 0 <= m < |bars| => CrossingOf(bars, short, long, m));
    var sofar := seq(|bars| + 1, m requires 0 <= m <= |bars| => CrossingsTo(bars, short, long, m));
    SignalsFoundByBar(bars, own, sofar, i, |bars|);
  }

  function Smas(bars: seq<Bar>, window: nat): (values: seq<Option<real>>)
    requires 0 < window
    ensures |values| == |bars| && forall i :: 0 <= i < |bars| ==> values[i] == Sma(bars, window, i)
  {
    seq(|bars|, i requires 0 <= i < |bars| => Sma(bars, window, i))
  }

  lemma CrossingsHold(bars: seq<Bar>, short: nat, long: nat, i: nat)
    requires Windows(short, long) && i < |bars|
    ensures Holds(CrossesAbove, Smas(bars, short), Smas(bars, long), i) <==> BuyAt(bars, short, long, i)
    ensures Holds(CrossesBelow, Smas(bars, short), Smas(bars, long), i) <==> SellAt(bars, short, long, i)
  {
  }

  /** The signals of the generator, on the two lists of trailing means: a BUY or a SELL exactly where they cross. */
  lemma CrossingsMean(bars: seq<Bar>, short: nat, long: nat, i: nat)
    returns (shorts: seq<Option<real>>, longs: seq<Option<real>>)
    requires Windows(short, long) && ValidBars(bars) && i < |bars|
    ensures AreMeans(bars, short, shorts) && AreMeans(bars, long, longs)
    ensures SignalsAt(CrossingsTo(bars, short, long, |bars|), bars[i].timestamp)
            == if Holds(CrossesAbove, shorts, longs, i) then [Signal(bars[i].timestamp, Buy)]
               else if Holds(CrossesBelow, shorts, longs, i) then [Signal(bars[i].timestamp, Sell)]
               else []
  {
    shorts, longs := Smas(bars, short), Smas(bars, long);
    SmasAreMeans(bars, short, shorts);
    SmasAreMeans(bars, long, longs);
    CrossingsHold(bars, short, long, i);
    CrossingsOfBar(bars, short, long, i);
  }

  /** No risk levels, and nothing held unless the short average was on top on the bar before `n`. */
  ghost predicate HoldsOnTop(bars: seq<Bar>, short: nat, long: nat, book: Book, n: nat)
    requires Windows(short, long) && n < |bars|
  {
    && HeldOnTop(bars, short, long, book.position, n)
    && (book.position.Held? ==> book.position.stop.None? && book.position.target.None?)
  }

  /** What the crossing of the bar before does to such a book at the open of bar `n`. */
  lemma CrossingOpen(bars: seq<Bar>, short: nat, long: nat, book: Book, n: nat)
    requires Windows(short, long) && 0 < n < |bars| && ValidBar(bars[n]) && book.Sound()
    requires HoldsOnTop(bars, short, long, book, n - 1)
    ensures HoldsOnTop(bars, short, long,
                       OpenBar(book, CrossingOf(bars, short, long, n - 1), bars[n], n, Risk(None, None)), n)
  {
    OpenBarWithoutControls(book, CrossingOf(bars, short, long, n - 1), bars[n], n);
    if book.position.Held? && CrossingOf(bars, short, long, n - 1) == [] {
      StaysOnTop(bars, short, long, n - 1);
    }
  }

  /** The book at the open of bar `n`, in a run of the crossings. */
  function AtOpen(bars: seq<Bar>, short: nat, long: nat, cash: real, n: nat): (book: Book)
    requires Windows(short, long) && PricedBars(bars) && cash > 0.0 && n < |bars| && ValidBar(bars[n])
    ensures book.Sound()
  {
    var signals := CrossingsTo(bars, short, long, |bars|);
    OpenBar(RunTo(bars, signals, cash, Risk(None, None), n), Pending(bars, signals, n), bars[n], n, Risk(None, None))
  }

  lemma OpenOfFirstBar(bars: seq<Bar>, short: nat, long: nat, cash: real)
    requires Windows(short, long) && ValidBars(bars) && cash > 0.0 && bars != []
    ensures ValidBar(bars[0]) && AtOpen(bars, short, long, cash, 0) == OpeningBook(cash)
  {
    assert ValidBar(bars[0]);
  }

  /** Without risk levels nothing happens between one open and the next. */
  lemma OpenOfNextBar(bars: seq<Bar>, short: nat, long: nat, cash: real, n: nat) returns (before: Book)
    requires Windows(short, long) && ValidBars(bars) && cash > 0.0 && n + 1 < |bars|
    requires ValidBar(bars[n]) && HoldsOnTop(bars, short, long, AtOpen(bars, short, long, cash, n), n)
    ensures before == AtOpen(bars, short, long, cash, n) && ValidBar(bars[n + 1])
    ensures AtOpen(bars, short, long, cash, n + 1)
         == OpenBar(before, CrossingOf(bars, short, long, n), bars[n + 1], n + 1, Risk(None, None))
  {
    before := AtOpen(bars, short, long, cash, n);
    RunUnfolds(bars, CrossingsTo(bars, short, long, |bars|), cash, Risk(None, None), n);
    NoControlsNoRiskExit(before.position, bars[n], n);
    CrossingsOfBar(bars, short, long, n);
    assert ValidBar(bars[n + 1]);
  }

  lemma NextHoldsOnTop(bars: seq<Bar>, short: nat, long: nat, cash: real, n: nat, before: Book) returns (book: Book)
    requires Windows(short, long) && ValidBars(bars) && cash > 0.0 && n + 1 < |bars|
    requires ValidBar(bars[n]) && before == AtOpen(bars, short, long, cash, n)
    requires HoldsOnTop(bars, short, long, before, n)
    ensures ValidBar(bars[n + 1]) && book == AtOpen(bars, short, long, cash, n + 1)
    ensures HoldsOnTop(bars, short, long, book, n + 1)
  {
    var same := OpenOfNextBar(bars, short, long, cash, n);
    CrossingOpen(bars, short, long, before, n + 1);
    book := AtOpen(bars, short, long, cash, n + 1);
  }

  /** With complementary crossovers and no risk controls, for all ordered windows: a position held after a
      bar's open means the short average was at or above the long one on the bar before. */
  lemma HeldMeansOnTop(bars: seq<Bar>, short: nat, long: nat, cash: real, n: nat)
    requires Windows(short, long) && ValidBars(bars) && cash > 0.0 && n < |bars|
    ensures ValidBar(bars[n])
    ensures HoldsOnTop(bars, short, long, AtOpen(bars, short, long, cash, n), n)
  {
    OpenOfFirstBar(bars, short, long, cash);
    var book := OpeningBook(cash);
    for m := 0 to n
      invariant ValidBar(bars[m]) && book == AtOpen(bars, short, long, cash, m)
      invariant HoldsOnTop(bars, short, long, book, m)
    {
      book := NextHoldsOnTop(bars, short, long, cash, m, book);
    }
  }

  /** The same for the compiled specification, wherever it is accepted. */
  lemma CompiledHeldMeansOnTop(bars: seq<Bar>, short: nat, long: nat, cash: real, n: nat)
    requires Windows(short, long) && ValidBars(bars) && cash > 0.0 && n < |bars|
    requires ValidStrategy(CrossoverStrategy(short, long))
    ensures ValidBar(bars[n])
    ensures var signals := Signals(CrossoverStrategy(short, long), bars);
            var before := RunTo(bars, signals, cash, Controls(CrossoverStrategy(short, long)), n);
            HoldsOnTop(bars, short, long,
                       OpenBar(before, Pending(bars, signals, n), bars[n], n, Risk(None, None)), n)
  {
    CompiledEqualsHardCoded(bars, short, long);
    HeldMeansOnTop(bars, short, long, cash, n);
  }
}
