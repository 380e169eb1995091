/** The composed preview: compile, execute, measure, and line the strategy up with the benchmark. */
module Preview {
  import opened Wrappers
  import opened Market
  import opened Engine
  import opened EngineLoop
  import opened EngineLaws
  import opened Specification
  import opened Compiler
  import opened Causality
  import opened Metrics

  const STARTING_CASH := 10000.0

  datatype PreviewError =
    | Rejected
    | NotEnoughData
    | EngineFailure(engine: EngineError)
    | MetricsFailure(metrics: MetricsError)
    | CurvesDiffer

  datatype Summary = Summary(
    totalReturn: real, benchmarkReturn: real, benchmarkStart: int, benchmarkStartPrice: real, benchmarkEndPrice: real,
    winRate: real, maximumDrawdown: real, annualGrowth: Option<real>)

  /** 365.25 days. */
  const MICROS_PER_YEAR := 31_557_600_000_000

  /** The decimal context's power, of a base and a fractional exponent. */
  type Power = (real, real) -> real

  datatype StrategyPreview = StrategyPreview(
    execution: Execution,
    metrics: Summary,
    comparisonStart: nat,
    benchmark: seq<EquityPoint>)

  function Wins(trades: seq<Trade>): nat {
    if trades == [] then 0
    else Wins(trades[..|trades| - 1]) + if trades[|trades| - 1].profitLoss > 0.0 then 1 else 0
  }

  /** The trades that made a profit, by their place. */
  function Winners(trades: seq<Trade>): set<nat> {
    set i: nat | i < |trades| && trades[i].profitLoss > 0.0
  }

  lemma {:induction false} WinsAreWinners(trades: seq<Trade>)
    ensures Wins(trades) == |Winners(trades)|
  {
    if trades != [] {
      var n: nat := |trades| - 1;
      var front := trades[..n];
      WinsAreWinners(front);
      assert Winners(trades) == Winners(front) + if trades[n].profitLoss > 0.0 then {n} else {};
    }
  }

  /** A percentage of what was started with, positive exactly for a gain. */
  predicate IsReturn(percent: real, cash: real, finalValue: real) {
    percent * cash == (finalValue - cash) * 100.0 && (percent > 0.0 <==> finalValue > cash)
  }

  predicate IsWinRate(percent: real, trades: seq<Trade>) {
    && 0.0 <= percent <= 100.0
    && percent * |trades| as real == |Winners(trades)| as real * 100.0
    && (trades == [] ==> percent == 0.0)
  }

  /** The benchmark is bought at the open of its first bar and valued at the close of the last. */
  predicate IsBenchmark(summary: Summary, bars: seq<Bar>, cash: real, start: nat)
    requires PricedBars(bars) && cash > 0.0 && start < |bars|
  {
    && summary.benchmarkStart == bars[start].timestamp
    && summary.benchmarkStartPrice == bars[start].open
    && summary.benchmarkEndPrice == bars[|bars| - 1].close
    && IsReturn(summary.benchmarkReturn, cash, BuyAndHoldCurve(bars, cash, start).value[|bars| - 1 - start].equity)
  }

  lemma ReturnSign(finalValue: real, cash: real)
    requires cash > 0.0
    ensures IsReturn((finalValue / cash - 1.0) * 100.0, cash, finalValue)
  {
    var ratio := finalValue / cash;
    assert ratio * cash == finalValue;
  }

  /** The time that the data spans, in years of 365.25 days. */
  function Years(bars: seq<Bar>): (years: real)
    requires bars != []
    ensures years * 365.25 * 86_400_000_000.0 == (bars[|bars| - 1].timestamp - bars[0].timestamp) as real
  {
    (bars[|bars| - 1].timestamp - bars[0].timestamp) as real / MICROS_PER_YEAR as real
  }

  /**
   Growth per year, exactly when the data spans some time: compounded over the years, it turns the starting cash
   into the final value, as far as the power of a power is the power of the product.
   */
  predicate IsAnnualGrowth(growth: Option<real>, power: Power, years: real, cash: real, finalValue: real)
    requires cash > 0.0
  {
    && (growth.Some? <==> years > 0.0)
    && (growth.Some? && power(power(finalValue / cash, 1.0 / years), years) == finalValue / cash ==>
          power(1.0 + growth.value / 100.0, years) * cash == finalValue)
  }

  function CalculateCagr(power: Power, startingCash: real, finalValue: real, years: real): (growth: Option<real>)
    requires startingCash > 0.0
    ensures IsAnnualGrowth(growth, power, years, startingCash, finalValue)
  {
    if years <= 0.0 then None
    else
      var growth := (power(finalValue / startingCash, 1.0 / years) - 1.0) * 100.0;
      assert 1.0 + growth / 100.0 == power(finalValue / startingCash, 1.0 / years);
      Some(growth)
  }

  lemma WinRateBounds(wins: nat, count: nat)
    requires wins <= count
    ensures count > 0 ==> 0.0 <= wins as real / count as real * 100.0 <= 100.0
    ensures count > 0 ==> wins as real / count as real * 100.0 * count as real == wins as real * 100.0
  {
    if count > 0 {
      var ratio, n := wins as real / count as real, count as real;
      assert ratio * n == wins as real;
    }
  }

  method WinRate(trades: seq<Trade>) returns (percent: real)
    ensures IsWinRate(percent, trades)
  {
    var wins: nat := 0;
    for k := 0 to |trades|
      invariant wins == Wins(trades[..k]) <= k
    {
      assert trades[..k + 1][..k] == trades[..k];
      if trades[k].profitLoss > 0.0 { wins := wins + 1; }
    }
    assert trades[..|trades|] == trades;
    percent := if trades == [] then 0.0 else wins as real / |trades| as real * 100.0;
    WinRateBounds(wins, |trades|);
    WinsAreWinners(trades);
  }

  method CalculateMetrics(bars: seq<Bar>, curve: seq<EquityPoint>, trades: seq<Trade>, startingCash: real,
                          finalValue: real, start: int, power: Power)
    returns (result: Result<Summary, MetricsError>)
    requires PricedBars(bars) && startingCash > 0.0
    ensures bars == [] || curve == [] ==> result == Err(EmptyData)
    ensures bars != [] && curve != [] && !(0 <= start < |bars|) ==> result == Err(StartOutsideData)
    ensures bars != [] && curve != [] && 0 <= start < |bars| && PositiveCurve(curve) ==>
              && result.Ok?
              && IsReturn(result.value.totalReturn, startingCash, finalValue)
              && IsBenchmark(result.value, bars, startingCash, start)
              && IsAnnualGrowth(result.value.annualGrowth, power, Years(bars), startingCash, finalValue)
              && IsWinRate(result.value.winRate, trades)
              && LeastChange(curve, |curve|, result.value.maximumDrawdown)
              && IsMaximumDrawdown(curve, result.value.maximumDrawdown)
              && -100.0 < result.value.maximumDrawdown <= 0.0
  {
    if bars == [] || curve == [] { return Err(EmptyData); }
    if !(0 <= start < |bars|) { return Err(StartOutsideData); }
    var benchmark := BuyAndHoldCurve(bars, startingCash, start).value;
    var winRate := WinRate(trades);
    ReturnSign(finalValue, startingCash);
    ReturnSign(benchmark[|benchmark| - 1].equity, startingCash);
    var drawdown := CalculateMaximumDrawdown(curve);
    if drawdown.Err? { return Err(drawdown.error); }
    result := Ok(Summary((finalValue / startingCash - 1.0) * 100.0,
                         (benchmark[|benchmark| - 1].equity / startingCash - 1.0) * 100.0,
                         bars[start].timestamp, bars[start].open, bars[|bars| - 1].close, winRate, drawdown.value,
                         CalculateCagr(power, startingCash, finalValue, Years(bars))));
  }

  /** The starting cash first, and then as many shares as it buys at the first open, marked to each close. */
  ghost predicate IsComparisonCurve(bars: seq<Bar>, start: nat, curve: seq<EquityPoint>)
    requires start < |bars|
  {
    && |curve| > 0 && curve[0] == EquityPoint(bars[start].timestamp, 10000.0)
    && exists quantity: nat ::
         IsFullPosition(10000.0, bars[start].open, quantity) && Holding(bars, 10000.0, start, quantity, curve, 1)
  }

  lemma ComparisonIsHeld(bars: seq<Bar>, start: nat)
    requires PricedBars(bars) && start < |bars|
    ensures IsComparisonCurve(bars, start, ComparisonCurve(bars, start))
  {
    var quantity := BenchmarkIsHeld(bars, STARTING_CASH, start);
    assert Holding(bars, 10000.0, start, quantity, ComparisonCurve(bars, start), 1);
  }

  /** The preview job's own computation, on bars as the database returns them. */
  method CreateSpecificationPreview(strategy: Strategy, bars: seq<Bar>, power: Power)
    returns (result: Result<StrategyPreview, PreviewError>)
    requires ValidBars(bars)
    ensures !ValidStrategy(strategy) ==> result == Err(Rejected)
    ensures ValidStrategy(strategy) && |bars| <= FirstEligibleIndex(strategy) ==> result == Err(NotEnoughData)
    ensures ValidStrategy(strategy) && FirstEligibleIndex(strategy) < |bars| ==>
              && result.Ok?
              && Execute(bars, Signals(strategy, bars), 10000.0, Risk(strategy.stopLoss, strategy.takeProfit))
                 == Ok(result.value.execution)
              && PositiveCurve(result.value.execution.equity)
              && -100.0 < result.value.metrics.maximumDrawdown <= 0.0
              && LeastChange(result.value.execution.equity, |bars|, result.value.metrics.maximumDrawdown)
              && result.value.metrics.totalReturn * STARTING_CASH == result.value.execution.totalRealised * 100.0
              && IsWinRate(result.value.metrics.winRate, result.value.execution.trades)
              && IsBenchmark(result.value.metrics, bars, STARTING_CASH, FirstEligibleIndex(strategy))
              && IsAnnualGrowth(result.value.metrics.annualGrowth, power, Years(bars), STARTING_CASH,
                                result.value.execution.finalValue)
              && result.value.comparisonStart == FirstEligibleIndex(strategy)
              && result.value.benchmark == ComparisonCurve(bars, FirstEligibleIndex(strategy))
              && IsComparisonCurve(bars, FirstEligibleIndex(strategy), result.value.benchmark)
  {
    if !ValidStrategy(strategy) { return Err(Rejected); }
    var eligible := FirstEligibleIndex(strategy);
    if bars == [] || eligible >= |bars| { return Err(NotEnoughData); }
    var signals := GenerateSignals(strategy, bars);
    var executed := ExecuteLongOnlySignals(bars, signals, STARTING_CASH, Controls(strategy));
    var execution := executed.value;
    AlwaysSolvent(bars, signals, STARTING_CASH, Controls(strategy));
    MoneyConserved(bars, signals, STARTING_CASH, Controls(strategy));
    var metrics := CalculateMetrics(bars, execution.equity, execution.trades, STARTING_CASH, execution.finalValue,
        eligible, power);
    var benchmark := BuyAndHoldCurve(bars, STARTING_CASH, eligible).value;
    benchmark := benchmark[0 := EquityPoint(bars[eligible].timestamp, STARTING_CASH)];
    ComparisonIsHeld(bars, eligible);
    result := Ok(StrategyPreview(execution, metrics.value, eligible, benchmark));
  }

  /** The benchmark of the comparison chart: buy and hold, with its first point reset to the starting cash. */
  function ComparisonCurve(bars: seq<Bar>, start: nat): seq<EquityPoint>
    requires PricedBars(bars) && start < |bars|
  {
    BuyAndHoldCurve(bars, STARTING_CASH, start).value[0 := EquityPoint(bars[start].timestamp, STARTING_CASH)]
  }

  // ----- the two curves -----

  /** Pairing that fails unless both sequences end together. */
  function ZipStrict(a: seq<EquityPoint>, b: seq<EquityPoint>): Result<seq<(EquityPoint, EquityPoint)>, PreviewError> {
    if |a| != |b| then Err(CurvesDiffer) else Ok(seq(|a|, i requires 0 <= i < |a| => (a[i], b[i])))
  }

  lemma BacktestTimes(strategy: Strategy, bars: seq<Bar>) returns (equity: seq<EquityPoint>)
    requires ValidStrategy(strategy) && ValidBars(bars) && bars != []
    ensures Backtest(strategy, bars, STARTING_CASH).Ok?
        && Backtest(strategy, bars, STARTING_CASH).value.equity == equity
    ensures |equity| == |bars| && forall i :: 0 <= i < |bars| ==> equity[i].timestamp == bars[i].timestamp
  {
    var signals := Signals(strategy, bars);
    equity := EquityTo(bars, signals, STARTING_CASH, Controls(strategy), |bars|);
    forall i | 0 <= i < |bars|
      ensures equity[i].timestamp == bars[i].timestamp
    {
      EquityAt(bars, signals, STARTING_CASH, Controls(strategy), |bars|, i);
    }
  }

  lemma BenchmarkTimes(bars: seq<Bar>, start: nat) returns (curve: seq<EquityPoint>)
    requires PricedBars(bars) && start < |bars|
    ensures ComparisonCurve(bars, start) == curve
    ensures |curve| == |bars| - start && forall i :: 0 <= i < |curve| ==>
        curve[i].timestamp == bars[start + i].timestamp
  {
    curve := ComparisonCurve(bars, start);
  }

  lemma ZipAligns(a: seq<EquityPoint>, b: seq<EquityPoint>, bars: seq<Bar>, start: nat)
    requires |a| == |b| == |bars| - start
    requires forall i :: 0 <= i < |a| ==> a[i].timestamp == bars[start + i].timestamp
    requires forall i :: 0 <= i < |b| ==> b[i].timestamp == bars[start + i].timestamp
    ensures var pairs := ZipStrict(a, b);
            && pairs.Ok? && |pairs.value| == |bars| - start
            && forall i :: 0 <= i < |pairs.value| ==>
                 pairs.value[i].0.timestamp == pairs.value[i].1.timestamp == bars[start + i].timestamp
  {
  }

  /** Serialising a preview never fails on its curves, and pairs points of the same time. */
  lemma ComparisonAligns(strategy: Strategy, bars: seq<Bar>)
    requires ValidStrategy(strategy) && ValidBars(bars) && FirstEligibleIndex(strategy) < |bars|
    ensures Backtest(strategy, bars, STARTING_CASH).Ok?
    ensures var start := FirstEligibleIndex(strategy);
            var equity := Backtest(strategy, bars, STARTING_CASH).value.equity;
            && start <= |equity|
            && var pairs := ZipStrict(equity[start..], ComparisonCurve(bars, start));
               && pairs.Ok? && |pairs.value| == |bars| - start
               && forall i :: 0 <= i < |pairs.value| ==>
                    pairs.value[i].0.timestamp == pairs.value[i].1.timestamp == bars[start + i].timestamp
  {
    var start := FirstEligibleIndex(strategy);
    var equity := BacktestTimes(strategy, bars);
    var curve := BenchmarkTimes(bars, start);
    ZipAligns(equity[start..], curve, bars, start);
  }

  // ----- the shared starting point -----

  predicate Untouched(book: Book, cash: real) {
    book.cash == cash && book.position.Flat? && book.trades == []
  }

  predicate Touched(book: Book) {
    book.position.Held? || book.trades != []
  }

  /** An entry signal on bar `i` that the next open can fill. */
  predicate FillableEntry(strategy: Strategy, bars: seq<Bar>, cash: real, i: nat)
    requires ValidStrategy(strategy) && i + 1 < |bars|
  {
    ConditionAt(strategy.entry, bars, i) && bars[i + 1].open <= cash
  }

  lemma {:induction false} SignalsTouch(book: Book, pending: seq<Signal>, bar: Bar, n: nat, risk: Risk)
    requires bar.open > 0.0 && book.Sound() && ValidRisk(risk) && Touched(book)
    ensures Touched(ApplySignals(book, pending, bar, n, risk))
  {
    if pending != [] {
      SignalsTouch(book, pending[..|pending| - 1], bar, n, risk);
    }
  }

  lemma StepTouches(book: Book, pending: seq<Signal>, bar: Bar, n: nat, risk: Risk)
    requires ValidBar(bar) && book.Sound() && ValidRisk(risk) && Touched(book)
    ensures Touched(StepBar(book, pending, bar, n, risk))
  {
    SignalsTouch(book, pending, bar, n, risk);
  }

  /** What the compiled signals of one bar do to a book that has never traded. */
  lemma UntouchedStep(strategy: Strategy, bars: seq<Bar>, cash: real, book: Book, n: nat)
    requires ValidStrategy(strategy) && 0 < n < |bars| && ValidBar(bars[n])
    requires book.Sound() && Untouched(book, cash)
    ensures var after := StepBar(book, BarSignals(strategy, bars, n - 1), bars[n], n, Controls(strategy));
            if FillableEntry(strategy, bars, cash, n - 1) then Touched(after) else Untouched(after, cash)
  {
    var pending := BarSignals(strategy, bars, n - 1);
    var buy, sell := Signal(bars[n - 1].timestamp, Buy), Signal(bars[n - 1].timestamp, Sell);
    AffordableIffShares(cash, bars[n].open);
    if ConditionAt(strategy.entry, bars, n - 1) {
      if ConditionAt(strategy.exit, bars, n - 1) {
        assert pending == [buy, sell];
        ShortPending(book, buy, sell, bars[n], n, Controls(strategy));
      } else {
        assert pending == [buy];
        ShortPending(book, buy, sell, bars[n], n, Controls(strategy));
      }
    } else if ConditionAt(strategy.exit, bars, n - 1) {
      assert pending == [sell];
      ShortPending(book, sell, sell, bars[n], n, Controls(strategy));
    } else {
      assert pending == [];
    }
  }

  lemma ShortPending(book: Book, first: Signal, second: Signal, bar: Bar, n: nat, risk: Risk)
    requires bar.open > 0.0 && book.Sound() && ValidRisk(risk)
    ensures ApplySignals(book, [first], bar, n, risk) == ApplySignal(book, first, bar, n, risk)
    ensures ApplySignals(book, [first, second], bar, n, risk)
         == ApplySignal(ApplySignal(book, first, bar, n, risk), second, bar, n, risk)
  {
    assert [first][..0] == [] && [first, second][..1] == [first];
  }

  ghost predicate NoFillBefore(strategy: Strategy, bars: seq<Bar>, cash: real, n: nat)
    requires ValidStrategy(strategy) && n < |bars|
  {
    forall i :: 0 <= i < n ==> !FillableEntry(strategy, bars, cash, i)
  }

  ghost predicate TouchedExactly(strategy: Strategy, bars: seq<Bar>, cash: real, book: Book, n: nat)
    requires ValidStrategy(strategy) && n < |bars|
  {
    if NoFillBefore(strategy, bars, cash, n) then Untouched(book, cash) else Touched(book)
  }

  lemma TouchStep(strategy: Strategy, bars: seq<Bar>, cash: real, book: Book, n: nat)
    requires ValidStrategy(strategy) && ValidBars(bars) && 0 < n < |bars| && book.Sound()
    requires TouchedExactly(strategy, bars, cash, book, n - 1)
    ensures ValidBar(bars[n])
    ensures TouchedExactly(strategy, bars, cash,
                           StepBar(book, BarSignals(strategy, bars, n - 1), bars[n], n, Controls(strategy)), n)
  {
    assert ValidBar(bars[n]);
    if Untouched(book, cash) {
      UntouchedStep(strategy, bars, cash, book, n);
      assert NoFillBefore(strategy, bars, cash, n) <==> !FillableEntry(strategy, bars, cash, n - 1);
    } else {
      StepTouches(book, BarSignals(strategy, bars, n - 1), bars[n], n, Controls(strategy));
    }
  }

  lemma UntouchedAtFirst(book: Book, cash: real, bar: Bar, risk: Risk)
    requires ValidBar(bar) && ValidRisk(risk) && cash > 0.0 && book == OpeningBook(cash)
    ensures Untouched(StepBar(book, [], bar, 0, risk), cash)
  {
  }

  /** One bar of a backtest, seen by whether it has traded. */
  lemma TouchedBar(strategy: Strategy, bars: seq<Bar>, cash: real, n: nat, book: Book) returns (next: Book)
    requires ValidStrategy(strategy) && ValidBars(bars) && cash > 0.0 && 0 < n < |bars|
    requires book == RunTo(bars, Signals(strategy, bars), cash, Controls(strategy), n)
    requires TouchedExactly(strategy, bars, cash, book, n - 1)
    ensures next == RunTo(bars, Signals(strategy, bars), cash, Controls(strategy), n + 1)
    ensures TouchedExactly(strategy, bars, cash, next, n)
  {
    next := BacktestBar(strategy, bars, cash, n, book);
    TouchStep(strategy, bars, cash, book, n);
  }

  lemma TouchedRun(strategy: Strategy, bars: seq<Bar>, cash: real, n: nat) returns (book: Book)
    requires ValidStrategy(strategy) && ValidBars(bars) && cash > 0.0 && n < |bars|
    ensures book == RunTo(bars, Signals(strategy, bars), cash, Controls(strategy), n + 1)
    ensures TouchedExactly(strategy, bars, cash, book, n)
  {
    book := BacktestBar(strategy, bars, cash, 0, OpeningBook(cash));
    UntouchedAtFirst(OpeningBook(cash), cash, bars[0], Controls(strategy));
    for m := 0 to n
      invariant book == RunTo(bars, Signals(strategy, bars), cash, Controls(strategy), m + 1)
      invariant TouchedExactly(strategy, bars, cash, book, m)
    {
      book := TouchedBar(strategy, bars, cash, m + 1, book);
    }
  }

  /** Through bar `n` the strategy has not traded if and only if no entry before it could be filled. */
  lemma UntouchedIff(strategy: Strategy, bars: seq<Bar>, cash: real, n: nat)
    requires ValidStrategy(strategy) && ValidBars(bars) && cash > 0.0 && n < |bars|
    ensures Untouched(RunTo(bars, Signals(strategy, bars), cash, Controls(strategy), n + 1), cash)
            <==> NoFillBefore(strategy, bars, cash, n)
  {
    var book := TouchedRun(strategy, bars, cash, n);
  }

  /** The comparison starts from the shared starting cash whenever no entry before it could be filled,
      and in particular whenever the entry rule warms up no sooner than the exit rule. */
  lemma ComparisonStartsTogether(strategy: Strategy, bars: seq<Bar>)
    requires ValidStrategy(strategy) && ValidBars(bars) && FirstEligibleIndex(strategy) < |bars|
    ensures Backtest(strategy, bars, STARTING_CASH).Ok?
    ensures var start := FirstEligibleIndex(strategy);
            var equity := Backtest(strategy, bars, STARTING_CASH).value.equity;
            && (ConditionFirstIndex(strategy.entry) >= ConditionFirstIndex(strategy.exit) ==>
                  NoFillBefore(strategy, bars, STARTING_CASH, start))
            && (NoFillBefore(strategy, bars, STARTING_CASH, start) ==>
                  |equity| == |bars| && equity[start].equity == STARTING_CASH == ComparisonCurve(bars, start)[0].equity)
  {
    var start := FirstEligibleIndex(strategy);
    UntouchedIff(strategy, bars, STARTING_CASH, start);
    EquityAt(bars, Signals(strategy, bars), STARTING_CASH, Controls(strategy), |bars|, start);
    if ConditionFirstIndex(strategy.entry) >= ConditionFirstIndex(strategy.exit) {
      forall i | 0 <= i < start
        ensures !FillableEntry(strategy, bars, STARTING_CASH, i)
      {
        EligibilityIsExact(strategy.entry, bars, i);
      }
    }
  }

  // An entry rule that holds from the first bar, and an exit rule that needs three bars and never holds.
  function EagerStrategy(): (strategy: Strategy)
    ensures ValidStrategy(strategy)
  {
    Strategy(Condition(Price, GreaterThan, Constant(0.0)), Condition(Indicator(SMA, 3), LessThan, Constant(0.0)),
        None, None)
  }

  function DoublingBars(): (bars: seq<Bar>)
    ensures |bars| == 3 && ValidBars(bars)
  {
    [Bar(0, 10.0, 40.0, 5.0, 20.0, 0), Bar(1, 10.0, 40.0, 5.0, 20.0, 0), Bar(2, 10.0, 40.0, 5.0, 20.0, 0)]
  }

  function EagerBook(): (book: Book)
    ensures book.Sound()
  {
    Book(0.0, Held(1000, 10.0, 1, 0, 1, None, None), [], [])
  }

  lemma EagerBarSignals(bars: seq<Bar>, i: nat)
    requires |bars| == 3 && ValidBars(bars) && i < 2
    ensures BarSignals(EagerStrategy(), bars, i) == [Signal(bars[i].timestamp, Buy)]
  {
    assert ValidBar(bars[i]);
    assert ConditionAt(EagerStrategy().entry, bars, i);
    assert !ConditionAt(EagerStrategy().exit, bars, i);
  }

  lemma EagerPending(bars: seq<Bar>, i: nat)
    requires |bars| == 3 && ValidBars(bars) && i < 2
    ensures Pending(bars, Signals(EagerStrategy(), bars), i + 1) == [Signal(bars[i].timestamp, Buy)]
  {
    SignalsOfBar(EagerStrategy(), bars, i);
    EagerBarSignals(bars, i);
  }

  lemma EagerSteps(risk: Risk)
    requires risk == Risk(None, None)
    ensures StepBar(OpeningBook(STARTING_CASH), [], DoublingBars()[0], 0, risk) == OpeningBook(STARTING_CASH)
    ensures StepBar(OpeningBook(STARTING_CASH), [Signal(0, Buy)], DoublingBars()[1], 1, risk) == EagerBook()
    ensures StepBar(EagerBook(), [Signal(1, Buy)], DoublingBars()[2], 2, risk) == Ignore(EagerBook(), [Signal(1, Buy)])
  {
    var buy, again := Signal(0, Buy), Signal(1, Buy);
    ShortPending(OpeningBook(STARTING_CASH), buy, buy, DoublingBars()[1], 1, risk);
    ShortPending(EagerBook(), again, again, DoublingBars()[2], 2, risk);
    assert Shares(STARTING_CASH, 10.0) == 1000;
    assert Value(1000, 10.0) == 10000.0;
  }

  lemma EagerRun()
    ensures RunTo(DoublingBars(), Signals(EagerStrategy(), DoublingBars()), STARTING_CASH, Controls(EagerStrategy()), 3)
         == Ignore(EagerBook(), [Signal(1, Buy)])
  {
    var bars, signals, risk := DoublingBars(), Signals(EagerStrategy(), DoublingBars()), Controls(EagerStrategy());
    EagerPending(bars, 0);
    EagerPending(bars, 1);
    EagerSteps(risk);
    RunUnfolds(bars, signals, STARTING_CASH, risk, 0);
    RunUnfolds(bars, signals, STARTING_CASH, risk, 1);
    RunUnfolds(bars, signals, STARTING_CASH, risk, 2);
  }

  lemma EagerEquity() returns (equity: seq<EquityPoint>)
    ensures equity == EquityTo(DoublingBars(), Signals(EagerStrategy(), DoublingBars()), STARTING_CASH,
        Controls(EagerStrategy()), 3)
    ensures |equity| == 3 && equity[2].equity == 2.0 * STARTING_CASH
  {
    EagerRun();
    EquityAt(DoublingBars(), Signals(EagerStrategy(), DoublingBars()), STARTING_CASH, Controls(EagerStrategy()), 3, 2);
    assert Value(1000, 20.0) == 20000.0;
    equity := EquityTo(DoublingBars(), Signals(EagerStrategy(), DoublingBars()), STARTING_CASH,
        Controls(EagerStrategy()), 3);
  }

  lemma EagerBacktest() returns (strategy: Strategy, bars: seq<Bar>, equity: seq<EquityPoint>)
    ensures ValidStrategy(strategy) && ValidBars(bars) && |bars| == 3 && FirstEligibleIndex(strategy) == 2
    ensures Backtest(strategy, bars, STARTING_CASH).Ok?
        && Backtest(strategy, bars, STARTING_CASH).value.equity == equity
    ensures |equity| == 3 && equity[2].equity == 2.0 * STARTING_CASH
  {
    strategy, bars := EagerStrategy(), DoublingBars();
    equity := EagerEquity();
  }

  lemma BenchmarkStart(bars: seq<Bar>, start: nat)
    requires PricedBars(bars) && start < |bars|
    ensures |ComparisonCurve(bars, start)| > 0 && ComparisonCurve(bars, start)[0].equity == STARTING_CASH
  {
  }

  /** The proviso is needed: with an entry rule that warms up first, the strategy can already be ahead of
      the benchmark on the bar where the comparison is said to begin. */
  lemma ComparisonCanStartApart() returns (strategy: Strategy, bars: seq<Bar>)
    ensures ValidStrategy(strategy) && ValidBars(bars) && FirstEligibleIndex(strategy) < |bars|
    ensures Backtest(strategy, bars, STARTING_CASH).Ok?
    ensures var start := FirstEligibleIndex(strategy);
            var equity := Backtest(strategy, bars, STARTING_CASH).value.equity;
            |equity| == |bars| && equity[start].equity == 2.0 * ComparisonCurve(bars, start)[0].equity > 0.0
  {
    var equity;
    strategy, bars, equity := EagerBacktest();
    BenchmarkStart(bars, 2);
  }
}
