/** Summary metrics of a run, and the whole-share buy-and-hold benchmark. */
module Metrics {
  import opened Wrappers
  import opened Reals
  import opened Market
  import opened Engine

  datatype MetricsError = EmptyData | StartOutsideData | DivisionByZero

  // ----- maximum drawdown -----

  ghost predicate PositiveCurve(curve: seq<EquityPoint>) {
    forall i :: 0 <= i < |curve| ==> curve[i].equity > 0.0
  }

  /** The percentage change from point `i` to point `j`. */
  function Change(curve: seq<EquityPoint>, i: nat, j: nat): real
    requires i < |curve| && j < |curve| && curve[i].equity != 0.0
  {
    (curve[j].equity / curve[i].equity - 1.0) * 100.0
  }

  /** `d` is the least change between any two points in order among the first `n`. */
  ghost predicate LeastChange(curve: seq<EquityPoint>, n: nat, d: real)
    requires PositiveCurve(curve) && n <= |curve|
  {
    && (forall i: nat, j: nat :: i <= j < n ==> d <= Change(curve, i, j))
    && (exists i: nat, j: nat :: i <= j < n && d == Change(curve, i, j))
  }

  /** In products: no point is lower than an earlier one by more than `-d` percent, and one is by just that. */
  ghost predicate IsMaximumDrawdown(curve: seq<EquityPoint>, d: real) {
    && (forall i: nat, j: nat :: i <= j < |curve| ==>
          curve[j].equity * 100.0 >= curve[i].equity * (100.0 + d))
    && (exists i: nat, j: nat :: i <= j < |curve| && curve[j].equity * 100.0 == curve[i].equity * (100.0 + d))
  }

  lemma ChangeIsPercentage(curve: seq<EquityPoint>, i: nat, j: nat, d: real)
    requires i < |curve| && j < |curve| && curve[i].equity > 0.0
    ensures d <= Change(curve, i, j) ==> curve[j].equity * 100.0 >= curve[i].equity * (100.0 + d)
    ensures d == Change(curve, i, j) ==> curve[j].equity * 100.0 == curve[i].equity * (100.0 + d)
  {
    var from, change := curve[i].equity, Change(curve, i, j);
    var ratio := curve[j].equity / from;
    assert ratio * from == curve[j].equity;
    assert from * (100.0 + change) == curve[j].equity * 100.0;
    if d < change {
      ProductMonotone(100.0 + d, 100.0 + change, from);
    }
  }

  lemma LeastChangeIsDrawdown(curve: seq<EquityPoint>, d: real)
    requires PositiveCurve(curve) && LeastChange(curve, |curve|, d)
    ensures IsMaximumDrawdown(curve, d)
  {
    forall i: nat, j: nat | i <= j < |curve|
      ensures curve[j].equity * 100.0 >= curve[i].equity * (100.0 + d)
    {
      ChangeIsPercentage(curve, i, j, d);
    }
    var i: nat, j: nat :| i <= j < |curve| && d == Change(curve, i, j);
    ChangeIsPercentage(curve, i, j, d);
  }

  lemma HigherPeakDeeperDrop(value: real, low: real, high: real)
    requires value > 0.0 && 0.0 < low <= high
    ensures 0.0 < value / high <= value / low
  {
    var x, y := value / low, value / high;
    assert x * low == value && y * high == value;
    if y > x {
      ProductMonotone(x, y, high);
      if low < high {
        ProductMonotone(low, high, x);
      }
    }
  }

  /** One pass with a running peak finds the least change over all ordered pairs of points. */
  method CalculateMaximumDrawdown(curve: seq<EquityPoint>) returns (result: Result<real, MetricsError>)
    ensures curve == [] ==> result == Err(EmptyData)
    ensures curve != [] && PositiveCurve(curve) ==>
              && result.Ok? && LeastChange(curve, |curve|, result.value) && -100.0 < result.value <= 0.0
              && IsMaximumDrawdown(curve, result.value)
  {
    if curve == [] { return Err(EmptyData); }
    var peak, maximumDrawdown := curve[0].equity, 0.0;
    ghost var top: nat := 0;
    for k := 0 to |curve|
      invariant top < |curve| && (k == 0 ==> top == 0) && (k > 0 ==> top < k) && peak == curve[top].equity
      invariant forall i :: 0 <= i < k ==> curve[i].equity <= peak
      invariant PositiveCurve(curve) ==> -100.0 < maximumDrawdown <= 0.0
      invariant PositiveCurve(curve) && k > 0 ==> LeastChange(curve, k, maximumDrawdown)
      invariant k == 0 ==> maximumDrawdown == 0.0
    {
      var value := curve[k].equity;
      if value > peak {
        peak := value;
        top := k;
      }
      if peak == 0.0 { return Err(DivisionByZero); }
      var drawdown := (value / peak - 1.0) * 100.0;
      ghost var before := maximumDrawdown;
      if drawdown < maximumDrawdown {
        maximumDrawdown := drawdown;
      }
      if PositiveCurve(curve) {
        DrawdownStep(curve, k, top, before, drawdown);
      }
    }
    result := Ok(maximumDrawdown);
    if PositiveCurve(curve) {
      LeastChangeIsDrawdown(curve, maximumDrawdown);
    }
  }

  lemma DropFromPeakIsDeepest(curve: seq<EquityPoint>, i: nat, top: nat, k: nat)
    requires PositiveCurve(curve) && i < |curve| && top < |curve| && k < |curve|
    requires curve[i].equity <= curve[top].equity
    ensures -100.0 < Change(curve, top, k) <= Change(curve, i, k)
  {
    HigherPeakDeeperDrop(curve[k].equity, curve[i].equity, curve[top].equity);
  }

  lemma NoChangeInPlace(curve: seq<EquityPoint>, k: nat)
    requires k < |curve| && curve[k].equity != 0.0
    ensures Change(curve, k, k) == 0.0
  {
    assert curve[k].equity / curve[k].equity == 1.0;
  }

  lemma DrawdownStep(curve: seq<EquityPoint>, k: nat, top: nat, before: real, drawdown: real)
    requires PositiveCurve(curve) && top <= k < |curve|
    requires forall i :: 0 <= i <= k ==> curve[i].equity <= curve[top].equity
    requires drawdown == Change(curve, top, k)
    requires if k == 0 then before == 0.0 else LeastChange(curve, k, before)
    ensures -100.0 < drawdown <= 0.0
    ensures LeastChange(curve, k + 1, if drawdown < before then drawdown else before)
  {
    var least := if drawdown < before then drawdown else before;
    DropFromPeakIsDeepest(curve, k, top, k);
    NoChangeInPlace(curve, k);
    forall i: nat, j: nat | i <= j < k + 1
      ensures least <= Change(curve, i, j)
    {
      if j == k {
        DropFromPeakIsDeepest(curve, i, top, k);
      } else {
        assert before <= Change(curve, i, j);
      }
    }
    LeastAttained(curve, k, top, before, drawdown);
  }

  lemma LeastAttained(curve: seq<EquityPoint>, k: nat, top: nat, before: real, drawdown: real)
    requires PositiveCurve(curve) && top <= k < |curve| && drawdown == Change(curve, top, k)
    requires if k == 0 then before == 0.0 == drawdown else LeastChange(curve, k, before)
    ensures exists i: nat, j: nat ::
              i <= j < k + 1 && (if drawdown < before then drawdown else before) == Change(curve, i, j)
  {
    if drawdown < before || k == 0 {
      assert top <= k < k + 1 && drawdown == Change(curve, top, k);
    } else {
      var i: nat, j: nat :| i <= j < k && before == Change(curve, i, j);
      assert i <= j < k + 1 && before == Change(curve, i, j);
    }
  }

  // ----- buy and hold -----

  /** Whole shares bought at the open of the start bar, marked to each close from there on. */
  function BuyAndHoldCurve(bars: seq<Bar>, cash: real, start: int): (result: Result<seq<EquityPoint>, MetricsError>)
    requires PricedBars(bars) && cash > 0.0
    ensures result.Ok? <==> 0 <= start < |bars|
    ensures result.Ok? ==> |result.value| == |bars| - start
  {
    if !(0 <= start < |bars|) then Err(StartOutsideData)
    else
      assert ValidBar(bars[start]);
      var quantity := Shares(cash, bars[start].open);
      var remaining := cash - Value(quantity, bars[start].open);
      Ok(seq(|bars| - start, i requires 0 <= i < |bars| - start =>
               EquityPoint(bars[start + i].timestamp, remaining + Value(quantity, bars[start + i].close))))
  }

  /** From point `from` on, each point is what `quantity` shares bought at the start and the other cash are worth. */
  ghost predicate Holding(bars: seq<Bar>, cash: real, start: nat, quantity: nat, curve: seq<EquityPoint>, from: nat)
    requires start < |bars|
  {
    && |curve| == |bars| - start
    && (forall i :: from <= i < |curve| ==>
          curve[i] == EquityPoint(bars[start + i].timestamp,
                                  cash - quantity as real * bars[start].open
                                  + quantity as real * bars[start + i].close))
  }

  /** As many whole shares as the cash buys at a price. */
  predicate IsFullPosition(cash: real, price: real, quantity: nat) {
    quantity as real * price <= cash < quantity as real * price + price
  }

  /** The benchmark, from any start: as many whole shares as the cash buys at the first open, held to the end. */
  lemma BenchmarkIsHeld(bars: seq<Bar>, cash: real, start: nat) returns (quantity: nat)
    requires PricedBars(bars) && cash > 0.0 && start < |bars|
    ensures IsFullPosition(cash, bars[start].open, quantity)
    ensures Holding(bars, cash, start, quantity, BuyAndHoldCurve(bars, cash, start).value, 0)
  {
    assert ValidBar(bars[start]);
    quantity := Shares(cash, bars[start].open);
    LeftoverCash(cash, bars[start].open);
    BoughtValue(quantity, bars[start].open);
    forall i | 0 <= i < |bars| - start
      ensures BuyAndHoldCurve(bars, cash, start).value[i]
              == EquityPoint(bars[start + i].timestamp,
                             cash - quantity as real * bars[start].open
                             + quantity as real * bars[start + i].close)
    {
      BoughtValue(quantity, bars[start + i].close);
    }
  }

  lemma BoughtValue(quantity: nat, price: real)
    ensures Value(quantity, price) == quantity as real * price
  {
  }

  const NO_RISK: Risk := Risk(None, None)

  /** A lone BUY stamped on bar `k - 1` is pending on bar `k` only. */
  lemma LonePending(bars: seq<Bar>, k: nat, n: nat)
    requires ValidBars(bars) && 0 < k < |bars| && n < |bars|
    ensures Pending(bars, [Signal(bars[k - 1].timestamp, Buy)], n)
         == if n == k then [Signal(bars[k - 1].timestamp, Buy)] else []
  {
    var signals := [Signal(bars[k - 1].timestamp, Buy)];
    assert signals[..0] == [];
    if n > 0 {
      assert SignalsAt(signals, bars[n - 1].timestamp)
          == SignalsAt([], bars[n - 1].timestamp)
              + (if bars[k - 1].timestamp == bars[n - 1].timestamp then signals else []);
    }
  }

  lemma QuietBar(book: Book, bar: Bar, n: nat)
    requires ValidBar(bar) && book.Sound()
    requires book.position.Held? ==> book.position.stop.None? && book.position.target.None?
    ensures StepBar(book, [], bar, n, NO_RISK) == book
  {
  }

  /** The book a lone BUY at the open of `bar` leaves, affordable or not. */
  function BookAfterBuy(signal: Signal, bar: Bar, k: nat, cash: real): Book
    requires bar.open > 0.0 && cash > 0.0
  {
    BuyAtOpen(OpeningBook(cash), signal, bar, k, NO_RISK)
  }

  lemma OnlyBuy(signal: Signal, bar: Bar, k: nat, cash: real)
    requires ValidBar(bar) && cash > 0.0 && signal.kind.Buy?
    ensures StepBar(OpeningBook(cash), [signal], bar, k, NO_RISK) == BookAfterBuy(signal, bar, k, cash)
  {
    assert [signal][..0] == [];
    assert ApplySignals(OpeningBook(cash), [signal], bar, k, NO_RISK)
        == ApplySignal(OpeningBook(cash), signal, bar, k, NO_RISK);
  }

  /** A run with one pending signal, on bar `k`, that leaves `bought`, which then stays. */
  lemma LoneSignalRun(bars: seq<Bar>, signals: seq<Signal>, cash: real, k: nat, bought: Book, n: nat)
    requires PricedBars(bars) && cash > 0.0 && k < |bars| && n <= |bars|
    requires forall m :: 0 <= m < |bars| ==> ValidBar(bars[m])
    requires forall m :: 0 <= m < |bars| ==> Pending(bars, signals, m) == if m == k then signals else []
    requires forall m :: 0 <= m < k ==> StepBar(OpeningBook(cash), [], bars[m], m, NO_RISK) == OpeningBook(cash)
    requires StepBar(OpeningBook(cash), signals, bars[k], k, NO_RISK) == bought
    requires forall m :: k < m < |bars| ==> StepBar(bought, [], bars[m], m, NO_RISK) == bought
    ensures RunTo(bars, signals, cash, NO_RISK, n) == if n <= k then OpeningBook(cash) else bought
  {
    var book := RunTo(bars, signals, cash, NO_RISK, 0);
    for m := 0 to n
      invariant book == RunTo(bars, signals, cash, NO_RISK, m)
      invariant book == if m <= k then OpeningBook(cash) else bought
    {
      RunUnfolds(bars, signals, cash, NO_RISK, m);
      book := RunTo(bars, signals, cash, NO_RISK, m + 1);
    }
  }

  lemma LoneBuyRun(bars: seq<Bar>, cash: real, k: nat, n: nat)
    requires ValidBars(bars) && cash > 0.0 && 0 < k < |bars| && n <= |bars|
    ensures ValidBar(bars[k])
    ensures RunTo(bars, [Signal(bars[k - 1].timestamp, Buy)], cash, NO_RISK, n)
            == if n <= k then OpeningBook(cash) else BookAfterBuy(Signal(bars[k - 1].timestamp, Buy), bars[k], k, cash)
  {
    assert forall m :: 0 <= m < |bars| ==> ValidBar(bars[m]);
    var signal := Signal(bars[k - 1].timestamp, Buy);
    var bought := BookAfterBuy(signal, bars[k], k, cash);
    OnlyBuy(signal, bars[k], k, cash);
    forall m | 0 <= m < |bars|
      ensures Pending(bars, [signal], m) == if m == k then [signal] else []
    {
      LonePending(bars, k, m);
    }
    forall m | 0 <= m < k
      ensures StepBar(OpeningBook(cash), [], bars[m], m, NO_RISK) == OpeningBook(cash)
    {
      QuietBar(OpeningBook(cash), bars[m], m);
    }
    forall m | k < m < |bars|
      ensures StepBar(bought, [], bars[m], m, NO_RISK) == bought
    {
      QuietBar(bought, bars[m], m);
    }
    LoneSignalRun(bars, [signal], cash, k, bought, n);
  }

  lemma MarkOfBought(bars: seq<Bar>, cash: real, k: nat, i: nat)
    requires PricedBars(bars) && cash > 0.0 && 0 < k < |bars| && i < |bars| - k && ValidBar(bars[k])
    ensures Mark(BookAfterBuy(Signal(bars[k - 1].timestamp, Buy), bars[k], k, cash), bars[k + i])
            == BuyAndHoldCurve(bars, cash, k).value[i]
  {
    assert Value(0, bars[k].open) == 0.0;
  }

  lemma EquityIsMark(bars: seq<Bar>, signals: seq<Signal>, cash: real, i: nat, book: Book)
    requires PricedBars(bars) && cash > 0.0 && i < |bars| && RunTo(bars, signals, cash, NO_RISK, i + 1) == book
    ensures EquityTo(bars, signals, cash, NO_RISK, |bars|)[i] == Mark(book, bars[i])
  {
    EquityAt(bars, signals, cash, NO_RISK, |bars|, i);
  }

  lemma LoneBuyEquity(bars: seq<Bar>, cash: real, k: nat, i: nat) returns (point: EquityPoint)
    requires ValidBars(bars) && cash > 0.0 && 0 < k < |bars| && i < |bars| - k
    ensures EquityTo(bars, [Signal(bars[k - 1].timestamp, Buy)], cash, NO_RISK, |bars|)[k + i] == point
    ensures ValidBar(bars[k]) && point == Mark(BookAfterBuy(Signal(bars[k - 1].timestamp, Buy), bars[k], k, cash),
        bars[k + i])
  {
    LoneBuyRun(bars, cash, k, k + i + 1);
    var book := BookAfterBuy(Signal(bars[k - 1].timestamp, Buy), bars[k], k, cash);
    EquityIsMark(bars, [Signal(bars[k - 1].timestamp, Buy)], cash, k + i, book);
    point := Mark(book, bars[k + i]);
  }

  lemma LoneBuyPoint(bars: seq<Bar>, cash: real, k: nat, i: nat)
    requires ValidBars(bars) && cash > 0.0 && 0 < k < |bars| && i < |bars| - k
    ensures EquityTo(bars, [Signal(bars[k - 1].timestamp, Buy)], cash, NO_RISK, |bars|)[k + i]
         == BuyAndHoldCurve(bars, cash, k).value[i]
  {
    var point := LoneBuyEquity(bars, cash, k, i);
    MarkOfBought(bars, cash, k, i);
  }

  /** The benchmark from bar k >= 1 is the engine's own equity from there on for a single BUY on the bar
      before and no risk controls, also when not one share is affordable. */
  lemma BuyAndHoldIsOneTrade(bars: seq<Bar>, cash: real, k: nat)
    requires ValidBars(bars) && cash > 0.0 && 0 < k < |bars|
    ensures var run := Execute(bars, [Signal(bars[k - 1].timestamp, Buy)], cash, NO_RISK);
            run.Ok? && BuyAndHoldCurve(bars, cash, k) == Ok(run.value.equity[k..])
  {
    var equity := EquityTo(bars, [Signal(bars[k - 1].timestamp, Buy)], cash, NO_RISK, |bars|);
    var benchmark := BuyAndHoldCurve(bars, cash, k).value;
    forall i | 0 <= i < |bars| - k
      ensures equity[k..][i] == benchmark[i]
    {
      LoneBuyPoint(bars, cash, k, i);
    }
    assert equity[k..] == benchmark;
  }
}
