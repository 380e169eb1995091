/** Compiling a specification into signals, and what the compiled signals can and cannot depend on. */
module Compiler {
  import opened Wrappers
  import opened Market
  import opened Indicators
  import opened Specification

  datatype CompileError = InvalidStrategy | UnsupportedComparison | BadWindow

  /** The value of an operand on bar `i`, if the bars up to it determine one. */
  function OperandAt(operand: Operand, bars: seq<Bar>, i: nat): Option<real>
    requires ValidOperand(operand) && i < |bars|
  {
    match operand
    case Price => Some(bars[i].close)
    case Constant(value) => Some(value)
    case Indicator(SMA, period) => Sma(bars, period, i)
    case Indicator(EMA, period) => Ema(bars, period, i)
  }

  function Compare(left: real, right: real, operator: Operator): (result: Result<bool, CompileError>)
    ensures result.Ok? <==> !operator.Crosses()
  {
    match operator
    case GreaterThan => Ok(left > right)
    case LessThan => Ok(left < right)
    case GreaterThanOrEqual => Ok(left >= right)
    case LessThanOrEqual => Ok(left <= right)
    case _ => Err(UnsupportedComparison)
  }

  /** A rise of one series through another between two bars, and a fall. */
  predicate CrossedAbove(previousLeft: real, previousRight: real, left: real, right: real) {
    previousLeft <= previousRight && left > right
  }

  predicate CrossedBelow(previousLeft: real, previousRight: real, left: real, right: real) {
    previousLeft >= previousRight && left < right
  }

  /** Whether a condition holds on bar `i`; never where an operand it needs does not exist. */
  predicate ConditionAt(condition: Condition, bars: seq<Bar>, i: nat)
    requires ValidCondition(condition) && i < |bars|
  {
    var left, right := OperandAt(condition.left, bars, i), OperandAt(condition.right, bars, i);
    if condition.operator.Crosses() then
      && i > 0
      && var previousLeft, previousRight :=
           OperandAt(condition.left, bars, i - 1), OperandAt(condition.right, bars, i - 1);
         && previousLeft.Some? && previousRight.Some? && left.Some? && right.Some?
         && if condition.operator.CrossesAbove? then
              CrossedAbove(previousLeft.value, previousRight.value, left.value, right.value)
            else
              CrossedBelow(previousLeft.value, previousRight.value, left.value, right.value)
    else
      left.Some? && right.Some? && Compare(left.value, right.value, condition.operator) == Ok(true)
  }

  /** The signals of one bar: a BUY for the entry rule before a SELL for the exit rule. */
  function BarSignals(strategy: Strategy, bars: seq<Bar>, i: nat): seq<Signal>
    requires ValidStrategy(strategy) && i < |bars|
  {
    (if ConditionAt(strategy.entry, bars, i) then [Signal(bars[i].timestamp, Buy)] else [])
    + (if ConditionAt(strategy.exit, bars, i) then [Signal(bars[i].timestamp, Sell)] else [])
  }

  function SignalsTo(strategy: Strategy, bars: seq<Bar>, n: nat): seq<Signal>
    requires ValidStrategy(strategy) && n <= |bars|
  {
    if n == 0 then [] else SignalsTo(strategy, bars, n - 1) + BarSignals(strategy, bars, n - 1)
  }

  function Signals(strategy: Strategy, bars: seq<Bar>): seq<Signal>
    requires ValidStrategy(strategy)
  {
    SignalsTo(strategy, bars, |bars|)
  }

  // ----- what a condition means, on the lists of its operands' values -----

  /** The list of an operand's values: closes, a constant, trailing means or smoothed averages. */
  ghost predicate IsSeriesOf(operand: Operand, bars: seq<Bar>, values: seq<Option<real>>) {
    && |values| == |bars|
    && match operand
       case Price => forall i :: 0 <= i < |bars| ==> values[i] == Some(bars[i].close)
       case Constant(value) => forall i :: 0 <= i < |bars| ==> values[i] == Some(value)
       case Indicator(SMA, period) => period > 0 && AreMeans(bars, period, values)
       case Indicator(EMA, period) => period > 0 && AreSmoothed(bars, period, values)
  }

  /** The operators, one by one, where both lists have the values that they need. */
  predicate Holds(operator: Operator, left: seq<Option<real>>, right: seq<Option<real>>, i: nat)
    requires i < |left| == |right|
  {
    && left[i].Some? && right[i].Some?
    && match operator
       case GreaterThan => left[i].value > right[i].value
       case LessThan => left[i].value < right[i].value
       case GreaterThanOrEqual => left[i].value >= right[i].value
       case LessThanOrEqual => left[i].value <= right[i].value
       case CrossesAbove =>
         && i > 0 && left[i - 1].Some? && right[i - 1].Some?
         && left[i - 1].value <= right[i - 1].value && left[i].value > right[i].value
       case CrossesBelow =>
         && i > 0 && left[i - 1].Some? && right[i - 1].Some?
         && left[i - 1].value >= right[i - 1].value && left[i].value < right[i].value
  }

  lemma OperandSeries(operand: Operand, bars: seq<Bar>) returns (values: seq<Option<real>>)
    requires ValidOperand(operand)
    ensures IsSeriesOf(operand, bars, values)
    ensures forall i :: 0 <= i < |bars| ==> values[i] == OperandAt(operand, bars, i)
  {
    values := seq(|bars|, i requires 0 <= i < |bars| => OperandAt(operand, bars, i));
    if operand.Indicator? {
      if operand.name.SMA? {
        SmasAreMeans(bars, operand.period, values);
      } else {
        EmasAreSmoothed(bars, operand.period, values);
      }
    }
  }

  /** A condition compares, or sees crossing, the lists of its two operands. */
  lemma ConditionMeans(condition: Condition, bars: seq<Bar>)
    returns (left: seq<Option<real>>, right: seq<Option<real>>)
    requires ValidCondition(condition)
    ensures IsSeriesOf(condition.left, bars, left) && IsSeriesOf(condition.right, bars, right)
    ensures forall i :: 0 <= i < |bars| ==>
              (ConditionAt(condition, bars, i) <==> Holds(condition.operator, left, right, i))
  {
    left := OperandSeries(condition.left, bars);
    right := OperandSeries(condition.right, bars);
  }

  // ----- the program's loops -----

  method EvaluateOperand(operand: Operand, bars: seq<Bar>) returns (result: Result<seq<Option<real>>, CompileError>)
    ensures ValidOperand(operand) ==>
              && result.Ok? && |result.value| == |bars|
              && forall i :: 0 <= i < |bars| ==> result.value[i] == OperandAt(operand, bars, i)
    ensures result.Err? <==> operand.Indicator? && operand.period <= 0
  {
    match operand
    case Price => result := Ok(seq(|bars|, i requires 0 <= i < |bars| => Some(bars[i].close)));
    case Constant(value) => result := Ok(seq(|bars|, i => Some(value)));
    case Indicator(name, period) =>
      var averages;
      if name.SMA? {
        averages := SimpleMovingAverages(bars, period);
      } else {
        averages := ExponentialMovingAverages(bars, period);
      }
      result := if averages.Ok? then Ok(averages.value) else Err(BadWindow);
  }

  method EvaluateCondition(condition: Condition, bars: seq<Bar>) returns (values: seq<bool>)
    requires ValidCondition(condition)
    ensures |values| == |bars|
    ensures forall i :: 0 <= i < |bars| ==> values[i] == ConditionAt(condition, bars, i)
  {
    var evaluatedLeft := EvaluateOperand(condition.left, bars);
    var evaluatedRight := EvaluateOperand(condition.right, bars);
    var left, right := evaluatedLeft.value, evaluatedRight.value;
    values := seq(|bars|, i => false);
    for index := 0 to |bars|
      invariant |values| == |bars|
      invariant forall i :: 0 <= i < index ==> values[i] == ConditionAt(condition, bars, i)
      invariant forall i :: index <= i < |bars| ==> !values[i]
    {
      if condition.operator.Crosses() {
        if index == 0 { continue; }
        var previousLeft, previousRight := left[index - 1], right[index - 1];
        var currentLeft, currentRight := left[index], right[index];
        if previousLeft.None? || previousRight.None? || currentLeft.None? || currentRight.None? { continue; }
        values := values[index :=
          if condition.operator.CrossesAbove? then
            CrossedAbove(previousLeft.value, previousRight.value, currentLeft.value, currentRight.value)
          else
            CrossedBelow(previousLeft.value, previousRight.value, currentLeft.value, currentRight.value)];
        continue;
      }
      var currentLeft, currentRight := left[index], right[index];
      if currentLeft.None? || currentRight.None? { continue; }
      values := values[index := Compare(currentLeft.value, currentRight.value, condition.operator).value];
    }
  }

  method GenerateSignals(strategy: Strategy, bars: seq<Bar>) returns (signals: seq<Signal>)
    requires ValidStrategy(strategy)
    ensures signals == Signals(strategy, bars)
  {
    var entryValues := EvaluateCondition(strategy.entry, bars);
    var exitValues := EvaluateCondition(strategy.exit, bars);
    signals := [];
    for index := 0 to |bars|
      invariant signals == SignalsTo(strategy, bars, index)
    {
      ghost var before := signals;
      if entryValues[index] {
        signals := signals + [Signal(bars[index].timestamp, Buy)];
      }
      if exitValues[index] {
        signals := signals + [Signal(bars[index].timestamp, Sell)];
      }
      assert signals == before + BarSignals(strategy, bars, index);
    }
  }

  /** `compile_strategy`: the semantic checks come first, so evaluation never meets a bad window. */
  method CompileAndRun(strategy: Strategy, bars: seq<Bar>) returns (result: Result<seq<Signal>, CompileError>)
    ensures result == if ValidStrategy(strategy) then Ok(Signals(strategy, bars)) else Err(InvalidStrategy)
  {
    if !ValidStrategy(strategy) { return Err(InvalidStrategy); }
    var signals := GenerateSignals(strategy, bars);
    result := Ok(signals);
  }

  // ----- eligibility -----

  function OperandFirstIndex(operand: Operand): nat
    requires ValidOperand(operand)
  {
    if operand.Indicator? then operand.period - 1 else 0
  }

  function ConditionFirstIndex(condition: Condition): nat
    requires ValidCondition(condition)
  {
    var left, right := OperandFirstIndex(condition.left), OperandFirstIndex(condition.right);
    var warmup := if left >= right then left else right;
    if condition.operator.Crosses() then warmup + 1 else warmup
  }

  function FirstEligibleIndex(strategy: Strategy): nat
    requires ValidStrategy(strategy)
  {
    var entry, exit := ConditionFirstIndex(strategy.entry), ConditionFirstIndex(strategy.exit);
    if entry >= exit then entry else exit
  }

  /** Whether every operand value that the condition looks at on bar `i` exists. */
  predicate Evaluable(condition: Condition, bars: seq<Bar>, i: nat)
    requires ValidCondition(condition) && i < |bars|
  {
    && OperandAt(condition.left, bars, i).Some?
    && OperandAt(condition.right, bars, i).Some?
    && (condition.operator.Crosses() ==>
          i > 0 && OperandAt(condition.left, bars, i - 1).Some? && OperandAt(condition.right, bars, i - 1).Some?)
  }

  /** The first eligible index is exact: a condition can be evaluated on a bar if and only if the bar is
      at or after it, and before it the condition is false. */
  lemma EligibilityIsExact(condition: Condition, bars: seq<Bar>, i: nat)
    requires ValidCondition(condition) && i < |bars|
    ensures Evaluable(condition, bars, i) <==> ConditionFirstIndex(condition) <= i
    ensures i < ConditionFirstIndex(condition) ==> !ConditionAt(condition, bars, i)
  {
  }

  /** The first eligible index is the first bar on which both rules can be evaluated. */
  lemma FirstEligibleIsFirst(strategy: Strategy, bars: seq<Bar>, i: nat)
    requires ValidStrategy(strategy) && i < |bars|
    ensures FirstEligibleIndex(strategy) <= i
            <==> Evaluable(strategy.entry, bars, i) && Evaluable(strategy.exit, bars, i)
  {
    EligibilityIsExact(strategy.entry, bars, i);
    EligibilityIsExact(strategy.exit, bars, i);
  }

  predicate PeriodWithin(operand: Operand, least: int, most: int) {
    operand.Indicator? ==> least <= operand.period <= most
  }

  /** What is accepted, in numbers: periods from 1 to 1000, percentages above 0 and up to 50. */
  lemma AcceptedExactlyIf(strategy: Strategy)
    ensures ValidStrategy(strategy) <==>
              && PeriodWithin(strategy.entry.left, 1, 1000) && PeriodWithin(strategy.entry.right, 1, 1000)
              && PeriodWithin(strategy.exit.left, 1, 1000) && PeriodWithin(strategy.exit.right, 1, 1000)
              && (strategy.stopLoss.Some? ==> 0.0 < strategy.stopLoss.value <= 50.0)
              && (strategy.takeProfit.Some? ==> 0.0 < strategy.takeProfit.value <= 50.0)
  {
  }

  // ----- no look-ahead -----

  lemma OperandOfPrefix(operand: Operand, bars: seq<Bar>, k: nat, i: nat)
    requires ValidOperand(operand) && i < k <= |bars|
    ensures OperandAt(operand, bars[..k], i) == OperandAt(operand, bars, i)
  {
    if operand.Indicator? {
      SmaOfPrefix(bars, k, operand.period, i);
      EmaOfPrefix(bars, k, operand.period, i);
    }
  }

  lemma ConditionOfPrefix(condition: Condition, bars: seq<Bar>, k: nat, i: nat)
    requires ValidCondition(condition) && i < k <= |bars|
    ensures ConditionAt(condition, bars[..k], i) == ConditionAt(condition, bars, i)
  {
    OperandOfPrefix(condition.left, bars, k, i);
    OperandOfPrefix(condition.right, bars, k, i);
    if i > 0 {
      OperandOfPrefix(condition.left, bars, k, i - 1);
      OperandOfPrefix(condition.right, bars, k, i - 1);
    }
  }

  lemma BarSignalsOfPrefix(strategy: Strategy, bars: seq<Bar>, k: nat, i: nat)
    requires ValidStrategy(strategy) && i < k <= |bars|
    ensures BarSignals(strategy, bars[..k], i) == BarSignals(strategy, bars, i)
  {
    ConditionOfPrefix(strategy.entry, bars, k, i);
    ConditionOfPrefix(strategy.exit, bars, k, i);
  }

  /** Looking a bar's time up among the compiled signals finds exactly the signals of that bar. */
  lemma SignalsOfBar(strategy: Strategy, bars: seq<Bar>, i: nat)
    requires ValidStrategy(strategy) && ValidBars(bars) && i < |bars|
    ensures SignalsAt(Signals(strategy, bars), bars[i].timestamp) == BarSignals(strategy, bars, i)
  {
    var own := seq(|bars|, m requires 0 <= m < |bars| => BarSignals(strategy, bars, m));
    var sofar := seq(|bars| + 1, m requires 0 <= m <= |bars| => SignalsTo(strategy, bars, m));
    SignalsFoundByBar(bars, own, sofar, i, |bars|);
  }

  /** A BUY for the entry rule and a SELL for the exit rule, the BUY first when both hold. */
  lemma SignalsMean(strategy: Strategy, bars: seq<Bar>, i: nat) returns (entry: bool, exit: bool)
    requires ValidStrategy(strategy) && ValidBars(bars) && i < |bars|
    ensures entry == ConditionAt(strategy.entry, bars, i) && exit == ConditionAt(strategy.exit, bars, i)
    ensures SignalsAt(Signals(strategy, bars), bars[i].timestamp)
            == if entry && exit then [Signal(bars[i].timestamp, Buy), Signal(bars[i].timestamp, Sell)]
               else if entry then [Signal(bars[i].timestamp, Buy)]
               else if exit then [Signal(bars[i].timestamp, Sell)]
               else []
  {
    SignalsOfBar(strategy, bars, i);
    entry, exit := ConditionAt(strategy.entry, bars, i), ConditionAt(strategy.exit, bars, i);
  }

  /** No signal is stamped with a time that is not a bar's. */
  lemma {:induction false} SignalsAreStamped(strategy: Strategy, bars: seq<Bar>, n: nat, s: Signal)
    requires ValidStrategy(strategy) && n <= |bars| && s in SignalsTo(strategy, bars, n)
    ensures exists i :: 0 <= i < n && s.timestamp == bars[i].timestamp
  {
    if s !in SignalsTo(strategy, bars, n - 1) {
      assert s in BarSignals(strategy, bars, n - 1);
    } else {
      SignalsAreStamped(strategy, bars, n - 1, s);
    }
  }
}
