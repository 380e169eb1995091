/** Strategy specifications and the semantic checks made before they are compiled. */
module Specification {
  import opened Wrappers

  datatype IndicatorName = SMA | EMA

  datatype Operand =
    | Indicator(name: IndicatorName, period: int)
    | Price
    | Constant(value: real)

  datatype Operator =
    | CrossesAbove | CrossesBelow
    | GreaterThan | LessThan | GreaterThanOrEqual | LessThanOrEqual
  {
    predicate Crosses() {
      CrossesAbove? || CrossesBelow?
    }
  }

  datatype Condition = Condition(left: Operand, operator: Operator, right: Operand)

  /** Symbol, interval and execution settings admit a single value each, so only the rules vary. */
  datatype Strategy = Strategy(entry: Condition, exit: Condition, stopLoss: Option<real>, takeProfit: Option<real>)

  const MAX_PERIOD := 1000
  const MAX_RISK_PERCENT := 50.0

  predicate ValidOperand(operand: Operand) {
    operand.Indicator? ==> 1 <= operand.period <= MAX_PERIOD
  }

  predicate ValidCondition(condition: Condition) {
    ValidOperand(condition.left) && ValidOperand(condition.right)
  }

  predicate ValidRiskPercent(percent: Option<real>) {
    percent.Some? ==> 0.0 < percent.value <= MAX_RISK_PERCENT
  }

  /** What `validate_strategy_semantics` accepts. */
  predicate ValidStrategy(strategy: Strategy) {
    && ValidCondition(strategy.entry)
    && ValidCondition(strategy.exit)
    && ValidRiskPercent(strategy.stopLoss)
    && ValidRiskPercent(strategy.takeProfit)
  }
}
