/** Turning a provider's draft into a strategy, with a record of every value that was filled in. */
module Normaliser {
  import opened Wrappers
  import opened Specification

  // ----- drafts -----

  datatype OperandKind = IndicatorKind | PriceKind | ConstantKind

  // The source, like symbol, interval and the execution settings, admits one value, so it is given or not.
  datatype OperandDraft = OperandDraft(
    kind: OperandKind, name: Option<IndicatorName>, source: bool, period: Option<int>, value: Option<real>)

  datatype ConditionDraft = ConditionDraft(left: OperandDraft, operator: Option<Operator>, right: OperandDraft)

  datatype StrategyParseDraft = StrategyParseDraft(
    symbol: bool, interval: bool, direction: bool, positionSize: bool, signalExecution: bool,
    entry: Option<ConditionDraft>, exit: Option<ConditionDraft>)

  // ----- what is read from the text -----

  datatype NormalizationHint = NormalizationHint(shortPeriod: int, longPeriod: int, bullishEntry: bool)

  /** The percentages found in the text, each between 0 and 50, or the text's fault. */
  datatype RiskControls = RiskControls(stopLoss: Option<real>, takeProfit: Option<real>) | BadControls

  // ----- the record -----

  datatype Side = EntrySide | ExitSide
  datatype Hand = LeftHand | RightHand

  datatype Field =
    | Symbol | Interval | Direction | PositionSize | SignalExecution
    | EntryRule | ExitRule | BothRules
    | Name(side: Side, hand: Hand)
    | Source(side: Side, hand: Hand)

  datatype Inferred =
    | InferredName(name: IndicatorName)
    | InferredRule(rule: ConditionDraft)
    | InferredRules(entry: ConditionDraft, exit: ConditionDraft)

  datatype Assumption = Assumption(field: Field, inferred: Inferred)

  datatype ParsedStrategy = ParsedStrategy(
    strategy: Strategy, assumptions: seq<Assumption>, defaults: seq<Field>, requiresConfirmation: bool)

  datatype Problem =
    | NoRules | NotACrossover | BadText
    | NoOperator(side: Side) | NoPeriod(side: Side, hand: Hand) | NoConstant(side: Side, hand: Hand)
    | InvalidStrategy

  // ----- the normal form, as functions -----

  function OperandOf(draft: OperandDraft, side: Side, hand: Hand): Result<Operand, Problem> {
    match draft.kind
    case IndicatorKind =>
      if draft.period.None? then Err(NoPeriod(side, hand))
      else Ok(Indicator(if draft.name.Some? then draft.name.value else SMA, draft.period.value))
    case PriceKind => Ok(Price)
    case ConstantKind => if draft.value.None? then Err(NoConstant(side, hand)) else Ok(Constant(draft.value.value))
  }

  function OperandDefaults(draft: OperandDraft, side: Side, hand: Hand): seq<Field> {
    if !draft.kind.ConstantKind? && !draft.source then [Source(side, hand)] else []
  }

  function OperandAssumptions(draft: OperandDraft, side: Side, hand: Hand): seq<Assumption> {
    if draft.kind.IndicatorKind? && draft.name.None? then [Assumption(Name(side, hand), InferredName(SMA))] else []
  }

  function ConditionOf(draft: ConditionDraft, side: Side): Result<Condition, Problem> {
    if draft.operator.None? then Err(NoOperator(side))
    else
      var left, right := OperandOf(draft.left, side, LeftHand), OperandOf(draft.right, side, RightHand);
      if left.Err? then Err(left.error)
      else if right.Err? then Err(right.error)
      else Ok(Condition(left.value, draft.operator.value, right.value))
  }

  function ConditionDefaults(draft: ConditionDraft, side: Side): seq<Field> {
    OperandDefaults(draft.left, side, LeftHand) + OperandDefaults(draft.right, side, RightHand)
  }

  function ConditionAssumptions(draft: ConditionDraft, side: Side): seq<Assumption> {
    OperandAssumptions(draft.left, side, LeftHand) + OperandAssumptions(draft.right, side, RightHand)
  }

  function CrossoverDraft(shortPeriod: int, longPeriod: int, operator: Operator): ConditionDraft {
    ConditionDraft(OperandDraft(IndicatorKind, None, false, Some(shortPeriod), None), Some(operator),
                   OperandDraft(IndicatorKind, None, false, Some(longPeriod), None))
  }

  function Opposite(operator: Operator): Operator
    requires operator.Crosses()
  {
    if operator.CrossesAbove? then CrossesBelow else CrossesAbove
  }

  function OppositeCrossoverDraft(draft: ConditionDraft): Result<ConditionDraft, Problem> {
    if draft.operator.Some? && draft.operator.value.Crosses()
    then Ok(draft.(operator := Some(Opposite(draft.operator.value))))
    else Err(NotACrossover)
  }

  /** Entry, exit and the assumptions made to have both. */
  function Rules(draft: StrategyParseDraft, hint: Option<NormalizationHint>):
    Result<(ConditionDraft, ConditionDraft, seq<Assumption>), Problem>
  {
    match (draft.entry, draft.exit)
    case (Some(entry), Some(exit)) => Ok((entry, exit, []))
    case (Some(entry), None) =>
      var exit := OppositeCrossoverDraft(entry);
      if exit.Err? then Err(exit.error) else Ok((entry, exit.value, [Assumption(ExitRule, InferredRule(exit.value))]))
    case (None, Some(exit)) =>
      var entry := OppositeCrossoverDraft(exit);
      if entry.Err? then Err(entry.error) else Ok((entry.value, exit,
          [Assumption(EntryRule, InferredRule(entry.value))]))
    case (None, None) =>
      if hint.None? then Err(NoRules)
      else
        var above := CrossoverDraft(hint.value.shortPeriod, hint.value.longPeriod, CrossesAbove);
        var below := CrossoverDraft(hint.value.shortPeriod, hint.value.longPeriod, CrossesBelow);
        var (entry, exit) := if hint.value.bullishEntry then (above, below) else (below, above);
        Ok((entry, exit, [Assumption(BothRules, InferredRules(entry, exit))]))
  }

  function Missing(given: bool, field: Field): seq<Field> {
    if given then [] else [field]
  }

  function FixedDefaults(draft: StrategyParseDraft): seq<Field> {
    Missing(draft.symbol, Symbol) + Missing(draft.interval, Interval) + Missing(draft.direction, Direction)
    + Missing(draft.positionSize, PositionSize) + Missing(draft.signalExecution, SignalExecution)
  }

  function Normalised(draft: StrategyParseDraft, hint: Option<NormalizationHint>, controls: RiskControls):
    Result<ParsedStrategy, Problem>
  {
    var rules := Rules(draft, hint);
    if rules.Err? then Err(rules.error)
    else if controls.BadControls? then Err(BadText)
    else
      var (entryDraft, exitDraft, made) := rules.value;
      var entry, exit := ConditionOf(entryDraft, EntrySide), ConditionOf(exitDraft, ExitSide);
      if entry.Err? then Err(entry.error)
      else if exit.Err? then Err(exit.error)
      else
        var strategy := Strategy(entry.value, exit.value, controls.stopLoss, controls.takeProfit);
        if !ValidStrategy(strategy) then Err(Problem.InvalidStrategy)
        else
          var assumptions := made + ConditionAssumptions(entryDraft, EntrySide)
              + ConditionAssumptions(exitDraft, ExitSide);
          Ok(ParsedStrategy(strategy, assumptions,
               FixedDefaults(draft) + ConditionDefaults(entryDraft, EntrySide) + ConditionDefaults(exitDraft, ExitSide),
               assumptions != []))
  }

  // ----- the normaliser -----

  /** The two lists that every step appends to. */
  class AuditTrail {
    var defaults: seq<Field>
    var assumptions: seq<Assumption>

    constructor ()
      ensures defaults == [] && assumptions == []
    {
      defaults, assumptions := [], [];
    }

    method ApplyDefault(given: bool, field: Field)
      modifies this`defaults
      ensures defaults == old(defaults) + Missing(given, field)
    {
      if !given {
        defaults := defaults + [field];
      }
    }

    method Assume(field: Field, inferred: Inferred)
      modifies this`assumptions
      ensures assumptions == old(assumptions) + [Assumption(field, inferred)]
    {
      assumptions := assumptions + [Assumption(field, inferred)];
    }
  }

  method NormalizeOperand(operand: OperandDraft, side: Side, hand: Hand, trail: AuditTrail)
    returns (result: Result<Operand, Problem>)
    modifies trail
    ensures result == OperandOf(operand, side, hand)
    ensures result.Ok? ==>
              && trail.defaults == old(trail.defaults) + OperandDefaults(operand, side, hand)
              && trail.assumptions == old(trail.assumptions) + OperandAssumptions(operand, side, hand)
  {
    if operand.kind.IndicatorKind? {
      if operand.period.None? {
        return Err(NoPeriod(side, hand));
      }
      var name := SMA;
      if operand.name.None? {
        trail.Assume(Name(side, hand), InferredName(SMA));
      } else {
        name := operand.name.value;
      }
      trail.ApplyDefault(operand.source, Source(side, hand));
      return Ok(Indicator(name, operand.period.value));
    }
    if operand.kind.PriceKind? {
      trail.ApplyDefault(operand.source, Source(side, hand));
      return Ok(Price);
    }
    if operand.value.None? {
      return Err(NoConstant(side, hand));
    }
    return Ok(Constant(operand.value.value));
  }

  method NormalizeCondition(condition: ConditionDraft, side: Side, trail: AuditTrail)
    returns (result: Result<Condition, Problem>)
    modifies trail
    ensures result == ConditionOf(condition, side)
    ensures result.Ok? ==>
              && trail.defaults == old(trail.defaults) + ConditionDefaults(condition, side)
              && trail.assumptions == old(trail.assumptions) + ConditionAssumptions(condition, side)
  {
    if condition.operator.None? {
      return Err(NoOperator(side));
    }
    var left := NormalizeOperand(condition.left, side, LeftHand, trail);
    if left.Err? {
      return Err(left.error);
    }
    var right := NormalizeOperand(condition.right, side, RightHand, trail);
    if right.Err? {
      return Err(right.error);
    }
    return Ok(Condition(left.value, condition.operator.value, right.value));
  }

  method InferShorthandPair(hint: Option<NormalizationHint>, trail: AuditTrail)
    returns (entry: Option<ConditionDraft>, exit: Option<ConditionDraft>)
    modifies trail`assumptions
    ensures entry.Some? == exit.Some? == hint.Some?
    ensures hint.Some? ==>
              var operator := if hint.value.bullishEntry then CrossesAbove else CrossesBelow;
              && entry.value == CrossoverDraft(hint.value.shortPeriod, hint.value.longPeriod, operator)
              && exit.value == entry.value.(operator := Some(Opposite(operator)))
    ensures trail.assumptions
            == old(trail.assumptions) + if hint.Some?
                then [Assumption(BothRules, InferredRules(entry.value, exit.value))] else []
  {
    if hint.None? {
      return None, None;
    }
    var bullish := CrossoverDraft(hint.value.shortPeriod, hint.value.longPeriod, CrossesAbove);
    var bearish := CrossoverDraft(hint.value.shortPeriod, hint.value.longPeriod, CrossesBelow);
    if hint.value.bullishEntry {
      entry, exit := Some(bullish), Some(bearish);
    } else {
      entry, exit := Some(bearish), Some(bullish);
    }
    trail.Assume(BothRules, InferredRules(entry.value, exit.value));
  }

  method ApplyFixedDefaults(draft: StrategyParseDraft, trail: AuditTrail)
    modifies trail`defaults
    ensures trail.defaults == old(trail.defaults) + FixedDefaults(draft)
  {
    trail.ApplyDefault(draft.symbol, Symbol);
    trail.ApplyDefault(draft.interval, Interval);
    trail.ApplyDefault(draft.direction, Direction);
    trail.ApplyDefault(draft.positionSize, PositionSize);
    trail.ApplyDefault(draft.signalExecution, SignalExecution);
  }

  method NormalizeStrategyDraft(draft: StrategyParseDraft, hint: Option<NormalizationHint>, controls: RiskControls)
    returns (result: Result<ParsedStrategy, Problem>)
    ensures result == Normalised(draft, hint, controls)
  {
    var trail := new AuditTrail();
    ApplyFixedDefaults(draft, trail);
    var entryDraft, exitDraft := draft.entry, draft.exit;
    if entryDraft.None? && exitDraft.None? {
      entryDraft, exitDraft := InferShorthandPair(hint, trail);
    }
    if entryDraft.None? && exitDraft.Some? {
      var opposite := OppositeCrossoverDraft(exitDraft.value);
      if opposite.Err? {
        return Err(opposite.error);
      }
      entryDraft := Some(opposite.value);
      trail.Assume(EntryRule, InferredRule(opposite.value));
    }
    if exitDraft.None? && entryDraft.Some? {
      var opposite := OppositeCrossoverDraft(entryDraft.value);
      if opposite.Err? {
        return Err(opposite.error);
      }
      exitDraft := Some(opposite.value);
      trail.Assume(ExitRule, InferredRule(opposite.value));
    }
    if entryDraft.None? || exitDraft.None? {
      return Err(NoRules);
    }
    assert trail.defaults == FixedDefaults(draft) && trail.assumptions == Rules(draft, hint).value.2;
    if controls.BadControls? {
      return Err(BadText);
    }
    var entry := NormalizeCondition(entryDraft.value, EntrySide, trail);
    if entry.Err? {
      return Err(entry.error);
    }
    var exit := NormalizeCondition(exitDraft.value, ExitSide, trail);
    if exit.Err? {
      return Err(exit.error);
    }
    var strategy := Strategy(entry.value, exit.value, controls.stopLoss, controls.takeProfit);
    if !ValidStrategy(strategy) {
      return Err(Problem.InvalidStrategy);
    }
    return Ok(ParsedStrategy(strategy, trail.assumptions, trail.defaults, trail.assumptions != []));
  }
}
