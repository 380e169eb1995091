/** Round trips of the normaliser, and what its record of defaults and assumptions is worth. */
module NormaliserLaws {
  import opened Wrappers
  import opened Specification
  import opened Normaliser

  // ----- round trips -----

  function SpelledOperand(operand: Operand): OperandDraft {
    match operand
    case Indicator(name, period) => OperandDraft(IndicatorKind, Some(name), true, Some(period), None)
    case Price => OperandDraft(PriceKind, None, true, None, None)
    case Constant(value) => OperandDraft(ConstantKind, None, false, None, Some(value))
  }

  function SpelledCondition(condition: Condition): ConditionDraft {
    ConditionDraft(SpelledOperand(condition.left), Some(condition.operator), SpelledOperand(condition.right))
  }

  /** A strategy as a draft that leaves nothing out. */
  function Spelled(strategy: Strategy): StrategyParseDraft {
    StrategyParseDraft(true, true, true, true, true,
                       Some(SpelledCondition(strategy.entry)), Some(SpelledCondition(strategy.exit)))
  }

  function ControlsOf(strategy: Strategy): RiskControls {
    RiskControls(strategy.stopLoss, strategy.takeProfit)
  }

  lemma SpelledIsPlain(condition: Condition, side: Side)
    ensures ConditionOf(SpelledCondition(condition), side) == Ok(condition)
    ensures ConditionDefaults(SpelledCondition(condition), side) == []
    ensures ConditionAssumptions(SpelledCondition(condition), side) == []
  {
  }

  lemma SpelledNormalises(strategy: Strategy, hint: Option<NormalizationHint>)
    ensures Normalised(Spelled(strategy), hint, ControlsOf(strategy))
            == if ValidStrategy(strategy) then Ok(ParsedStrategy(strategy, [], [], false))
                else Err(Problem.InvalidStrategy)
  {
    SpelledIsPlain(strategy.entry, EntrySide);
    SpelledIsPlain(strategy.exit, ExitSide);
  }

  /** Whatever the draft, spelling its result out and normalising again gives that result, now without a record. */
  lemma NormalFormIsFixed(draft: StrategyParseDraft, hint: Option<NormalizationHint>, controls: RiskControls)
    requires Normalised(draft, hint, controls).Ok?
    ensures var strategy := Normalised(draft, hint, controls).value.strategy;
            Normalised(Spelled(strategy), hint, controls) == Ok(ParsedStrategy(strategy, [], [], false))
  {
    SpelledNormalises(Normalised(draft, hint, controls).value.strategy, hint);
  }

  predicate Complementary(entry: Condition, exit: Condition) {
    entry.operator.Crosses() && exit == entry.(operator := Opposite(entry.operator))
  }

  function OppositeCondition(condition: Condition): Condition
    requires condition.operator.Crosses()
  {
    condition.(operator := Opposite(condition.operator))
  }

  lemma OppositeOfSpelled(condition: Condition)
    ensures OppositeCrossoverDraft(SpelledCondition(condition))
            == if condition.operator.Crosses() then Ok(SpelledCondition(OppositeCondition(condition)))
                else Err(NotACrossover)
    ensures condition.operator.Crosses() ==> OppositeCondition(OppositeCondition(condition)) == condition
  {
  }

  /** Leaving the exit out restores the strategy exactly if its rules are complementary crossovers. */
  lemma DroppedExitIsRestored(strategy: Strategy, hint: Option<NormalizationHint>)
    requires ValidStrategy(strategy)
    ensures var result := Normalised(Spelled(strategy).(exit := None), hint, ControlsOf(strategy));
            && (result.Ok? && result.value.strategy == strategy <==> Complementary(strategy.entry, strategy.exit))
            && (result.Ok? ==>
                  var inferred := SpelledCondition(result.value.strategy.exit);
                  result.value
                  == ParsedStrategy(result.value.strategy, [Assumption(ExitRule, InferredRule(inferred))], [], true))
  {
    OppositeOfSpelled(strategy.entry);
    SpelledIsPlain(strategy.entry, EntrySide);
    if strategy.entry.operator.Crosses() {
      SpelledIsPlain(OppositeCondition(strategy.entry), ExitSide);
    }
  }

  lemma DroppedEntryIsRestored(strategy: Strategy, hint: Option<NormalizationHint>)
    requires ValidStrategy(strategy)
    ensures var result := Normalised(Spelled(strategy).(entry := None), hint, ControlsOf(strategy));
            && (result.Ok? && result.value.strategy == strategy <==> Complementary(strategy.entry, strategy.exit))
            && (result.Ok? ==>
                  var inferred := SpelledCondition(result.value.strategy.entry);
                  result.value
                  == ParsedStrategy(result.value.strategy, [Assumption(EntryRule, InferredRule(inferred))], [], true))
  {
    OppositeOfSpelled(strategy.exit);
    SpelledIsPlain(strategy.exit, ExitSide);
    if strategy.exit.operator.Crosses() {
      SpelledIsPlain(OppositeCondition(strategy.exit), EntrySide);
    }
  }

  /** The same for any draft: an exit that is the entry's opposite may be left out, at the price of one assumption. */
  lemma OppositeExitIsRedundant(draft: StrategyParseDraft, hint: Option<NormalizationHint>, controls: RiskControls)
    requires draft.entry.Some? && draft.exit.Some? && OppositeCrossoverDraft(draft.entry.value) == Ok(draft.exit.value)
    ensures var full, short := Normalised(draft, hint, controls), Normalised(draft.(exit := None), hint, controls);
            if full.Err? then short == full
            else
              short == Ok(ParsedStrategy(full.value.strategy,
                            [Assumption(ExitRule, InferredRule(draft.exit.value))] + full.value.assumptions,
                            full.value.defaults, true))
  {
    var entry, exit := draft.entry.value, draft.exit.value;
    var made := [Assumption(ExitRule, InferredRule(exit))];
    var a, b := ConditionAssumptions(entry, EntrySide), ConditionAssumptions(exit, ExitSide);
    assert made + a + b == made + ([] + a + b);
  }

  // ----- when a draft normalises, and to what -----

  /** The operand says all that is needed, within the bounds: a period from 1 to 1000, or a constant. */
  predicate Readable(draft: OperandDraft) {
    match draft.kind
    case IndicatorKind => draft.period.Some? && 1 <= draft.period.value <= 1000
    case PriceKind => true
    case ConstantKind => draft.value.Some?
  }

  predicate ReadableRule(draft: ConditionDraft) {
    draft.operator.Some? && Readable(draft.left) && Readable(draft.right)
  }

  predicate IsCrossover(draft: ConditionDraft) {
    draft.operator == Some(CrossesAbove) || draft.operator == Some(CrossesBelow)
  }

  predicate PercentWithin(percent: Option<real>) {
    percent.Some? ==> 0.0 < percent.value <= 50.0
  }

  /** A draft that needs no more than the program's defaults: both rules, or a crossover, or a shorthand. */
  predicate Sufficient(draft: StrategyParseDraft, hint: Option<NormalizationHint>) {
    && (draft.entry.Some? ==> ReadableRule(draft.entry.value))
    && (draft.exit.Some? ==> ReadableRule(draft.exit.value))
    && (draft.entry.Some? && draft.exit.None? ==> IsCrossover(draft.entry.value))
    && (draft.exit.Some? && draft.entry.None? ==> IsCrossover(draft.exit.value))
    && (draft.entry.None? && draft.exit.None? ==>
          hint.Some? && 1 <= hint.value.shortPeriod <= 1000 && 1 <= hint.value.longPeriod <= 1000)
  }

  /** The operand is what the draft says, an unnamed moving average being simple. */
  predicate IsOperandOf(draft: OperandDraft, operand: Operand) {
    match operand
    case Indicator(name, period) =>
      draft.kind.IndicatorKind? && draft.period == Some(period)
      && name == if draft.name.Some? then draft.name.value else SMA
    case Price => draft.kind.PriceKind?
    case Constant(value) => draft.kind.ConstantKind? && draft.value == Some(value)
  }

  predicate IsRuleOf(draft: ConditionDraft, rule: Condition) {
    draft.operator == Some(rule.operator) && IsOperandOf(draft.left, rule.left) && IsOperandOf(draft.right, rule.right)
  }

  /** The other rule with its operator turned round. */
  predicate AreOpposites(rule: Condition, other: Condition) {
    && rule.left == other.left && rule.right == other.right
    && ((rule.operator == CrossesAbove && other.operator == CrossesBelow)
        || (rule.operator == CrossesBelow && other.operator == CrossesAbove))
  }

  predicate IsCrossing(rule: Condition, operator: Operator, shortPeriod: int, longPeriod: int) {
    rule == Condition(Indicator(SMA, shortPeriod), operator, Indicator(SMA, longPeriod))
  }

  /** The strategy says what the draft says; a rule that is missing is filled in from the other rule or the hint. */
  predicate IsMeaningOf(strategy: Strategy, draft: StrategyParseDraft, hint: Option<NormalizationHint>) {
    && (draft.entry.Some? ==> IsRuleOf(draft.entry.value, strategy.entry))
    && (draft.exit.Some? ==> IsRuleOf(draft.exit.value, strategy.exit))
    && (draft.entry.Some? != draft.exit.Some? ==> AreOpposites(strategy.entry, strategy.exit))
    && (draft.entry.None? && draft.exit.None? ==>
          && hint.Some?
          && IsCrossing(strategy.entry, if hint.value.bullishEntry then CrossesAbove else CrossesBelow,
                        hint.value.shortPeriod, hint.value.longPeriod)
          && IsCrossing(strategy.exit, if hint.value.bullishEntry then CrossesBelow else CrossesAbove,
                        hint.value.shortPeriod, hint.value.longPeriod))
  }

  lemma OperandMeans(draft: OperandDraft, side: Side, hand: Hand)
    ensures OperandOf(draft, side, hand).Ok? && ValidOperand(OperandOf(draft, side, hand).value) <==> Readable(draft)
    ensures OperandOf(draft, side, hand).Ok? ==> IsOperandOf(draft, OperandOf(draft, side, hand).value)
  {
  }

  lemma RuleMeans(draft: ConditionDraft, side: Side)
    ensures ConditionOf(draft, side).Ok? && ValidCondition(ConditionOf(draft, side).value) <==> ReadableRule(draft)
    ensures ConditionOf(draft, side).Ok? ==> IsRuleOf(draft, ConditionOf(draft, side).value)
  {
    OperandMeans(draft.left, side, LeftHand);
    OperandMeans(draft.right, side, RightHand);
  }

  /** A draft normalises if and only if it says enough, and the text's percentages are not at fault. */
  lemma NormalisesExactlyIf(draft: StrategyParseDraft, hint: Option<NormalizationHint>, controls: RiskControls)
    ensures Normalised(draft, hint, controls).Ok?
            <==> Sufficient(draft, hint)
                 && controls.RiskControls? && PercentWithin(controls.stopLoss) && PercentWithin(controls.takeProfit)
  {
    if Rules(draft, hint).Ok? {
      var (entry, exit, made) := Rules(draft, hint).value;
      RuleMeans(entry, EntrySide);
      RuleMeans(exit, ExitSide);
    }
  }

  /** And then to exactly what it says: operators, names, periods, constants and percentages. */
  lemma NormalisesToItsMeaning(draft: StrategyParseDraft, hint: Option<NormalizationHint>, controls: RiskControls)
    requires Normalised(draft, hint, controls).Ok?
    ensures var strategy := Normalised(draft, hint, controls).value.strategy;
            && IsMeaningOf(strategy, draft, hint)
            && controls == RiskControls(strategy.stopLoss, strategy.takeProfit)
  {
    var (entry, exit, made) := Rules(draft, hint).value;
    RuleMeans(entry, EntrySide);
    RuleMeans(exit, ExitSide);
  }

  /** There is no second strategy that the draft could mean. */
  lemma MeaningIsUnique(draft: StrategyParseDraft, hint: Option<NormalizationHint>, a: Strategy, b: Strategy)
    requires IsMeaningOf(a, draft, hint) && IsMeaningOf(b, draft, hint)
    ensures a.entry == b.entry && a.exit == b.exit
  {
  }

  function OperandAt(draft: StrategyParseDraft, side: Side, hand: Hand): Option<OperandDraft> {
    var rule := if side.EntrySide? then draft.entry else draft.exit;
    if rule.None? then None else Some(HandOf(rule.value, hand))
  }

  /** Every error is true of the draft; what is wrong with an inferred rule is wrong with the rule it comes from. */
  lemma ErrorsAreTrue(draft: StrategyParseDraft, hint: Option<NormalizationHint>, controls: RiskControls)
    requires Normalised(draft, hint, controls).Err?
    ensures match Normalised(draft, hint, controls).error
            case NoRules => draft.entry.None? && draft.exit.None? && hint.None?
            case NotACrossover =>
              || (draft.exit.None? && draft.entry.Some? && !IsCrossover(draft.entry.value))
              || (draft.entry.None? && draft.exit.Some? && !IsCrossover(draft.exit.value))
            case BadText => controls.BadControls?
            case NoOperator(side) =>
              var rule := if side.EntrySide? then draft.entry else draft.exit;
              rule.Some? && rule.value.operator.None?
            case NoPeriod(side, hand) =>
              var other := if side.EntrySide? then ExitSide else EntrySide;
              var operand := if OperandAt(draft, side, hand).Some? then OperandAt(draft, side, hand)
                             else OperandAt(draft, other, hand);
              operand.Some? && operand.value.kind.IndicatorKind? && operand.value.period.None?
            case NoConstant(side, hand) =>
              var other := if side.EntrySide? then ExitSide else EntrySide;
              var operand := if OperandAt(draft, side, hand).Some? then OperandAt(draft, side, hand)
                             else OperandAt(draft, other, hand);
              operand.Some? && operand.value.kind.ConstantKind? && operand.value.value.None?
            case InvalidStrategy =>
              controls.RiskControls?
              && !(Sufficient(draft, hint) && PercentWithin(controls.stopLoss) && PercentWithin(controls.takeProfit))
  {
    if Normalised(draft, hint, controls).error.InvalidStrategy? {
      NormalisesExactlyIf(draft, hint, controls);
    }
  }

  /** What an operand lacks. */
  function Lack(draft: OperandDraft, side: Side, hand: Hand): Option<Problem> {
    if draft.kind.IndicatorKind? && draft.period.None? then Some(NoPeriod(side, hand))
    else if draft.kind.ConstantKind? && draft.value.None? then Some(NoConstant(side, hand))
    else None
  }

  function FirstLack(rule: ConditionDraft, side: Side): Option<Problem> {
    if rule.operator.None? then Some(NoOperator(side))
    else if Lack(rule.left, side, LeftHand).Some? then Lack(rule.left, side, LeftHand)
    else Lack(rule.right, side, RightHand)
  }

  /** Of several faults the first is reported: rules, text, entry rule, exit rule, bounds. */
  lemma FirstFaultIsReported(draft: StrategyParseDraft, hint: Option<NormalizationHint>, controls: RiskControls)
    requires Normalised(draft, hint, controls).Err?
    ensures var error := Normalised(draft, hint, controls).error;
            if draft.entry.None? && draft.exit.None? && hint.None? then error == NoRules
            else if draft.entry.Some? && draft.exit.None? && !IsCrossover(draft.entry.value) then error == NotACrossover
            else if draft.exit.Some? && draft.entry.None? && !IsCrossover(draft.exit.value) then error == NotACrossover
            else if controls.BadControls? then error == BadText
            else if draft.entry.None? && draft.exit.None? then error == Problem.InvalidStrategy
            else
              var entry := if draft.entry.Some? then draft.entry.value else draft.exit.value;
              var exit := if draft.exit.Some? then draft.exit.value else draft.entry.value;
              if FirstLack(entry, EntrySide).Some? then Some(error) == FirstLack(entry, EntrySide)
              else if FirstLack(exit, ExitSide).Some? then Some(error) == FirstLack(exit, ExitSide)
              else error == Problem.InvalidStrategy
  {
  }

  // ----- what is assumed is what the strategy has -----

  function RuleAt(strategy: Strategy, side: Side): Condition {
    if side.EntrySide? then strategy.entry else strategy.exit
  }

  function OperandIn(strategy: Strategy, side: Side, hand: Hand): Operand {
    if hand.LeftHand? then RuleAt(strategy, side).left else RuleAt(strategy, side).right
  }

  /** The value that an assumption tells the user of is the one that was filled in. */
  predicate IsTrueOf(assumption: Assumption, strategy: Strategy) {
    match assumption.inferred
    case InferredName(name) =>
      && assumption.field.Name? && name == SMA
      && var operand := OperandIn(strategy, assumption.field.side, assumption.field.hand);
         operand.Indicator? && operand.name == name
    case InferredRule(rule) =>
      || (assumption.field.EntryRule? && IsRuleOf(rule, strategy.entry))
      || (assumption.field.ExitRule? && IsRuleOf(rule, strategy.exit))
    case InferredRules(entry, exit) =>
      assumption.field.BothRules? && IsRuleOf(entry, strategy.entry) && IsRuleOf(exit, strategy.exit)
  }

  lemma RuleAssumptionsAreTrue(draft: ConditionDraft, side: Side, strategy: Strategy)
    requires IsRuleOf(draft, RuleAt(strategy, side))
    ensures forall a :: a in ConditionAssumptions(draft, side) ==> IsTrueOf(a, strategy)
  {
  }

  lemma AssumptionsAreTrue(draft: StrategyParseDraft, hint: Option<NormalizationHint>, controls: RiskControls)
    requires Normalised(draft, hint, controls).Ok?
    ensures var result := Normalised(draft, hint, controls).value;
            forall a :: a in result.assumptions ==> IsTrueOf(a, result.strategy)
  {
    var (entry, exit, made) := Rules(draft, hint).value;
    var strategy := Normalised(draft, hint, controls).value.strategy;
    RuleMeans(entry, EntrySide);
    RuleMeans(exit, ExitSide);
    RuleAssumptionsAreTrue(entry, EntrySide, strategy);
    RuleAssumptionsAreTrue(exit, ExitSide, strategy);
  }

  // ----- the record -----

  function HandOf(draft: ConditionDraft, hand: Hand): OperandDraft {
    if hand.LeftHand? then draft.left else draft.right
  }

  /** What the draft leaves out, its rules being completed as `entry` and `exit`. */
  predicate Omitted(draft: StrategyParseDraft, entry: ConditionDraft, exit: ConditionDraft, field: Field) {
    match field
    case Symbol => !draft.symbol
    case Interval => !draft.interval
    case Direction => !draft.direction
    case PositionSize => !draft.positionSize
    case SignalExecution => !draft.signalExecution
    case EntryRule => draft.entry.None? && draft.exit.Some?
    case ExitRule => draft.exit.None? && draft.entry.Some?
    case BothRules => draft.entry.None? && draft.exit.None?
    case Name(side, hand) =>
      var operand := HandOf(if side.EntrySide? then entry else exit, hand);
      operand.kind.IndicatorKind? && operand.name.None?
    case Source(side, hand) =>
      var operand := HandOf(if side.EntrySide? then entry else exit, hand);
      !operand.kind.ConstantKind? && !operand.source
  }

  function FieldsOf(assumptions: seq<Assumption>): seq<Field> {
    seq(|assumptions|, i requires 0 <= i < |assumptions| => assumptions[i].field)
  }

  function Record(result: ParsedStrategy): seq<Field> {
    result.defaults + FieldsOf(result.assumptions)
  }

  lemma FieldsOfConcat(a: seq<Assumption>, b: seq<Assumption>)
    ensures FieldsOf(a + b) == FieldsOf(a) + FieldsOf(b)
  {
  }

  /** The parts that the record is put together from. */
  lemma RecordParts(draft: StrategyParseDraft, hint: Option<NormalizationHint>, controls: RiskControls)
    requires Normalised(draft, hint, controls).Ok?
    ensures var (entry, exit, made) := Rules(draft, hint).value;
            Record(Normalised(draft, hint, controls).value)
            == FixedDefaults(draft) + ConditionDefaults(entry, EntrySide) + ConditionDefaults(exit, ExitSide)
               + (FieldsOf(made) + FieldsOf(ConditionAssumptions(entry, EntrySide))
                   + FieldsOf(ConditionAssumptions(exit, ExitSide)))
  {
    var (entry, exit, made) := Rules(draft, hint).value;
    FieldsOfConcat(made, ConditionAssumptions(entry, EntrySide));
    FieldsOfConcat(made + ConditionAssumptions(entry, EntrySide), ConditionAssumptions(exit, ExitSide));
  }

  lemma InFixedDefaults(draft: StrategyParseDraft, entry: ConditionDraft, exit: ConditionDraft, field: Field)
    ensures field in FixedDefaults(draft) <==>
              Omitted(draft, entry, exit, field)
              && (field.Symbol? || field.Interval? || field.Direction? || field.PositionSize? || field.SignalExecution?)
  {
  }

  lemma InCondition(draft: ConditionDraft, side: Side, field: Field)
    ensures field in ConditionDefaults(draft, side) <==>
              field.Source? && field.side == side && !HandOf(draft, field.hand).kind.ConstantKind?
                  && !HandOf(draft, field.hand).source
    ensures field in FieldsOf(ConditionAssumptions(draft, side)) <==>
              field.Name? && field.side == side && HandOf(draft, field.hand).kind.IndicatorKind?
                  && HandOf(draft, field.hand).name.None?
  {
    var left, right := OperandAssumptions(draft.left, side, LeftHand), OperandAssumptions(draft.right, side, RightHand);
    FieldsOfConcat(left, right);
    assert FieldsOf(left) == if left == [] then [] else [Name(side, LeftHand)];
    assert FieldsOf(right) == if right == [] then [] else [Name(side, RightHand)];
  }

  lemma InRules(draft: StrategyParseDraft, hint: Option<NormalizationHint>, field: Field)
    requires Rules(draft, hint).Ok?
    ensures var (entry, exit, made) := Rules(draft, hint).value;
            field in FieldsOf(made) <==>
              Omitted(draft, entry, exit, field) && (field.EntryRule? || field.ExitRule? || field.BothRules?)
  {
    var (entry, exit, made) := Rules(draft, hint).value;
    assert made != [] ==> FieldsOf(made) == [made[0].field];
  }

  /** Everything that the draft left out is recorded, and nothing else is. */
  lemma RecordIsExact(draft: StrategyParseDraft, hint: Option<NormalizationHint>, controls: RiskControls, field: Field)
    requires Normalised(draft, hint, controls).Ok?
    ensures var (entry, exit, _) := Rules(draft, hint).value;
            field in Record(Normalised(draft, hint, controls).value) <==> Omitted(draft, entry, exit, field)
  {
    var (entry, exit, made) := Rules(draft, hint).value;
    RecordParts(draft, hint, controls);
    InFixedDefaults(draft, entry, exit, field);
    InCondition(entry, EntrySide, field);
    InCondition(exit, ExitSide, field);
    InRules(draft, hint, field);
  }

  /** Where in the record a field can stand. */
  function Place(field: Field): nat {
    match field
    case Symbol => 0
    case Interval => 1
    case Direction => 2
    case PositionSize => 3
    case SignalExecution => 4
    case Source(side, hand) => 5 + PlaceOfOperand(side, hand)
    case Name(side, hand) => 10 + PlaceOfOperand(side, hand)
    case _ => 9
  }

  function PlaceOfOperand(side: Side, hand: Hand): nat {
    (if side.EntrySide? then 0 else 2) + (if hand.LeftHand? then 0 else 1)
  }

  /** A record in order, between two places. */
  ghost predicate Ascending(fields: seq<Field>, lo: nat, hi: nat) {
    && (forall i :: 0 <= i < |fields| ==> lo <= Place(fields[i]) < hi)
    && (forall i, j :: 0 <= i < j < |fields| ==> Place(fields[i]) < Place(fields[j]))
  }

  lemma AscendingConcat(a: seq<Field>, lo: nat, mid: nat, b: seq<Field>, hi: nat)
    requires Ascending(a, lo, mid) && Ascending(b, mid, hi) && lo <= mid <= hi
    ensures Ascending(a + b, lo, hi)
  {
  }

  lemma FixedDefaultsAscend(draft: StrategyParseDraft)
    ensures Ascending(FixedDefaults(draft), 0, 5)
  {
    AscendingConcat(Missing(draft.symbol, Symbol), 0, 1, Missing(draft.interval, Interval), 2);
    AscendingConcat(Missing(draft.symbol, Symbol) + Missing(draft.interval, Interval), 0, 2,
        Missing(draft.direction, Direction), 3);
    AscendingConcat(Missing(draft.symbol, Symbol) + Missing(draft.interval, Interval)
        + Missing(draft.direction, Direction), 0, 3,
                    Missing(draft.positionSize, PositionSize), 4);
    AscendingConcat(Missing(draft.symbol, Symbol) + Missing(draft.interval, Interval)
        + Missing(draft.direction, Direction)
                    + Missing(draft.positionSize, PositionSize), 0, 4,
                        Missing(draft.signalExecution, SignalExecution), 5);
  }

  lemma ConditionAscends(draft: ConditionDraft, side: Side)
    ensures var place := PlaceOfOperand(side, LeftHand);
            && Ascending(ConditionDefaults(draft, side), 5 + place, 7 + place)
            && Ascending(FieldsOf(ConditionAssumptions(draft, side)), 10 + place, 12 + place)
  {
  }

  /** The record names its fields in a fixed order, so it names none twice. */
  lemma RecordAscends(draft: StrategyParseDraft, hint: Option<NormalizationHint>, controls: RiskControls)
    requires Normalised(draft, hint, controls).Ok?
    ensures Ascending(Record(Normalised(draft, hint, controls).value), 0, 14)
  {
    var (entry, exit, made) := Rules(draft, hint).value;
    RecordParts(draft, hint, controls);
    FixedDefaultsAscend(draft);
    ConditionAscends(entry, EntrySide);
    ConditionAscends(exit, ExitSide);
    var defaults := FixedDefaults(draft) + ConditionDefaults(entry, EntrySide);
    AscendingConcat(FixedDefaults(draft), 0, 5, ConditionDefaults(entry, EntrySide), 7);
    AscendingConcat(defaults, 0, 7, ConditionDefaults(exit, ExitSide), 9);
    var assumptions := FieldsOf(made) + FieldsOf(ConditionAssumptions(entry, EntrySide));
    AscendingConcat(FieldsOf(made), 9, 10, FieldsOf(ConditionAssumptions(entry, EntrySide)), 12);
    AscendingConcat(assumptions, 9, 12, FieldsOf(ConditionAssumptions(exit, ExitSide)), 14);
    AscendingConcat(defaults + ConditionDefaults(exit, ExitSide), 0, 9,
                    assumptions + FieldsOf(ConditionAssumptions(exit, ExitSide)), 14);
  }

  predicate Unnamed(operand: OperandDraft) {
    operand.kind.IndicatorKind? && operand.name.None?
  }

  /** Confirmation is asked for exactly when a rule, or the kind of a moving average, was not given. */
  lemma ConfirmationIffAssumed(draft: StrategyParseDraft, hint: Option<NormalizationHint>, controls: RiskControls)
    requires Normalised(draft, hint, controls).Ok?
    ensures var result := Normalised(draft, hint, controls).value;
            && (result.requiresConfirmation <==> result.assumptions != [])
            && (result.requiresConfirmation <==>
                  || draft.entry.None? || draft.exit.None?
                  || Unnamed(draft.entry.value.left) || Unnamed(draft.entry.value.right)
                  || Unnamed(draft.exit.value.left) || Unnamed(draft.exit.value.right))
  {
  }

  /** "Golden cross" and "death cross" alone mean the 50-day and 200-day SMA crossovers, one way and the other. */
  lemma ShorthandMeaning(hint: NormalizationHint, controls: RiskControls)
    requires 1 <= hint.shortPeriod <= MAX_PERIOD && 1 <= hint.longPeriod <= MAX_PERIOD
    requires controls.RiskControls? && ValidRiskPercent(controls.stopLoss) && ValidRiskPercent(controls.takeProfit)
    ensures var result := Normalised(StrategyParseDraft(false, false, false, false, false, None, None), Some(hint),
        controls);
            var above := Condition(Indicator(SMA, hint.shortPeriod), CrossesAbove, Indicator(SMA, hint.longPeriod));
            && result.Ok?
            && result.value.strategy == (if hint.bullishEntry
                then Strategy(above, OppositeCondition(above), controls.stopLoss, controls.takeProfit)
                                         else Strategy(OppositeCondition(above), above, controls.stopLoss,
                                             controls.takeProfit))
            && result.value.requiresConfirmation
  {
  }
}
