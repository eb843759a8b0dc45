/**
 * The enumerations shared by the signals (GeneticTree/Signal/ISignal.cs) and
 * the three-way threshold state of the oscillator base class that
 * ChannelOscillatorSignal and BBOscillatorSignal extend.
 */
module SignalTypes {

  /** Trade direction: LongOnly = 1, ShortOnly = -1. */
  datatype Direction = LongOnly | ShortOnly

  function DirectionCode(d: Direction): int
  {
    match d
    case LongOnly => 1
    case ShortOnly => -1
  }

  /**
   * The relation of a signal to its successor. A C# enum is an integer, and
   * a cast `(Operator)n` accepts any `n`, so values outside 0..5 exist as
   * `Unnamed(n)`.
   */
  datatype Operator = And | Or | OrInclusive | Not | Nor | NorInclusive | Unnamed(code: int)

  /** An `Unnamed` operator never shadows one of the six named codes. */
  predicate WellFormedOperator(op: Operator)
  {
    op.Unnamed? ==> !(0 <= op.code <= 5)
  }

  function OperatorCode(op: Operator): int
  {
    match op
    case And => 0
    case Or => 1
    case OrInclusive => 2
    case Not => 3
    case Nor => 4
    case NorInclusive => 5
    case Unnamed(c) => c
  }

  /** The cast `(Operator)c`: every integer is a value of the enum. */
  function OperatorFromCode(c: int): (op: Operator)
    ensures WellFormedOperator(op)
    ensures OperatorCode(op) == c
  {
    match c
    case 0 => And
    case 1 => Or
    case 2 => OrInclusive
    case 3 => Not
    case 4 => Nor
    case 5 => NorInclusive
    case _ => Unnamed(c)
  }

  /** Converting a well-formed operator to its code and back is the identity. */
  lemma OperatorCodeRoundTrip(op: Operator)
    requires WellFormedOperator(op)
    ensures OperatorFromCode(OperatorCode(op)) == op
  {
  }

  /** `default(Operator)` is the member with code 0. */
  const DefaultOperator: Operator := OperatorFromCode(0)

  lemma DefaultOperatorIsAnd()
    ensures DefaultOperator == And
  {
  }

  /**
   * ThresholdState of the oscillator base class used by
   * ChannelOscillatorSignal and BBOscillatorSignal; that base class is not
   * part of this model, so only the three names are used.
   */
  datatype ThresholdState = BelowLower | InBetween | AboveUpper
}
