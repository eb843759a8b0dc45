/**
 * BBOscillatorSignal (GeneticTree/Signal/BBOscillatorSignals.cs): classifies
 * a value against the Bollinger bands as AboveUpper, BelowLower or
 * InBetween. The oscillator base class that calls this classification is
 * not part of this model; the bands are inputs.
 */
module BBOscillators {
  import opened SignalTypes

  /** The survival period when the constructor is given none. */
  const DefaultSurvivalPeriod: int := 1

  /**
   * GetThresholdState: strictly above the upper band, else strictly below
   * the lower band, else in between. The upper test runs first.
   */
  function GetThresholdState(value: real, lowerBand: real, upperBand: real): (s: ThresholdState)
    ensures s == AboveUpper <==> value > upperBand
    ensures s == BelowLower <==> value <= upperBand && value < lowerBand
    ensures lowerBand <= value <= upperBand ==> s == InBetween
  {
    if value > upperBand then AboveUpper
    else if value < lowerBand then BelowLower
    else InBetween
  }

  /** The constructor's arguments as the signal keeps them. */
  datatype BBOscillatorSignal = BBOscillatorSignal(direction: Direction, survivalPeriod: int)

  /** `new BBOscillatorSignal(indicator, direction, survivalPeriod = 1)` */
  function NewBBOscillatorSignal(direction: Direction, survivalPeriod: int := DefaultSurvivalPeriod): (b: BBOscillatorSignal)
    ensures b.direction == direction && b.survivalPeriod == survivalPeriod
  {
    BBOscillatorSignal(direction, survivalPeriod)
  }
}

/** The Bollinger classification against the oscillator's position classification. */
module BBOscillatorProperties {
  import opened SignalTypes
  import opened BBOscillators
  import Oscillators

  /** The codes OscillatorSignal uses for the three positions. */
  function PositionCode(s: ThresholdState): int
  {
    match s
    case BelowLower => Oscillators.BellowLowerThreshold
    case InBetween => Oscillators.BetweenThresholds
    case AboveUpper => Oscillators.AboveUpperThreshold
  }

  /**
   * With the bands as thresholds, the Bollinger classification is the
   * oscillator's position classification, inverted bands included.
   */
  lemma SameAsPositionSignal(value: real, lowerBand: real, upperBand: real)
    ensures PositionCode(GetThresholdState(value, lowerBand, upperBand))
      == Oscillators.PositionSignal(value, Oscillators.Thresholds(lowerBand, upperBand))
  {
  }

  /**
   * With inverted bands (lower above upper), the upper test runs first: a
   * value above the upper band is AboveUpper even when it is below the lower
   * band, a value above both is AboveUpper, and one below both is BelowLower.
   */
  lemma InvertedBands()
    ensures GetThresholdState(5.0, 10.0, 0.0) == AboveUpper
    ensures GetThresholdState(11.0, 10.0, 0.0) == AboveUpper
    ensures GetThresholdState(-1.0, 10.0, 0.0) == BelowLower
  {
  }

  /** Without a survival period argument the period is 1. */
  lemma DefaultSurvival(direction: Direction)
    ensures NewBBOscillatorSignal(direction).survivalPeriod == 1
  {
  }
}
