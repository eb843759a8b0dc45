/**
 * OscillatorSignal (GeneticTree/Signal/OscillatorSignal.cs): a seven-state
 * machine that follows an oscillator across a lower and an upper threshold.
 *
 * The states are the integer codes of the enum OscillatorSignals, because the
 * source computes the next state by arithmetic on those codes:
 *   -3 CrossLowerThresholdFromAbove   3 CrossUpperThresholdFromBelow
 *   -2 BellowLowerThreshold           2 AboveUpperThreshold
 *   -1 CrossLowerThresholdFromBelow   1 CrossUpperThresholdFromAbove
 *    0 BetweenThresholds
 * Indicator values (C# decimals) are reals; the indicator's readiness is an
 * input of the update handler.
 */
module Oscillators {
  import opened Wrappers
  import opened SignalTypes

  const CrossLowerThresholdFromAbove: int := -3
  const BellowLowerThreshold: int := -2
  const CrossLowerThresholdFromBelow: int := -1
  const BetweenThresholds: int := 0
  const CrossUpperThresholdFromAbove: int := 1
  const AboveUpperThreshold: int := 2
  const CrossUpperThresholdFromBelow: int := 3

  /** One of the seven named OscillatorSignals. */
  predicate IsSignalCode(s: int)
  {
    -3 <= s <= 3
  }

  /** One of the three codes GetActualPositionSignal returns. */
  predicate IsPositionCode(p: int)
  {
    p == BellowLowerThreshold || p == BetweenThresholds || p == AboveUpperThreshold
  }

  /** Math.Sign on an int. */
  function Sign(x: int): int
  {
    if x > 0 then 1 else if x < 0 then -1 else 0
  }

  /** Math.Abs on an int. */
  function Abs(x: int): nat
  {
    if x < 0 then -x else x
  }

  /** The struct OscillatorThresholds. */
  datatype Thresholds = Thresholds(lower: real, upper: real)

  /** The thresholds of the constructor that takes only an indicator. */
  const DefaultThresholds: Thresholds := Thresholds(20.0, 80.0)

  /**
   * GetActualPositionSignal: where the value lies with respect to the
   * thresholds. The upper test runs first, and a value equal to a threshold
   * counts as between.
   */
  function PositionSignal(value: real, t: Thresholds): (p: int)
    ensures IsPositionCode(p)
    ensures p == AboveUpperThreshold <==> value > t.upper
    ensures p == BellowLowerThreshold <==> value <= t.upper && value < t.lower
    ensures t.lower <= value <= t.upper ==> p == BetweenThresholds
  {
    if value > t.upper then AboveUpperThreshold
    else if value < t.lower then BellowLowerThreshold
    else BetweenThresholds
  }

  /**
   * The zone a state lies in: 1 above the upper threshold (codes 2 and 3),
   * -1 below the lower one (codes -2 and -3), 0 otherwise.
   */
  function Zone(s: int): int
  {
    if s >= 2 then 1 else if s <= -2 then -1 else 0
  }

  /**
   * The threshold-crossing machine stated by zones, independently of the
   * code arithmetic: entering a zone is a crossing into it, staying in a
   * zone is being in it, and leaving a zone for the middle is a crossing out
   * of it.
   */
  function ZoneTransition(prev: int, pos: int): (s: int)
    requires IsPositionCode(pos)
    ensures IsSignalCode(s) && Zone(s) == Sign(pos)
    ensures s == CrossLowerThresholdFromBelow <==> Zone(prev) == -1 && pos == BetweenThresholds
    ensures s == CrossUpperThresholdFromAbove <==> Zone(prev) == 1 && pos == BetweenThresholds
  {
    var was := Zone(prev);
    if pos == AboveUpperThreshold then
      (if was == 1 then AboveUpperThreshold else CrossUpperThresholdFromBelow)
    else if pos == BellowLowerThreshold then
      (if was == -1 then BellowLowerThreshold else CrossLowerThresholdFromAbove)
    else if was == 1 then CrossUpperThresholdFromAbove
    else if was == -1 then CrossLowerThresholdFromBelow
    else BetweenThresholds
  }

  /**
   * GetActualSignal, with the source's arithmetic on codes. On named codes
   * it is exactly the zone machine, and a non-zero position always gives a
   * state of the position's sign.
   */
  function ActualSignal(prev: int, pos: int): (s: int)
    ensures IsSignalCode(s)
    ensures pos != 0 ==> Sign(s) == Sign(pos) && Abs(s) >= 2
    ensures IsSignalCode(prev) && IsPositionCode(pos) ==> s == ZoneTransition(prev, pos)
  {
    if pos == 0 then
      (if Abs(prev) > 1 then Sign(prev) else BetweenThresholds)
    else if prev * pos <= 0 || Abs(prev + pos) == 3 then Sign(pos) * 3
    else Sign(pos) * 2
  }

  /**
   * IsTrue: false while the indicator is not ready; a LongOnly signal holds
   * on CrossLowerThresholdFromBelow and a ShortOnly one on
   * CrossUpperThresholdFromAbove. A signal built without a direction keeps
   * the default direction, which matches neither case.
   */
  function SignalHolds(ready: bool, direction: Option<Direction>, signal: int): (r: bool)
    ensures r ==> ready && direction.Some?
    ensures direction == Some(LongOnly) ==> (r <==> ready && signal == CrossLowerThresholdFromBelow)
    ensures direction == Some(ShortOnly) ==> (r <==> ready && signal == CrossUpperThresholdFromAbove)
  {
    if !ready then false
    else match direction
      case Some(LongOnly) => signal == CrossLowerThresholdFromBelow
      case Some(ShortOnly) => signal == CrossUpperThresholdFromAbove
      case None => false
  }

  class OscillatorSignal {
    const thresholds: Thresholds
    /** The trade rule direction; the constructors without one leave it unset. */
    const direction: Option<Direction>
    /** The public state `Signal`. */
    var signal: int
    var previousSignal: int
    var previousIndicatorValue: real

    /** Both state fields hold the same named code. */
    ghost predicate Valid()
      reads this
    {
      signal == previousSignal && IsSignalCode(signal)
    }

    /** `OscillatorSignal(indicator, thresholds, tradeRuleDirection)` */
    constructor (thresholds: Thresholds, direction: Direction)
      ensures Valid()
      ensures this.thresholds == thresholds && this.direction == Some(direction)
      ensures signal == BetweenThresholds && previousIndicatorValue == 0.0
    {
      this.thresholds := thresholds;
      this.direction := Some(direction);
      signal, previousSignal, previousIndicatorValue := BetweenThresholds, BetweenThresholds, 0.0;
    }

    /** `OscillatorSignal(indicator, thresholds)` */
    constructor WithoutDirection(thresholds: Thresholds)
      ensures Valid()
      ensures this.thresholds == thresholds && direction.None?
      ensures signal == BetweenThresholds && previousIndicatorValue == 0.0
    {
      this.thresholds := thresholds;
      direction := None;
      signal, previousSignal, previousIndicatorValue := BetweenThresholds, BetweenThresholds, 0.0;
    }

    /** `OscillatorSignal(indicator)`: thresholds 20 and 80. */
    constructor WithDefaultThresholds()
      ensures Valid()
      ensures thresholds.lower == 20.0 && thresholds.upper == 80.0 && direction.None?
      ensures signal == BetweenThresholds && previousIndicatorValue == 0.0
    {
      thresholds := DefaultThresholds;
      direction := None;
      signal, previousSignal, previousIndicatorValue := BetweenThresholds, BetweenThresholds, 0.0;
    }

    /**
     * Indicator_Updated: while the indicator is not ready the state is the
     * raw position; once it is ready the state moves by ActualSignal.
     */
    method IndicatorUpdated(value: real, indicatorReady: bool)
      requires Valid()
      modifies this
      ensures Valid()
      ensures previousIndicatorValue == value
      ensures signal == if indicatorReady
        then ActualSignal(old(previousSignal), PositionSignal(value, thresholds))
        else PositionSignal(value, thresholds)
    {
      var actualPositionSignal := PositionSignal(value, thresholds);
      if !indicatorReady {
        previousIndicatorValue := value;
        previousSignal := actualPositionSignal;
        signal := previousSignal;
        return;
      }
      var actualSignal := ActualSignal(previousSignal, actualPositionSignal);
      signal := actualSignal;
      previousIndicatorValue := value;
      previousSignal := actualSignal;
    }

    /** IsTrue, with the indicator's readiness as input. */
    function IsTrue(ready: bool): bool
      reads this
    {
      SignalHolds(ready, direction, signal)
    }
  }
}

/** What the oscillator machine means for the signals a rule reads. */
module OscillatorProperties {
  import opened Wrappers
  import opened SignalTypes
  import opened Oscillators

  /** A LongOnly signal fires exactly on the ready update that leaves the lower zone for the middle. */
  lemma LongFiresOnLeavingLowerZone(prev: int, value: real, t: Thresholds)
    requires IsSignalCode(prev)
    ensures SignalHolds(true, Some(LongOnly), ActualSignal(prev, PositionSignal(value, t)))
      <==> Zone(prev) == -1 && t.lower <= value <= t.upper
  {
  }

  /** A ShortOnly signal fires exactly on the ready update that leaves the upper zone for the middle. */
  lemma ShortFiresOnLeavingUpperZone(prev: int, value: real, t: Thresholds)
    requires IsSignalCode(prev)
    ensures SignalHolds(true, Some(ShortOnly), ActualSignal(prev, PositionSignal(value, t)))
      <==> Zone(prev) == 1 && !(value > t.upper) && !(value < t.lower)
  {
  }

  /** Every ready update leaves the machine in the zone of the new position. */
  lemma ZoneFollowsPosition(prev: int, value: real, t: Thresholds)
    ensures Zone(ActualSignal(prev, PositionSignal(value, t))) == Sign(PositionSignal(value, t))
  {
  }

  /**
   * A crossing state is left on the next ready update that stays on its
   * side: 3 in the upper zone becomes 2, and 1 in the middle becomes 0.
   */
  lemma CrossingsLastOneUpdate()
    ensures ActualSignal(CrossUpperThresholdFromBelow, AboveUpperThreshold) == AboveUpperThreshold
    ensures ActualSignal(CrossLowerThresholdFromAbove, BellowLowerThreshold) == BellowLowerThreshold
    ensures ActualSignal(CrossUpperThresholdFromAbove, BetweenThresholds) == BetweenThresholds
    ensures ActualSignal(CrossLowerThresholdFromBelow, BetweenThresholds) == BetweenThresholds
  {
  }

  /** A jump from one zone straight to the other is a crossing into the new zone. */
  lemma JumpAcrossIsCrossing()
    ensures ActualSignal(BellowLowerThreshold, AboveUpperThreshold) == CrossUpperThresholdFromBelow
    ensures ActualSignal(AboveUpperThreshold, BellowLowerThreshold) == CrossLowerThresholdFromAbove
  {
  }

  /** With the default thresholds, 20 and 80 themselves lie between them. */
  lemma DefaultThresholdsBoundaries()
    ensures PositionSignal(20.0, DefaultThresholds) == BetweenThresholds
    ensures PositionSignal(80.0, DefaultThresholds) == BetweenThresholds
    ensures PositionSignal(80.5, DefaultThresholds) == AboveUpperThreshold
    ensures PositionSignal(19.5, DefaultThresholds) == BellowLowerThreshold
  {
  }

  /**
   * A whole run of ready updates: the value sequence drives the machine
   * from `start` one update at a time.
   */
  function Run(start: int, values: seq<real>, t: Thresholds): (s: int)
    requires IsSignalCode(start)
    ensures IsSignalCode(s)
    ensures values != [] ==> Zone(s) == Sign(PositionSignal(values[|values| - 1], t))
    decreases |values|
  {
    if values == [] then start
    else ActualSignal(Run(start, values[..|values| - 1], t), PositionSignal(values[|values| - 1], t))
  }

  /**
   * The state after a run depends only on the last two positions: the zone
   * before the last update and the last position.
   */
  lemma {:induction false} RunDependsOnLastTwo(start: int, values: seq<real>, t: Thresholds)
    requires IsSignalCode(start) && |values| >= 2
    ensures Run(start, values, t) == ZoneTransition(
      Sign(PositionSignal(values[|values| - 2], t)) * 2, PositionSignal(values[|values| - 1], t))
  {
    var init := values[..|values| - 1];
    assert init[|init| - 1] == values[|values| - 2];
    var mid := Run(start, init, t);
    assert Zone(mid) == Sign(PositionSignal(values[|values| - 2], t));
  }
}
