/**
 * ChannelOscillatorSignal (GeneticTree/Signal/ChannelOscillatorSignal.cs):
 * a channel breakout signal. The delayed maximum's updates classify the
 * current price as AboveUpper or InBetween, the delayed minimum's updates as
 * BelowLower or InBetween, and each classification is handed to the base
 * class's ProcessThresholdStateChange.
 *
 * That base class is not part of this model. Its state update is abstract:
 * the signal keeps every (classification, value) pair it handed over, and
 * its `Signal` is a fixed function `process` of that list, given at
 * construction, which stands for whatever the base class does with it.
 */
module ChannelOscillators {
  import opened SignalTypes

  /** Max_Updated's classification: above the delayed maximum, and only when ready. */
  function MaxState(ready: bool, price: real, delayedMax: real): (s: ThresholdState)
    ensures s != BelowLower
    ensures s == AboveUpper <==> ready && price > delayedMax
  {
    if ready && price > delayedMax then AboveUpper else InBetween
  }

  /** Min_Updated's classification: below the delayed minimum, and only when ready. */
  function MinState(ready: bool, price: real, delayedMin: real): (s: ThresholdState)
    ensures s != AboveUpper
    ensures s == BelowLower <==> ready && price < delayedMin
  {
    if ready && price < delayedMin then BelowLower else InBetween
  }

  /**
   * IsTrue: false while not ready; LongOnly holds on AboveUpper and ShortOnly
   * on BelowLower.
   */
  function ChannelHolds(ready: bool, direction: Direction, signal: ThresholdState): (r: bool)
    ensures r ==> ready && signal != InBetween
    ensures direction == LongOnly ==> (r <==> ready && signal == AboveUpper)
    ensures direction == ShortOnly ==> (r <==> ready && signal == BelowLower)
  {
    if !ready then false
    else match direction
      case LongOnly => signal == AboveUpper
      case ShortOnly => signal == BelowLower
  }

  class ChannelOscillatorSignal {
    const direction: Direction
    /** Passed to the base class constructor. */
    const survivalPeriod: int
    /** The base class's state update, as a function of everything handed to it. */
    const process: seq<(ThresholdState, real)> -> ThresholdState
    /** The arguments of every ProcessThresholdStateChange call, oldest first. */
    var processed: seq<(ThresholdState, real)>

    /** `Signal` of the base class. */
    function Signal(): ThresholdState
      reads this
    {
      process(processed)
    }

    constructor (direction: Direction, survivalPeriod: int, process: seq<(ThresholdState, real)> -> ThresholdState)
      ensures this.direction == direction && this.survivalPeriod == survivalPeriod
      ensures this.process == process && processed == []
    {
      this.direction := direction;
      this.survivalPeriod := survivalPeriod;
      this.process := process;
      processed := [];
    }

    /**
     * Max_Updated, with the price indicator's readiness and current value:
     * the classification is handed over even when not ready.
     */
    method MaxUpdated(ready: bool, price: real, updated: real)
      modifies this
      ensures processed == old(processed) + [(MaxState(ready, price, updated), updated)]
    {
      var positionSignal := InBetween;
      if ready {
        if price > updated {
          positionSignal := AboveUpper;
        }
      }
      processed := processed + [(positionSignal, updated)];
    }

    /** Min_Updated, as Max_Updated against the delayed minimum. */
    method MinUpdated(ready: bool, price: real, updated: real)
      modifies this
      ensures processed == old(processed) + [(MinState(ready, price, updated), updated)]
    {
      var positionSignal := InBetween;
      if ready {
        if price < updated {
          positionSignal := BelowLower;
        }
      }
      processed := processed + [(positionSignal, updated)];
    }

    /** Indicator_Updated is overridden to ignore the price indicator's own updates. */
    method IndicatorUpdated(updated: real)
      ensures processed == old(processed)
    {
    }

    /** IsTrue, with IsReady (the price indicator's readiness) as input. */
    function IsTrue(ready: bool): bool
      reads this
    {
      ChannelHolds(ready, direction, Signal())
    }
  }
}

/** What the breakout classifications hand over. */
module ChannelOscillatorProperties {
  import opened SignalTypes
  import opened ChannelOscillators

  /** Before the price indicator is ready, every classification handed over is InBetween. */
  lemma NotReadyIsInBetween(price: real, band: real)
    ensures MaxState(false, price, band) == InBetween && MinState(false, price, band) == InBetween
  {
  }

  /**
   * A LongOnly signal can only be told AboveUpper by a maximum update, and a
   * ShortOnly one BelowLower by a minimum update: the two handlers never
   * hand over each other's breakout.
   */
  lemma HandlersAreOneSided(ready: bool, price: real, band: real)
    ensures MaxState(ready, price, band) in {AboveUpper, InBetween}
    ensures MinState(ready, price, band) in {BelowLower, InBetween}
  {
  }

  /** A price equal to the delayed band is no breakout: both comparisons are strict. */
  lemma BandTouchIsNoBreakout(price: real)
    ensures MaxState(true, price, price) == InBetween && MinState(true, price, price) == InBetween
  {
  }
}
