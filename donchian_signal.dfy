/**
 * DonchianSignal (GeneticTree/Signal/DonchianSignal.cs): every ready price
 * update classifies the price against the Donchian channel as 1 (at or above
 * the upper band), -1 (at or below the lower band) or 0, and keeps the last
 * `periods` classifications in a survival window, newest first. The signal
 * holds when the whole window agrees with the trade direction.
 *
 * The RollingWindow is a sequence with its newest entry at index 0 and at
 * most `periods` entries; reading an entry it does not hold is an error.
 * Readiness, the price and the band values are handler inputs.
 */
module Donchian {
  import opened Wrappers
  import opened SignalTypes

  /** The RollingWindow indexer's ArgumentOutOfRangeException. */
  datatype WindowError = IndexOutOfRange(index: nat)

  /** The classification Price_Updated appends; the upper test runs first. */
  function Classify(price: real, upper: real, lower: real): (v: int)
    ensures -1 <= v <= 1
    ensures v == 1 <==> price >= upper
    ensures v == -1 <==> price < upper && price <= lower
  {
    if price >= upper then 1
    else if price <= lower then -1
    else 0
  }

  /** RollingWindow.Add: the new entry goes to index 0 and the oldest falls out once the window is full. */
  function Push(window: seq<int>, capacity: nat, x: int): (w: seq<int>)
    requires capacity >= 1
    ensures |w| == if |window| < capacity then |window| + 1 else capacity
    ensures w[0] == x
    ensures forall k :: 1 <= k < |w| ==> w[k] == window[k - 1]
  {
    var all := [x] + window;
    all[..if |window| < capacity then |window| + 1 else capacity]
  }

  /** The window built by adding `history` in order to an empty window: its newest entries, newest first. */
  function Recent(history: seq<int>, capacity: nat): (w: seq<int>)
    ensures |w| == if |history| < capacity then |history| else capacity
    ensures forall k :: 0 <= k < |w| ==> w[k] == history[|history| - 1 - k]
    decreases |history|
  {
    if history == [] || capacity == 0 then []
    else [history[|history| - 1]] + Recent(history[..|history| - 1], capacity - 1)
  }

  /** Adding one entry to the window of a history gives the window of the longer history. */
  lemma PushRecent(history: seq<int>, capacity: nat, x: int)
    requires capacity >= 1
    ensures Push(Recent(history, capacity), capacity, x) == Recent(history + [x], capacity)
  {
    var h := history + [x];
    assert forall k :: 0 <= k < |history| ==> h[k] == history[k];
  }

  /**
   * The window is the RollingWindow built from `history`, and every entry of
   * the history is a classification.
   */
  ghost predicate Consistent(window: seq<int>, history: seq<int>, capacity: nat)
  {
    && capacity >= 1
    && window == Recent(history, capacity)
    && forall k :: 0 <= k < |history| ==> -1 <= history[k] <= 1
  }

  /** Adding a classification keeps the window consistent with the longer history. */
  lemma ConsistentPush(window: seq<int>, history: seq<int>, capacity: nat, x: int)
    requires Consistent(window, history, capacity) && -1 <= x <= 1
    ensures Consistent(Push(window, capacity, x), history + [x], capacity)
  {
    PushRecent(history, capacity, x);
  }

  predicate AllEqual(window: seq<int>, x: int)
  {
    forall k :: 0 <= k < |window| ==> window[k] == x
  }

  /** The direction's survival value: 1 for LongOnly, -1 for ShortOnly. */
  function Target(direction: Direction): int
  {
    match direction
    case LongOnly => 1
    case ShortOnly => -1
  }

  class DonchianSignal {
    /** The window's capacity. */
    const periods: nat
    const direction: Direction
    /** SurvivalWindow, newest entry first. */
    var window: seq<int>
    /** Every classification appended so far, oldest first. */
    ghost var history: seq<int>

    ghost predicate Valid()
      reads this
    {
      Consistent(window, history, periods)
    }

    /** A RollingWindow needs a size of at least one. */
    constructor (periods: nat, direction: Direction := LongOnly)
      requires periods >= 1
      ensures Valid()
      ensures this.periods == periods && this.direction == direction && window == [] && history == []
    {
      this.periods := periods;
      this.direction := direction;
      window := [];
      history := [];
    }

    /** Price_Updated: when ready, append the classification of the price against the bands. */
    method PriceUpdated(ready: bool, price: real, upper: real, lower: real)
      requires Valid()
      modifies this
      ensures Valid()
      ensures history == old(history) + if ready then [Classify(price, upper, lower)] else []
      ensures window == if ready then Push(old(window), periods, Classify(price, upper, lower)) else old(window)
    {
      if ready {
        var v: int;
        if price >= upper {
          v := 1;
        } else if price <= lower {
          v := -1;
        } else {
          v := 0;
        }
        ConsistentPush(window, history, periods, v);
        window, history := Push(window, periods, v), history + [v];
      }
    }

    /**
     * Max_Updated: when ready and the indicator's current value equals the
     * band's new value, append 1. Nothing subscribes it to an event, so in
     * the running program it is never called.
     */
    method MaxUpdated(ready: bool, current: real, updated: real)
      requires Valid()
      modifies this
      ensures Valid()
      ensures history == old(history) + if ready && current == updated then [1] else []
    {
      if ready && current == updated {
        ConsistentPush(window, history, periods, 1);
        window, history := Push(window, periods, 1), history + [1];
      }
    }

    /** Min_Updated: as Max_Updated with -1; also never subscribed. */
    method MinUpdated(ready: bool, current: real, updated: real)
      requires Valid()
      modifies this
      ensures Valid()
      ensures history == old(history) + if ready && current == updated then [-1] else []
    {
      if ready && current == updated {
        ConsistentPush(window, history, periods, -1);
        window, history := Push(window, periods, -1), history + [-1];
      }
    }

    /**
     * IsTrue, with IsReady (price indicator and channel both ready) as input:
     * the newest entry must be the direction's value and every other entry
     * equal to it. Reading the newest entry of an empty window fails.
     */
    method IsTrue(ready: bool) returns (r: Result<bool, WindowError>)
      requires Valid()
      ensures !ready ==> r == Ok(false)
      ensures ready && window == [] ==> r == Err(IndexOutOfRange(0))
      ensures ready && window != [] ==> r == Ok(AllEqual(window, Target(direction)))
    {
      if !ready {
        return Ok(false);
      }
      if |window| == 0 {
        return Err(IndexOutOfRange(0));
      }
      var signal := window[0] == Target(direction);
      var i := 1;
      while signal && i < |window|
        invariant 1 <= i <= |window|
        invariant signal ==> window[0] == Target(direction) && forall k :: 0 <= k < i ==> window[k] == window[0]
        invariant !signal ==> !AllEqual(window, Target(direction))
        decreases |window| - i
      {
        if window[0] != window[i] {
          signal := false;
        }
        i := i + 1;
      }
      r := Ok(signal);
    }

    /** Value: the newest window entry. */
    method Value() returns (r: Result<int, WindowError>)
      requires Valid()
      ensures window == [] ==> r == Err(IndexOutOfRange(0))
      ensures window != [] ==> r == Ok(window[0]) && -1 <= r.value <= 1
    {
      if |window| == 0 {
        return Err(IndexOutOfRange(0));
      }
      assert window[0] == history[|history| - 1];
      r := Ok(window[0]);
    }
  }
}

/** The survival rule over the whole history of price updates. */
module DonchianProperties {
  import opened SignalTypes
  import opened Donchian

  /**
   * The signal holds exactly when the last `periods` ready updates (or all
   * of them, if there were fewer) classified as the direction's value.
   */
  lemma {:induction false} SurvivalOverHistory(history: seq<int>, periods: nat, direction: Direction)
    requires periods >= 1 && |history| >= 1
    ensures AllEqual(Recent(history, periods), Target(direction)) <==>
      forall k :: |history| - (if |history| < periods then |history| else periods) <= k < |history| ==>
        history[k] == Target(direction)
  {
    var w := Recent(history, periods);
    var n := |history|;
    if AllEqual(w, Target(direction)) {
      forall k | n - |w| <= k < n
        ensures history[k] == Target(direction)
      {
        assert w[n - 1 - k] == history[k];
      }
    }
  }

  /** A price strictly inside the channel breaks a LongOnly survival run. */
  lemma MiddlePriceBreaksLongRun(history: seq<int>, periods: nat, price: real, upper: real, lower: real)
    requires periods >= 1 && lower < price < upper
    ensures !AllEqual(Recent(history + [Classify(price, upper, lower)], periods), Target(LongOnly))
  {
    var h := history + [Classify(price, upper, lower)];
    assert Recent(h, periods)[0] == 0;
  }
}
