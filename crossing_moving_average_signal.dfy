/**
 * CrossingMovingAverageSignal (GeneticTree/Signal/CrossingMovingAverageSignal.cs):
 * follows the sign of fast - slow and reports the update on which the sign
 * flips. States are the integer codes of CrossingMovingAveragesSignals
 * (Bullish 1, Bearish -1, FastCrossSlowFromBelow 2, FastCrossSlowFromAbove -2)
 * plus the unnamed 0 that a zero difference produces. The difference
 * indicator's value and readiness are inputs of the handler.
 */
module CrossingMovingAverages {
  import opened SignalTypes

  const Bullish: int := 1
  const Bearish: int := -1
  const FastCrossSlowFromBelow: int := 2
  const FastCrossSlowFromAbove: int := -2

  /** A sign: -1, 0 or 1. */
  predicate IsTrit(x: int)
  {
    -1 <= x <= 1
  }

  /** Math.Sign on a decimal. */
  function Sign(x: real): (s: int)
    ensures IsTrit(s)
    ensures (s == 1 <==> x > 0.0) && (s == -1 <==> x < 0.0)
  {
    if x > 0.0 then 1 else if x < 0.0 then -1 else 0
  }

  function Abs(x: int): nat
  {
    if x < 0 then -x else x
  }

  /**
   * The new Signal after a ready update whose difference has sign `s`, given
   * the old Signal and `_lastSignal`. With a non-zero difference the Signal
   * has the difference's sign, and it is a crossing exactly when the sign
   * flipped from the opposite one. A zero difference gives 0 after a 0 and
   * leaves the Signal alone otherwise, since no branch matches.
   */
  function NextSignal(signal: int, last: int, s: int): (r: int)
    requires IsTrit(s)
    ensures IsTrit(last) && s != 0 ==> Sign(r as real) == s && (Abs(r) == 2 <==> last == -s)
    ensures s == 0 ==> r == if last == 0 then 0 else signal
  {
    if s == last || last == 0 then s
    else if last == -1 && s == 1 then FastCrossSlowFromBelow
    else if last == 1 && s == -1 then FastCrossSlowFromAbove
    else signal
  }

  /**
   * IsTrue: false while not ready; LongOnly holds on FastCrossSlowFromBelow
   * and ShortOnly on FastCrossSlowFromAbove.
   */
  function CrossingHolds(ready: bool, direction: Direction, signal: int): (r: bool)
    ensures r ==> ready
    ensures direction == LongOnly ==> (r <==> ready && signal == FastCrossSlowFromBelow)
    ensures direction == ShortOnly ==> (r <==> ready && signal == FastCrossSlowFromAbove)
  {
    if !ready then false
    else match direction
      case LongOnly => signal == FastCrossSlowFromBelow
      case ShortOnly => signal == FastCrossSlowFromAbove
  }

  class CrossingMovingAverageSignal {
    const direction: Direction
    /** The public state `Signal`. */
    var signal: int
    /** `_lastSignal`: the sign of the difference at the last ready update. */
    var lastSignal: int

    ghost predicate Valid()
      reads this
    {
      IsTrit(lastSignal) && -2 <= signal <= 2
    }

    constructor (direction: Direction)
      ensures Valid()
      ensures this.direction == direction && signal == 0 && lastSignal == 0
    {
      this.direction := direction;
      signal, lastSignal := 0, 0;
    }

    /** ma_Updated, called with the difference indicator's readiness and value. */
    method MaUpdated(ready: bool, difference: real)
      requires Valid()
      modifies this
      ensures Valid()
      ensures !ready ==> signal == old(signal) && lastSignal == old(lastSignal)
      ensures ready ==> (lastSignal == Sign(difference)
        && signal == NextSignal(old(signal), old(lastSignal), Sign(difference)))
    {
      if !ready {
        return;
      }
      var actualSignal := Sign(difference);
      if actualSignal == lastSignal || lastSignal == 0 {
        signal := actualSignal;
      } else if lastSignal == -1 && actualSignal == 1 {
        signal := FastCrossSlowFromBelow;
      } else if lastSignal == 1 && actualSignal == -1 {
        signal := FastCrossSlowFromAbove;
      }
      lastSignal := actualSignal;
    }

    /** IsTrue, with the difference indicator's readiness (IsReady) as input. */
    function IsTrue(ready: bool): bool
      reads this
    {
      CrossingHolds(ready, direction, signal)
    }
  }
}

/** The crossing detector over whole runs of ready updates. */
module CrossingMovingAverageProperties {
  import opened SignalTypes
  import opened CrossingMovingAverages

  /** The (Signal, _lastSignal) pair after the given ready differences. */
  datatype State = State(signal: int, last: int)

  function Step(st: State, difference: real): (r: State)
    ensures r.last == Sign(difference)
  {
    State(NextSignal(st.signal, st.last, Sign(difference)), Sign(difference))
  }

  function Run(st: State, differences: seq<real>): (r: State)
    ensures differences != [] ==> r.last == Sign(differences[|differences| - 1])
    ensures differences == [] ==> r == st
    decreases |differences|
  {
    if differences == [] then st
    else Step(Run(st, differences[..|differences| - 1]), differences[|differences| - 1])
  }

  /**
   * After a run the state is FastCrossSlowFromBelow (a LongOnly signal
   * holds) exactly when the last two differences were negative then
   * positive, or the last one is zero after a non-zero one and the state was
   * already FastCrossSlowFromBelow.
   */
  lemma {:induction false} LongHoldsAfterRun(st: State, differences: seq<real>)
    requires IsTrit(st.last) && |differences| >= 2
    ensures var r := Run(st, differences);
      var n := |differences|;
      r.signal == FastCrossSlowFromBelow <==>
        (differences[n - 2] < 0.0 && differences[n - 1] > 0.0)
        || (differences[n - 1] == 0.0 && differences[n - 2] != 0.0
            && Run(st, differences[..n - 1]).signal == FastCrossSlowFromBelow)
  {
    var n := |differences|;
    var init := differences[..n - 1];
    assert init[|init| - 1] == differences[n - 2];
    var mid := Run(st, init);
    assert mid.last == Sign(differences[n - 2]);
  }

  /** A crossing lasts only until the next update with the same sign. */
  lemma CrossingLastsOneUpdate()
    ensures NextSignal(FastCrossSlowFromBelow, 1, 1) == Bullish
    ensures NextSignal(FastCrossSlowFromAbove, -1, -1) == Bearish
  {
  }

  /** A zero difference after a crossing keeps the crossing. */
  lemma ZeroKeepsCrossing()
    ensures NextSignal(FastCrossSlowFromBelow, 1, 0) == FastCrossSlowFromBelow
    ensures NextSignal(FastCrossSlowFromAbove, -1, 0) == FastCrossSlowFromAbove
  {
  }
}
