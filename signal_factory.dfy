/**
 * SignalFactory (GeneticTree/SignalFactory.cs): builds the signals of one
 * rule from configuration and wires them into a linear chain.
 *
 * Configuration is a map from key to integer; a key that is absent reads as
 * 0, as GetConfigValue's failed parse and default do. The indicators a
 * signal wraps are not built here: a created signal records which signal
 * class was chosen, with the direction and the constant arguments it gets.
 */
module SignalFactories {
  import Wrappers
  import opened SignalTypes
  import SignalChain

  /** The enum TechnicalIndicator; a cast from an integer can yield an unnamed code. */
  datatype TechnicalIndicator =
    | None
    | SimpleMovingAverage
    | MovingAverageConvergenceDivergence
    | Stochastic
    | RelativeStrengthIndex
    | CommodityChannelIndex
    | MomentumPercent
    | WilliamsPercentR
    | PercentagePriceOscillator
    | AverageDirectionalIndex
    | NormalizedAverageTrueRange
    | BollingerBands
    | ExponentialMovingAverage
    | ChannelBreakout
    | DonchianTrend
    | UnnamedIndicator(code: int)

  /** The cast `(TechnicalIndicator)c`. */
  function IndicatorFromCode(c: int): (t: TechnicalIndicator)
    ensures t.UnnamedIndicator? <==> !(-1 <= c <= 13)
    ensures t.UnnamedIndicator? ==> t.code == c
  {
    match c
    case -1 => None
    case 0 => SimpleMovingAverage
    case 1 => MovingAverageConvergenceDivergence
    case 2 => Stochastic
    case 3 => RelativeStrengthIndex
    case 4 => CommodityChannelIndex
    case 5 => MomentumPercent
    case 6 => WilliamsPercentR
    case 7 => PercentagePriceOscillator
    case 8 => AverageDirectionalIndex
    case 9 => NormalizedAverageTrueRange
    case 10 => BollingerBands
    case 11 => ExponentialMovingAverage
    case 12 => ChannelBreakout
    case 13 => DonchianTrend
    case _ => UnnamedIndicator(c)
  }

  /** `indicator.ToString()` for a named member. */
  function IndicatorName(t: TechnicalIndicator): string
    requires !t.UnnamedIndicator?
  {
    match t
    case None => "None"
    case SimpleMovingAverage => "SimpleMovingAverage"
    case MovingAverageConvergenceDivergence => "MovingAverageConvergenceDivergence"
    case Stochastic => "Stochastic"
    case RelativeStrengthIndex => "RelativeStrengthIndex"
    case CommodityChannelIndex => "CommodityChannelIndex"
    case MomentumPercent => "MomentumPercent"
    case WilliamsPercentR => "WilliamsPercentR"
    case PercentagePriceOscillator => "PercentagePriceOscillator"
    case AverageDirectionalIndex => "AverageDirectionalIndex"
    case NormalizedAverageTrueRange => "NormalizedAverageTrueRange"
    case BollingerBands => "BollingerBands"
    case ExponentialMovingAverage => "ExponentialMovingAverage"
    case ChannelBreakout => "ChannelBreakout"
    case DonchianTrend => "DonchianTrend"
  }

  /**
   * The signal class CreateIndicator picks, with the direction and the
   * constant arguments it passes.
   */
  datatype SignalKind =
    | Empty
    | CrossingMovingAverage(direction: Direction)
      /** `new OscillatorSignal(indicator, new[] { lower, upper }, direction)` */
    | OscillatorWithThresholds(lower: int, upper: int, direction: Direction)
      /** `new OscillatorSignal(indicator, direction, survivalPeriod)` */
    | OscillatorWithSurvival(direction: Direction, survivalPeriod: int)
    | BBOscillator(direction: Direction, survivalPeriod: int)
    | ChannelOscillator(direction: Direction, survivalPeriod: int)
    | Donchian(periods: int, direction: Direction)

  /** A created signal: its class and its settable Child, Parent, Operator and Name. */
  datatype Signal = Signal(kind: SignalKind, links: SignalChain.Links)

  /** The NullReferenceException of `signal.Name = …` when no switch case matched. */
  datatype FactoryError = NullReference(indicatorCode: int)

  /** GetConfigValue: an absent key reads as 0. */
  function ConfigValue(config: map<string, int>, key: string): (v: int)
    ensures key in config ==> v == config[key]
    ensures key !in config ==> v == 0
  {
    if key in config then config[key] else 0
  }

  function DigitChar(d: nat): (c: char)
    requires d < 10
    ensures '0' <= c <= '9'
  {
    "0123456789"[d]
  }

  /** `i.ToString()` for a non-negative integer: its decimal digits. */
  function NatToString(n: nat): (s: string)
    ensures |s| >= 1 && forall k :: 0 <= k < |s| ==> '0' <= s[k] <= '9'
    decreases n
  {
    if n < 10 then [DigitChar(n)] else NatToString(n / 10) + [DigitChar(n % 10)]
  }

  /** Reads decimal digits back as a number. */
  function ParseDigits(s: string): nat
    requires forall k :: 0 <= k < |s| ==> '0' <= s[k] <= '9'
    decreases |s|
  {
    if s == [] then 0 else ParseDigits(s[..|s| - 1]) * 10 + (s[|s| - 1] as int - '0' as int)
  }

  /** "Entry" for an entry rule, "Exit" otherwise. */
  function EntryOrExit(isEntryRule: bool): string
  {
    if isEntryRule then "Entry" else "Exit"
  }

  function OperatorKey(entryOrExit: string, i: nat): string
  {
    entryOrExit + "Operator" + NatToString(i)
  }

  function IndicatorKey(entryOrExit: string, i: nat): string
  {
    entryOrExit + "Indicator" + NatToString(i)
  }

  function DirectionKey(entryOrExit: string, i: nat): string
  {
    entryOrExit + "Indicator" + NatToString(i) + "Direction"
  }

  /** The direction mapping: 0 is LongOnly and every other value ShortOnly. */
  function DirectionFromConfig(v: int): (d: Direction)
    ensures d == LongOnly <==> v == 0
  {
    if v == 0 then LongOnly else ShortOnly
  }

  /** The signal class chosen for a named indicator. */
  function KindOf(t: TechnicalIndicator, direction: Direction, enableSurvival: bool): (k: Wrappers.Option<SignalKind>)
    ensures k.None? <==> t.UnnamedIndicator?
    ensures k == Wrappers.Some(Empty) <==> t == None || t == NormalizedAverageTrueRange
  {
    match t
    case SimpleMovingAverage => Wrappers.Some(CrossingMovingAverage(direction))
    case MovingAverageConvergenceDivergence => Wrappers.Some(CrossingMovingAverage(direction))
    case Stochastic => Wrappers.Some(OscillatorWithSurvival(direction, if enableSurvival then 3 else 1))
    case RelativeStrengthIndex => Wrappers.Some(OscillatorWithThresholds(30, 70, direction))
    case CommodityChannelIndex => Wrappers.Some(OscillatorWithThresholds(-100, 100, direction))
    case MomentumPercent => Wrappers.Some(OscillatorWithThresholds(-5, 5, direction))
    case WilliamsPercentR => Wrappers.Some(OscillatorWithThresholds(-20, -80, direction))
    case PercentagePriceOscillator => Wrappers.Some(CrossingMovingAverage(direction))
    case None => Wrappers.Some(Empty)
    case AverageDirectionalIndex => Wrappers.Some(OscillatorWithThresholds(25, 25, direction))
    case NormalizedAverageTrueRange => Wrappers.Some(Empty)
    case BollingerBands => Wrappers.Some(BBOscillator(direction, if enableSurvival then 4 else 1))
    case ExponentialMovingAverage => Wrappers.Some(CrossingMovingAverage(direction))
    case ChannelBreakout => Wrappers.Some(ChannelOscillator(direction, if enableSurvival then 4 else 1))
    case DonchianTrend => Wrappers.Some(Donchian(2, direction))
    case UnnamedIndicator(_) => Wrappers.None
  }

  /**
   * CreateIndicator for slot i: reads `<prefix>Indicator<i>Direction` and
   * `<prefix>Indicator<i>`, builds the chosen signal with no links and the
   * default operator, and names it after the indicator. An undefined
   * indicator code leaves the signal null and fails on naming it.
   */
  function CreateIndicator(config: map<string, int>, i: nat, entryOrExit: string, enableSurvival: bool): (r: Wrappers.Result<Signal, FactoryError>)
    ensures var code := ConfigValue(config, IndicatorKey(entryOrExit, i));
      r.Err? <==> !(-1 <= code <= 13)
    ensures r.Err? ==> r.error == NullReference(ConfigValue(config, IndicatorKey(entryOrExit, i)))
    ensures r.Ok? ==> r.value.links == SignalChain.Links(Wrappers.None, Wrappers.None, DefaultOperator,
      IndicatorName(IndicatorFromCode(ConfigValue(config, IndicatorKey(entryOrExit, i)))))
    ensures r.Ok? && !r.value.kind.Empty? ==>
      r.value.kind.direction == DirectionFromConfig(ConfigValue(config, DirectionKey(entryOrExit, i)))
  {
    var direction := DirectionFromConfig(ConfigValue(config, DirectionKey(entryOrExit, i)));
    var indicator := IndicatorFromCode(ConfigValue(config, IndicatorKey(entryOrExit, i)));
    match KindOf(indicator, direction, enableSurvival)
    case None => Wrappers.Err(NullReference(indicator.code))
    case Some(kind) =>
      Wrappers.Ok(Signal(kind, SignalChain.Links(Wrappers.None, Wrappers.None, DefaultOperator, IndicatorName(indicator))))
  }

  /** What Create's loop calls to create the signal of slot i: CreateIndicator. */
  type Creator = nat -> Wrappers.Result<Signal, FactoryError>

  /** What Create's loop reads as the operator of slot i. */
  type OperatorGene = nat -> Operator

  /** SignalFactory's CreateIndicator for one rule. */
  function Slots(config: map<string, int>, entryOrExit: string, enableSurvival: bool): Creator
  {
    (i: nat) => CreateIndicator(config, i, entryOrExit, enableSurvival)
  }

  /** The operator gene: `(Operator)GetConfigValue(<prefix>Operator<i>)`. */
  function Operators(config: map<string, int>, entryOrExit: string): OperatorGene
  {
    (i: nat) => OperatorFromCode(ConfigValue(config, OperatorKey(entryOrExit, i)))
  }

  /** Every slot 1..n creates a signal. */
  predicate AllCreated(create: Creator, n: nat)
  {
    forall i :: 1 <= i <= n ==> create(i).Ok?
  }

  /** Every signal the creator makes starts without a Child. */
  ghost predicate Unlinked(create: Creator)
  {
    forall i :: create(i).Ok? ==> create(i).value.links.child.None?
  }

  /** CreateIndicator builds each signal without links. */
  lemma SlotsUnlinked(config: map<string, int>, entryOrExit: string, enableSurvival: bool)
    ensures Unlinked(Slots(config, entryOrExit, enableSurvival))
  {
  }

  /**
   * Create's links for the k-th (0-based) of n created signals: Child is the
   * next signal and Parent the previous one, and every signal but the last
   * takes the operator read for its slot.
   */
  function Link(created: Signal, k: nat, n: nat, op: Operator): (s: Signal)
    ensures s.kind == created.kind && s.links.name == created.links.name
    ensures s.links.child.Some? <==> k + 1 < n
    ensures s.links.parent.Some? <==> k > 0
  {
    created.(links := created.links.(
      child := if k + 1 < n then Wrappers.Some(k + 1) else Wrappers.None,
      parent := if k > 0 then Wrappers.Some(k - 1) else Wrappers.None,
      op := if k + 1 < n then op else created.links.op))
  }

  /** The k-th signal (0-based) of a chain of n: the signal of slot k + 1, linked. */
  function Wired(create: Creator, operators: OperatorGene, n: nat, k: nat): Signal
    requires k < n && create(k + 1).Ok?
  {
    Link(create(k + 1).value, k, n, operators(k + 1))
  }

  /**
   * One iteration of Create's loop on a list of m signals: the previous last
   * signal gets the new one as Child; the new one gets the operator read for
   * its slot unless it is the last of n, and the previous last as Parent.
   */
  function Attach(list: seq<Signal>, created: Signal, n: nat, op: Operator): (l: seq<Signal>)
    ensures |l| == |list| + 1
  {
    var m := |list|;
    var linked := if m > 0 then list[m - 1 := list[m - 1].(links := list[m - 1].links.(child := Wrappers.Some(m)))] else list;
    linked + [created.(links := created.links.(
      op := if m + 1 < n then op else created.links.op,
      parent := if m > 0 then Wrappers.Some(m - 1) else Wrappers.None))]
  }

  /**
   * The list after the first m slots of a chain of n, or the error of the
   * first slot that creates none.
   */
  function Built(create: Creator, operators: OperatorGene, n: nat, m: nat): (r: Wrappers.Result<seq<Signal>, FactoryError>)
    ensures r.Ok? ==> |r.value| == m
    decreases m
  {
    if m == 0 then Wrappers.Ok([])
    else
      var prev := Built(create, operators, n, m - 1);
      if prev.Err? then prev
      else if create(m).Err? then Wrappers.Err(create(m).error)
      else Wrappers.Ok(Attach(prev.value, create(m).value, n, operators(m)))
  }

  /** Once a slot fails, every longer prefix fails with the same error. */
  lemma {:induction false} ErrorPersists(create: Creator, operators: OperatorGene, n: nat, i: nat, m: nat)
    requires i <= m && Built(create, operators, n, i).Err?
    ensures Built(create, operators, n, m) == Built(create, operators, n, i)
    decreases m
  {
    if m > i {
      ErrorPersists(create, operators, n, i, m - 1);
    }
  }

  /** The first m slots build exactly when each of them creates a signal. */
  lemma {:induction false} BuiltDefined(create: Creator, operators: OperatorGene, n: nat, m: nat)
    ensures Built(create, operators, n, m).Ok? <==> AllCreated(create, m)
    decreases m
  {
    if m > 0 {
      BuiltDefined(create, operators, n, m - 1);
      if !AllCreated(create, m - 1) {
        var i :| 1 <= i <= m - 1 && !create(i).Ok?;
        assert !AllCreated(create, m);
      }
    }
  }

  /** The error is that of the first slot that creates no signal. */
  lemma {:induction false} BuiltError(create: Creator, operators: OperatorGene, n: nat, m: nat)
    requires Built(create, operators, n, m).Err?
    ensures exists i :: (1 <= i <= m && AllCreated(create, i - 1)
      && create(i).Err? && Built(create, operators, n, m).error == create(i).error)
    decreases m
  {
    BuiltDefined(create, operators, n, m - 1);
    if Built(create, operators, n, m - 1).Err? {
      BuiltError(create, operators, n, m - 1);
    } else {
      assert AllCreated(create, m - 1);
    }
  }

  /**
   * The first m of n signals are linked as in the finished chain, except
   * that the last of them has no Child yet.
   */
  lemma {:induction false} BuiltLinks(create: Creator, operators: OperatorGene, n: nat, m: nat)
    requires m <= n && AllCreated(create, m) && Unlinked(create)
    ensures Built(create, operators, n, m).Ok?
    ensures forall k :: 0 <= k < m ==>
      var w := Wired(create, operators, n, k);
      Built(create, operators, n, m).value[k] == if k + 1 == m then w.(links := w.links.(child := Wrappers.None)) else w
    decreases m
  {
    BuiltDefined(create, operators, n, m);
    if m > 0 {
      assert AllCreated(create, m - 1);
      BuiltLinks(create, operators, n, m - 1);
      var prev := Built(create, operators, n, m - 1).value;
      var l := Built(create, operators, n, m).value;
      assert l == Attach(prev, create(m).value, n, operators(m));
      forall k | 0 <= k < m
        ensures var w := Wired(create, operators, n, k);
          l[k] == if k + 1 == m then w.(links := w.links.(child := Wrappers.None)) else w
      {
        if k + 1 == m {
          assert create(m).value.links.child.None?;
        }
      }
    }
  }

  /**
   * The loop of Create (and of its abstract base): creates signals
   * 1..maximumSignals in order and links each to the previous one. The
   * first slot that creates no signal ends it with that slot's error.
   */
  method LinkSignals(create: Creator, operators: OperatorGene, maximumSignals: int)
    returns (r: Wrappers.Result<seq<Signal>, FactoryError>)
    ensures var n := if maximumSignals < 0 then 0 else maximumSignals;
      r == Built(create, operators, n, n)
  {
    var n := if maximumSignals < 0 then 0 else maximumSignals;
    var parent: Wrappers.Option<nat> := Wrappers.None;
    var list: seq<Signal> := [];
    var i := 1;
    while i <= maximumSignals
      invariant 1 <= i && i - 1 <= n && |list| == i - 1
      invariant parent == if i == 1 then Wrappers.None else Wrappers.Some(i - 2)
      invariant Built(create, operators, n, i - 1) == Wrappers.Ok(list)
      decreases maximumSignals - i
    {
      var created := create(i);
      if created.Err? {
        r := Wrappers.Err(created.error);
        ErrorPersists(create, operators, n, i, n);
        return;
      }
      var item := created.value;
      if parent.Some? {
        var p := parent.value;
        list := list[p := list[p].(links := list[p].links.(child := Wrappers.Some(|list|)))];
      }
      if i < maximumSignals {
        item := item.(links := item.links.(op := operators(i)));
      }
      item := item.(links := item.links.(parent := parent));
      parent := Wrappers.Some(|list|);
      list := list + [item];
      i := i + 1;
    }
    r := Wrappers.Ok(list);
  }

  /** Every slot 1..n of the configuration holds a defined indicator code, -1 to 13. */
  predicate AllDefined(config: map<string, int>, entryOrExit: string, n: nat)
  {
    forall i :: 1 <= i <= n ==> -1 <= ConfigValue(config, IndicatorKey(entryOrExit, i)) <= 13
  }

  class SignalFactory {
    const maximumSignals: int
    var period: int
    var slowPeriod: int
    var fastPeriod: int
    var signalPeriod: int
    var ignorePeriod: bool
    var enableSurvival: bool

    constructor (maximumSignals: int := 5)
      ensures this.maximumSignals == maximumSignals
      ensures period == 0 && slowPeriod == 0 && fastPeriod == 0 && signalPeriod == 0
      ensures !ignorePeriod && !enableSurvival
    {
      this.maximumSignals := maximumSignals;
      period, slowPeriod, fastPeriod, signalPeriod := 0, 0, 0, 0;
      ignorePeriod, enableSurvival := false, false;
    }

    /**
     * Create: reads the periods unless they are to be ignored, then creates
     * signals 1..maximumSignals in order, linking each to the previous one.
     * The list is what the rule is built from.
     */
    method Create(config: map<string, int>, isEntryRule: bool, ignorePeriod: bool, enableSurvival: bool)
      returns (r: Wrappers.Result<seq<Signal>, FactoryError>)
      modifies this
      ensures this.ignorePeriod == ignorePeriod && this.enableSurvival == enableSurvival
      ensures ignorePeriod ==> (period == old(period) && slowPeriod == old(slowPeriod)
        && fastPeriod == old(fastPeriod) && signalPeriod == old(signalPeriod))
      ensures !ignorePeriod ==> (period == ConfigValue(config, "period") && slowPeriod == ConfigValue(config, "slowPeriod")
        && fastPeriod == ConfigValue(config, "fastPeriod") && signalPeriod == ConfigValue(config, "signalPeriod"))
      ensures var n := if maximumSignals < 0 then 0 else maximumSignals;
        r == Built(Slots(config, EntryOrExit(isEntryRule), enableSurvival), Operators(config, EntryOrExit(isEntryRule)), n, n)
    {
      this.ignorePeriod := ignorePeriod;
      this.enableSurvival := enableSurvival;
      if !ignorePeriod {
        period := ConfigValue(config, "period");
        slowPeriod := ConfigValue(config, "slowPeriod");
        fastPeriod := ConfigValue(config, "fastPeriod");
        signalPeriod := ConfigValue(config, "signalPeriod");
      }
      var entryOrExit := EntryOrExit(isEntryRule);
      r := LinkSignals(Slots(config, entryOrExit, this.enableSurvival), Operators(config, entryOrExit), maximumSignals);
    }
  }
}

/** What Create builds, stated against the chain models of Rule and SignalBase. */
module SignalFactoryProperties {
  import Wrappers
  import opened SignalTypes
  import opened SignalFactories
  import SignalChain
  import SignalChainProperties
  import Rules
  import RuleProperties

  /** The settable properties of the n signals Create wires. */
  function WiredLinks(create: Creator, operators: OperatorGene, n: nat): (ls: seq<SignalChain.Links>)
    requires AllCreated(create, n)
    ensures |ls| == n
    ensures forall k :: 0 <= k < n ==> ls[k] == Wired(create, operators, n, k).links
  {
    seq(n, k requires 0 <= k < n => Wired(create, operators, n, k).links)
  }

  /** The wiring is a linear chain: signal k's Child is signal k + 1, and the last has none. */
  lemma WiredIsLinear(create: Creator, operators: OperatorGene, n: nat)
    requires AllCreated(create, n)
    ensures SignalChainProperties.LinearChildren(WiredLinks(create, operators, n))
    ensures SignalChain.ChildrenForward(WiredLinks(create, operators, n))
  {
    var ls := WiredLinks(create, operators, n);
    forall k | 0 <= k < n
      ensures ls[k].child == if k + 1 < n then Wrappers.Some(k + 1) else Wrappers.None
    {
    }
  }

  /** Parent is exactly the inverse of Child, and the first signal has no Parent. */
  lemma ParentInvertsChild(create: Creator, operators: OperatorGene, n: nat)
    requires AllCreated(create, n)
    ensures var ls := WiredLinks(create, operators, n);
      forall j, k :: 0 <= j < n && 0 <= k < n ==> (ls[k].child == Wrappers.Some(j) <==> ls[j].parent == Wrappers.Some(k))
    ensures n > 0 ==> WiredLinks(create, operators, n)[0].parent.None?
  {
  }

  /**
   * Every signal but the last takes the operator read for its slot; the last
   * keeps the operator it was created with, and every signal keeps its name.
   */
  lemma WiredOperators(create: Creator, operators: OperatorGene, n: nat)
    requires AllCreated(create, n)
    ensures var ls := WiredLinks(create, operators, n);
      forall k :: 0 <= k < n ==>
        && ls[k].op == (if k + 1 < n then operators(k + 1) else create(k + 1).value.links.op)
        && ls[k].name == create(k + 1).value.links.name
  {
  }

  /** A slot creates a signal exactly when its indicator code is defined. */
  lemma SlotsDefined(config: map<string, int>, entryOrExit: string, enableSurvival: bool, n: nat)
    ensures AllCreated(Slots(config, entryOrExit, enableSurvival), n) <==> AllDefined(config, entryOrExit, n)
  {
    var create := Slots(config, entryOrExit, enableSurvival);
    assert forall i :: 1 <= i <= n ==> (create(i).Ok? <==> -1 <= ConfigValue(config, IndicatorKey(entryOrExit, i)) <= 13);
  }

  /** Create returns the signals exactly when every slot's indicator code is defined. */
  lemma CreateSucceedsIffDefined(config: map<string, int>, entryOrExit: string, enableSurvival: bool, n: nat)
    ensures Built(Slots(config, entryOrExit, enableSurvival), Operators(config, entryOrExit), n, n).Ok?
      <==> AllDefined(config, entryOrExit, n)
  {
    BuiltDefined(Slots(config, entryOrExit, enableSurvival), Operators(config, entryOrExit), n, n);
    SlotsDefined(config, entryOrExit, enableSurvival, n);
  }

  /** When every code is defined, Create returns the n created signals, wired into a chain. */
  lemma CreateWiresAll(config: map<string, int>, entryOrExit: string, enableSurvival: bool, n: nat)
    requires AllDefined(config, entryOrExit, n)
    ensures AllCreated(Slots(config, entryOrExit, enableSurvival), n)
    ensures var r := Built(Slots(config, entryOrExit, enableSurvival), Operators(config, entryOrExit), n, n);
      r.Ok? && |r.value| == n && forall k :: 0 <= k < n ==>
        r.value[k] == Wired(Slots(config, entryOrExit, enableSurvival), Operators(config, entryOrExit), n, k)
  {
    SlotsDefined(config, entryOrExit, enableSurvival, n);
    SlotsUnlinked(config, entryOrExit, enableSurvival);
    BuiltLinks(Slots(config, entryOrExit, enableSurvival), Operators(config, entryOrExit), n, n);
  }

  /**
   * Otherwise Create fails with the NullReference of the first slot whose
   * indicator code is undefined.
   */
  lemma CreateFailsAtFirstUndefined(config: map<string, int>, entryOrExit: string, enableSurvival: bool, n: nat)
    requires !AllDefined(config, entryOrExit, n)
    ensures var r := Built(Slots(config, entryOrExit, enableSurvival), Operators(config, entryOrExit), n, n);
      r.Err? && exists i :: (1 <= i <= n && AllDefined(config, entryOrExit, i - 1)
        && !(-1 <= ConfigValue(config, IndicatorKey(entryOrExit, i)) <= 13)
        && r.error == NullReference(ConfigValue(config, IndicatorKey(entryOrExit, i))))
  {
    var create, operators := Slots(config, entryOrExit, enableSurvival), Operators(config, entryOrExit);
    CreateSucceedsIffDefined(config, entryOrExit, enableSurvival, n);
    BuiltError(create, operators, n, n);
    var i :| 1 <= i <= n && AllCreated(create, i - 1) && create(i).Err? && Built(create, operators, n, n).error == create(i).error;
    SlotsDefined(config, entryOrExit, enableSurvival, i - 1);
    var code := ConfigValue(config, IndicatorKey(entryOrExit, i));
    assert create(i) == CreateIndicator(config, i, entryOrExit, enableSurvival);
    assert !(-1 <= code <= 13) && create(i).error == NullReference(code);
  }

  /** Every signal CreateIndicator creates starts with the default operator, And. */
  lemma CreatedOperatorIsAnd(config: map<string, int>, entryOrExit: string, enableSurvival: bool, i: nat)
    requires Slots(config, entryOrExit, enableSurvival)(i).Ok?
    ensures Slots(config, entryOrExit, enableSurvival)(i).value.links.op == And
  {
    DefaultOperatorIsAnd();
  }

  /** What Rule reads from the created signals, given each signal's readiness and truth. */
  function RuleNodes(signals: seq<Signal>, ready: seq<bool>, values: seq<bool>): (c: seq<Rules.Node>)
    requires |ready| == |signals| && |values| == |signals|
    ensures |c| == |signals|
    ensures forall k :: 0 <= k < |c| ==>
      c[k] == Rules.Node(ready[k], values[k], signals[k].links.op, signals[k].links.child, Wrappers.None)
  {
    seq(|signals|, k requires 0 <= k < |signals| =>
      Rules.Node(ready[k], values[k], signals[k].links.op, signals[k].links.child, Wrappers.None))
  }

  /**
   * A rule over a created chain evaluates to the right-nested formula
   * `v1 op1 (v2 op2 (… vn))` over the signals' truth values and the
   * operators read for slots 1..n - 1.
   */
  lemma CreatedRuleIsRightNested(create: Creator, operators: OperatorGene, n: nat,
                                 signals: seq<Signal>, ready: seq<bool>, values: seq<bool>)
    requires AllCreated(create, n) && n >= 1
    requires |signals| == n && |ready| == n && |values| == n
    requires forall k :: 0 <= k < n ==> signals[k] == Wired(create, operators, n, k)
    ensures RuleProperties.Linear(RuleNodes(signals, ready, values))
    ensures Rules.LinksForward(RuleNodes(signals, ready, values))
    ensures Rules.IsTrue(RuleNodes(signals, ready, values))
      == RuleProperties.RightNested(values, RuleProperties.Ops(RuleNodes(signals, ready, values)))
    ensures forall k :: 0 <= k < n - 1 ==> RuleProperties.Ops(RuleNodes(signals, ready, values))[k] == operators(k + 1)
  {
    var c := RuleNodes(signals, ready, values);
    assert RuleProperties.Linear(c);
    RuleProperties.LinearIsRightNested(c, 0);
    assert RuleProperties.Values(c) == values;
    assert RuleProperties.Values(c)[0..] == RuleProperties.Values(c);
    assert RuleProperties.Ops(c)[0..] == RuleProperties.Ops(c);
  }

  lemma DigitCharValue(d: nat)
    requires d < 10
    ensures DigitChar(d) as int - '0' as int == d
  {
  }

  /** Reading the decimal digits of n gives n back. */
  lemma {:induction false} ParseNatToString(n: nat)
    ensures ParseDigits(NatToString(n)) == n
    decreases n
  {
    if n < 10 {
      DigitCharValue(n);
    } else {
      var q, d := n / 10, n % 10;
      ParseNatToString(q);
      DigitCharValue(d);
      var t := NatToString(q);
      var s := t + [DigitChar(d)];
      assert NatToString(n) == s;
      assert s[..|s| - 1] == t;
      assert ParseDigits(s) == ParseDigits(t) * 10 + d;
      assert q * 10 + d == n;
    }
  }

  /** Different slots read different operator keys, so each slot has its own operator gene. */
  lemma OperatorKeysDistinct(entryOrExit: string, i: nat, j: nat)
    requires i != j
    ensures OperatorKey(entryOrExit, i) != OperatorKey(entryOrExit, j)
  {
    if OperatorKey(entryOrExit, i) == OperatorKey(entryOrExit, j) {
      var p := |entryOrExit + "Operator"|;
      assert NatToString(i) == OperatorKey(entryOrExit, i)[p..];
      assert NatToString(j) == OperatorKey(entryOrExit, j)[p..];
      ParseNatToString(i);
      ParseNatToString(j);
    }
  }

  /** Entry and exit rules read disjoint operator keys. */
  lemma EntryExitKeysDiffer(i: nat, j: nat)
    ensures OperatorKey(EntryOrExit(true), i) != OperatorKey(EntryOrExit(false), j)
  {
    assert OperatorKey("Entry", i)[1] == 'n' && OperatorKey("Exit", j)[1] == 'x';
  }

  /** The indicator codes None and NormalizedAverageTrueRange both give an EmptySignal. */
  lemma EmptyIndicators(config: map<string, int>, i: nat, entryOrExit: string, enableSurvival: bool)
    requires var code := ConfigValue(config, IndicatorKey(entryOrExit, i)); code == -1 || code == 9
    ensures CreateIndicator(config, i, entryOrExit, enableSurvival).Ok?
    ensures CreateIndicator(config, i, entryOrExit, enableSurvival).value.kind == Empty
  {
  }

  /** Slot 1 of a configuration whose only genes select an RSI for a short entry. */
  lemma RelativeStrengthExample()
    ensures var config := map["EntryIndicator1" := 3, "EntryIndicator1Direction" := 1];
      CreateIndicator(config, 1, "Entry", false)
        == Wrappers.Ok(Signal(OscillatorWithThresholds(30, 70, ShortOnly),
             SignalChain.Links(Wrappers.None, Wrappers.None, And, "RelativeStrengthIndex")))
  {
    assert NatToString(1) == "1";
    assert IndicatorKey("Entry", 1) == "EntryIndicator1";
    assert DirectionKey("Entry", 1) == "EntryIndicator1Direction";
  }
}
