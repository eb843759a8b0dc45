# GeneticTree trading rules in Dafny

GeneticTree evolves trading rules for a QuantConnect algorithm. This project models three parts of it:

- **The rule chain.** A rule is a chain of signals. Each signal knows whether it is ready and whether it currently holds. Each also has an `Operator` that joins it to its successor.
  - `Rule` evaluates the chain recursively from its head.
  - `SignalBase.Update` passes each data point down the `Child` links.
  - `EmptySignal` is a constant leaf.
  - `SignalFactory.Create` builds the chain from the genes in the configuration: one signal per slot, linked head to tail.
- **The signals.** Each one turns indicator updates into a small state:
  - `OscillatorSignal`: a seven-state threshold-crossing machine.
  - `CrossingMovingAverageSignal`: a sign-change detector on fast − slow.
  - `DonchianSignal`: a survival window of channel classifications.
  - `ChannelOscillatorSignal` and `BBOscillatorSignal`: three-way band classifications.
- **The lexer of the boolean-expression language.** This is `Tokenizer`.

The files:

| file | module(s) | models |
|---|---|---|
| `wrappers.dfy` | `Wrappers` | `Option` and `Result` |
| `signal_types.dfy` | `SignalTypes` | `Direction`, `Operator` and the threshold states |
| `rule.dfy` | `Rules`, `RuleProperties` | `GeneticTree/Rule.cs` |
| `signal_base.dfy` | `SignalChain`, `SignalChainProperties` | `GeneticTree/Signal/SignalBase.cs` |
| `empty_signal.dfy` | `EmptySignals`, `EmptySignalProperties` | `GeneticTree/Signal/EmptySignal.cs` |
| `signal_factory.dfy` | `SignalFactories`, `SignalFactoryProperties` | `GeneticTree/SignalFactory.cs` |
| `oscillator_signal.dfy` | `Oscillators`, `OscillatorProperties` | `GeneticTree/Signal/OscillatorSignal.cs` |
| `crossing_moving_average_signal.dfy` | `CrossingMovingAverages`, `CrossingMovingAverageProperties` | `GeneticTree/Signal/CrossingMovingAverageSignal.cs` |
| `donchian_signal.dfy` | `Donchian`, `DonchianProperties` | `GeneticTree/Signal/DonchianSignal.cs` |
| `channel_oscillator_signal.dfy` | `ChannelOscillators`, `ChannelOscillatorProperties` | `GeneticTree/Signal/ChannelOscillatorSignal.cs` |
| `bb_oscillator_signal.dfy` | `BBOscillators`, `BBOscillatorProperties` | `GeneticTree/Signal/BBOscillatorSignals.cs` |
| `tokenizer.dfy` | `BooleanLogicParser`, `BooleanLogicParserProperties` | `GeneticTree/BooleanLogicParser/Tokenizer.cs` |

How the model represents things:

- **Chains.** A chain of signals is a sequence. `Child`, `Parent` and `Sibling` are `Option<nat>` indices into it.
- **Links point forward.** Links must point further down the sequence. On a cyclic chain the C# recursion does not end.
- **Decimals** are `real`s.
- **Enums with arithmetic.** `OscillatorSignals` and `CrossingMovingAveragesSignals` are used through their integer codes, because the code does arithmetic on those codes.
- **`Operator`** is a datatype with an `Unnamed(code)` case. The C# cast `(Operator)n` accepts any integer.
- **Indicators.** Their values and readiness are inputs of the handler methods.
- **Exceptions** are the `Err` case of a `Result`.
- **Stateful objects.** Objects whose fields change are classes:
  - the tokenizer's cursor;
  - the oscillator, crossing, Donchian and channel state;
  - the factory's period fields;
  - the update cascade.
  Their methods are proved against the functions that specify them.

## Model

| member | source | states |
|---|---|---|
| SignalTypes.OperatorFromCode | GeneticTree/SignalFactory.cs:83 | `(Operator)c` yields an operator whose code is `c`; an unnamed value never takes one of the six named codes |
| SignalTypes.OperatorCodeRoundTrip | GeneticTree/Signal/ISignal.cs:38-46 | operator → code → operator is the identity |
| SignalTypes.DefaultOperatorIsAnd | GeneticTree/Signal/ISignal.cs:40 | the default operator (code 0) is `And` |
| Rules.IsTrueAt | GeneticTree/Rule.cs:62-77 | a node without Child or Sibling, or an `And` node, holds only if its own signal does; a non-`And` node holds whenever its own signal does |
| Rules.IsTrue | GeneticTree/Rule.cs:56-59 | a one-signal rule is that signal's `IsTrue()` |
| Rules.IsReadyAt | GeneticTree/Rule.cs:51-54 | readiness is never `false` (it is `true` or a null dereference); a node without a Child is ready exactly when its signal is |
| Rules.IsReady | GeneticTree/Rule.cs:46-49 | the same from the head: never `false`, and a one-signal rule is ready exactly when its signal is |
| RuleProperties.SiblingChoiceIrrelevant | GeneticTree/Rule.cs:36-39 | `andFirst` computes what `and` computes and `orFirst` what `or` computes; the connective is `&&` exactly for `And` |
| RuleProperties.TerminalOperatorIgnored | GeneticTree/Rule.cs:65-68 | the operator of a node without Child or Sibling never affects any node's value |
| RuleProperties.SingleNodeRule | GeneticTree/Rule.cs:65-68 | a one-node rule is its signal's `IsTrue()` |
| RuleProperties.OrForNonAnd | GeneticTree/Rule.cs:72 | replaces every operator except `And` by `Or`, node by node, and keeps everything else |
| RuleProperties.NonAndActsAsOr | GeneticTree/Rule.cs:72 | OrInclusive, Not, Nor, NorInclusive and unnamed codes all evaluate exactly as `Or`: nothing negates and nothing groups |
| RuleProperties.IsTrueMonotone | GeneticTree/Rule.cs:62-77 | raising any signal from false to true never makes the rule false |
| RuleProperties.LinearLinksForward | GeneticTree/Rule.cs:70-74 | a Child-linked chain without siblings satisfies the forward-link condition under which evaluation ends |
| RuleProperties.Values | GeneticTree/Rule.cs:67 | the signals' `IsTrue()` values in chain order |
| RuleProperties.Ops | GeneticTree/Rule.cs:72 | the signals' operators in chain order |
| RuleProperties.LinearIsRightNested | GeneticTree/Rule.cs:70-76 | a linear chain evaluates to the right-nested formula `v1 op1 (v2 op2 (… vn))` |
| RuleProperties.LinearShortCircuit | GeneticTree/Rule.cs:62-77 | a linear chain holds iff the first node that stops the walk is true; a node stops it when it is a false `And` node, a true non-`And` node, or the last node |
| RuleProperties.Chain3 | GeneticTree/Rule.cs:70-76 | builds a three-signal linear chain with the given operators and values |
| RuleProperties.OrInclusiveExample | GeneticTree/Rule.cs:76 | [And, OrInclusive] over (false, true, true) is false |
| RuleProperties.AndOrExample | GeneticTree/Rule.cs:76 | [And, Or] over (false, true, true) is also false: right nesting, not C# precedence |
| RuleProperties.Factor | GeneticTreeTests/RuleTests.cs:26-27 | the maximal run of `OrInclusive`-joined values from a position, as the test cases group them: it ends inside the values, and it holds iff some value in the run holds |
| RuleProperties.PrecedenceReadsRuleTests | GeneticTreeTests/RuleTests.cs:26-27 | with `&&` binding tighter than `Or` and `OrInclusive` grouping its operands, [And, Or] over (false, true, true) is true and [And, OrInclusive] is false, as the two enabled test cases expect |
| RuleProperties.PrecedenceAllAnd | GeneticTree/Rule.cs:70-76 | on an all-`And` tail, the precedence reading is the right-nested chain conjoined with what came before |
| RuleProperties.PrecedenceAllOr | GeneticTree/Rule.cs:70-76 | on an all-`Or` tail, the precedence reading is the right-nested chain |
| RuleProperties.UniformOperatorsAgree | GeneticTree/Rule.cs:70-76 | with only `And` or only `Or` operators, the precedence reading and the code's right nesting agree, so the difference lies only in mixed chains |
| RuleProperties.ChildTerminal | GeneticTree/Rule.cs:53 | following Child links from a node ends at a node without a Child, at or after it |
| RuleProperties.IsReadyOnlyTerminalMatters | GeneticTree/Rule.cs:51-54 | as written, readiness is `true` when the last Child-linked node is ready and a null dereference otherwise; it is never `false` |
| RuleProperties.IsReadyIntendedIsConjunction | GeneticTree/Rule.cs:53 | the intended readiness of a linear chain holds iff every node from the start on is ready |
| RuleProperties.Readiness3 | GeneticTree/Rule.cs:53 | builds a three-signal linear chain with the given readiness |
| RuleProperties.IsReadyDiscrepancies | GeneticTree/Rule.cs:53 | an unready last node crashes instead of giving false, and an unready first node is ignored |
| SignalChain.Network.constructor | GeneticTree/Signal/SignalBase.cs:8-16 | a network holds the given links and kinds and has handled nothing yet |
| SignalChain.Deliveries | GeneticTree/Signal/SignalBase.cs:20-26 | an EmptySignal handles nothing; a cascading node handles the data first; no more nodes handle it than there are from the start to the end of the chain |
| SignalChain.Network.SetChild | GeneticTree/Signal/SignalBase.cs:8 | setting Child changes that one link and nothing else |
| SignalChain.Network.SetParent | GeneticTree/Signal/SignalBase.cs:10 | setting Parent changes that one link and nothing else |
| SignalChain.Network.SetOperator | GeneticTree/Signal/SignalBase.cs:12 | setting Operator changes that one field and nothing else |
| SignalChain.Network.SetName | GeneticTree/Signal/SignalBase.cs:16 | setting Name changes that one field and nothing else |
| SignalChain.Network.Update | GeneticTree/Signal/SignalBase.cs:20-26 | `Update` on a node appends exactly `Deliveries` of that node, tagged with the data, to what was handled; it leaves the links alone |
| SignalChain.Tag | GeneticTree/Signal/SignalBase.cs:24 | pairs every node of a delivery list with the same data point |
| SignalChain.TagAppend | GeneticTree/Signal/SignalBase.cs:20-26 | tagging distributes over concatenation; this is the step that lets a node's own handling precede its Child's |
| SignalChainProperties.DeliveriesIncrease | GeneticTree/Signal/SignalBase.cs:20-26 | every handling node is downstream of the start and cascades; deliveries strictly increase, so each node handles the data at most once, head to tail |
| SignalChainProperties.NoChildNoForward | GeneticTree/Signal/SignalBase.cs:22 | a node without a Child handles the data itself and forwards nothing |
| SignalChainProperties.Range | GeneticTree/Signal/SignalBase.cs:20-26 | the consecutive indices `lo … hi − 1` |
| SignalChainProperties.LinearDeliveries | GeneticTree/Signal/SignalBase.cs:20-26 | on a linear chain, data given to node k reaches exactly the nodes from k up to the first EmptySignal, in order |
| SignalChainProperties.AllCascadingReachesAll | GeneticTree/Signal/SignalBase.cs:20-26 | without an EmptySignal, the head's data reaches every node once, head to tail |
| EmptySignals.NewEmptySignal | GeneticTree/Signal/EmptySignal.cs:9-14 | a new EmptySignal holds its flag (true by default), is ready and has no links |
| EmptySignals.Update | GeneticTree/Signal/EmptySignal.cs:31-33 | `Update` changes nothing |
| EmptySignals.AsNode | GeneticTree/Signal/EmptySignal.cs:16-29 | what a rule reads from an EmptySignal: always ready, its flag, its operator and Child, no Sibling |
| EmptySignalProperties.DefaultIsTrueAndReady | GeneticTree/Signal/EmptySignal.cs:11-16 | the default EmptySignal is ready and true |
| EmptySignalProperties.PropertiesDoNotMatter | GeneticTree/Signal/EmptySignal.cs:18-29 | setting Operator, Child, Parent or Name changes neither readiness nor truth |
| EmptySignalProperties.EmptyChain | GeneticTree/Signal/EmptySignal.cs:11-29 | a linear chain of EmptySignals carries exactly the given flags and operators, all ready |
| EmptySignalProperties.DefaultEmptyRule | GeneticTree/Signal/EmptySignal.cs:11-29 | a rule made only of default EmptySignals is ready and true whatever its operators |
| EmptySignalProperties.EmptyStopsCascade | GeneticTree/Signal/EmptySignal.cs:31-33 | an EmptySignal stops the update cascade: nothing is delivered through it |
| SignalFactories.IndicatorFromCode | GeneticTree/SignalFactory.cs:103-105 | `(TechnicalIndicator)c` is named exactly for −1 … 13 and keeps its code otherwise |
| SignalFactories.ConfigValue | GeneticTree/SignalFactory.cs:197-216 | a configured key reads its value; an absent key reads 0 |
| SignalFactories.DigitChar | GeneticTree/SignalFactory.cs:82 | a digit below ten is spelled by a decimal digit character |
| SignalFactories.NatToString | GeneticTree/SignalFactory.cs:82 | `i.ToString()` is a non-empty run of decimal digits |
| SignalFactories.DirectionFromConfig | GeneticTree/SignalFactory.cs:98-101 | a direction gene of 0 gives LongOnly and any other value ShortOnly |
| SignalFactories.KindOf | GeneticTree/SignalFactory.cs:108-191 | exactly the named indicators create a signal, and exactly None and NormalizedAverageTrueRange create an EmptySignal |
| SignalFactories.CreateIndicator | GeneticTree/SignalFactory.cs:96-195 | a slot fails exactly when its indicator code is undefined, with a null reference; otherwise the signal is unlinked, has the default operator, is named after its indicator and gets the configured direction |
| SignalFactories.SlotsUnlinked | GeneticTree/SignalFactory.cs:96-195 | every created signal starts without a Child |
| SignalFactories.Link | GeneticTree/SignalFactory.cs:74-88 | the k-th of n signals has a Child iff it is not the last, a Parent iff it is not the first, and keeps its class and name |
| SignalFactories.Attach | GeneticTree/SignalFactory.cs:73-90 | one iteration of Create's loop adds exactly one signal |
| SignalFactories.Built | GeneticTree/SignalFactory.cs:71-91 | the list after m iterations has m signals |
| SignalFactories.ErrorPersists | GeneticTree/SignalFactory.cs:71-91 | once a slot fails, every later prefix fails with the same error |
| SignalFactories.BuiltDefined | GeneticTree/SignalFactory.cs:71-91 | the first m slots build iff each of them creates a signal |
| SignalFactories.BuiltError | GeneticTree/SignalFactory.cs:71-91 | the error is that of the first slot that creates no signal |
| SignalFactories.BuiltLinks | GeneticTree/SignalFactory.cs:68-91 | after m iterations the signals are linked as in the finished chain, except that the newest has no Child yet |
| SignalFactories.LinkSignals | GeneticTree/SignalFactory.cs:68-91 | the wiring loop returns the chain of `maximumSignals` slots, or the first slot's error |
| SignalFactories.SignalFactory.constructor | GeneticTree/SignalFactory.cs:46-49 | the factory keeps its maximum number of signals, 5 by default |
| SignalFactories.SignalFactory.Create | GeneticTree/SignalFactory.cs:51-94 | the periods are read iff `ignorePeriod` is false; the result is the wired chain of the Entry or Exit genes, or the error of the first undefined slot |
| SignalFactoryProperties.WiredLinks | GeneticTree/SignalFactory.cs:74-88 | the Child, Parent, Operator and Name of each wired signal |
| SignalFactoryProperties.WiredIsLinear | GeneticTree/SignalFactory.cs:74-77 | signal k's Child is signal k + 1 and the last signal has none |
| SignalFactoryProperties.ParentInvertsChild | GeneticTree/SignalFactory.cs:87-88 | Parent is exactly the inverse of Child, and the first signal has no Parent |
| SignalFactoryProperties.WiredOperators | GeneticTree/SignalFactory.cs:79-85 | every signal except the last takes its slot's operator gene; the last keeps its operator, and every signal keeps its name |
| SignalFactoryProperties.SlotsDefined | GeneticTree/SignalFactory.cs:103-193 | every slot creates a signal iff every indicator code is defined |
| SignalFactoryProperties.CreateSucceedsIffDefined | GeneticTree/SignalFactory.cs:71-93 | Create returns signals iff every slot's indicator code is defined |
| SignalFactoryProperties.CreateWiresAll | GeneticTree/SignalFactory.cs:69-93 | when it succeeds, Create returns exactly the n created signals, wired in creation order |
| SignalFactoryProperties.CreateFailsAtFirstUndefined | GeneticTree/SignalFactory.cs:73 | otherwise Create fails with the null reference of the first undefined slot |
| SignalFactoryProperties.CreatedOperatorIsAnd | GeneticTree/SignalFactory.cs:79-85 | a created signal starts with operator `And`, which is what the last signal keeps |
| SignalFactoryProperties.RuleNodes | GeneticTree/SignalFactory.cs:93 | what the rule reads from the created signals |
| SignalFactoryProperties.CreatedRuleIsRightNested | GeneticTree/SignalFactory.cs:93 | the rule over a created chain is `v1 op1 (v2 op2 (… vn))` with op_k the operator gene of slot k |
| SignalFactoryProperties.DigitCharValue | GeneticTree/SignalFactory.cs:82 | a digit character reads back as its digit |
| SignalFactoryProperties.ParseNatToString | GeneticTree/SignalFactory.cs:82 | reading the decimal spelling of i gives i back |
| SignalFactoryProperties.OperatorKeysDistinct | GeneticTree/SignalFactory.cs:82 | different slots read different operator keys |
| SignalFactoryProperties.EntryExitKeysDiffer | GeneticTree/SignalFactory.cs:56 | entry and exit rules read disjoint operator keys |
| SignalFactoryProperties.EmptyIndicators | GeneticTree/SignalFactory.cs:153-165 | codes None and NormalizedAverageTrueRange create an EmptySignal |
| SignalFactoryProperties.RelativeStrengthExample | GeneticTree/SignalFactory.cs:126-129 | an RSI gene with direction 1 gives a ShortOnly oscillator with thresholds 30 and 70, named RelativeStrengthIndex |
| Oscillators.PositionSignal | GeneticTree/Signal/OscillatorSignal.cs:158-170 | above the upper threshold is Above; otherwise below the lower is Bellow; the thresholds themselves count as between |
| Oscillators.ActualSignal | GeneticTree/Signal/OscillatorSignal.cs:178-209 | always one of the seven codes; a non-zero position gives a zone state of its sign; on named codes it is the zone machine |
| Oscillators.SignalHolds | GeneticTree/Signal/OscillatorSignal.cs:113-130 | false when not ready; LongOnly holds iff the state is CrossLowerThresholdFromBelow, and ShortOnly iff it is CrossUpperThresholdFromAbove |
| Oscillators.OscillatorSignal.constructor | GeneticTree/Signal/OscillatorSignal.cs:48-52 | keeps the thresholds and direction; the state starts between the thresholds |
| Oscillators.OscillatorSignal.WithoutDirection | GeneticTree/Signal/OscillatorSignal.cs:60-63 | keeps the thresholds and leaves the direction unset |
| Oscillators.OscillatorSignal.WithDefaultThresholds | GeneticTree/Signal/OscillatorSignal.cs:70-74 | the thresholds are 20 and 80 |
| Oscillators.OscillatorSignal.IndicatorUpdated | GeneticTree/Signal/OscillatorSignal.cs:135-151 | before readiness the state is the raw position; after it, the next state of the machine; `Signal` and `_previousSignal` stay equal |
| OscillatorProperties.LongFiresOnLeavingLowerZone | GeneticTree/Signal/OscillatorSignal.cs:113-130 | a ready LongOnly signal fires exactly on the update that leaves the lower zone for the middle |
| Oscillators.ZoneTransition | GeneticTree/Signal/OscillatorSignal.cs:178-209 | the new state is one of the seven named states and lies in the zone of the new position; it is CrossLowerThresholdFromBelow exactly when a move from the lower zone lands between the thresholds, and CrossUpperThresholdFromAbove exactly when a move from the upper zone does |
| OscillatorProperties.ShortFiresOnLeavingUpperZone | GeneticTree/Signal/OscillatorSignal.cs:113-130 | a ready ShortOnly signal fires exactly on the update that leaves the upper zone for the middle |
| OscillatorProperties.ZoneFollowsPosition | GeneticTree/Signal/OscillatorSignal.cs:185-207 | after any ready update the state lies in the zone of the new position |
| OscillatorProperties.CrossingsLastOneUpdate | GeneticTree/Signal/OscillatorSignal.cs:185-207 | a crossing state gives way on the next update that stays on its side |
| OscillatorProperties.JumpAcrossIsCrossing | GeneticTree/Signal/OscillatorSignal.cs:198-201 | a jump from one zone to the other is a crossing into the new zone |
| OscillatorProperties.DefaultThresholdsBoundaries | GeneticTree/Signal/OscillatorSignal.cs:72 | with the default thresholds, 20 and 80 are between and the values beyond them are not |
| OscillatorProperties.Run | GeneticTree/Signal/OscillatorSignal.cs:135-151 | a run of ready updates always ends in a named state, in the zone of the last position |
| OscillatorProperties.RunDependsOnLastTwo | GeneticTree/Signal/OscillatorSignal.cs:178-209 | the state after two or more ready updates depends only on the last two positions |
| CrossingMovingAverages.Sign | GeneticTree/Signal/CrossingMovingAverageSignal.cs:101 | `Math.Sign` of a decimal: 1, −1 or 0 by the sign of its argument |
| CrossingMovingAverages.NextSignal | GeneticTree/Signal/CrossingMovingAverageSignal.cs:101-113 | a non-zero difference gives a state of its sign, which is a crossing exactly when the sign flipped; a zero difference gives 0 after 0 and leaves the state alone otherwise |
| CrossingMovingAverages.CrossingHolds | GeneticTree/Signal/CrossingMovingAverageSignal.cs:76-93 | false when not ready; LongOnly holds iff FastCrossSlowFromBelow, ShortOnly iff FastCrossSlowFromAbove |
| CrossingMovingAverages.CrossingMovingAverageSignal.constructor | GeneticTree/Signal/CrossingMovingAverageSignal.cs:42-50 | keeps the direction; the state and the last sign start at 0 |
| CrossingMovingAverages.CrossingMovingAverageSignal.MaUpdated | GeneticTree/Signal/CrossingMovingAverageSignal.cs:95-116 | nothing changes while not ready; otherwise the last sign becomes the difference's sign and the state moves by NextSignal |
| CrossingMovingAverageProperties.Step | GeneticTree/Signal/CrossingMovingAverageSignal.cs:101-115 | after a ready update the last sign is the sign of the difference |
| CrossingMovingAverageProperties.Run | GeneticTree/Signal/CrossingMovingAverageSignal.cs:95-116 | after a run of ready updates, the last sign is the sign of the last difference |
| CrossingMovingAverageProperties.LongHoldsAfterRun | GeneticTree/Signal/CrossingMovingAverageSignal.cs:101-115 | a LongOnly crossing is reported iff the last two differences went from negative to positive, or a zero followed an existing crossing |
| CrossingMovingAverageProperties.CrossingLastsOneUpdate | GeneticTree/Signal/CrossingMovingAverageSignal.cs:102-105 | a crossing gives way to Bullish or Bearish on the next update of the same sign |
| CrossingMovingAverageProperties.ZeroKeepsCrossing | GeneticTree/Signal/CrossingMovingAverageSignal.cs:102-113 | a zero difference after a crossing keeps the crossing |
| Donchian.Classify | GeneticTree/Signal/DonchianSignal.cs:144-155 | 1 iff the price reaches the upper band; otherwise −1 iff it reaches the lower band; else 0 |
| Donchian.Push | GeneticTree/Signal/DonchianSignal.cs:41 | adding to the rolling window puts the new entry first, shifts the rest, and drops the oldest once the window is full |
| Donchian.Recent | GeneticTree/Signal/DonchianSignal.cs:41 | the window of a history holds its newest `periods` entries, newest first |
| Donchian.PushRecent | GeneticTree/Signal/DonchianSignal.cs:41 | adding one entry to a history's window gives the window of the longer history |
| Donchian.ConsistentPush | GeneticTree/Signal/DonchianSignal.cs:140-157 | adding a classification keeps the window equal to the window of the history, every entry −1, 0 or 1 |
| Donchian.DonchianSignal.constructor | GeneticTree/Signal/DonchianSignal.cs:33-43 | the window starts empty with capacity `periods` |
| Donchian.DonchianSignal.PriceUpdated | GeneticTree/Signal/DonchianSignal.cs:140-157 | when ready, appends the price's classification; when not ready, the window is unchanged |
| Donchian.DonchianSignal.MaxUpdated | GeneticTree/Signal/DonchianSignal.cs:118-127 | when ready and the values match, appends 1; nothing subscribes it |
| Donchian.DonchianSignal.MinUpdated | GeneticTree/Signal/DonchianSignal.cs:129-138 | when ready and the values match, appends −1; nothing subscribes it |
| Donchian.DonchianSignal.IsTrue | GeneticTree/Signal/DonchianSignal.cs:73-104 | false when not ready; on an empty window, the index error; otherwise true iff every entry is the direction's value |
| Donchian.DonchianSignal.Value | GeneticTree/Signal/DonchianSignal.cs:60-63 | the newest window entry, which is −1, 0 or 1; the index error on an empty window |
| DonchianProperties.SurvivalOverHistory | GeneticTree/Signal/DonchianSignal.cs:73-104 | the signal holds iff the last `periods` classifications (or all of them, when fewer) were the direction's value |
| DonchianProperties.MiddlePriceBreaksLongRun | GeneticTree/Signal/DonchianSignal.cs:152-155 | a price strictly inside the channel breaks a LongOnly run |
| ChannelOscillators.MaxState | GeneticTree/Signal/ChannelOscillatorSignal.cs:37-48 | AboveUpper iff ready and the price is above the delayed maximum, otherwise InBetween |
| ChannelOscillators.MinState | GeneticTree/Signal/ChannelOscillatorSignal.cs:50-61 | BelowLower iff ready and the price is below the delayed minimum, otherwise InBetween |
| ChannelOscillators.ChannelHolds | GeneticTree/Signal/ChannelOscillatorSignal.cs:76-94 | false when not ready; LongOnly holds iff AboveUpper, ShortOnly iff BelowLower |
| ChannelOscillators.ChannelOscillatorSignal.constructor | GeneticTree/Signal/ChannelOscillatorSignal.cs:29-36 | keeps direction and survival period; nothing has been handed over yet |
| ChannelOscillators.ChannelOscillatorSignal.MaxUpdated | GeneticTree/Signal/ChannelOscillatorSignal.cs:37-48 | hands exactly one classification, with the update, to the state update, even when not ready |
| ChannelOscillators.ChannelOscillatorSignal.MinUpdated | GeneticTree/Signal/ChannelOscillatorSignal.cs:50-61 | hands exactly one classification, with the update, to the state update, even when not ready |
| ChannelOscillators.ChannelOscillatorSignal.IndicatorUpdated | GeneticTree/Signal/ChannelOscillatorSignal.cs:63-66 | a price update changes nothing |
| ChannelOscillatorProperties.NotReadyIsInBetween | GeneticTree/Signal/ChannelOscillatorSignal.cs:39-47 | before readiness every classification handed over is InBetween |
| ChannelOscillatorProperties.HandlersAreOneSided | GeneticTree/Signal/ChannelOscillatorSignal.cs:37-61 | the maximum handler never reports BelowLower and the minimum handler never AboveUpper |
| ChannelOscillatorProperties.BandTouchIsNoBreakout | GeneticTree/Signal/ChannelOscillatorSignal.cs:42-55 | a price equal to the delayed band is no breakout |
| BBOscillators.GetThresholdState | GeneticTree/Signal/BBOscillatorSignals.cs:30-42 | AboveUpper iff above the upper band; otherwise BelowLower iff below the lower band; the band values themselves give InBetween |
| BBOscillators.NewBBOscillatorSignal | GeneticTree/Signal/BBOscillatorSignals.cs:19-23 | keeps the direction and survival period |
| BBOscillatorProperties.SameAsPositionSignal | GeneticTree/Signal/BBOscillatorSignals.cs:30-42 | with the bands as thresholds, the classification is the oscillator's position classification |
| BBOscillatorProperties.InvertedBands | GeneticTree/Signal/BBOscillatorSignals.cs:33-37 | with inverted bands the upper test runs first: a value above the upper band and below the lower band is AboveUpper, a value above both is AboveUpper, and one below both is BelowLower |
| BBOscillatorProperties.DefaultSurvival | GeneticTree/Signal/BBOscillatorSignals.cs:19 | the default survival period is 1 |
| BooleanLogicParser.Lower | GeneticTree/BooleanLogicParser/Tokenizer.cs:76 | lower-casing keeps the length and maps each character |
| BooleanLogicParser.KeywordMeaning | GeneticTree/BooleanLogicParser/Tokenizer.cs:76-90 | a letter run is a token iff its lower-cased form is true, false, and or or; otherwise the error carries the lower-cased run |
| BooleanLogicParser.LetterRunEnd | GeneticTree/BooleanLogicParser/Tokenizer.cs:70-74 | the end of the maximal letter run |
| BooleanLogicParser.WhitespaceEnd | GeneticTree/BooleanLogicParser/Tokenizer.cs:27-30 | the end of the maximal whitespace run |
| BooleanLogicParser.ScanFrom | GeneticTree/BooleanLogicParser/Tokenizer.cs:25-33 | scanning from a position never moves the cursor back or past the end |
| BooleanLogicParser.ScanToken | GeneticTree/BooleanLogicParser/Tokenizer.cs:35-62 | scanning a token from a position never moves the cursor back or past the end |
| BooleanLogicParser.Lex | GeneticTree/BooleanLogicParser/Tokenizer.cs:15-25 | the cursor stays inside the text, and the empty text gives no tokens with the cursor at 0 |
| BooleanLogicParser.PunctuationStep | GeneticTree/BooleanLogicParser/Tokenizer.cs:38-49 | `!`, `(` and `)` give one token each and advance the cursor by one |
| BooleanLogicParser.KeywordStep | GeneticTree/BooleanLogicParser/Tokenizer.cs:51-55 | a keyword run gives its token and the scan goes on after the run |
| BooleanLogicParser.ErrorStep | GeneticTree/BooleanLogicParser/Tokenizer.cs:27-60 | reading past the end, a bad keyword and an unknown character each end the scan with their error |
| BooleanLogicParser.Tokenizer.constructor | GeneticTree/BooleanLogicParser/Tokenizer.cs:15-19 | the cursor starts at 0 |
| BooleanLogicParser.Tokenizer.Tokenize | GeneticTree/BooleanLogicParser/Tokenizer.cs:21-65 | the result and the cursor it leaves are those of the scan from the old cursor |
| BooleanLogicParser.Tokenizer.NextToken | GeneticTree/BooleanLogicParser/Tokenizer.cs:27-62 | one loop pass advances the cursor and yields the scan's next token, or ends the scan with its error |
| BooleanLogicParser.Tokenizer.SkipWhiteSpace | GeneticTree/BooleanLogicParser/Tokenizer.cs:27-30 | the cursor moves to the end of the whitespace run |
| BooleanLogicParser.Tokenizer.ParseKeyword | GeneticTree/BooleanLogicParser/Tokenizer.cs:67-91 | the cursor moves to the end of the letter run, and the result is the keyword match of that run |
| BooleanLogicParserProperties.ScanEndsAtEnd | GeneticTree/BooleanLogicParser/Tokenizer.cs:25 | the cursor never goes back or past the end, and a successful scan consumes the whole text |
| BooleanLogicParserProperties.SecondTokenizeIsEmpty | GeneticTree/BooleanLogicParser/Tokenizer.cs:15-25 | the cursor is never reset, so a second Tokenize after a successful one returns no tokens |
| BooleanLogicParserProperties.UnknownGrammarReport | GeneticTree/BooleanLogicParser/Tokenizer.cs:56-60 | an unknown character is reported at the cursor, with the suffix from the cursor; it is no whitespace, letter or punctuation |
| BooleanLogicParserProperties.UnexpectedKeywordReport | GeneticTree/BooleanLogicParser/Tokenizer.cs:69-89 | a rejected keyword is the lower-cased maximal letter run that ends at the cursor, and it is not a keyword |
| BooleanLogicParserProperties.UnexpectedKeywordReportToken | GeneticTree/BooleanLogicParser/Tokenizer.cs:51-55 | the same, from the start of a token |
| BooleanLogicParserProperties.UnspacedKeywordsRejected | GeneticTree/BooleanLogicParser/Tokenizer.cs:69-89 | `trueAND` is one letter run and is rejected as `trueand` |
| BooleanLogicParserProperties.TrailingWhitespaceRejected | GeneticTree/BooleanLogicParser/Tokenizer.cs:27-33 | as written, no text ending in whitespace is tokenized |
| BooleanLogicParserProperties.TrailingSpaceExample | GeneticTree/BooleanLogicParser/Tokenizer.cs:27-30 | `"true "` fails with the read at index 5 |
| BooleanLogicParserProperties.CorrectedAgreesWhereAccepted | GeneticTree/BooleanLogicParser/Tokenizer.cs:25-33 | with the bounds check, the lexer agrees with the original wherever the original succeeds |
| BooleanLogicParserProperties.TrailingWhitespaceIgnored | GeneticTree/BooleanLogicParser/Tokenizer.cs:25-33 | with the bounds check, trailing whitespace changes nothing |
| BooleanLogicParserProperties.Spell | GeneticTree/BooleanLogicParser/Tokenizer.cs:38-90 | the lower-case spelling of a token is non-empty and starts with no whitespace |
| BooleanLogicParserProperties.Render | GeneticTree/BooleanLogicParser/Tokenizer.cs:21-65 | tokens spelled and separated by single spaces |
| BooleanLogicParserProperties.KeywordSpelled | GeneticTree/BooleanLogicParser/Tokenizer.cs:78-87 | a keyword's spelling is a letter run that matches that keyword |
| BooleanLogicParserProperties.LexRender | GeneticTree/BooleanLogicParser/Tokenizer.cs:21-65 | tokenizing the spelling of any token sequence gives that sequence back, in order, consuming the whole text |
| BooleanLogicParserProperties.CaseInsensitive | GeneticTree/BooleanLogicParser/Tokenizer.cs:76 | texts that differ only in letter case tokenize alike, unless an unknown character is reported |
| BooleanLogicParserProperties.MixedCaseExample | GeneticTree/BooleanLogicParser/Tokenizer.cs:51-87 | `TRUE Or ! False` is read as True, Or, Negation, False |

## Left out

- **Indicators.** The QuantConnect indicators and their arithmetic are not modelled: moving averages, MACD, stochastics, Bollinger and Donchian bands, delays, `Minus`. Their current values and readiness are inputs of the handlers. This also covers:
  - each signal's `IsReady`, which is that readiness;
  - the period arguments `CreateIndicator` passes;
  - the `_algorithm`, `_resolution` and symbol fields.
- **Event wiring.** `indicator.Updated += handler` is not modelled. Each handler is a method called with the update's value.
- **External update methods.** `CrossingMovingAverageSignal.Update` and `AttemptCompositeUpdate` (CrossingMovingAverageSignal.cs:117-137) are not modelled, nor `DonchianSignal.Update`'s reflection dispatch (DonchianSignal.cs:163-182). They only feed library indicators. Their place in the cascade is that of any cascading node in `SignalChain`.
- **Configuration.** `GetConfigValue`'s parameter lookup, `Config.GetInt` and logging are not modelled. The configuration is a `map<string, int>`, and a missing or unparsable key reads 0.
- **Exception messages.** Exceptions carry their data, not their message text.
- **RollingWindow** is a bounded sequence with the newest entry first. Its internal buffer is not modelled.
- **Character classes.** `Char.IsLetter` and `ToLower` are restricted to ASCII letters, because Dafny has no Unicode tables. `Char.IsWhiteSpace` is modelled with its full set.
- **The oscillator base class** that `ChannelOscillatorSignal` and `BBOscillatorSignal` extend is not part of this model: its `ThresholdState`, `ProcessThresholdStateChange` and survival constructor. `ProcessThresholdStateChange` is a fixed function of everything handed to it.
- **Missing files.**
  - `TradeRuleDirection` is not part of this model. A signal built without a direction keeps the default, which matches neither direction.
  - The token classes, the parser and the rule synthesizer that use `Tokenizer` are not part of this model.
- **The `Rule` constructor** takes one signal, but `SignalFactory.Create` passes it a list. The model evaluates the list's head, which is the signal the constructor keeps.
- **`Sibling`.** `Rule` reads `Sibling` and `Operator.AND`, which the signal interface does not declare. The model has a `sibling` link that the factory never sets, and treats `AND` as `And`.
- **Dead code.** The `break` at Tokenizer.cs:32-33 can never fire: the whitespace loop reads past the end first. It has no counterpart.
- **Factored loops.**
  - `LinkSignals` is the loop of `Create`, taking CreateIndicator and the operator genes as functions.
  - `NextToken` and `SkipWhiteSpace` are the body and the inner loop of `Tokenize`'s loop.
- **Null names.** `EmptySignal.Name` starts as null; the model uses the empty string.
- **OscillatorSignal.Initialize** (OscillatorSignal.cs:217-224) is modelled by the three constructors. `_previousIndicatorValue` is stored but never read.
- Rules.IsTrueAt: each signal's `IsTrue()` is taken to return a value. An exception a signal raises is not modelled. One example is a ready DonchianSignal whose window is still empty (DonchianSignal.cs:81). Rule.cs:76 evaluates the signal of every node on its walk, so such an exception would abort the whole rule.
- SignalChain.Network.SetChild: only forward Child links are modelled, so backward links are left out, acyclic ones included. A cyclic chain would make `Update` recurse without end.

## Findings

| source | as written | input that shows it | evidently intended | confidence | as-written member | corrected member |
|---|---|---|---|---|---|---|
| GeneticTree/BooleanLogicParser/Tokenizer.cs:27-30 | the whitespace loop reads `_text[i]` without checking `i < _text.Length` | `"true "`: after the keyword the loop reads index 5 of a 5-character text | stop at the end of the text and leave through the guard at line 32, so trailing whitespace is ignored | high (not executed) | BooleanLogicParserProperties.TrailingSpaceExample | BooleanLogicParserProperties.TrailingWhitespaceIgnored |
| GeneticTree/Rule.cs:53 | by C# precedence the readiness test groups as (own readiness and no Child) or (readiness of the Child) | three signals ready as (true, true, false) dereference null; (false, true, true) gives true | own readiness and (no Child or readiness of the Child), true iff every signal is ready | high (not executed) | RuleProperties.IsReadyDiscrepancies | RuleProperties.IsReadyIntendedIsConjunction |
| GeneticTreeTests/RuleTests.cs:26 | Rule.cs:76 nests the chain to the right as `v1 op1 (v2 op2 v3)` | [And, Or] over (false, true, true): the code gives false, but the test case expects true (`false && true or true`) | `&&` binds tighter than `Or`, and `OrInclusive` groups its operands, so both enabled test cases (RuleTests.cs:26-27) hold | medium (not executed) | RuleProperties.AndOrExample | RuleProperties.PrecedenceReadsRuleTests |
