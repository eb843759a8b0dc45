/**
 * EmptySignal (GeneticTree/Signal/EmptySignal.cs): a constant leaf that is
 * always ready, answers its constructor flag and ignores updates.
 */
module EmptySignals {
  import opened Wrappers
  import opened SignalTypes
  import Rules
  import SignalChain

  /** The flag `_isTrue` and the plain settable properties. */
  datatype EmptySignal = EmptySignal(isTrue: bool, op: Operator, child: Option<nat>, parent: Option<nat>, name: string)

  /** `new EmptySignal(isTrue)`; the properties keep their defaults. */
  function NewEmptySignal(isTrue: bool := true): (e: EmptySignal)
    ensures IsTrue(e) == isTrue && IsReady(e)
    ensures e.op == DefaultOperator && e.child.None? && e.parent.None? && e.name == ""
  {
    EmptySignal(isTrue, DefaultOperator, None, None, "")
  }

  predicate IsReady(e: EmptySignal)
  {
    true
  }

  predicate IsTrue(e: EmptySignal)
  {
    e.isTrue
  }

  /** `Update(data)` changes nothing, not even the links. */
  function Update<D>(e: EmptySignal, data: D): (r: EmptySignal)
    ensures r == e
  {
    e
  }

  /** What Rule reads from an EmptySignal; it has no Sibling. */
  function AsNode(e: EmptySignal): (n: Rules.Node)
    ensures n.ready && n.value == e.isTrue && n.op == e.op && n.child == e.child && n.sibling.None?
  {
    Rules.Node(IsReady(e), IsTrue(e), e.op, e.child, None)
  }

  /** Its entry in an update cascade: it does not forward. */
  function AsLinks(e: EmptySignal): SignalChain.Links
  {
    SignalChain.Links(e.child, e.parent, e.op, e.name)
  }
}

module EmptySignalProperties {
  import opened Wrappers
  import opened SignalTypes
  import opened EmptySignals
  import Rules
  import RuleProperties
  import SignalChain

  /** The default EmptySignal is a true, ready leaf. */
  lemma DefaultIsTrueAndReady()
    ensures IsTrue(NewEmptySignal()) && IsReady(NewEmptySignal())
  {
  }

  /** Setting any property leaves readiness and truth alone. */
  lemma PropertiesDoNotMatter(e: EmptySignal, op: Operator, child: Option<nat>, parent: Option<nat>, name: string)
    ensures IsTrue(e.(op := op, child := child, parent := parent, name := name)) == IsTrue(e)
    ensures IsReady(e.(op := op, child := child, parent := parent, name := name))
  {
  }

  /** A linear chain made of EmptySignals, as the wiring loop links them. */
  function EmptyChain(flags: seq<bool>, ops: seq<Operator>): (c: seq<Rules.Node>)
    requires |ops| == |flags|
    ensures |c| == |flags| && RuleProperties.Linear(c)
    ensures forall k :: 0 <= k < |c| ==> c[k].ready && c[k].value == flags[k] && c[k].op == ops[k]
  {
    seq(|flags|, k requires 0 <= k < |flags| =>
      AsNode(NewEmptySignal(flags[k]).(op := ops[k], child := if k + 1 < |flags| then Some(k + 1) else None)))
  }

  /** A rule made only of default EmptySignals is ready and true, whatever its operators. */
  lemma {:induction false} DefaultEmptyRule(ops: seq<Operator>, k: nat)
    requires k < |ops|
    ensures Rules.LinksForward(EmptyChain(seq(|ops|, _ => true), ops))
    ensures Rules.IsTrueAt(EmptyChain(seq(|ops|, _ => true), ops), k)
    ensures Rules.IsReadyAt(EmptyChain(seq(|ops|, _ => true), ops), k) == Some(true)
    decreases |ops| - k
  {
    var c := EmptyChain(seq(|ops|, _ => true), ops);
    RuleProperties.LinearLinksForward(c);
    if k + 1 < |ops| {
      DefaultEmptyRule(ops, k + 1);
    }
  }

  /** An EmptySignal in an update cascade stops it: nothing at or beyond it is reached through it. */
  lemma EmptyStopsCascade(nodes: seq<SignalChain.Links>, cascades: seq<bool>, k: nat)
    requires SignalChain.ChildrenForward(nodes) && |cascades| == |nodes| && k < |nodes|
    requires !cascades[k]
    ensures SignalChain.Deliveries(nodes, cascades, k) == []
  {
  }
}
