/**
 * SignalBase (GeneticTree/Signal/SignalBase.cs) and the update cascade.
 *
 * The signals of one rule sit in a sequence; `Child` and `Parent` are
 * indices into it. A node whose class derives from SignalBase forwards every
 * data point to its Child after handling it itself; an EmptySignal does
 * nothing with it. The class records, in `received`, which node handled
 * which data point, in the order the handling happened.
 */
module SignalChain {
  import opened Wrappers
  import opened SignalTypes

  /** The settable properties Child, Parent, Operator and Name of one signal. */
  datatype Links = Links(child: Option<nat>, parent: Option<nat>, op: Operator, name: string)

  /** Child links point further down the chain, so the cascade ends. */
  predicate ChildrenForward(nodes: seq<Links>)
  {
    forall k :: 0 <= k < |nodes| ==> (nodes[k].child.Some? ==> k < nodes[k].child.value < |nodes|)
  }

  /**
   * The nodes that handle a data point given to node k, in handling order:
   * a cascading node handles it and passes it on to its Child; a
   * non-cascading node (EmptySignal) stops it.
   */
  function Deliveries(nodes: seq<Links>, cascades: seq<bool>, k: nat): (r: seq<nat>)
    requires ChildrenForward(nodes) && |cascades| == |nodes| && k < |nodes|
    ensures r == [] <==> !cascades[k]
    ensures r != [] ==> r[0] == k
    ensures |r| <= |nodes| - k
    decreases |nodes| - k
  {
    if !cascades[k] then []
    else
      match nodes[k].child
      case None => [k]
      case Some(c) => [k] + Deliveries(nodes, cascades, c)
  }

  class Network<D> {
    var nodes: seq<Links>
    /** cascades[k] is true for a SignalBase subclass and false for an EmptySignal. */
    const cascades: seq<bool>
    /** (node, data) for every data point a node handled, oldest first. */
    var received: seq<(nat, D)>

    ghost predicate Valid()
      reads this
    {
      |cascades| == |nodes| && ChildrenForward(nodes)
    }

    constructor(nodes: seq<Links>, cascades: seq<bool>)
      requires |cascades| == |nodes| && ChildrenForward(nodes)
      ensures Valid()
      ensures this.nodes == nodes && this.cascades == cascades && received == []
    {
      this.nodes := nodes;
      this.cascades := cascades;
      received := [];
    }

    /** Setting Child is plain storage; only forward links are allowed here. */
    method SetChild(k: nat, child: Option<nat>)
      requires Valid() && k < |nodes|
      requires child.Some? ==> k < child.value < |nodes|
      modifies this
      ensures Valid()
      ensures nodes == old(nodes)[k := old(nodes)[k].(child := child)] && received == old(received)
    {
      nodes := nodes[k := nodes[k].(child := child)];
    }

    method SetParent(k: nat, parent: Option<nat>)
      requires Valid() && k < |nodes|
      modifies this
      ensures Valid()
      ensures nodes == old(nodes)[k := old(nodes)[k].(parent := parent)] && received == old(received)
    {
      nodes := nodes[k := nodes[k].(parent := parent)];
    }

    method SetOperator(k: nat, op: Operator)
      requires Valid() && k < |nodes|
      modifies this
      ensures Valid()
      ensures nodes == old(nodes)[k := old(nodes)[k].(op := op)] && received == old(received)
    {
      nodes := nodes[k := nodes[k].(op := op)];
    }

    method SetName(k: nat, name: string)
      requires Valid() && k < |nodes|
      modifies this
      ensures Valid()
      ensures nodes == old(nodes)[k := old(nodes)[k].(name := name)] && received == old(received)
    {
      nodes := nodes[k := nodes[k].(name := name)];
    }

    /**
     * `Update(data)` on node k: a SignalBase subclass handles the data first
     * and then calls `Child.Update(data)` when Child is set; an EmptySignal
     * does nothing.
     */
    method Update(k: nat, data: D)
      requires Valid() && k < |nodes|
      modifies this
      ensures Valid() && nodes == old(nodes)
      ensures received == old(received) + Tag(Deliveries(nodes, cascades, k), data)
      decreases |nodes| - k
    {
      if !cascades[k] {
        assert Tag([], data) == [];
        return;
      }
      received := received + [(k, data)];
      if nodes[k].child.Some? {
        var c := nodes[k].child.value;
        Update(c, data);
        TagAppend([k], Deliveries(nodes, cascades, c), data);
      }
    }
  }

  /** Pairs every node of a delivery list with the data point. */
  function Tag<D>(ks: seq<nat>, data: D): (r: seq<(nat, D)>)
    ensures |r| == |ks| && forall i :: 0 <= i < |ks| ==> r[i] == (ks[i], data)
  {
    seq(|ks|, i requires 0 <= i < |ks| => (ks[i], data))
  }

  lemma TagAppend<D>(a: seq<nat>, b: seq<nat>, data: D)
    ensures Tag(a + b, data) == Tag(a, data) + Tag(b, data)
  {
  }
}

/** What the cascade delivers, stated against the chain's shape. */
module SignalChainProperties {
  import opened Wrappers
  import opened SignalChain

  /** Deliveries go head to tail: every node is downstream of the start and handles the data once. */
  lemma {:induction false} DeliveriesIncrease(nodes: seq<Links>, cascades: seq<bool>, k: nat)
    requires ChildrenForward(nodes) && |cascades| == |nodes| && k < |nodes|
    ensures forall i :: 0 <= i < |Deliveries(nodes, cascades, k)| ==>
      k <= Deliveries(nodes, cascades, k)[i] < |nodes| && cascades[Deliveries(nodes, cascades, k)[i]]
    ensures forall i, j :: 0 <= i < j < |Deliveries(nodes, cascades, k)| ==>
      Deliveries(nodes, cascades, k)[i] < Deliveries(nodes, cascades, k)[j]
    decreases |nodes| - k
  {
    if cascades[k] && nodes[k].child.Some? {
      var c := nodes[k].child.value;
      DeliveriesIncrease(nodes, cascades, c);
      var d, rest := Deliveries(nodes, cascades, k), Deliveries(nodes, cascades, c);
      assert d == [k] + rest;
      assert forall i :: 1 <= i < |d| ==> d[i] == rest[i - 1];
      assert forall i :: 0 <= i < |rest| ==> k < rest[i];
    }
  }

  /** A cascading node without a Child handles the data itself and forwards nothing. */
  lemma NoChildNoForward(nodes: seq<Links>, cascades: seq<bool>, k: nat)
    requires ChildrenForward(nodes) && |cascades| == |nodes| && k < |nodes|
    requires cascades[k] && nodes[k].child.None?
    ensures Deliveries(nodes, cascades, k) == [k]
  {
  }

  /** Node k's Child is node k + 1 and the last node has none, as the factory wires them. */
  predicate LinearChildren(nodes: seq<Links>)
  {
    forall k :: 0 <= k < |nodes| ==> nodes[k].child == (if k + 1 < |nodes| then Some(k + 1) else None)
  }

  /** The indices lo, lo + 1, ..., hi - 1. */
  function Range(lo: nat, hi: nat): (r: seq<nat>)
    requires lo <= hi
    ensures |r| == hi - lo && forall i :: 0 <= i < |r| ==> r[i] == lo + i
    decreases hi - lo
  {
    if lo == hi then [] else [lo] + Range(lo + 1, hi)
  }

  /**
   * On a linear chain, a data point given to node k reaches exactly the nodes
   * from k up to, not including, the first EmptySignal at or after k (or the
   * end of the chain), in order.
   */
  lemma {:induction false} LinearDeliveries(nodes: seq<Links>, cascades: seq<bool>, k: nat, stop: nat)
    requires LinearChildren(nodes) && |cascades| == |nodes| && k <= stop <= |nodes| && k < |nodes|
    requires forall m :: k <= m < stop ==> cascades[m]
    requires stop == |nodes| || !cascades[stop]
    ensures ChildrenForward(nodes)
    ensures Deliveries(nodes, cascades, k) == Range(k, stop)
    decreases |nodes| - k
  {
    if k < stop && k + 1 < |nodes| {
      LinearDeliveries(nodes, cascades, k + 1, stop);
    }
  }

  /** With no EmptySignal, the head's data reaches every node once, head to tail. */
  lemma AllCascadingReachesAll(nodes: seq<Links>, cascades: seq<bool>)
    requires LinearChildren(nodes) && |cascades| == |nodes| && |nodes| > 0
    requires forall m :: 0 <= m < |nodes| ==> cascades[m]
    ensures ChildrenForward(nodes)
    ensures Deliveries(nodes, cascades, 0) == Range(0, |nodes|)
  {
    LinearDeliveries(nodes, cascades, 0, |nodes|);
  }
}
