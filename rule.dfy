/**
 * Rule (GeneticTree/Rule.cs): a rule holds the head of a chain of signals and
 * evaluates it recursively. The chain is a sequence of nodes whose `child`
 * and `sibling` links are indices into the same sequence.
 */
module Rules {
  import opened Wrappers
  import opened SignalTypes

  /** What Rule reads from one signal: IsReady, IsTrue(), Operator, Child and Sibling. */
  datatype Node = Node(ready: bool, value: bool, op: Operator, child: Option<nat>, sibling: Option<nat>)

  predicate Forward(link: Option<nat>, k: nat, n: nat)
  {
    link.Some? ==> k < link.value < n
  }

  /** Every link points further down the sequence, so following links ends. */
  predicate LinksForward(chain: seq<Node>)
  {
    forall k :: 0 <= k < |chain| ==> Forward(chain[k].child, k, |chain|) && Forward(chain[k].sibling, k, |chain|)
  }

  /** The four static lambdas `and`, `or`, `andFirst`, `orFirst`. */
  datatype Connective = AndFn | OrFn | AndFirstFn | OrFirstFn

  function Apply(f: Connective, a: bool, b: bool): bool
  {
    match f
    case AndFn => a && b
    case OrFn => a || b
    case AndFirstFn => a && b
    case OrFirstFn => a || b
  }

  /** The choice of lambda: `And` picks a conjunction, every other operator a disjunction. */
  function SelectConnective(op: Operator, isSibling: bool): Connective
  {
    if op == And then (if isSibling then AndFirstFn else AndFn)
    else (if isSibling then OrFirstFn else OrFn)
  }

  function Successor(n: Node): Option<nat>
  {
    if n.sibling.Some? then n.sibling else n.child
  }

  /**
   * `IsTrue(signal)` for the node at index `k`. Both operands are evaluated
   * and then combined, so a node decides the result only through the value
   * of the connective: a false node whose connective is `&&` (or that ends
   * the walk) makes it false, and a true node joined by `||` makes it true.
   */
  function IsTrueAt(chain: seq<Node>, k: nat): (r: bool)
    requires LinksForward(chain) && k < |chain|
    ensures chain[k].op == And || (chain[k].child.None? && chain[k].sibling.None?) ==> (r ==> chain[k].value)
    ensures chain[k].op != And ==> (chain[k].value ==> r)
    decreases |chain| - k
  {
    var n := chain[k];
    if n.child.None? && n.sibling.None? then n.value
    else
      var isSibling := n.sibling.Some?;
      var f := SelectConnective(n.op, isSibling);
      var next := if isSibling then n.sibling.value else n.child.value;
      Apply(f, n.value, IsTrueAt(chain, next))
  }

  /**
   * `IsReady(signal)`: `signal.IsReady && signal.Child == null || IsReady(signal.Child)`.
   * None stands for the NullReferenceException of `IsReady(null)`.
   */
  function IsReadyAt(chain: seq<Node>, k: nat): (r: Option<bool>)
    requires LinksForward(chain) && k < |chain|
    ensures r != Some(false)
    ensures chain[k].child.None? ==> (r == Some(true) <==> chain[k].ready)
    decreases |chain| - k
  {
    var n := chain[k];
    if n.ready && n.child.None? then Some(true)
    else
      match n.child
      case None => None
      case Some(c) => IsReadyAt(chain, c)
  }

  /** The rule's public IsTrue and IsReady evaluate from the head of the chain; a one-signal rule is that signal. */
  function IsTrue(chain: seq<Node>): (r: bool)
    requires LinksForward(chain) && |chain| > 0
    ensures |chain| == 1 ==> r == chain[0].value
  {
    IsTrueAt(chain, 0)
  }

  function IsReady(chain: seq<Node>): (r: Option<bool>)
    requires LinksForward(chain) && |chain| > 0
    ensures r != Some(false)
    ensures |chain| == 1 ==> (r == Some(true) <==> chain[0].ready)
  {
    IsReadyAt(chain, 0)
  }
}

/** What Rule's evaluation means, stated against independent definitions. */
module RuleProperties {
  import opened Wrappers
  import opened SignalTypes
  import opened Rules

  /** `andFirst` and `orFirst` compute the same as `and` and `or`. */
  lemma SiblingChoiceIrrelevant(op: Operator, a: bool, b: bool)
    ensures Apply(SelectConnective(op, true), a, b) == Apply(SelectConnective(op, false), a, b)
    ensures Apply(SelectConnective(op, true), a, b) == if op == And then a && b else a || b
  {
  }

  /** A node without links is its own value, whatever its operator. */
  lemma {:induction false} TerminalOperatorIgnored(chain: seq<Node>, k: nat, op: Operator, j: nat)
    requires LinksForward(chain) && k < |chain| && j < |chain|
    requires chain[k].child.None? && chain[k].sibling.None?
    ensures LinksForward(chain[k := chain[k].(op := op)])
    ensures IsTrueAt(chain[k := chain[k].(op := op)], j) == IsTrueAt(chain, j)
    decreases |chain| - j
  {
    var c2 := chain[k := chain[k].(op := op)];
    assert forall m :: 0 <= m < |chain| ==> c2[m].child == chain[m].child && c2[m].sibling == chain[m].sibling;
    var n := chain[j];
    if n.child.Some? || n.sibling.Some? {
      var next := if n.sibling.Some? then n.sibling.value else n.child.value;
      TerminalOperatorIgnored(chain, k, op, next);
    }
  }

  /** The one-node rule is its signal. */
  lemma SingleNodeRule(n: Node)
    requires n.child.None? && n.sibling.None?
    ensures LinksForward([n]) && IsTrue([n]) == n.value
  {
  }

  /** Replaces every operator other than And by Or. */
  function OrForNonAnd(chain: seq<Node>): (c: seq<Node>)
    ensures |c| == |chain|
    ensures forall k :: 0 <= k < |chain| ==>
      c[k] == chain[k].(op := if chain[k].op == And then And else Or)
  {
    seq(|chain|, k requires 0 <= k < |chain| => chain[k].(op := if chain[k].op == And then And else Or))
  }

  /**
   * OrInclusive, Not, Nor, NorInclusive and every unnamed code evaluate as Or:
   * nothing is negated and no pair is grouped.
   */
  lemma {:induction false} NonAndActsAsOr(chain: seq<Node>, k: nat)
    requires LinksForward(chain) && k < |chain|
    ensures LinksForward(OrForNonAnd(chain))
    ensures IsTrueAt(OrForNonAnd(chain), k) == IsTrueAt(chain, k)
    decreases |chain| - k
  {
    var c := OrForNonAnd(chain);
    assert forall m :: 0 <= m < |chain| ==> c[m].child == chain[m].child && c[m].sibling == chain[m].sibling;
    var n := chain[k];
    if n.child.Some? || n.sibling.Some? {
      NonAndActsAsOr(chain, if n.sibling.Some? then n.sibling.value else n.child.value);
    }
  }

  /** Two chains with the same wiring and operators whose values differ only upward. */
  predicate ValuesRaised(c1: seq<Node>, c2: seq<Node>)
  {
    && |c1| == |c2|
    && forall k :: 0 <= k < |c1| ==>
         c1[k].child == c2[k].child && c1[k].sibling == c2[k].sibling && c1[k].op == c2[k].op
         && (c1[k].value ==> c2[k].value)
  }

  /** No operator negates: turning a signal from false to true cannot make the rule false. */
  lemma {:induction false} IsTrueMonotone(c1: seq<Node>, c2: seq<Node>, k: nat)
    requires LinksForward(c1) && ValuesRaised(c1, c2) && k < |c1|
    ensures LinksForward(c2)
    ensures IsTrueAt(c1, k) ==> IsTrueAt(c2, k)
    decreases |c1| - k
  {
    assert forall m :: 0 <= m < |c1| ==> c1[m].child == c2[m].child && c1[m].sibling == c2[m].sibling;
    var n := c1[k];
    if n.child.Some? || n.sibling.Some? {
      IsTrueMonotone(c1, c2, if n.sibling.Some? then n.sibling.value else n.child.value);
    }
  }

  // ---------------------------------------------------------------------
  // Linear chains, as SignalFactory builds them.

  /** Node k's Child is node k + 1, the last node has no Child, and no node has a Sibling. */
  predicate Linear(chain: seq<Node>)
  {
    forall k :: 0 <= k < |chain| ==>
      chain[k].sibling.None? && chain[k].child == (if k + 1 < |chain| then Some(k + 1) else None)
  }

  lemma LinearLinksForward(chain: seq<Node>)
    requires Linear(chain)
    ensures LinksForward(chain)
  {
  }

  /** The right-nested formula `v1 op1 (v2 op2 (... vn))` with And as && and every other operator as ||. */
  function RightNested(values: seq<bool>, ops: seq<Operator>): bool
    requires |values| >= 1 && |ops| >= |values| - 1
    decreases |values|
  {
    if |values| == 1 then values[0]
    else if ops[0] == And then values[0] && RightNested(values[1..], ops[1..])
    else values[0] || RightNested(values[1..], ops[1..])
  }

  function Values(chain: seq<Node>): (vs: seq<bool>)
    ensures |vs| == |chain| && forall k :: 0 <= k < |chain| ==> vs[k] == chain[k].value
  {
    seq(|chain|, k requires 0 <= k < |chain| => chain[k].value)
  }

  function Ops(chain: seq<Node>): (ops: seq<Operator>)
    ensures |ops| == |chain| && forall k :: 0 <= k < |chain| ==> ops[k] == chain[k].op
  {
    seq(|chain|, k requires 0 <= k < |chain| => chain[k].op)
  }

  /** A linear chain evaluates to the right-nested formula over its values and operators. */
  lemma {:induction false} LinearIsRightNested(chain: seq<Node>, k: nat)
    requires Linear(chain) && k < |chain|
    ensures LinksForward(chain)
    ensures IsTrueAt(chain, k) == RightNested(Values(chain)[k..], Ops(chain)[k..])
    decreases |chain| - k
  {
    LinearLinksForward(chain);
    if k + 1 < |chain| {
      LinearIsRightNested(chain, k + 1);
      assert Values(chain)[k..][1..] == Values(chain)[k + 1..];
      assert Ops(chain)[k..][1..] == Ops(chain)[k + 1..];
    }
  }

  /** Node k lets the evaluation go on: an And node that is true, or another node that is false. */
  predicate PassesOn(n: Node)
  {
    n.value == (n.op == And)
  }

  /** Node j is the first node at or after k that does not pass on, and it is true. */
  predicate DecidesTrue(chain: seq<Node>, k: nat, j: nat)
    requires k <= j < |chain|
  {
    && chain[j].value
    && (j == |chain| - 1 || chain[j].op != And)
    && forall m :: k <= m < j ==> PassesOn(chain[m])
  }

  /**
   * Short-circuit reading of a linear chain: the rule holds iff, walking from
   * the head, the first node that stops the walk (a false And node, a true
   * non-And node, or the last node) is true.
   */
  lemma {:induction false} LinearShortCircuit(chain: seq<Node>, k: nat)
    requires Linear(chain) && k < |chain|
    ensures LinksForward(chain)
    ensures IsTrueAt(chain, k) <==> exists j :: k <= j < |chain| && DecidesTrue(chain, k, j)
    decreases |chain| - k
  {
    LinearLinksForward(chain);
    var n := chain[k];
    if k + 1 == |chain| {
      if n.value {
        assert DecidesTrue(chain, k, k);
      }
    } else {
      LinearShortCircuit(chain, k + 1);
      if IsTrueAt(chain, k) {
        if n.value && n.op != And {
          assert DecidesTrue(chain, k, k);
        } else {
          var j :| k + 1 <= j < |chain| && DecidesTrue(chain, k + 1, j);
          assert PassesOn(n);
          assert DecidesTrue(chain, k, j);
        }
      } else {
        if j :| k <= j < |chain| && DecidesTrue(chain, k, j) {
          if j > k {
            assert PassesOn(n);
            assert DecidesTrue(chain, k + 1, j);
          }
        }
      }
    }
  }

  /** Three linked nodes with the given operators and values, the last operator left at its default. */
  function Chain3(op1: Operator, op2: Operator, v1: bool, v2: bool, v3: bool): (c: seq<Node>)
    ensures Linear(c) && |c| == 3
  {
    [Node(true, v1, op1, Some(1), None), Node(true, v2, op2, Some(2), None), Node(true, v3, DefaultOperator, None, None)]
  }

  /** [And, OrInclusive] over (false, true, true) is `false && (true || true)`. */
  lemma OrInclusiveExample()
    ensures LinksForward(Chain3(And, OrInclusive, false, true, true))
    ensures !IsTrue(Chain3(And, OrInclusive, false, true, true))
  {
    LinearLinksForward(Chain3(And, OrInclusive, false, true, true));
  }

  /** [And, Or] over (false, true, true) is also false: right nesting, not `false && true || true`. */
  lemma AndOrExample()
    ensures LinksForward(Chain3(And, Or, false, true, true))
    ensures !IsTrue(Chain3(And, Or, false, true, true))
  {
    LinearLinksForward(Chain3(And, Or, false, true, true));
  }

  // ---------------------------------------------------------------------
  // The reading the rule tests spell out: `&&` binds tighter than `||`,
  // and OrInclusive puts its two sides in parentheses.

  /**
   * The factor that starts at value i: `v_i`, or `(v_i || factor)` when the
   * operator after it is OrInclusive; with the index of its last value.
   */
  function Factor(values: seq<bool>, ops: seq<Operator>, i: nat): (f: (bool, nat))
    requires i < |values| && |ops| >= |values| - 1
    ensures i <= f.1 < |values|
    ensures forall j :: i <= j < f.1 ==> ops[j] == OrInclusive
    ensures f.0 <==> exists j :: i <= j <= f.1 && values[j]
    decreases |values| - i
  {
    if i + 1 < |values| && ops[i] == OrInclusive then
      var g := Factor(values, ops, i + 1);
      (values[i] || g.0, g.1)
    else (values[i], i)
  }

  /**
   * The expression from value i on: `acc` is the conjunction of the factors
   * already in the current term, And continues the term, and every other
   * operator after a factor starts a new term joined by `||`.
   */
  function PrecedenceFrom(values: seq<bool>, ops: seq<Operator>, i: nat, acc: bool): bool
    requires i < |values| && |ops| >= |values| - 1
    decreases |values| - i
  {
    var f := Factor(values, ops, i);
    var term := acc && f.0;
    if f.1 + 1 == |values| then term
    else if ops[f.1] == And then PrecedenceFrom(values, ops, f.1 + 1, term)
    else term || PrecedenceFrom(values, ops, f.1 + 1, true)
  }

  function Precedence(values: seq<bool>, ops: seq<Operator>): bool
    requires |values| >= 1 && |ops| >= |values| - 1
  {
    PrecedenceFrom(values, ops, 0, true)
  }

  /**
   * The two active expectations of the rule tests hold of the precedence
   * reading: `false && true || true` is true and `false && (true || true)`
   * is false. The code gives false for the first (AndOrExample).
   */
  lemma PrecedenceReadsRuleTests()
    ensures Precedence([false, true, true], [And, Or])
    ensures !Precedence([false, true, true], [And, OrInclusive])
  {
    var vs := [false, true, true];
    assert Factor(vs, [And, Or], 2) == (true, 2);
    assert Factor(vs, [And, Or], 1) == (true, 1);
    assert PrecedenceFrom(vs, [And, Or], 2, true);
    assert Factor(vs, [And, OrInclusive], 1) == (true, 2);
  }

  lemma {:induction false} PrecedenceAllAnd(values: seq<bool>, ops: seq<Operator>, i: nat, acc: bool)
    requires i < |values| && |ops| >= |values| - 1
    requires forall k :: i <= k < |values| - 1 ==> ops[k] == And
    ensures PrecedenceFrom(values, ops, i, acc) == (acc && RightNested(values[i..], ops[i..]))
    decreases |values| - i
  {
    if i + 1 < |values| {
      PrecedenceAllAnd(values, ops, i + 1, acc && values[i]);
      assert values[i..][1..] == values[i + 1..];
      assert ops[i..][1..] == ops[i + 1..];
    }
  }

  lemma {:induction false} PrecedenceAllOr(values: seq<bool>, ops: seq<Operator>, i: nat)
    requires i < |values| && |ops| >= |values| - 1
    requires forall k :: i <= k < |values| - 1 ==> ops[k] == Or
    ensures PrecedenceFrom(values, ops, i, true) == RightNested(values[i..], ops[i..])
    decreases |values| - i
  {
    if i + 1 < |values| {
      PrecedenceAllOr(values, ops, i + 1);
      assert values[i..][1..] == values[i + 1..];
      assert ops[i..][1..] == ops[i + 1..];
    }
  }

  /**
   * When every operator of a chain is And, or every one is Or, the
   * precedence reading and the code's right nesting agree; they can part
   * only where the operators mix.
   */
  lemma UniformOperatorsAgree(values: seq<bool>, ops: seq<Operator>)
    requires |values| >= 1 && |ops| >= |values| - 1
    requires (forall k :: 0 <= k < |values| - 1 ==> ops[k] == And)
          || (forall k :: 0 <= k < |values| - 1 ==> ops[k] == Or)
    ensures Precedence(values, ops) == RightNested(values, ops)
  {
    assert values[0..] == values && ops[0..] == ops;
    if forall k :: 0 <= k < |values| - 1 ==> ops[k] == And {
      PrecedenceAllAnd(values, ops, 0, true);
    } else {
      PrecedenceAllOr(values, ops, 0);
    }
  }

  // ---------------------------------------------------------------------
  // Readiness.

  /** The node reached from k by following Child links to the end. */
  function ChildTerminal(chain: seq<Node>, k: nat): (t: nat)
    requires LinksForward(chain) && k < |chain|
    ensures k <= t < |chain| && chain[t].child.None?
    decreases |chain| - k
  {
    match chain[k].child
    case None => k
    case Some(c) => ChildTerminal(chain, c)
  }

  /**
   * As written, readiness depends only on the node at the end of the Child
   * links: a ready terminal gives true, an unready one the null dereference;
   * the answer is never false.
   */
  lemma {:induction false} IsReadyOnlyTerminalMatters(chain: seq<Node>, k: nat)
    requires LinksForward(chain) && k < |chain|
    ensures IsReadyAt(chain, k) == if chain[ChildTerminal(chain, k)].ready then Some(true) else None
    ensures IsReadyAt(chain, k) != Some(false)
    decreases |chain| - k
  {
    if chain[k].child.Some? {
      IsReadyOnlyTerminalMatters(chain, chain[k].child.value);
    }
  }

  /** The evidently intended readiness, `signal.IsReady && (signal.Child == null || IsReady(signal.Child))`. */
  function IsReadyIntendedAt(chain: seq<Node>, k: nat): bool
    requires LinksForward(chain) && k < |chain|
    decreases |chain| - k
  {
    chain[k].ready &&
    match chain[k].child
    case None => true
    case Some(c) => IsReadyIntendedAt(chain, c)
  }

  /** The intended readiness of a linear chain holds iff every node from k on is ready. */
  lemma {:induction false} IsReadyIntendedIsConjunction(chain: seq<Node>, k: nat)
    requires Linear(chain) && k < |chain|
    ensures LinksForward(chain)
    ensures IsReadyIntendedAt(chain, k) <==> forall m :: k <= m < |chain| ==> chain[m].ready
    decreases |chain| - k
  {
    LinearLinksForward(chain);
    if k + 1 < |chain| {
      IsReadyIntendedIsConjunction(chain, k + 1);
    }
  }

  /** A three-node linear chain whose nodes are ready as given. */
  function Readiness3(r1: bool, r2: bool, r3: bool): (c: seq<Node>)
    ensures Linear(c) && |c| == 3
  {
    [Node(r1, true, And, Some(1), None), Node(r2, true, And, Some(2), None), Node(r3, true, And, None, None)]
  }

  /**
   * The two inputs on which the code as written and the intended readiness
   * part: an unready last node crashes instead of giving false, and an unready
   * first node is ignored.
   */
  lemma IsReadyDiscrepancies()
    ensures LinksForward(Readiness3(true, true, false))
    ensures IsReady(Readiness3(true, true, false)) == None && !IsReadyIntendedAt(Readiness3(true, true, false), 0)
    ensures LinksForward(Readiness3(false, true, true))
    ensures IsReady(Readiness3(false, true, true)) == Some(true) && !IsReadyIntendedAt(Readiness3(false, true, true), 0)
  {
    var c1 := Readiness3(true, true, false);
    var c2 := Readiness3(false, true, true);
    LinearLinksForward(c1);
    LinearLinksForward(c2);
    assert IsReadyAt(c1, 2) == None;
    assert IsReadyAt(c1, 1) == None;
    assert IsReadyAt(c2, 2) == Some(true);
    assert IsReadyAt(c2, 1) == Some(true);
  }
}
