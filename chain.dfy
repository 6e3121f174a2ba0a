/**
 * The builder state of an `Assert::That` chain, as a value, and the
 * transitions its fluent calls make on it.
 *
 * `That` holds a root gate (`satisfaction`) and a counter (`chainSize`).
 * Every comparator resizes the root to `chainSize + 1` slots, stores its
 * predicate result as a constant in slot `chainSize` and counts it; `Or()`
 * and `And()` relabel the root; `Not()` wraps the root in a fresh one-slot
 * Not gate. The two copies of `That` differ only in which slot of the
 * wrapper the old root goes to.
 */
module Chain {
  import opened Circuit

  datatype ChainState = ChainState(root: Node, chainSize: nat)

  function Max(a: nat, b: nat): nat {
    if a < b then b else a
  }

  /** `That(value)`: a one-slot And root with its slot unset, and no comparator yet. */
  function Begin(): (s: ChainState)
    ensures s.chainSize == 0 && s.root == Node(And, [Unset])
  {
    ChainState(NewNode(And, 1), 0)
  }

  /** A comparator whose predicate gave `b`. */
  function Compared(s: ChainState, b: bool): (r: ChainState)
    ensures r.chainSize == s.chainSize + 1 && r.root.op == s.root.op
    ensures |r.root.inputs| == s.chainSize + 1 && r.root.inputs[s.chainSize] == Set(Constant(b))
    ensures forall j | 0 <= j < s.chainSize ::
              r.root.inputs[j] == if j < |s.root.inputs| then s.root.inputs[j] else Unset
  {
    ChainState(WithSlot(Resized(s.root, s.chainSize + 1), s.chainSize, Set(Constant(b))), s.chainSize + 1)
  }

  /** `Or()` and `And()`: the root's operator replaced, nothing else. */
  function Relinked(s: ChainState, op: Operator): ChainState {
    ChainState(Relabelled(s.root, op), s.chainSize)
  }

  /** `Not()` of the amalgamated header: the old root goes to slot 0 of a fresh one-slot Not root. */
  function Inverted(s: ChainState): (r: ChainState)
    ensures r.chainSize == s.chainSize && r.root == Node(Not, [Set(s.root)])
  {
    ChainState(WithSlot(NewNode(Not, 1), 0, Set(s.root)), s.chainSize)
  }

  /** Whether the split header's `Not()` writes inside the fresh one-slot Not gate. */
  predicate SrcInvertInRange(s: ChainState) {
    s.chainSize < |NewNode(Not, 1).inputs|
  }

  /** `Not()` of the split header: the old root goes to slot `chainSize` of the fresh gate. */
  function SrcInverted(s: ChainState): (r: ChainState)
    requires SrcInvertInRange(s)
    ensures r == Inverted(s)
  {
    ChainState(WithSlot(NewNode(Not, 1), s.chainSize, Set(s.root)), s.chainSize)
  }

  /** The split header's `Not()` is in range exactly on a chain without comparators. */
  lemma SrcInvertInRangeIff(s: ChainState)
    ensures SrcInvertInRange(s) <==> s.chainSize == 0
  {
  }

  /** `That(v).EqualTo(w).Not()` in the split header writes slot 1 of a one-slot gate. */
  lemma SrcNotAfterComparatorOutOfRange(b: bool)
    ensures Compared(Begin(), b).chainSize == 1
    ensures !SrcInvertInRange(Compared(Begin(), b))
  {
  }

  // ---------------------------------------------------------------------
  // The shape every chain keeps
  // ---------------------------------------------------------------------

  /**
   * The root is an And, Or or Not gate with at least one slot and at most
   * max(1, chainSize) slots, so the resize of the next comparator never
   * drops a slot.
   */
  predicate Invariant(s: ChainState) {
    && (s.root.op == And || s.root.op == Or || s.root.op == Not)
    && 1 <= |s.root.inputs| <= Max(1, s.chainSize)
  }

  lemma BeginInvariant()
    ensures Invariant(Begin())
  {
  }

  /** A comparator keeps the shape, never shrinks the root and leaves every earlier slot alone. */
  lemma ComparedGrows(s: ChainState, b: bool)
    requires Invariant(s)
    ensures Invariant(Compared(s, b))
    ensures |Compared(s, b).root.inputs| >= |s.root.inputs|
    ensures forall j | 0 <= j < |s.root.inputs| && j != s.chainSize ::
              Compared(s, b).root.inputs[j] == s.root.inputs[j]
  {
  }

  lemma RelinkedInvariant(s: ChainState, op: Operator)
    requires Invariant(s) && (op == And || op == Or)
    ensures Invariant(Relinked(s, op))
    ensures Relinked(s, op).root.inputs == s.root.inputs
  {
  }

  lemma InvertedInvariant(s: ChainState)
    requires Invariant(s)
    ensures Invariant(Inverted(s))
  {
  }

  // ---------------------------------------------------------------------
  // Chains whose Not() comes before the first comparator
  // ---------------------------------------------------------------------

  /**
   * A chain whose slots hold exactly the results `preds` of its
   * comparators, in order. Before the first comparator the single slot (an
   * unset pointer, or an old root that itself cannot be evaluated) makes
   * the root fail.
   */
  ghost predicate Flat(s: ChainState, preds: seq<bool>) {
    && (s.root.op == And || s.root.op == Or || s.root.op == Not)
    && s.chainSize == |preds|
    && (if preds == [] then |s.root.inputs| == 1 && Eval(s.root).Err?
        else s.root.inputs == Constants(preds))
  }

  /** What a chain with results `preds` reports under its root's connective. */
  function Verdict(op: Operator, preds: seq<bool>): bool
    requires op == And || op == Or || op == Not
    requires |preds| >= 1
  {
    if op == And then AllOf(preds)
    else if op == Or then AnyOf(preds)
    else !preds[0]
  }

  /** With one slot, And, Or and Not fail exactly when that slot does. */
  lemma SingleSlot(g: Node)
    requires g.op == And || g.op == Or || g.op == Not
    requires |g.inputs| == 1
    ensures Eval(g).Err? <==> EvalSlot(g, 0).Err?
  {
    EvalUpToSlots(g, 1);
  }

  lemma FlatBegin()
    ensures Flat(Begin(), [])
  {
    SingleSlot(Begin().root);
  }

  lemma FlatCompared(s: ChainState, preds: seq<bool>, b: bool)
    requires Flat(s, preds)
    ensures Flat(Compared(s, b), preds + [b])
  {
    var r := Compared(s, b);
    assert r.root.inputs == Constants(preds + [b]) by {
      forall k | 0 <= k < |preds| + 1
        ensures r.root.inputs[k] == Constants(preds + [b])[k]
      {
        if k < |preds| {
          assert (preds + [b])[k] == preds[k];
        }
      }
    }
  }

  lemma FlatRelinked(s: ChainState, preds: seq<bool>, op: Operator)
    requires Flat(s, preds) && (op == And || op == Or)
    ensures Flat(Relinked(s, op), preds)
  {
    if preds == [] {
      SingleSlot(s.root);
      SingleSlot(Relinked(s, op).root);
    }
  }

  lemma FlatInverted(s: ChainState)
    requires Flat(s, [])
    ensures Flat(Inverted(s), [])
  {
  }

  /** A flat chain evaluates exactly when it has a comparator, and then to its verdict. */
  lemma FlatVerdict(s: ChainState, preds: seq<bool>)
    requires Flat(s, preds)
    ensures Eval(s.root).Ok? <==> |preds| >= 1
    ensures |preds| >= 1 ==> Eval(s.root) == Ok(Verdict(s.root.op, preds))
  {
    if |preds| >= 1 {
      EvalConstants(s.root.op, preds);
    }
  }

  /** Evaluability of a flat chain is having a comparator. */
  lemma FlatEvaluable(s: ChainState, preds: seq<bool>)
    requires Flat(s, preds)
    ensures Evaluable(s.root) <==> |preds| >= 1
  {
    FlatVerdict(s, preds);
    EvaluableIffOk(s.root);
  }

  // ---------------------------------------------------------------------
  // Rewiring by Not()
  // ---------------------------------------------------------------------

  function Negated(r: Result<bool>): Result<bool> {
    match r
    case Ok(v) => Ok(!v)
    case Err(e) => Err(e)
  }

  /**
   * `Not()` then a comparator: on an empty chain the comparator overwrites
   * the old root and the chain is its negation; later, the old root stays
   * in slot 0 and the comparator's result lands in a slot Not never reads.
   */
  lemma NotThenComparator(s: ChainState, b: bool)
    ensures Compared(Inverted(s), b).root.op == Not
    ensures s.chainSize == 0 ==> Eval(Compared(Inverted(s), b).root) == Ok(!b)
    ensures s.chainSize >= 1 ==>
              && Compared(Inverted(s), b).root.inputs[0] == Set(s.root)
              && Eval(Compared(Inverted(s), b).root) == Negated(Eval(s.root))
  {
    var r := Compared(Inverted(s), b).root;
    if s.chainSize == 0 {
      assert r.inputs == [Set(Constant(b))];
    } else {
      assert r.inputs[0] == Set(s.root);
      assert EvalSlot(r, 0) == Eval(s.root);
    }
  }

  /**
   * `Not()` after two or more comparators, then a comparator and `Or()` or
   * `And()`: the resize pads the one-slot Not root with unset slots, and
   * the relabelled gate reads them, so the chain fails even when the old
   * root evaluates.
   */
  lemma {:induction false} LateNotThenOrReadsPadding(s: ChainState, b: bool, op: Operator)
    requires s.chainSize >= 2 && Eval(s.root).Ok? && (op == Or || op == And)
    ensures Relinked(Compared(Inverted(s), b), op).root.inputs[1] == Unset
    ensures Eval(Relinked(Compared(Inverted(s), b), op).root) == Err(UnsetInput)
  {
    var g := Relinked(Compared(Inverted(s), b), op).root;
    assert g.inputs[0] == Set(s.root) && g.inputs[1] == Unset;
    assert EvalSlot(g, 0) == Eval(s.root);
    assert EvalUpTo(g, 0) == Ok([]);
    assert EvalUpTo(g, 1).Ok?;
    assert EvalUpTo(g, 2) == Err(UnsetInput);
    EvalUpToErrPersists(g, 2, |g.inputs|);
  }

  /**
   * `Not()` after exactly one comparator, then a comparator and `Or()` or
   * `And()`: the resize to two slots leaves no padding, so the root is the
   * connective over the old root and the new result, and the negation is
   * lost.
   */
  lemma OneThenNotThenOr(s: ChainState, b: bool, op: Operator)
    requires s.chainSize == 1 && Eval(s.root).Ok? && (op == Or || op == And)
    ensures Relinked(Compared(Inverted(s), b), op).root.inputs == [Set(s.root), Set(Constant(b))]
    ensures Eval(Relinked(Compared(Inverted(s), b), op).root)
              == Ok(if op == Or then Eval(s.root).value || b else Eval(s.root).value && b)
  {
    var g := Relinked(Compared(Inverted(s), b), op).root;
    assert g.inputs == [Set(s.root), Set(Constant(b))];
    var v := Eval(s.root).value;
    assert EvalSlot(g, 0) == Ok(v) && EvalSlot(g, 1) == Ok(b);
    assert EvalUpTo(g, 0) == Ok([]);
    assert [] + [v] == [v] && [v] + [b] == [v, b];
    assert EvalUpTo(g, 1) == Ok([v]);
    assert EvalUpTo(g, 2) == Ok([v, b]);
    assert AnyOf([v, b]) == (v || b) && AllOf([v, b]) == (v && b) by {
      FoldStep([v], b);
      FoldStep([], v);
    }
  }

  /** Two `Not()` calls before the first comparator act as one: the comparator overwrites the inner Not. */
  lemma DoubleNotThenComparator(b: bool)
    ensures Eval(Compared(Inverted(Inverted(Begin())), b).root) == Ok(!b)
  {
    NotThenComparator(Inverted(Begin()), b);
  }

  /** `Or()` after `Not()` relabels the Not root itself: the negation is gone. */
  lemma OrAfterNotDropsNegation(s: ChainState, b: bool)
    requires s.chainSize == 0
    ensures Relinked(Compared(Inverted(s), b), Or).root == Node(Or, [Set(Constant(b))])
  {
  }
}
