/**
 * The value of a boolean gate tree and its evaluation.
 *
 * Both copies of `Logic::Gate` (the amalgamated header and the split one)
 * hold an operator tag and a vector of owned child pointers. Ownership is
 * strictly tree-shaped, so a gate is modelled here by its value: a `Node`
 * whose slots are either unset (a null pointer) or hold a sub-tree.
 */
module Circuit {

  /** The operator tags of a gate. */
  datatype Operator = None | ConstantTrue | ConstantFalse | Or | And | Not

  /** One input slot of a gate: a null child pointer, or an owned sub-gate. */
  datatype Slot = Unset | Set(gate: Node)

  /** A gate: its operator and its ordered input slots. */
  datatype Node = Node(op: Operator, inputs: seq<Slot>)

  /** The ways evaluation or slot access can go wrong. */
  datatype Error =
    | InvalidGateType   // the `None` tag reaches the evaluator
    | EmptyInputs       // an And, Or or Not gate with no input slot
    | UnsetInput        // a slot that is read holds a null pointer
    | OutOfRange        // a slot index at or beyond the slot count

  datatype Result<T> = Ok(value: T) | Err(error: Error)

  datatype Outcome = Pass | Fail(error: Error)

  /** Conjunction of a sequence of booleans (true when it is empty). */
  predicate AllOf(vs: seq<bool>) {
    forall k | 0 <= k < |vs| :: vs[k]
  }

  /** Disjunction of a sequence of booleans (false when it is empty). */
  predicate AnyOf(vs: seq<bool>) {
    exists k | 0 <= k < |vs| :: vs[k]
  }

  /** A left fold step of `&=` and `|=`. */
  lemma FoldStep(vs: seq<bool>, v: bool)
    ensures AllOf(vs + [v]) == (AllOf(vs) && v)
    ensures AnyOf(vs + [v]) == (AnyOf(vs) || v)
  {
    assert (vs + [v])[|vs|] == v;
    assert forall k | 0 <= k < |vs| :: (vs + [v])[k] == vs[k];
  }

  // ---------------------------------------------------------------------
  // Evaluation
  // ---------------------------------------------------------------------

  /**
   * What `Output()` computes: constants give their value, And and Or fold
   * every slot from left to right, Not negates slot 0 only. The first slot
   * whose evaluation fails decides the error.
   */
  function Eval(g: Node): Result<bool>
    decreases g, 2, 0
  {
    match g.op
    case None => Err(InvalidGateType)
    case ConstantTrue => Ok(true)
    case ConstantFalse => Ok(false)
    case Not =>
      if |g.inputs| == 0 then Err(EmptyInputs)
      else (match EvalSlot(g, 0)
            case Ok(v) => Ok(!v)
            case Err(e) => Err(e))
    case Or =>
      if |g.inputs| == 0 then Err(EmptyInputs)
      else (match EvalUpTo(g, |g.inputs|)
            case Ok(vs) => Ok(AnyOf(vs))
            case Err(e) => Err(e))
    case And =>
      if |g.inputs| == 0 then Err(EmptyInputs)
      else (match EvalUpTo(g, |g.inputs|)
            case Ok(vs) => Ok(AllOf(vs))
            case Err(e) => Err(e))
  }

  /** Evaluating the child in slot `i` (`inputs[i]->Output()`). */
  function EvalSlot(g: Node, i: nat): Result<bool>
    requires i < |g.inputs|
    decreases g, 0, 0
  {
    assert g.inputs[i] in g.inputs;
    match g.inputs[i]
    case Unset => Err(UnsetInput)
    case Set(c) => Eval(c)
  }

  /** The results of slots 0 .. n-1, evaluated in index order. */
  function EvalUpTo(g: Node, n: nat): (r: Result<seq<bool>>)
    requires n <= |g.inputs|
    ensures r.Ok? ==> |r.value| == n
    decreases g, 1, n
  {
    if n == 0 then Ok([])
    else match EvalUpTo(g, n - 1)
      case Err(e) => Err(e)
      case Ok(vs) =>
        match EvalSlot(g, n - 1)
        case Err(e) => Err(e)
        case Ok(v) => Ok(vs + [v])
  }

  /**
   * What the split header's unchecked `Output()` needs of a gate: the tag is
   * not `None`, And, Or and Not have a slot 0, and every slot the
   * evaluation reads is set and itself evaluable.
   */
  predicate Evaluable(g: Node)
    decreases g, 2, 0
  {
    match g.op
    case None => false
    case ConstantTrue => true
    case ConstantFalse => true
    case Not => |g.inputs| >= 1 && SlotEvaluable(g, 0)
    case Or => |g.inputs| >= 1 && forall i | 0 <= i < |g.inputs| :: SlotEvaluable(g, i)
    case And => |g.inputs| >= 1 && forall i | 0 <= i < |g.inputs| :: SlotEvaluable(g, i)
  }

  predicate SlotEvaluable(g: Node, i: nat)
    requires i < |g.inputs|
    decreases g, 0, 0
  {
    assert g.inputs[i] in g.inputs;
    g.inputs[i].Set? && Evaluable(g.inputs[i].gate)
  }

  // ---------------------------------------------------------------------
  // Gate values built and changed by the mutators
  // ---------------------------------------------------------------------

  /** A gate with operator `op` and `n` unset slots (`Gate(oper, inputCount)`). */
  function NewNode(op: Operator, n: nat): (r: Node)
    ensures r.op == op && |r.inputs| == n
    ensures forall i | 0 <= i < n :: r.inputs[i] == Unset
  {
    Node(op, seq(n, _ => Unset))
  }

  /** `inputs.resize(n)`: exactly n slots, the first min(old, n) kept, the rest unset. */
  function Resized(g: Node, n: nat): (r: Node)
    ensures r.op == g.op && |r.inputs| == n
    ensures forall i | 0 <= i < n :: r.inputs[i] == if i < |g.inputs| then g.inputs[i] else Unset
  {
    if n <= |g.inputs| then Node(g.op, g.inputs[..n])
    else Node(g.op, g.inputs + seq(n - |g.inputs|, _ => Unset))
  }

  /** Slot `i` replaced by `s`; the operator and every other slot unchanged. */
  function WithSlot(g: Node, i: nat, s: Slot): (r: Node)
    requires i < |g.inputs|
    ensures r.op == g.op && |r.inputs| == |g.inputs| && r.inputs[i] == s
    ensures forall j | 0 <= j < |g.inputs| && j != i :: r.inputs[j] == g.inputs[j]
  {
    Node(g.op, g.inputs[i := s])
  }

  /** The operator replaced; the slots unchanged. */
  function Relabelled(g: Node, op: Operator): Node {
    Node(op, g.inputs)
  }

  /** The leaf `SetInputBool` materialises: a constant gate with no slots. */
  function Constant(b: bool): (r: Node)
    ensures r.inputs == [] && Evaluable(r)
    ensures Eval(r) == Ok(b)
  {
    Node(if b then ConstantTrue else ConstantFalse, [])
  }

  /** Slot results of a gate whose slots all hold constants. */
  function Constants(bs: seq<bool>): (r: seq<Slot>)
    ensures |r| == |bs|
    ensures forall k | 0 <= k < |bs| :: r[k] == Set(Constant(bs[k]))
  {
    seq(|bs|, k requires 0 <= k < |bs| => Set(Constant(bs[k])))
  }

  // ---------------------------------------------------------------------
  // Properties of evaluation
  // ---------------------------------------------------------------------

  /** Once a prefix fails, every longer prefix fails with the same error. */
  lemma {:induction false} EvalUpToErrPersists(g: Node, m: nat, n: nat)
    requires m <= n <= |g.inputs|
    requires EvalUpTo(g, m).Err?
    ensures EvalUpTo(g, n) == EvalUpTo(g, m)
    decreases n - m
  {
    if m < n {
      EvalUpToErrPersists(g, m, n - 1);
    }
  }

  /** One step of the prefix evaluation: it succeeds when the shorter prefix and the next slot do. */
  lemma EvalUpToStep(g: Node, n: nat)
    requires 0 < n <= |g.inputs|
    ensures EvalUpTo(g, n).Ok? <==> EvalUpTo(g, n - 1).Ok? && EvalSlot(g, n - 1).Ok?
  {
  }

  /** The prefix succeeds exactly when each of its slots does. */
  lemma {:induction false} EvalUpToOkIff(g: Node, n: nat)
    requires n <= |g.inputs|
    ensures EvalUpTo(g, n).Ok? <==> forall i | 0 <= i < n :: EvalSlot(g, i).Ok?
  {
    if n > 0 {
      EvalUpToOkIff(g, n - 1);
      EvalUpToStep(g, n);
      if forall i | 0 <= i < n :: EvalSlot(g, i).Ok? {
        assert EvalSlot(g, n - 1).Ok?;
      } else {
        var i :| 0 <= i < n && !EvalSlot(g, i).Ok?;
        if i == n - 1 {
          assert !EvalSlot(g, n - 1).Ok?;
        } else {
          assert !(forall j | 0 <= j < n - 1 :: EvalSlot(g, j).Ok?);
        }
      }
    }
  }

  /** A prefix that succeeds lists the values of its slots, in order. */
  lemma {:induction false} EvalUpToValues(g: Node, n: nat)
    requires n <= |g.inputs| && EvalUpTo(g, n).Ok?
    ensures forall i | 0 <= i < n :: EvalSlot(g, i) == Ok(EvalUpTo(g, n).value[i])
  {
    if n > 0 {
      var prefix := EvalUpTo(g, n - 1);
      assert prefix.Ok?;
      EvalUpToValues(g, n - 1);
      var vs, v := prefix.value, EvalSlot(g, n - 1).value;
      assert EvalUpTo(g, n) == Ok(vs + [v]);
      forall i | 0 <= i < n
        ensures EvalSlot(g, i) == Ok((vs + [v])[i])
      {
        if i < n - 1 {
          assert (vs + [v])[i] == vs[i];
        }
      }
    }
  }

  /** The prefix succeeds exactly when each of its slots does, and then lists their values. */
  lemma EvalUpToSlots(g: Node, n: nat)
    requires n <= |g.inputs|
    ensures EvalUpTo(g, n).Ok? <==> forall i | 0 <= i < n :: EvalSlot(g, i).Ok?
    ensures EvalUpTo(g, n).Ok? ==>
              forall i | 0 <= i < n :: EvalSlot(g, i) == Ok(EvalUpTo(g, n).value[i])
  {
    EvalUpToOkIff(g, n);
    if EvalUpTo(g, n).Ok? {
      EvalUpToValues(g, n);
    }
  }

  /** A gate that evaluates is exactly an evaluable one: the split header's preconditions are the amalgamated header's error checks. */
  lemma {:induction false} EvaluableIffOk(g: Node)
    ensures Evaluable(g) <==> Eval(g).Ok?
    decreases g
  {
    forall i | 0 <= i < |g.inputs|
      ensures SlotEvaluable(g, i) <==> EvalSlot(g, i).Ok?
    {
      assert g.inputs[i] in g.inputs;
      if g.inputs[i].Set? {
        EvaluableIffOk(g.inputs[i].gate);
      }
    }
    if g.op == And || g.op == Or {
      if |g.inputs| >= 1 {
        EvalUpToSlots(g, |g.inputs|);
      }
    }
  }

  /** An And gate with slots gives the conjunction of all its children. */
  lemma EvalAndIsConjunction(g: Node)
    requires g.op == And && |g.inputs| >= 1
    ensures Eval(g).Ok? <==> forall i | 0 <= i < |g.inputs| :: EvalSlot(g, i).Ok?
    ensures Eval(g).Ok? ==>
              (Eval(g).value <==> forall i | 0 <= i < |g.inputs| :: EvalSlot(g, i) == Ok(true))
  {
    EvalUpToSlots(g, |g.inputs|);
    if Eval(g).Ok? {
      var vs := EvalUpTo(g, |g.inputs|).value;
      assert Eval(g).value == AllOf(vs);
      SlotsAllTrue(g, vs);
    }
  }

  lemma SlotsAllTrue(g: Node, vs: seq<bool>)
    requires |vs| == |g.inputs|
    requires forall i | 0 <= i < |g.inputs| :: EvalSlot(g, i) == Ok(vs[i])
    ensures AllOf(vs) <==> forall i | 0 <= i < |g.inputs| :: EvalSlot(g, i) == Ok(true)
    ensures AnyOf(vs) <==> exists i | 0 <= i < |g.inputs| :: EvalSlot(g, i) == Ok(true)
  {
    if AllOf(vs) {
      forall i | 0 <= i < |g.inputs|
        ensures EvalSlot(g, i) == Ok(true)
      {
        assert vs[i];
      }
    } else {
      var k :| 0 <= k < |vs| && !vs[k];
      assert EvalSlot(g, k) == Ok(vs[k]);
      assert EvalSlot(g, k) != Ok(true);
    }
    if AnyOf(vs) {
      var k :| 0 <= k < |vs| && vs[k];
      assert EvalSlot(g, k) == Ok(vs[k]);
      assert exists i | 0 <= i < |g.inputs| :: EvalSlot(g, i) == Ok(true);
    } else {
      forall i | 0 <= i < |g.inputs|
        ensures EvalSlot(g, i) != Ok(true)
      {
        assert !vs[i];
        assert EvalSlot(g, i) == Ok(vs[i]);
      }
    }
  }

  /** An Or gate with slots gives the disjunction of all its children. */
  lemma EvalOrIsDisjunction(g: Node)
    requires g.op == Or && |g.inputs| >= 1
    ensures Eval(g).Ok? <==> forall i | 0 <= i < |g.inputs| :: EvalSlot(g, i).Ok?
    ensures Eval(g).Ok? ==>
              (Eval(g).value <==> exists i | 0 <= i < |g.inputs| :: EvalSlot(g, i) == Ok(true))
  {
    EvalUpToSlots(g, |g.inputs|);
    if Eval(g).Ok? {
      var vs := EvalUpTo(g, |g.inputs|).value;
      assert Eval(g).value == AnyOf(vs);
      SlotsAllTrue(g, vs);
    }
  }

  /** A Not gate is the negation of slot 0; later slots are never read. */
  lemma EvalNotReadsSlotZero(g: Node, h: Node)
    requires g.op == Not && h.op == Not
    requires |g.inputs| >= 1 && |h.inputs| >= 1 && g.inputs[0] == h.inputs[0]
    ensures Eval(g) == Eval(h)
    ensures Eval(g).Ok? <==> EvalSlot(g, 0).Ok?
    ensures Eval(g).Ok? ==> Eval(g).value == !EvalSlot(g, 0).value
  {
  }

  /** The fatal cases: the `None` tag, and an And, Or or Not gate without slots. */
  lemma EvalFailures(g: Node)
    ensures g.op == None ==> Eval(g) == Err(InvalidGateType)
    ensures (g.op == And || g.op == Or || g.op == Not) && |g.inputs| == 0 ==> Eval(g) == Err(EmptyInputs)
  {
  }

  /** Evaluating the prefix of a gate whose slots are the constants `bs`. */
  lemma {:induction false} EvalUpToConstants(op: Operator, bs: seq<bool>, n: nat)
    requires n <= |bs|
    ensures EvalUpTo(Node(op, Constants(bs)), n) == Ok(bs[..n])
  {
    if n > 0 {
      EvalUpToConstants(op, bs, n - 1);
      assert bs[..n] == bs[..n - 1] + [bs[n - 1]];
    }
  }

  /** A gate over the constants `bs` (n >= 1): And is their conjunction, Or their disjunction, Not the negation of the first. */
  lemma EvalConstants(op: Operator, bs: seq<bool>)
    requires |bs| >= 1
    ensures op == And ==> Eval(Node(op, Constants(bs))) == Ok(AllOf(bs))
    ensures op == Or ==> Eval(Node(op, Constants(bs))) == Ok(AnyOf(bs))
    ensures op == Not ==> Eval(Node(op, Constants(bs))) == Ok(!bs[0])
  {
    EvalUpToConstants(op, bs, |bs|);
    assert bs[..|bs|] == bs;
  }
}
