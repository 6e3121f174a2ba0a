/**
 * `Logic::Gate` of the split header: the same gate as in the amalgamated
 * header but without its guards. Neither `SetInput` nor `SetInputBool`
 * checks its index, and `Output` has no case for `None`, reads slot 0
 * without a size check and dereferences slots without a null check; each
 * of these becomes a precondition here.
 */
module Logic {
  import opened Circuit

  class Gate {
    var inputs: seq<Slot>
    var operation: Operator

    /** The tree this gate currently stands for. */
    function Value(): Node
      reads this
    {
      Node(operation, inputs)
    }

    /** `Gate(oper, inputCount)`: the given operator and `inputCount` unset slots. */
    constructor (oper: Operator, inputCount: nat := 0)
      ensures Value() == NewNode(oper, inputCount)
    {
      inputs := seq(inputCount, _ => Unset);
      operation := oper;
    }

    /** Puts `state` in slot `inputNumber`; the caller must keep the index in range. */
    method SetInput(inputNumber: nat, state: Node)
      requires inputNumber < |inputs|
      modifies this
      ensures Value() == WithSlot(old(Value()), inputNumber, Set(state))
    {
      inputs := inputs[inputNumber := Set(state)];
    }

    /** Puts a ConstantTrue leaf in slot `inputNumber` when `state` holds, a ConstantFalse leaf otherwise. */
    method SetInputBool(inputNumber: nat, state: bool)
      requires inputNumber < |inputs|
      modifies this
      ensures Value() == WithSlot(old(Value()), inputNumber, Set(Constant(state)))
    {
      var constant := Node(if state then ConstantTrue else ConstantFalse, []);
      inputs := inputs[inputNumber := Set(constant)];
    }

    /** Changes the operator only. */
    method SetOperator(op: Operator)
      modifies this
      ensures Value() == Relabelled(old(Value()), op)
    {
      operation := op;
    }

    /** `inputs.resize(inputCount)`. */
    method SetInputCount(inputCount: nat)
      modifies this
      ensures Value() == Resized(old(Value()), inputCount)
    {
      if inputCount <= |inputs| {
        inputs := inputs[..inputCount];
      } else {
        inputs := inputs + seq(inputCount - |inputs|, _ => Unset);
      }
    }

    /** Evaluates the tree; the gate is not changed. */
    method Output() returns (r: bool)
      requires Evaluable(Value())
      ensures Eval(Value()) == Ok(r)
    {
      r := OutputOf(Value());
    }
  }

  /**
   * The body of `Output()` run on a gate value whose every read is
   * defined: And and Or start from slot 0 and fold the other slots in with
   * `&=` and `|=`, Not negates slot 0.
   */
  method OutputOf(g: Node) returns (r: bool)
    requires Evaluable(g)
    ensures Eval(g) == Ok(r)
    decreases g, 1
  {
    match g.op {
      case ConstantTrue =>
        return true;
      case ConstantFalse =>
        return false;
      case Or =>
        var result := OutputSlot(g, 0);
        ghost var vs := [result];
        assert [] + [result] == vs;
        FoldStep([], result);
        for i := 1 to |g.inputs|
          invariant EvalUpTo(g, i) == Ok(vs)
          invariant result == AnyOf(vs)
        {
          var v := OutputSlot(g, i);
          FoldStep(vs, v);
          result := result || v;
          vs := vs + [v];
        }
        return result;
      case And =>
        var result := OutputSlot(g, 0);
        ghost var vs := [result];
        assert [] + [result] == vs;
        FoldStep([], result);
        for i := 1 to |g.inputs|
          invariant EvalUpTo(g, i) == Ok(vs)
          invariant result == AllOf(vs)
        {
          var v := OutputSlot(g, i);
          FoldStep(vs, v);
          result := result && v;
          vs := vs + [v];
        }
        return result;
      case Not =>
        var v := OutputSlot(g, 0);
        return !v;
    }
  }

  /** `inputs[i]->Output()` on a set, evaluable slot. */
  method OutputSlot(g: Node, i: nat) returns (r: bool)
    requires i < |g.inputs| && SlotEvaluable(g, i)
    ensures EvalSlot(g, i) == Ok(r)
    decreases g, 0
  {
    assert g.inputs[i] in g.inputs;
    r := OutputOf(g.inputs[i].gate);
  }
}
