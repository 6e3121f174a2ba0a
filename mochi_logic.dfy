/**
 * `Mochi::Logic::Gate` of the amalgamated header: a gate whose operator and
 * slot vector are changed in place. `SetInput` checks its index and
 * `Output` fails on the `None` tag, on a gate without slots and on an
 * unset slot, and these are reported as errors. `SetInputBool` does not
 * check its index in either copy, so an in-range index is its precondition.
 */
module MochiLogic {
  import opened Circuit

  class Gate {
    var inputs: seq<Slot>
    var operation: Operator

    /** The tree this gate currently stands for. */
    function Value(): Node
      reads this
    {
      Node(operation, inputs)
    }

    /** `Gate(oper, inputCount)`: the given operator and `inputCount` unset slots. */
    constructor (oper: Operator, inputCount: nat := 0)
      ensures Value() == NewNode(oper, inputCount)
    {
      inputs := seq(inputCount, _ => Unset);
      operation := oper;
    }

    /** Puts `state` in slot `inputNumber`, or fails with OutOfRange and changes nothing. */
    method SetInput(inputNumber: nat, state: Node) returns (o: Outcome)
      modifies this
      ensures o == if inputNumber < old(|inputs|) then Pass else Fail(OutOfRange)
      ensures o.Pass? ==> Value() == WithSlot(old(Value()), inputNumber, Set(state))
      ensures o.Fail? ==> Value() == old(Value())
    {
      if inputNumber < |inputs| {
        inputs := inputs[inputNumber := Set(state)];
        o := Pass;
      } else {
        o := Fail(OutOfRange);
      }
    }

    /** Puts a constant leaf for `state` in slot `inputNumber`; the index is not checked. */
    method SetInputBool(inputNumber: nat, state: bool)
      requires inputNumber < |inputs|
      modifies this
      ensures Value() == WithSlot(old(Value()), inputNumber, Set(Constant(state)))
    {
      var constant := Node(if state then ConstantTrue else ConstantFalse, []);
      inputs := inputs[inputNumber := Set(constant)];
    }

    /** Changes the operator only. */
    method SetOperator(op: Operator)
      modifies this
      ensures Value() == Relabelled(old(Value()), op)
    {
      operation := op;
    }

    /** `inputs.resize(inputCount)`. */
    method SetInputCount(inputCount: nat)
      modifies this
      ensures Value() == Resized(old(Value()), inputCount)
    {
      if inputCount <= |inputs| {
        inputs := inputs[..inputCount];
      } else {
        inputs := inputs + seq(inputCount - |inputs|, _ => Unset);
      }
    }

    /** Evaluates the tree; the gate is not changed. */
    method Output() returns (r: Result<bool>)
      ensures r == Eval(Value())
    {
      r := OutputOf(Value());
    }
  }

  /**
   * The body of `Output()` run on a gate value: the constants return at
   * once, And and Or start from slot 0 and fold the other slots in with
   * `&=` and `|=`, Not negates slot 0.
   */
  method OutputOf(g: Node) returns (r: Result<bool>)
    ensures r == Eval(g)
    decreases g, 1
  {
    match g.op {
      case ConstantTrue =>
        return Ok(true);
      case ConstantFalse =>
        return Ok(false);
      case Or =>
        if |g.inputs| == 0 {
          return Err(EmptyInputs);
        }
        var first := OutputSlot(g, 0);
        if first.Err? {
          EvalUpToErrPersists(g, 1, |g.inputs|);
          return Err(first.error);
        }
        var result := first.value;
        ghost var vs := [result];
        assert [] + [result] == vs;
        FoldStep([], result);
        for i := 1 to |g.inputs|
          invariant EvalUpTo(g, i) == Ok(vs)
          invariant result == AnyOf(vs)
        {
          var v := OutputSlot(g, i);
          if v.Err? {
            EvalUpToErrPersists(g, i + 1, |g.inputs|);
            return Err(v.error);
          }
          FoldStep(vs, v.value);
          result := result || v.value;
          vs := vs + [v.value];
        }
        return Ok(result);
      case And =>
        if |g.inputs| == 0 {
          return Err(EmptyInputs);
        }
        var first := OutputSlot(g, 0);
        if first.Err? {
          EvalUpToErrPersists(g, 1, |g.inputs|);
          return Err(first.error);
        }
        var result := first.value;
        ghost var vs := [result];
        assert [] + [result] == vs;
        FoldStep([], result);
        for i := 1 to |g.inputs|
          invariant EvalUpTo(g, i) == Ok(vs)
          invariant result == AllOf(vs)
        {
          var v := OutputSlot(g, i);
          if v.Err? {
            EvalUpToErrPersists(g, i + 1, |g.inputs|);
            return Err(v.error);
          }
          FoldStep(vs, v.value);
          result := result && v.value;
          vs := vs + [v.value];
        }
        return Ok(result);
      case Not =>
        if |g.inputs| == 0 {
          return Err(EmptyInputs);
        }
        var v := OutputSlot(g, 0);
        if v.Err? {
          return Err(v.error);
        }
        return Ok(!v.value);
      case None =>
        return Err(InvalidGateType);
    }
  }

  /** `inputs[i]->Output()`: an unset slot is a null pointer and fails. */
  method OutputSlot(g: Node, i: nat) returns (r: Result<bool>)
    requires i < |g.inputs|
    ensures r == EvalSlot(g, i)
    decreases g, 0
  {
    assert g.inputs[i] in g.inputs;
    match g.inputs[i] {
      case Unset =>
        r := Err(UnsetInput);
      case Set(c) =>
        r := OutputOf(c);
    }
  }
}
