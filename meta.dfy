/**
 * The gate cases of the logic meta-test suite: gates built by hand with
 * `SetInputBool` and `SetInput`, their output checked with a `True()` or
 * `Not().True()` chain.
 */
module Meta {
  import opened Circuit
  import MochiLogic
  import MochiAssert

  /** `true && true`. */
  method AndTrueTrueCase() returns (r: Result<bool>)
    ensures r == Ok(true)
  {
    var gate := new MochiLogic.Gate(And, 2);
    gate.SetInputBool(0, true);
    gate.SetInputBool(1, true);
    assert gate.Value() == Node(And, Constants([true, true]));
    EvalConstants(And, [true, true]);
    var out := gate.Output();
    r := MochiAssert.TrueChain(out.value);
  }

  /** `true && false`, checked with `Not().True()`. */
  method AndTrueFalseCase() returns (r: Result<bool>)
    ensures r == Ok(true)
  {
    var gate := new MochiLogic.Gate(And, 2);
    gate.SetInputBool(0, true);
    gate.SetInputBool(1, false);
    assert gate.Value() == Node(And, Constants([true, false]));
    EvalConstants(And, [true, false]);
    assert !AllOf([true, false]) by {
      assert ![true, false][1];
    }
    var out := gate.Output();
    r := MochiAssert.NotTrueChain(out.value);
  }

  /** Five true inputs under And. */
  method AndFiveCase() returns (r: Result<bool>)
    ensures r == Ok(true)
  {
    var gate := new MochiLogic.Gate(And, 5);
    gate.SetInputBool(0, true);
    gate.SetInputBool(1, true);
    gate.SetInputBool(2, true);
    gate.SetInputBool(3, true);
    gate.SetInputBool(4, true);
    assert gate.Value() == Node(And, Constants([true, true, true, true, true]));
    EvalConstants(And, [true, true, true, true, true]);
    var out := gate.Output();
    r := MochiAssert.TrueChain(out.value);
  }

  /** `false || true`. */
  method OrFalseTrueCase() returns (r: Result<bool>)
    ensures r == Ok(true)
  {
    var gate := new MochiLogic.Gate(Or, 2);
    gate.SetInputBool(0, false);
    gate.SetInputBool(1, true);
    assert gate.Value() == Node(Or, Constants([false, true]));
    EvalConstants(Or, [false, true]);
    assert AnyOf([false, true]) by {
      assert [false, true][1];
    }
    var out := gate.Output();
    r := MochiAssert.TrueChain(out.value);
  }

  /** `false || false || true || false || false`. */
  method OrFiveCase() returns (r: Result<bool>)
    ensures r == Ok(true)
  {
    var gate := new MochiLogic.Gate(Or, 5);
    gate.SetInputBool(0, false);
    gate.SetInputBool(1, false);
    gate.SetInputBool(2, true);
    gate.SetInputBool(3, false);
    gate.SetInputBool(4, false);
    assert gate.Value() == Node(Or, Constants([false, false, true, false, false]));
    EvalConstants(Or, [false, false, true, false, false]);
    assert AnyOf([false, false, true, false, false]) by {
      assert [false, false, true, false, false][2];
    }
    var out := gate.Output();
    r := MochiAssert.TrueChain(out.value);
  }

  /** `!true`, checked with `Not().True()`. */
  method NotTrueCase() returns (r: Result<bool>)
    ensures r == Ok(true)
  {
    var gate := new MochiLogic.Gate(Not, 1);
    gate.SetInputBool(0, true);
    assert gate.Value() == Node(Not, Constants([true]));
    EvalConstants(Not, [true]);
    var out := gate.Output();
    r := MochiAssert.NotTrueChain(out.value);
  }

  /** `(true && true) && (true && false)`: two sub-gates placed with `SetInput`. */
  method NestedCase() returns (r: Result<bool>)
    ensures r == Ok(true)
  {
    var gate := new MochiLogic.Gate(And, 2);
    var gateSub1 := new MochiLogic.Gate(And, 2);
    gateSub1.SetInputBool(0, true);
    gateSub1.SetInputBool(1, true);
    var gateSub2 := new MochiLogic.Gate(And, 2);
    gateSub2.SetInputBool(0, true);
    gateSub2.SetInputBool(1, false);
    ghost var sub1 := Node(And, Constants([true, true]));
    ghost var sub2 := Node(And, Constants([true, false]));
    assert gateSub1.Value() == sub1 && gateSub2.Value() == sub2;
    var placed1 := gate.SetInput(0, gateSub1.Value());
    var placed2 := gate.SetInput(1, gateSub2.Value());
    assert gate.Value() == Node(And, [Set(sub1), Set(sub2)]);
    NestedValue();
    var out := gate.Output();
    r := MochiAssert.NotTrueChain(out.value);
  }

  /** The tree of the nested case evaluates to false. */
  lemma NestedValue()
    ensures Eval(Node(And, [Set(Node(And, Constants([true, true]))), Set(Node(And, Constants([true, false])))])) == Ok(false)
  {
    var g := Node(And, [Set(Node(And, Constants([true, true]))), Set(Node(And, Constants([true, false])))]);
    EvalConstants(And, [true, true]);
    EvalConstants(And, [true, false]);
    assert !AllOf([true, false]) by {
      assert ![true, false][1];
    }
    assert EvalSlot(g, 0) == Ok(true);
    assert EvalSlot(g, 1) == Ok(false);
    EvalAndIsConjunction(g);
  }

  /** Every gate case of the logic meta-test suite passes. */
  method MetaLogicCases() returns (results: seq<Result<bool>>)
    ensures |results| == 7
    ensures forall k | 0 <= k < |results| :: results[k] == Ok(true)
  {
    var andTT := AndTrueTrueCase();
    var andTF := AndTrueFalseCase();
    var andFive := AndFiveCase();
    var orFT := OrFalseTrueCase();
    var orFive := OrFiveCase();
    var notT := NotTrueCase();
    var nested := NestedCase();
    results := [andTT, andTF, andFive, orFT, orFive, notT, nested];
  }
}
