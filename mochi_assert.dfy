/**
 * `Mochi::Assert::That` of the amalgamated header: a fluent chain over one
 * captured value. Its root gate is a `MochiLogic.Gate` object that the
 * comparators and connectives change in place and that `Not()` replaces.
 *
 * The template parameter is modelled by `int`; a captured `bool` is held
 * as 0 or 1, which is how C++ compares and converts it.
 */
module MochiAssert {
  import opened Circuit
  import opened Chain
  import MochiLogic

  class That {
    var satisfaction: MochiLogic.Gate
    const state: int
    var chainSize: nat

    ghost function Abstract(): ChainState
      reads this, satisfaction
    {
      ChainState(satisfaction.Value(), chainSize)
    }

    ghost predicate Valid()
      reads this, satisfaction
    {
      Invariant(Abstract())
    }

    /** `That(value)`: a one-slot And root with its slot unset, `chainSize` 0. */
    constructor (value: int)
      ensures Valid() && fresh(satisfaction)
      ensures state == value && Abstract() == Begin()
    {
      satisfaction := new MochiLogic.Gate(Operator.And, 1);
      state := value;
      chainSize := 0;
    }

    /** `That(value)` over a `bool`. */
    constructor OfBool(value: bool)
      ensures Valid() && fresh(satisfaction)
      ensures state == (if value then 1 else 0) && Abstract() == Begin()
    {
      satisfaction := new MochiLogic.Gate(Operator.And, 1);
      state := if value then 1 else 0;
      chainSize := 0;
    }

    /** Wraps the root in a fresh one-slot Not gate holding it in slot 0. */
    method Not()
      requires Valid()
      modifies this
      ensures Valid() && fresh(satisfaction)
      ensures Abstract() == Inverted(old(Abstract()))
    {
      InvertedInvariant(Abstract());
      var s := satisfaction.Value();
      var inverter := new MochiLogic.Gate(Operator.Not, 1);
      var outcome := inverter.SetInput(0, s);
      satisfaction := inverter;
    }

    /** Relabels the root as an Or gate. */
    method Or()
      requires Valid()
      modifies satisfaction
      ensures Valid() && satisfaction == old(satisfaction)
      ensures Abstract() == Relinked(old(Abstract()), Operator.Or)
    {
      RelinkedInvariant(Abstract(), Operator.Or);
      satisfaction.SetOperator(Operator.Or);
    }

    /** Relabels the root as an And gate. */
    method And()
      requires Valid()
      modifies satisfaction
      ensures Valid() && satisfaction == old(satisfaction)
      ensures Abstract() == Relinked(old(Abstract()), Operator.And)
    {
      RelinkedInvariant(Abstract(), Operator.And);
      satisfaction.SetOperator(Operator.And);
    }

    /** The step every comparator shares: resize the root to `chainSize + 1` slots, store `result` in slot `chainSize`, count it. */
    method Chained(result: bool)
      requires Valid()
      modifies this, satisfaction
      ensures Valid() && satisfaction == old(satisfaction)
      ensures Abstract() == Compared(old(Abstract()), result)
      ensures |Abstract().root.inputs| >= |old(Abstract()).root.inputs|
    {
      ComparedGrows(Abstract(), result);
      satisfaction.SetInputCount(chainSize + 1);
      satisfaction.SetInputBool(chainSize, result);
      chainSize := chainSize + 1;
    }

    method EqualTo(value: int)
      requires Valid()
      modifies this, satisfaction
      ensures Valid() && satisfaction == old(satisfaction)
      ensures Abstract() == Compared(old(Abstract()), state == value)
    {
      Chained(state == value);
    }

    method LessThan(value: int)
      requires Valid()
      modifies this, satisfaction
      ensures Valid() && satisfaction == old(satisfaction)
      ensures Abstract() == Compared(old(Abstract()), state < value)
    {
      Chained(state < value);
    }

    method GreaterThan(value: int)
      requires Valid()
      modifies this, satisfaction
      ensures Valid() && satisfaction == old(satisfaction)
      ensures Abstract() == Compared(old(Abstract()), state > value)
    {
      Chained(state > value);
    }

    /** The captured value converted to `bool`. */
    method True()
      requires Valid()
      modifies this, satisfaction
      ensures Valid() && satisfaction == old(satisfaction)
      ensures Abstract() == Compared(old(Abstract()), state != 0)
    {
      Chained(state != 0);
    }

    /** The captured value compared with the null address 0. */
    method Null()
      requires Valid()
      modifies this, satisfaction
      ensures Valid() && satisfaction == old(satisfaction)
      ensures Abstract() == Compared(old(Abstract()), state == 0)
    {
      Chained(state == 0);
    }

    /** The root's output; nothing is changed. */
    method AssertsTrue() returns (r: Result<bool>)
      ensures r == Eval(Abstract().root)
    {
      r := satisfaction.Output();
    }
  }

  // ---------------------------------------------------------------------
  // Chains of the meta-tests, for every captured value
  // ---------------------------------------------------------------------

  /** `That(v).EqualTo(w)` holds exactly when v == w. */
  method EqualToChain(v: int, w: int) returns (r: Result<bool>)
    ensures r == Ok(v == w)
  {
    var t := new That(v);
    FlatBegin();
    FlatCompared(t.Abstract(), [], v == w);
    t.EqualTo(w);
    FlatVerdict(t.Abstract(), [v == w]);
    r := t.AssertsTrue();
  }

  /** `That(v).LessThan(w)` holds exactly when v < w. */
  method LessThanChain(v: int, w: int) returns (r: Result<bool>)
    ensures r == Ok(v < w)
  {
    var t := new That(v);
    FlatBegin();
    FlatCompared(t.Abstract(), [], v < w);
    t.LessThan(w);
    FlatVerdict(t.Abstract(), [v < w]);
    r := t.AssertsTrue();
  }

  /** `That(v).GreaterThan(w)` holds exactly when v > w. */
  method GreaterThanChain(v: int, w: int) returns (r: Result<bool>)
    ensures r == Ok(v > w)
  {
    var t := new That(v);
    FlatBegin();
    FlatCompared(t.Abstract(), [], v > w);
    t.GreaterThan(w);
    FlatVerdict(t.Abstract(), [v > w]);
    r := t.AssertsTrue();
  }

  /** `That(v).Not().EqualTo(w)` holds exactly when v != w. */
  method NotEqualToChain(v: int, w: int) returns (r: Result<bool>)
    ensures r == Ok(v != w)
  {
    var t := new That(v);
    t.Not();
    NotThenComparator(Begin(), v == w);
    t.EqualTo(w);
    r := t.AssertsTrue();
  }

  /** `That(v).LessThan(w).Or().EqualTo(w)` holds exactly when v <= w. */
  method AtMostChain(v: int, w: int) returns (r: Result<bool>)
    ensures r == Ok(v <= w)
  {
    var t := new That(v);
    FlatBegin();
    FlatCompared(t.Abstract(), [], v < w);
    t.LessThan(w);
    FlatRelinked(t.Abstract(), [v < w], Operator.Or);
    t.Or();
    FlatCompared(t.Abstract(), [v < w], v == w);
    t.EqualTo(w);
    FlatVerdict(t.Abstract(), [v < w] + [v == w]);
    r := t.AssertsTrue();
  }

  /** `That(v).GreaterThan(lo).And().LessThan(hi)` holds exactly when lo < v < hi. */
  method BetweenChain(v: int, lo: int, hi: int) returns (r: Result<bool>)
    ensures r == Ok(lo < v < hi)
  {
    var t := new That(v);
    FlatBegin();
    FlatCompared(t.Abstract(), [], v > lo);
    t.GreaterThan(lo);
    FlatRelinked(t.Abstract(), [v > lo], Operator.And);
    t.And();
    FlatCompared(t.Abstract(), [v > lo], v < hi);
    t.LessThan(hi);
    FlatVerdict(t.Abstract(), [v > lo] + [v < hi]);
    r := t.AssertsTrue();
  }

  /**
   * `That(v).Not().EqualTo(a).Or().LessThan(b)`: `Or()` relabels the Not
   * root, so the chain is (v == a) || (v < b), with no negation.
   */
  method NotThenOrChain(v: int, a: int, b: int) returns (r: Result<bool>)
    ensures r == Ok(v == a || v < b)
  {
    var t := new That(v);
    FlatBegin();
    FlatInverted(Begin());
    t.Not();
    FlatCompared(t.Abstract(), [], v == a);
    t.EqualTo(a);
    FlatRelinked(t.Abstract(), [v == a], Operator.Or);
    t.Or();
    FlatCompared(t.Abstract(), [v == a], v < b);
    t.LessThan(b);
    FlatVerdict(t.Abstract(), [v == a] + [v < b]);
    r := t.AssertsTrue();
  }

  /** `That(v).EqualTo(a).Not().EqualTo(b)`: the old root stays in the Not's slot 0 and b is never read. */
  method LateNotChain(v: int, a: int, b: int) returns (r: Result<bool>)
    ensures r == Ok(v != a)
  {
    var t := new That(v);
    t.EqualTo(a);
    ghost var before := t.Abstract();
    assert Eval(before.root) == Ok(v == a) by {
      EvalConstants(And, [v == a]);
      assert before.root.inputs == Constants([v == a]);
    }
    t.Not();
    NotThenComparator(before, v == b);
    t.EqualTo(b);
    r := t.AssertsTrue();
  }

  /**
   * `That(v).EqualTo(a).Not().EqualTo(b).Or()`: the comparator after `Not()`
   * fills slot 1 with no padding before it, and `Or()` relabels the Not
   * root, so the chain is (v == a) || (v == b), with the negation lost.
   */
  method OneNotOrChain(v: int, a: int, b: int) returns (r: Result<bool>)
    ensures r == Ok(v == a || v == b)
  {
    var t := new That(v);
    FlatBegin();
    FlatCompared(t.Abstract(), [], v == a);
    t.EqualTo(a);
    FlatVerdict(t.Abstract(), [v == a]);
    OneThenNotThenOr(t.Abstract(), v == b, Operator.Or);
    t.Not();
    t.EqualTo(b);
    t.Or();
    r := t.AssertsTrue();
  }

  /**
   * `That(v).EqualTo(a).EqualTo(b).Not().EqualTo(c).Or()`: the comparator
   * after `Not()` resizes the one-slot Not root to three slots, leaving
   * slot 1 a null pointer; `Or()` then makes every slot read, so the chain
   * fails on slot 1 whatever the values.
   */
  method LateNotOrChain(v: int, a: int, b: int, c: int) returns (r: Result<bool>)
    ensures r == Err(UnsetInput)
  {
    var t := new That(v);
    FlatBegin();
    FlatCompared(t.Abstract(), [], v == a);
    t.EqualTo(a);
    FlatCompared(t.Abstract(), [v == a], v == b);
    t.EqualTo(b);
    FlatVerdict(t.Abstract(), [v == a] + [v == b]);
    LateNotThenOrReadsPadding(t.Abstract(), v == c, Operator.Or);
    t.Not();
    t.EqualTo(c);
    t.Or();
    r := t.AssertsTrue();
  }

  /** `That(b).True()` holds exactly when b does. */
  method TrueChain(b: bool) returns (r: Result<bool>)
    ensures r == Ok(b)
  {
    var t := new That.OfBool(b);
    FlatBegin();
    FlatCompared(t.Abstract(), [], t.state != 0);
    t.True();
    FlatVerdict(t.Abstract(), [t.state != 0]);
    r := t.AssertsTrue();
  }

  /** `That(b).Not().True()` holds exactly when b does not. */
  method NotTrueChain(b: bool) returns (r: Result<bool>)
    ensures r == Ok(!b)
  {
    var t := new That.OfBool(b);
    t.Not();
    NotThenComparator(Begin(), t.state != 0);
    t.True();
    r := t.AssertsTrue();
  }

  /** `That(v).Null()` holds exactly when v is 0. */
  method NullChain(v: int) returns (r: Result<bool>)
    ensures r == Ok(v == 0)
  {
    var t := new That(v);
    FlatBegin();
    FlatCompared(t.Abstract(), [], v == 0);
    t.Null();
    FlatVerdict(t.Abstract(), [v == 0]);
    r := t.AssertsTrue();
  }

  /** `That(v).AssertsTrue()` with no comparator reads the unset slot 0. */
  method EmptyChain(v: int) returns (r: Result<bool>)
    ensures r == Err(UnsetInput)
  {
    var t := new That(v);
    r := t.AssertsTrue();
  }

  /** The integer and boolean chains of the meta-test suite all hold. */
  method MetaChains() returns (results: seq<Result<bool>>)
    ensures |results| == 7
    ensures forall k | 0 <= k < |results| :: results[k] == Ok(true)
  {
    var equal := EqualToChain(3, 3);
    var notEqual := NotEqualToChain(3, 5);
    var atMost := AtMostChain(4, 6);
    var between := BetweenChain(6, 5, 7);
    var combined := NotThenOrChain(7, 5, 9);
    var truth := TrueChain(true);
    var isNull := NullChain(0);
    results := [equal, notEqual, atMost, between, combined, truth, isNull];
  }
}
