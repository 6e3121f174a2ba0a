/**
 * `Assert::That` of the split header: the same fluent chain over a
 * `Logic.Gate` root, whose unchecked operations become preconditions.
 * Its `Not()` writes the old root to slot `chainSize` of a one-slot Not
 * gate, which is in range only before the first comparator.
 *
 * Because `Not()` can only come first, every chain keeps the flat shape of
 * `Chain.Flat`: the root's slots are exactly the comparator results so
 * far, recorded in the ghost field `Predicates`.
 */
module Assert {
  import opened Circuit
  import opened Chain
  import Logic

  class That {
    var satisfaction: Logic.Gate
    const state: int
    var chainSize: nat
    ghost var Predicates: seq<bool>

    ghost function Abstract(): ChainState
      reads this, satisfaction
    {
      ChainState(satisfaction.Value(), chainSize)
    }

    ghost predicate Valid()
      reads this, satisfaction
    {
      Flat(Abstract(), Predicates)
    }

    /** `That(value)`: a one-slot And root with its slot unset, `chainSize` 0. */
    constructor (value: int)
      ensures Valid() && fresh(satisfaction)
      ensures state == value && Abstract() == Begin() && Predicates == []
    {
      satisfaction := new Logic.Gate(Operator.And, 1);
      state := value;
      chainSize := 0;
      Predicates := [];
      FlatBegin();
    }

    /** `That(value)` over a `bool`. */
    constructor OfBool(value: bool)
      ensures Valid() && fresh(satisfaction)
      ensures state == (if value then 1 else 0) && Abstract() == Begin() && Predicates == []
    {
      satisfaction := new Logic.Gate(Operator.And, 1);
      state := if value then 1 else 0;
      chainSize := 0;
      Predicates := [];
      FlatBegin();
    }

    /** Wraps the root in a fresh one-slot Not gate at slot `chainSize`, which must be 0. */
    method Not()
      requires Valid() && chainSize == 0
      modifies this
      ensures Valid() && fresh(satisfaction)
      ensures Abstract() == SrcInverted(old(Abstract()))
      ensures Predicates == old(Predicates)
    {
      FlatInverted(Abstract());
      var inverter := new Logic.Gate(Operator.Not, 1);
      inverter.SetInput(chainSize, satisfaction.Value());
      satisfaction := inverter;
    }

    /** Relabels the root as an Or gate. */
    method Or()
      requires Valid()
      modifies satisfaction
      ensures Valid() && satisfaction == old(satisfaction)
      ensures Abstract() == Relinked(old(Abstract()), Operator.Or)
      ensures Predicates == old(Predicates)
    {
      FlatRelinked(Abstract(), Predicates, Operator.Or);
      satisfaction.SetOperator(Operator.Or);
    }

    /** Relabels the root as an And gate. */
    method And()
      requires Valid()
      modifies satisfaction
      ensures Valid() && satisfaction == old(satisfaction)
      ensures Abstract() == Relinked(old(Abstract()), Operator.And)
      ensures Predicates == old(Predicates)
    {
      FlatRelinked(Abstract(), Predicates, Operator.And);
      satisfaction.SetOperator(Operator.And);
    }

    /** The step every comparator shares: resize the root to `chainSize + 1` slots, store `result` in slot `chainSize`, count it. */
    method Chained(result: bool)
      requires Valid()
      modifies this, satisfaction
      ensures Valid() && satisfaction == old(satisfaction)
      ensures Abstract() == Compared(old(Abstract()), result)
      ensures Predicates == old(Predicates) + [result]
    {
      FlatCompared(Abstract(), Predicates, result);
      satisfaction.SetInputCount(chainSize + 1);
      satisfaction.SetInputBool(chainSize, result);
      chainSize := chainSize + 1;
      Predicates := Predicates + [result];
    }

    method EqualTo(value: int)
      requires Valid()
      modifies this, satisfaction
      ensures Valid() && satisfaction == old(satisfaction)
      ensures Abstract() == Compared(old(Abstract()), state == value)
      ensures Predicates == old(Predicates) + [state == value]
    {
      Chained(state == value);
    }

    method LessThan(value: int)
      requires Valid()
      modifies this, satisfaction
      ensures Valid() && satisfaction == old(satisfaction)
      ensures Abstract() == Compared(old(Abstract()), state < value)
      ensures Predicates == old(Predicates) + [state < value]
    {
      Chained(state < value);
    }

    method GreaterThan(value: int)
      requires Valid()
      modifies this, satisfaction
      ensures Valid() && satisfaction == old(satisfaction)
      ensures Abstract() == Compared(old(Abstract()), state > value)
      ensures Predicates == old(Predicates) + [state > value]
    {
      Chained(state > value);
    }

    /** The captured value converted to `bool`. */
    method True()
      requires Valid()
      modifies this, satisfaction
      ensures Valid() && satisfaction == old(satisfaction)
      ensures Abstract() == Compared(old(Abstract()), state != 0)
      ensures Predicates == old(Predicates) + [state != 0]
    {
      Chained(state != 0);
    }

    /** The captured value compared with the null address 0. */
    method Null()
      requires Valid()
      modifies this, satisfaction
      ensures Valid() && satisfaction == old(satisfaction)
      ensures Abstract() == Compared(old(Abstract()), state == 0)
      ensures Predicates == old(Predicates) + [state == 0]
    {
      Chained(state == 0);
    }

    /**
     * The root's output, defined only once every slot it reads is set,
     * that is after the first comparator; it is the connective of the
     * root folded over the comparator results. Nothing is changed.
     */
    method AssertsTrue() returns (r: bool)
      requires Valid() && Evaluable(satisfaction.Value())
      ensures |Predicates| >= 1 && chainSize == |Predicates|
      ensures r == Verdict(satisfaction.operation, Predicates)
      ensures Eval(satisfaction.Value()) == Ok(r)
    {
      FlatEvaluable(Abstract(), Predicates);
      FlatVerdict(Abstract(), Predicates);
      r := satisfaction.Output();
    }
  }

  /** On a valid chain, `AssertsTrue` may be called exactly when a comparator has been chained. */
  lemma AssertsTrueDefined(t: That)
    requires t.Valid()
    ensures Evaluable(t.satisfaction.Value()) <==> t.chainSize >= 1
  {
    FlatEvaluable(t.Abstract(), t.Predicates);
  }

  // ---------------------------------------------------------------------
  // Chains of the meta-tests, for every captured value
  // ---------------------------------------------------------------------

  /** `That(v).Not().EqualTo(w)`: the comparator overwrites the wrapped root, giving !(v == w). */
  method NotEqualToChain(v: int, w: int) returns (r: bool)
    ensures r == (v != w)
  {
    var t := new That(v);
    t.Not();
    t.EqualTo(w);
    AssertsTrueDefined(t);
    r := t.AssertsTrue();
  }

  /** Without `Not()`, k comparators under And are their conjunction. */
  method BetweenChain(v: int, lo: int, hi: int) returns (r: bool)
    ensures r == (lo < v < hi)
  {
    var t := new That(v);
    t.GreaterThan(lo);
    t.And();
    t.LessThan(hi);
    AssertsTrueDefined(t);
    r := t.AssertsTrue();
    assert t.Predicates == [v > lo, v < hi];
  }

  /** Without `Not()`, k comparators under Or are their disjunction. */
  method AtMostChain(v: int, w: int) returns (r: bool)
    ensures r == (v <= w)
  {
    var t := new That(v);
    t.LessThan(w);
    t.Or();
    t.EqualTo(w);
    AssertsTrueDefined(t);
    r := t.AssertsTrue();
    assert t.Predicates == [v < w, v == w];
  }
}
