/**
 * `Mochi::Suite`: a named list of test cases, each a closure returning
 * `bool`, run in registration order. A run records the indices of the
 * failing cases and adds the number of passing ones to `casesPassed`; the
 * report prints the totals and the names of the failed cases.
 *
 * A case body is modelled by a total `() -> bool`: its side effects and its
 * running time are not part of the model.
 */
module Mochi {

  type Case = () -> bool

  /** The width of `std::size_t` on the 64-bit targets the header is built for. */
  const SizeModulus: int := 0x1_0000_0000_0000_0000

  /** What running `cases` in order gives, case by case. */
  function Outcomes(cases: seq<Case>): (rs: seq<bool>)
    ensures |rs| == |cases|
    ensures forall i | 0 <= i < |cases| :: rs[i] == cases[i]()
  {
    seq(|cases|, i requires 0 <= i < |cases| => cases[i]())
  }

  /** The number of passing results, counted from the front. */
  function PassCount(rs: seq<bool>): nat {
    if rs == [] then 0
    else PassCount(rs[..|rs| - 1]) + (if rs[|rs| - 1] then 1 else 0)
  }

  /** The indices of the failing results, in the order a run visits them. */
  function FailedIndices(rs: seq<bool>): seq<nat> {
    if rs == [] then []
    else FailedIndices(rs[..|rs| - 1]) + (if rs[|rs| - 1] then [] else [|rs| - 1])
  }

  /** One more result: how the two counters of a run move. */
  lemma StepCounts(rs: seq<bool>, b: bool)
    ensures PassCount(rs + [b]) == PassCount(rs) + (if b then 1 else 0)
    ensures FailedIndices(rs + [b]) == FailedIndices(rs) + (if b then [] else [|rs|])
  {
    assert (rs + [b])[..|rs|] == rs;
  }

  /** An index is recorded exactly when its result is a failure. */
  lemma {:induction false} FailedIndicesExact(rs: seq<bool>)
    ensures forall i :: i in FailedIndices(rs) <==> 0 <= i < |rs| && !rs[i]
  {
    if rs != [] {
      var init := rs[..|rs| - 1];
      FailedIndicesExact(init);
      forall i
        ensures i in FailedIndices(rs) <==> 0 <= i < |rs| && !rs[i]
      {
        if 0 <= i < |init| {
          assert init[i] == rs[i];
        }
      }
    }
  }

  /** The failed indices come in strictly increasing order, so none is repeated. */
  lemma {:induction false} FailedIndicesIncreasing(rs: seq<bool>)
    ensures forall j, k | 0 <= j < k < |FailedIndices(rs)| :: FailedIndices(rs)[j] < FailedIndices(rs)[k]
  {
    if rs != [] {
      var init := rs[..|rs| - 1];
      FailedIndicesIncreasing(init);
      FailedIndicesExact(init);
      var f := FailedIndices(init);
      forall j | 0 <= j < |f|
        ensures f[j] < |rs| - 1
      {
        assert f[j] in f;
      }
    }
  }

  /** Every result is either passed or recorded as failed. */
  lemma {:induction false} PassFailPartition(rs: seq<bool>)
    ensures PassCount(rs) + |FailedIndices(rs)| == |rs|
  {
    if rs != [] {
      PassFailPartition(rs[..|rs| - 1]);
    }
  }

  /** The pass count is the number of `true` results, whatever the order. */
  lemma {:induction false} PassCountIsMultiplicity(rs: seq<bool>)
    ensures PassCount(rs) == multiset(rs)[true]
  {
    if rs != [] {
      var init := rs[..|rs| - 1];
      PassCountIsMultiplicity(init);
      assert rs == init + [rs[|rs| - 1]];
    }
  }

  /** `cases.size() - casesPassed` as the report computes it, in `std::size_t`. */
  function ReportedFailed(total: nat, passed: nat): (n: nat)
    ensures n < SizeModulus
    ensures passed <= total < SizeModulus ==> n == total - passed
    ensures total < passed < SizeModulus ==> n == SizeModulus - (passed - total)
  {
    (total - passed) % SizeModulus
  }

  /** The figures `PrintReport` writes, without the timing. */
  datatype Report = Report(
    suiteName: string,
    total: nat,
    passed: nat,
    failed: nat,
    listsFailures: bool,
    failedNames: seq<string>)

  class Suite {
    var suiteName: string
    var cases: seq<Case>
    var caseNames: seq<string>
    var failedTestIDs: seq<nat>
    var casesPassed: nat

    /** Names and cases are pushed in pairs, and every recorded failure names a case. */
    ghost predicate Valid()
      reads this
    {
      && |caseNames| == |cases|
      && forall k | 0 <= k < |failedTestIDs| :: failedTestIDs[k] < |cases|
    }

    /** The names the report lists for the recorded failures. */
    function FailedCaseNames(): (names: seq<string>)
      reads this
      requires Valid()
      ensures |names| == |failedTestIDs|
      ensures forall k | 0 <= k < |names| :: names[k] == caseNames[failedTestIDs[k]]
    {
      seq(|failedTestIDs|, k requires 0 <= k < |failedTestIDs| && failedTestIDs[k] < |caseNames| reads this =>
        caseNames[failedTestIDs[k]])
    }

    /**
     * `Suite(name, func)`: an empty suite on which the registration
     * callback then adds `registrar`'s cases in order.
     */
    constructor (name: string, registrar: seq<(string, Case)>)
      ensures Valid()
      ensures suiteName == name && casesPassed == 0 && failedTestIDs == []
      ensures |cases| == |registrar|
      ensures forall i | 0 <= i < |registrar| :: caseNames[i] == registrar[i].0 && cases[i] == registrar[i].1
    {
      suiteName := name;
      casesPassed := 0;
      cases := [];
      caseNames := [];
      failedTestIDs := [];
      new;
      for i := 0 to |registrar|
        invariant Valid() && failedTestIDs == [] && |cases| == i
        invariant suiteName == name && casesPassed == 0
        invariant forall j | 0 <= j < i :: caseNames[j] == registrar[j].0 && cases[j] == registrar[j].1
      {
        AddCase(registrar[i].0, registrar[i].1);
      }
    }

    /** Appends a case and its name; nothing else changes. */
    method AddCase(caseName: string, func: Case)
      requires Valid()
      modifies this
      ensures Valid()
      ensures caseNames == old(caseNames) + [caseName] && cases == old(cases) + [func]
      ensures suiteName == old(suiteName) && failedTestIDs == old(failedTestIDs)
      ensures casesPassed == old(casesPassed)
    {
      caseNames := caseNames + [caseName];
      cases := cases + [func];
    }

    /**
     * Runs every case in order: the failures are recorded afresh, while
     * the passes are added to whatever `casesPassed` already held.
     */
    method RunAllTests()
      requires Valid()
      modifies this
      ensures Valid()
      ensures failedTestIDs == FailedIndices(Outcomes(cases))
      ensures casesPassed == old(casesPassed) + PassCount(Outcomes(cases))
      ensures cases == old(cases) && caseNames == old(caseNames) && suiteName == old(suiteName)
    {
      failedTestIDs := [];
      ghost var rs := Outcomes(cases);
      ghost var passedBefore := casesPassed;
      for i := 0 to |cases|
        invariant cases == old(cases) && caseNames == old(caseNames) && suiteName == old(suiteName)
        invariant failedTestIDs == FailedIndices(rs[..i])
        invariant casesPassed == passedBefore + PassCount(rs[..i])
      {
        var result := cases[i]();
        StepCounts(rs[..i], result);
        assert rs[..i + 1] == rs[..i] + [result];
        casesPassed := casesPassed + (if result then 1 else 0);
        if !result {
          failedTestIDs := failedTestIDs + [i];
        }
      }
      assert rs[..|cases|] == rs;
      FailedIndicesExact(rs);
      forall k | 0 <= k < |failedTestIDs|
        ensures failedTestIDs[k] < |cases|
      {
        assert failedTestIDs[k] in FailedIndices(rs);
      }
    }

    /**
     * The run as evidently intended: the pass counter starts from zero,
     * so passes and recorded failures together account for every case.
     */
    method RunAllTestsFresh()
      requires Valid()
      modifies this
      ensures Valid()
      ensures failedTestIDs == FailedIndices(Outcomes(cases))
      ensures casesPassed == PassCount(Outcomes(cases))
      ensures casesPassed + |failedTestIDs| == |cases|
      ensures cases == old(cases) && caseNames == old(caseNames) && suiteName == old(suiteName)
    {
      casesPassed := 0;
      RunAllTests();
      PassFailPartition(Outcomes(cases));
    }

    /** The figures of `PrintReport`; the suite is not changed. */
    method PrintReport() returns (r: Report)
      requires Valid()
      ensures r.suiteName == suiteName && r.total == |cases| && r.passed == casesPassed
      ensures r.failed == ReportedFailed(|cases|, casesPassed)
      ensures r.listsFailures == (r.failed > 0)
      ensures r.listsFailures ==> r.failedNames == FailedCaseNames()
      ensures !r.listsFailures ==> r.failedNames == []
    {
      var failed := ReportedFailed(|cases|, casesPassed);
      var names: seq<string> := [];
      if failed > 0 {
        for i := 0 to |failedTestIDs|
          invariant |names| == i
          invariant forall k | 0 <= k < i :: names[k] == caseNames[failedTestIDs[k]]
        {
          names := names + [caseNames[failedTestIDs[i]]];
        }
      }
      r := Report(suiteName, |cases|, casesPassed, failed, failed > 0, names);
    }
  }

  /** After a fresh run, the report's failure count is the number of names it lists. */
  lemma FreshReportConsistent(cases: seq<Case>, passed: nat, failedIDs: seq<nat>)
    requires failedIDs == FailedIndices(Outcomes(cases)) && passed == PassCount(Outcomes(cases))
    requires |cases| < SizeModulus
    ensures ReportedFailed(|cases|, passed) == |failedIDs|
    ensures forall i :: i in failedIDs <==> 0 <= i < |cases| && !cases[i]()
  {
    PassFailPartition(Outcomes(cases));
    FailedIndicesExact(Outcomes(cases));
  }

  // ---------------------------------------------------------------------
  // Suites of the shape the meta-tests use
  // ---------------------------------------------------------------------

  /** Three cases, the second failing: two passes and the second name reported. */
  method ThreeCasesScenario() returns (r: Report)
    ensures r.total == 3 && r.passed == 2 && r.failed == 1
    ensures r.listsFailures && r.failedNames == ["second"]
  {
    var suite := new Suite("scenario", [("first", () => true), ("second", () => false), ("third", () => true)]);
    suite.RunAllTests();
    ghost var rs := Outcomes(suite.cases);
    assert rs == [true, false, true];
    StepCounts([], true);
    assert [] + [true] == [true];
    StepCounts([true], false);
    assert [true] + [false] == [true, false];
    StepCounts([true, false], true);
    assert [true, false] + [true] == rs;
    r := suite.PrintReport();
  }

  /**
   * A single passing case run twice: the counter reaches 2 for one case,
   * and the report's `size_t` difference wraps to the largest value.
   */
  method RerunScenario() returns (r: Report)
    ensures r.total == 1 && r.passed == 2
    ensures r.failed == SizeModulus - 1 && r.listsFailures && r.failedNames == []
  {
    var suite := new Suite("rerun", [("only", () => true)]);
    ghost var rs := Outcomes(suite.cases);
    assert rs == [true];
    assert rs[..0] == [];
    suite.RunAllTests();
    suite.RunAllTests();
    r := suite.PrintReport();
  }

  /**
   * Three cases of which only the first passes, run twice: nothing wraps,
   * but the counter holds the passes of both runs, so the report prints
   * one failure while it lists the two failing names.
   */
  method MismatchRerunScenario() returns (r: Report)
    ensures r.total == 3 && r.passed == 2 && r.failed == 1
    ensures r.listsFailures && r.failedNames == ["second", "third"]
    ensures r.failed != |r.failedNames|
  {
    var suite := new Suite("rerun", [("first", () => true), ("second", () => false), ("third", () => false)]);
    ghost var rs := Outcomes(suite.cases);
    assert rs == [true, false, false];
    StepCounts([], true);
    assert [] + [true] == [true];
    StepCounts([true], false);
    assert [true] + [false] == [true, false];
    StepCounts([true, false], false);
    assert [true, false] + [false] == rs;
    suite.RunAllTests();
    suite.RunAllTests();
    r := suite.PrintReport();
  }

  /** The same rerun with the counter reset: one pass, nothing failed. */
  method FreshRerunScenario() returns (r: Report)
    ensures r.total == 1 && r.passed == 1 && r.failed == 0 && !r.listsFailures
  {
    var suite := new Suite("rerun", [("only", () => true)]);
    ghost var rs := Outcomes(suite.cases);
    assert rs == [true];
    assert rs[..0] == [];
    suite.RunAllTestsFresh();
    suite.RunAllTestsFresh();
    r := suite.PrintReport();
  }
}
