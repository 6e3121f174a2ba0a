# Mochi in Dafny

Mochi is a header-only C++ unit-test library. Its core has three parts:

- **Logic gates** (`Logic::Gate`). A gate has an operator (`None`, `ConstantTrue`, `ConstantFalse`, `Or`, `And`, `Not`) and a vector of child gates. Its `Output()` evaluates the tree it stands for.
- **The fluent assertion** (`Assert::That<type>`). It captures one value. Each comparator (`EqualTo`, `LessThan`, `GreaterThan`, `True`, `Null`, …) resizes the root gate to `chainSize + 1` slots, stores its result in slot `chainSize` and increments `chainSize`. `Or()` and `And()` relabel the root. `Not()` wraps the root in a fresh Not gate. `AssertsTrue()` evaluates the root.
- **The test suite** (`Suite`). It is a named list of cases that are closures returning `bool`. `RunAllTests()` runs the cases in order, records which ones failed and counts the passes. `PrintReport()` prints the totals and the names of the failed cases.

The repository has two copies of this core:

- `Mochi.h`, the amalgamated header. Its `SetInput` checks the index, its gates are shared through `shared_ptr`, and `Output()` throws on the `None` tag and asserts that a gate has at least one input.
- `src/`, the split headers. Its `SetInput` does not check the index, it uses raw pointers, `Output()` has no branch for `None`, and `Not()` stores the old root in slot `chainSize` instead of slot 0.

Both copies are modelled, each in its own module.

| module | file | models |
|---|---|---|
| `Circuit` | `circuit.dfy` | Gate values shared by both copies. `Eval` gives the value of `Output()` as a `Result`. `Evaluable` says when each read made by `Output()` is defined. |
| `MochiLogic` | `mochi_logic.dfy` | `Mochi::Logic::Gate` as a class. Every error becomes an `Err`, except the unchecked index of `SetInputBool`, which is a precondition. |
| `Logic` | `src_logic.dfy` | `Logic::Gate` of the split header. An unchecked index or dereference becomes a `requires`. |
| `Chain` | `chain.dfy` | The builder state `(root, chainSize)` of an assertion chain, the transition made by each fluent call, and the invariants the state keeps. |
| `MochiAssert` | `mochi_assert.dfy` | `Mochi::Assert::That` as a class, plus the integer and boolean chains of the meta-tests. |
| `Assert` | `src_assert.dfy` | `Assert::That` of the split header, with a ghost list of the comparator results. |
| `Meta` | `meta.dfy` | The gate cases of the logic meta-test suite, built with the `MochiLogic` gate. |
| `Mochi` | `suite.dfy` | `Suite`. The two copies of it are identical: `src/Mochi.h:13-81` and `Mochi.h:272-340`. |

The value of a gate is a `Circuit.Node`, an operator together with a sequence of slots. A slot is either `Unset` (a null pointer) or holds a child `Node`. `Circuit.Eval` follows the `switch` in `Output()`:

- A constant returns its value.
- `Or` and `And` read slot 0, then fold slots 1 through n-1 into it with `|=` or `&=`.
- `Not` negates slot 0.
- The failures are `None` (InvalidGateType), a gate without slots (EmptyInputs) and an unset slot (UnsetInput). And and Or fail with the error of the first slot, in index order, that fails. Not reads slot 0 only, so a failure in a later slot is ignored.

The methods `OutputOf` in `MochiLogic` and `Logic` contain the loop the source runs. Each can be proved equal to `Eval`, on every gate in the `Mochi.h` copy and on every gate meeting `Evaluable` in the `src/` copy.

Integers are mathematical integers. The template parameter of `That` is modelled by `int`, and a captured `bool` is held as 0 or 1. `std::size_t` arithmetic in the report is taken modulo 2^64.

A second `RunAllTests()` is handled unevenly by the code. Each run clears `failedTestIDs` (Mochi.h:296), but `casesPassed` is set to 0 only in the constructor (Mochi.h:278) and each run adds to it (Mochi.h:301). The report's `cases.size() - casesPassed` (Mochi.h:318, 321) and the list of failed names (Mochi.h:325-328) assume that `casesPassed` holds only the passes of the last run, so that it and the recorded failures add up to `cases.size()`. From the second run on, once any case has passed, the printed failure count is too small (`Mochi.MismatchRerunScenario`). Once `casesPassed` exceeds `cases.size()`, the count wraps (`Mochi.RerunScenario`). The model follows the code; see "## Findings".

The amalgamated header's `Not()` also behaves unexpectedly after comparators. The wrapping Not gate has one slot, but `chainSize` is not reset. So the next comparator resizes the gate to `chainSize + 1` slots and stores its result in slot `chainSize`. A Not gate reads slot 0 only and ignores the later slots. When `Or()` or `And()` then relabels that gate, every slot is read:

- After two or more comparators, slots 1 to `chainSize - 1` stay null. If the old root evaluates, the evaluation then fails on slot 1 (`Chain.LateNotThenOrReadsPadding`, `MochiAssert.LateNotOrChain`). If the old root fails, its own error comes first.
- After exactly one comparator there is no padding. The gate is the connective over the old root and the new result, and the negation is lost (`Chain.OneThenNotThenOr`, `MochiAssert.OneNotOrChain`).
- Before any comparator, the comparator overwrites the wrapped root, so two `Not()` calls act as one (`Chain.DoubleNotThenComparator`).

## Model

| member | source | states |
|---|---|---|
| Circuit.Eval | Mochi.h:93-129 | defines `Output()`: a constant gives its value, And and Or fold all slots left to right, Not negates slot 0, and `None`, a gate without slots or an unset slot read give an error |
| Circuit.EvalSlot | Mochi.h:103 | defines `inputs[i]->Output()`: UnsetInput for a null pointer, otherwise the child's evaluation |
| Circuit.EvalUpTo | Mochi.h:101-118 | the values of slots 0 to n-1, read in index order, or the error of the first read that fails; a success holds exactly n values |
| Circuit.Evaluable | src/Logic/Logic.h:74-100 | defines what the split header's `Output()` needs: the tag is not `None`, And, Or and Not have a slot 0, and every slot it reads is set and evaluable |
| Circuit.SlotEvaluable | src/Logic/Logic.h:82 | defines a readable slot: set, and holding an evaluable gate |
| Circuit.Relabelled | Mochi.h:77-80 | defines `SetOperator` on a gate value: the operator replaced, the slots kept |
| Circuit.NewNode | Mochi.h:38-42 | a gate built with n inputs has the given operator and exactly n unset slots |
| Circuit.Resized | Mochi.h:85-88 | resizing to n keeps the first min(n, old size) slots, pads with unset slots, and keeps the operator |
| Circuit.WithSlot | Mochi.h:48-58 | storing into slot i changes that slot only and keeps the size and the operator |
| Circuit.Constant | Mochi.h:68-72 | the leaf `SetInputBool` creates has no inputs, is always defined, and evaluates to the given bool |
| Circuit.Constants | Mochi.h:68-72 | a row of constant leaves holds exactly the given bools, in order |
| Circuit.FoldStep | Mochi.h:103-107 | one `\|=` or `&=` step turns the disjunction or conjunction of the values seen so far into that of the values plus one |
| Circuit.EvalUpToErrPersists | Mochi.h:101-118 | once a read slot fails, the whole fold fails with that same error |
| Circuit.EvalUpToStep | Mochi.h:103-107 | one more slot: the longer prefix succeeds exactly when the shorter prefix and the new slot do |
| Circuit.EvalUpToOkIff | Mochi.h:101-118 | the fold over the first n slots succeeds exactly when each of those slots succeeds |
| Circuit.EvalUpToValues | Mochi.h:101-118 | a fold that succeeds lists the values of its slots, in order |
| Circuit.EvalUpToSlots | Mochi.h:101-118 | the fold over the first n slots succeeds exactly when each of those slots succeeds, and then its values are the slots' values |
| Circuit.EvaluableIffOk | src/Logic/Logic.h:74-100 | the split header's `Output()` is defined (no unchecked read goes wrong) exactly when the checked evaluation returns Ok, in both directions |
| Circuit.EvalAndIsConjunction | Mochi.h:110-119 | a non-empty And gate succeeds exactly when all slots succeed, and is then true exactly when every slot is true |
| Circuit.EvalOrIsDisjunction | Mochi.h:99-108 | a non-empty Or gate succeeds exactly when all slots succeed, and is then true exactly when some slot is true |
| Circuit.EvalNotReadsSlotZero | Mochi.h:121-125 | two Not gates with the same slot 0 have the same output, whatever their other slots hold, and a Not gate succeeds exactly when slot 0 does |
| Circuit.EvalFailures | Mochi.h:100-127 | `None` fails with InvalidGateType, and an And, Or or Not gate without slots fails with EmptyInputs |
| Circuit.EvalUpToConstants | Mochi.h:68-72 | folding the first n slots of a row of constants gives the first n bools |
| Circuit.EvalConstants | Mochi.h:93-125 | a gate over constant leaves is the conjunction (And) or the disjunction (Or) of the bools, or the negation of the first (Not) |
| MochiLogic.Gate.constructor | Mochi.h:38-42 | the new gate has the operator and inputCount unset slots |
| MochiLogic.Gate.SetInput | Mochi.h:48-62 | when the index is in range it stores the child there and succeeds; otherwise it fails with OutOfRange and changes nothing |
| MochiLogic.Gate.SetInputBool | Mochi.h:68-72 | slot i now holds the constant leaf for the bool; nothing else changes |
| MochiLogic.Gate.SetOperator | Mochi.h:77-80 | only the operator changes |
| MochiLogic.Gate.SetInputCount | Mochi.h:85-88 | the slot vector is resized as `vector::resize` does; the operator is kept |
| MochiLogic.Gate.Output | Mochi.h:93-129 | the result is the gate's value under `Eval`, errors included |
| MochiLogic.OutputOf | Mochi.h:95-128 | the switch with its two left folds computes `Eval` on every gate, errors included |
| MochiLogic.OutputSlot | Mochi.h:103 | dereferencing a slot gives the child's value, or UnsetInput for a null pointer |
| Logic.Gate.constructor | src/Logic/Logic.h:30-34 | the new gate has the operator and inputCount unset slots |
| Logic.Gate.SetInput | src/Logic/Logic.h:40-43 | slot i now holds the child and nothing else changes; the caller must keep i in range |
| Logic.Gate.SetInputBool | src/Logic/Logic.h:49-53 | slot i now holds the constant leaf for the bool; the caller must keep i in range |
| Logic.Gate.SetOperator | src/Logic/Logic.h:58-61 | only the operator changes |
| Logic.Gate.SetInputCount | src/Logic/Logic.h:66-69 | the slot vector is resized as `vector::resize` does |
| Logic.Gate.Output | src/Logic/Logic.h:74-100 | on a gate whose reads are all defined, the result is the value `Eval` gives it |
| Logic.OutputOf | src/Logic/Logic.h:76-99 | the switch, with no `None` branch and unchecked reads, computes `Eval` on every gate meeting `Evaluable` |
| Logic.OutputSlot | src/Logic/Logic.h:82 | dereferencing a set, defined slot gives the child's value |
| Chain.Begin | Mochi.h:145-150 | a new chain has a one-slot And root with its slot unset, and no comparator yet |
| Chain.Compared | Mochi.h:182-188 | a comparator grows the root to chainSize+1 slots, stores its result in slot chainSize, keeps the earlier slots (padding with unset ones), keeps the operator, and counts one |
| Chain.Relinked | Mochi.h:164-177 | defines `Or()` and `And()` on the chain state: the root relabelled, chainSize kept |
| Chain.Inverted | Mochi.h:154-160 | `Not()` gives a fresh Not root whose only slot holds the old root; chainSize is kept |
| Chain.SrcInverted | src/Assert/Assert.h:30-36 | the split header's `Not()`, writing slot chainSize, coincides with the slot-0 version wherever its write is in range |
| Chain.SrcInvertInRangeIff | src/Assert/Assert.h:32-33 | the split header's `Not()` writes inside its one-slot gate exactly when no comparator has been chained |
| Chain.SrcNotAfterComparatorOutOfRange | src/Assert/Assert.h:33 | after one comparator, `Not()` of the split header writes slot 1 of a one-slot gate |
| Chain.Invariant | Mochi.h:154-188 | defines the shape every chain keeps: an And, Or or Not root with between 1 and max(1, chainSize) slots |
| Chain.BeginInvariant | Mochi.h:145-150 | a new chain has the chain shape: an And, Or or Not root with 1 to max(1, chainSize) slots |
| Chain.ComparedGrows | Mochi.h:182-188 | a comparator keeps the chain shape, never shrinks the root, and leaves every earlier slot alone |
| Chain.RelinkedInvariant | Mochi.h:164-177 | `Or()` and `And()` keep the chain shape and the slots |
| Chain.InvertedInvariant | Mochi.h:154-160 | `Not()` keeps the chain shape |
| Chain.SingleSlot | src/Logic/Logic.h:80-98 | with one slot, an And, Or or Not gate fails exactly when that slot does |
| Chain.Flat | src/Assert/Assert.h:30-64 | defines a chain whose root's slots are exactly the constants of its comparator results; with no result, its single slot makes the root fail |
| Chain.Verdict | src/Assert/Assert.h:139-142 | defines what such a chain reports: all results (And), any result (Or), or the negated first result (Not) |
| Chain.FlatBegin | src/Assert/Assert.h:13-22 | a new chain's single slot makes the root fail, and there are no comparator results |
| Chain.FlatCompared | src/Assert/Assert.h:58-64 | after a comparator, the root's slots are exactly the constants for the results so far plus the new one |
| Chain.FlatRelinked | src/Assert/Assert.h:40-53 | relabelling keeps the slots equal to the comparator results |
| Chain.FlatInverted | src/Assert/Assert.h:30-36 | `Not()` on a chain without comparators keeps a single, failing slot |
| Chain.FlatVerdict | src/Assert/Assert.h:139-142 | a chain whose slots are its comparator results evaluates exactly when it has a comparator, and then to their conjunction, disjunction or negated first result |
| Chain.FlatEvaluable | src/Assert/Assert.h:139-142 | such a chain meets the split header's `Output()` preconditions exactly when it has a comparator |
| Chain.NotThenComparator | Mochi.h:154-160 | `Not()` then a comparator gives the negated result on an empty chain; later, slot 0 keeps the old root and the chain is that root's negation |
| Chain.LateNotThenOrReadsPadding | Mochi.h:154-188 | after `Not()` on a chain with two or more comparators and an evaluable root, a comparator then `Or()` or `And()` leaves slot 1 unset and the chain fails with UnsetInput |
| Chain.OneThenNotThenOr | Mochi.h:154-188 | after `Not()` on a chain with exactly one comparator and an evaluable root, a comparator then `Or()` or `And()` leaves the two slots old root and new result, and the chain is their disjunction or conjunction, with no negation |
| Chain.DoubleNotThenComparator | Mochi.h:154-188 | `Not()` twice before the first comparator, then a comparator with result b, evaluates to !b: the comparator overwrites the inner Not |
| Chain.OrAfterNotDropsNegation | Mochi.h:164-168 | `Or()` after `Not()` and a comparator relabels the Not root itself, leaving a plain Or gate over the result |
| MochiAssert.That.constructor | Mochi.h:145-150 | a one-slot And root with its slot unset, the captured value, chainSize 0 |
| MochiAssert.That.OfBool | Mochi.h:145-150 | a captured bool is held as 1 or 0, over the same fresh root |
| MochiAssert.That.Not | Mochi.h:154-160 | the root becomes a fresh Not gate holding the old root in slot 0 |
| MochiAssert.That.Or | Mochi.h:164-168 | the root is relabelled Or, in place |
| MochiAssert.That.And | Mochi.h:173-177 | the root is relabelled And, in place |
| MochiAssert.That.Chained | Mochi.h:184-187 | the step all comparators share moves the state as `Chain.Compared` does, and on a valid chain it never shrinks the root |
| MochiAssert.That.EqualTo | Mochi.h:182-188 | stores state == value in the next slot |
| MochiAssert.That.LessThan | Mochi.h:193-199 | stores state < value in the next slot |
| MochiAssert.That.GreaterThan | Mochi.h:204-210 | stores state > value in the next slot |
| MochiAssert.That.True | Mochi.h:234-240 | stores the value converted to bool (non-zero) in the next slot |
| MochiAssert.That.Null | Mochi.h:256-262 | stores state == 0 in the next slot |
| MochiAssert.That.AssertsTrue | Mochi.h:263-266 | the result is the root's `Eval` value; nothing changes |
| MochiAssert.EqualToChain | meta/meta.h:5-7 | `That(v).EqualTo(w)` is Ok(v == w) for all v, w |
| MochiAssert.LessThanChain | Mochi.h:193-199 | `That(v).LessThan(w)` is Ok(v < w) for all v, w |
| MochiAssert.GreaterThanChain | Mochi.h:204-210 | `That(v).GreaterThan(w)` is Ok(v > w) for all v, w |
| MochiAssert.NotEqualToChain | meta/meta.h:11-13 | `That(v).Not().EqualTo(w)` is Ok(v != w) |
| MochiAssert.AtMostChain | meta/meta.h:20-22 | `That(v).LessThan(w).Or().EqualTo(w)` is Ok(v <= w) |
| MochiAssert.BetweenChain | meta/meta.h:23-25 | `That(v).GreaterThan(lo).And().LessThan(hi)` is Ok(lo < v < hi) |
| MochiAssert.NotThenOrChain | meta/meta.h:26-28 | `That(v).Not().EqualTo(a).Or().LessThan(b)` is Ok(v == a \|\| v < b): the negation is lost |
| MochiAssert.LateNotChain | Mochi.h:154-160 | `That(v).EqualTo(a).Not().EqualTo(b)` is Ok(v != a): the second comparator is never read |
| MochiAssert.OneNotOrChain | Mochi.h:154-188 | `That(v).EqualTo(a).Not().EqualTo(b).Or()` is Ok(v == a \|\| v == b): the negation is lost |
| MochiAssert.LateNotOrChain | Mochi.h:154-188 | `That(v).EqualTo(a).EqualTo(b).Not().EqualTo(c).Or()` is Err(UnsetInput) for all values: the Or gate reads the null padding slot 1 |
| MochiAssert.TrueChain | meta/meta.h:29-31 | `That(b).True()` is Ok(b) |
| MochiAssert.NotTrueChain | meta/meta.h:63-68 | `That(b).Not().True()` is Ok(!b) |
| MochiAssert.NullChain | meta/meta.h:32-34 | `That(v).Null()` is Ok(v == 0) |
| MochiAssert.EmptyChain | Mochi.h:263-266 | `AssertsTrue()` with no comparator reads the unset slot and fails with UnsetInput |
| MochiAssert.MetaChains | meta/meta.h:4-34 | the integer and boolean chains of the meta-test suite all give Ok(true) |
| Assert.That.constructor | src/Assert/Assert.h:13-22 | a one-slot And root with its slot unset, chainSize 0, no comparator results |
| Assert.That.OfBool | src/Assert/Assert.h:13-22 | a captured bool is held as 1 or 0 |
| Assert.That.Not | src/Assert/Assert.h:30-36 | callable only before the first comparator, where its write to slot chainSize is in range; the root becomes a fresh Not gate over the old root |
| Assert.That.Or | src/Assert/Assert.h:40-44 | the root is relabelled Or; the comparator results are kept |
| Assert.That.And | src/Assert/Assert.h:49-53 | the root is relabelled And; the comparator results are kept |
| Assert.That.Chained | src/Assert/Assert.h:60-62 | the shared comparator step appends the result to the recorded results |
| Assert.That.EqualTo | src/Assert/Assert.h:58-64 | appends state == value |
| Assert.That.LessThan | src/Assert/Assert.h:69-75 | appends state < value |
| Assert.That.GreaterThan | src/Assert/Assert.h:80-86 | appends state > value |
| Assert.That.True | src/Assert/Assert.h:110-116 | appends state != 0 |
| Assert.That.Null | src/Assert/Assert.h:132-138 | appends state == 0 |
| Assert.That.AssertsTrue | src/Assert/Assert.h:139-142 | defined once a comparator has been chained, and then the root's connective over the comparator results: all of them (And), any of them (Or), or the negated first (Not) |
| Assert.AssertsTrueDefined | src/Assert/Assert.h:139-142 | on a valid chain, `AssertsTrue()` is defined exactly when chainSize >= 1 |
| Assert.NotEqualToChain | meta/meta.h:11-13 | `That(v).Not().EqualTo(w)` gives v != w |
| Assert.BetweenChain | meta/meta.h:23-25 | `That(v).GreaterThan(lo).And().LessThan(hi)` gives lo < v < hi |
| Assert.AtMostChain | meta/meta.h:20-22 | `That(v).LessThan(w).Or().EqualTo(w)` gives v <= w |
| Meta.AndTrueTrueCase | meta/meta.h:57-62 | the `true && true` gate case passes |
| Meta.AndTrueFalseCase | meta/meta.h:63-68 | the `true && false` gate case, checked with `Not().True()`, passes |
| Meta.AndFiveCase | meta/meta.h:69-77 | the five-input And case passes |
| Meta.OrFalseTrueCase | meta/meta.h:78-83 | the `false \|\| true` case passes |
| Meta.OrFiveCase | meta/meta.h:84-92 | the five-input Or case passes |
| Meta.NotTrueCase | meta/meta.h:93-97 | the `!true` case passes |
| Meta.NestedCase | meta/meta.h:98-112 | the nested `(true && true) && (true && false)` case passes, with its sub-gates placed by `SetInput` |
| Meta.NestedValue | meta/meta.h:98-111 | the nested tree `(true && true) && (true && false)` evaluates to false |
| Meta.MetaLogicCases | meta/meta.h:56-114 | all seven gate cases give Ok(true) |
| Mochi.Outcomes | Mochi.h:298-301 | running the cases gives one result per case, each the case's own value |
| Mochi.PassCount | Mochi.h:300-301 | defines the pass counter a run accumulates: the number of true results |
| Mochi.FailedIndices | Mochi.h:302-305 | defines the failure list a run builds: the indices of the false results, in visiting order |
| Mochi.StepCounts | Mochi.h:300-305 | one more result adds one to the pass count when it holds, and otherwise appends its index to the failures |
| Mochi.FailedIndicesExact | Mochi.h:302-305 | an index is recorded as failed exactly when it is in range and its case returned false |
| Mochi.FailedIndicesIncreasing | Mochi.h:298-305 | the failed indices are strictly increasing, so none is repeated |
| Mochi.PassFailPartition | Mochi.h:298-305 | the passes plus the recorded failures account for every result exactly once |
| Mochi.PassCountIsMultiplicity | Mochi.h:301 | the pass count is the number of true results, whatever their order |
| Mochi.ReportedFailed | Mochi.h:318 | `cases.size() - casesPassed` is the plain difference when it is non-negative, and wraps modulo 2^64 otherwise |
| Mochi.Suite.FailedCaseNames | Mochi.h:325-328 | the k-th listed name is the name of the k-th recorded failure |
| Mochi.Suite.constructor | Mochi.h:275-280 | the name is set, the counter is 0, and the callback's cases and names are stored in registration order |
| Mochi.Suite.AddCase | Mochi.h:286-290 | the name and the case are appended as a pair; nothing else changes |
| Mochi.Suite.RunAllTests | Mochi.h:294-308 | the failures are exactly the failed indices of this run, the pass counter grows by this run's passes, and the cases are kept |
| Mochi.Suite.RunAllTestsFresh | Mochi.h:294-308 | a run starting from a zeroed counter, after which passes plus failures equal the number of cases |
| Mochi.Suite.PrintReport | Mochi.h:312-331 | the report gives the total, the passes, the `size_t` difference, and the failed names only when that difference is non-zero; nothing changes |
| Mochi.FreshReportConsistent | Mochi.h:318-328 | after a fresh run, the reported failure count equals the number of listed failures, and the listed indices are exactly the failing cases |
| Mochi.ThreeCasesScenario | src/Mochi.h:35-69 | three cases with the second failing: 2 passed, 1 failed, and the name "second" is listed |
| Mochi.RerunScenario | src/Mochi.h:35-62 | one passing case run twice: 2 passes for 1 case, and the failure count wraps to 2^64 - 1 |
| Mochi.MismatchRerunScenario | src/Mochi.h:35-69 | three cases of which only the first passes, run twice: 2 passes for 3 cases, so the report prints 1 failure while it lists the two names "second" and "third" |
| Mochi.FreshRerunScenario | src/Mochi.h:35-62 | the same rerun with the counter reset: 1 pass, 0 failures, no failure list |

## Left out

- `PrintReport` writes to `std::cout`. The model returns the printed figures as a `Report` value instead.
- The `std::chrono` start and end times and the execution time derived from them (src/Mochi.h:38, 48, 60-61) are left out, because they depend on the clock.
- `NaN()` and `Finite()` are left out, because they need floating point (Mochi.h:214-230, src/Assert/Assert.h:90-106).
- `Equals()` is left out, because it compares raw memory with `memcmp` (Mochi.h:245-252, src/Assert/Assert.h:121-128). So are the two pointer-region meta-tests that use it.
- The `Is` member is left out. It is a reference to the object itself and adds no behaviour.
- The template parameter `type` is modelled only by `int`. `That(bool)` reaches the same code through `OfBool`. Float and pointer instantiations are not modelled.
- Gates are modelled as values, so sharing is not modelled. `SetInput` stores a snapshot of the child's tree. In the source, the child is shared (`shared_ptr` in Mochi.h, a raw pointer in src/), so a later change to the child is visible through its parent. The `Gate*` overload of `SetInput` (Mochi.h:59-62) is folded into the single `SetInput`.
- Ownership is not modelled: the `That` destructor (src/Assert/Assert.h:23-26), freeing gates and the memory leaks of the split header.
- MochiLogic.Gate.Output: a failure is returned as an `Err` value with its cause. In the source, the `None` tag throws, a gate without inputs fails an `assert` (undefined behaviour under `NDEBUG`), and an unset slot dereferences a null pointer.
- Logic.Gate.Output: the source falls off the end of the function for `None`, and reads `inputs[0]` without checking the size. The model turns these into the precondition `Evaluable`.
- MochiLogic.Gate.SetInputBool: the index is not checked in either copy, so an in-range index is a precondition.
- Assert.That.Not: an out-of-range write only happens after a comparator. The model requires chainSize == 0. The behaviour of the out-of-range write is shown through `Chain.SrcInverted` and the finding below.
- The `int` counters `chainSize` and `casesPassed` are unbounded naturals. Their overflow past 2^31 - 1 is not modelled.
- Mochi.Suite.constructor: the registration callback is modelled as the list of `AddCase` calls it makes, in order. A callback that does anything else, such as running the suite, is not modelled.
- A case body is a pure `() -> bool`. Its side effects, its exceptions and its running time are not modelled. So the long-running meta-test (meta/meta.h:45-53) appears only as a case returning a value.
- meta/meta.h:8-10, 14-19: the float-valued chains are left out with the other floating-point cases. Their comparators are covered for `int` captures by `EqualToChain`, `LessThanChain` and `GreaterThanChain`.
- The commented-out operators (Nand, Nor, Xor, Xnor) are not part of the code, and are left out.

## Findings

| source | as written | input that shows it | evidently intended | confidence | as-written member | corrected member |
|---|---|---|---|---|---|---|
| src/Assert/Assert.h:33 | `Not()` stores the old root in slot `chainSize` of a fresh one-slot Not gate | `That(v).EqualTo(w).Not()`: chainSize is 1, so slot 1 of a one-element vector is written, out of bounds | store the old root in slot 0, as Mochi.h:158 does | high; not executed | Chain.SrcNotAfterComparatorOutOfRange | Chain.Inverted |
| src/Mochi.h:35-49 | `RunAllTests()` clears `failedTestIDs` but adds to `casesPassed` without resetting it (the same in Mochi.h:294-308) | a suite with one passing case, run twice: casesPassed is 2 for 1 case, and the report's `cases.size() - casesPassed` wraps to 2^64 - 1 and prints an empty failure list. Without any wrap, three cases of which only the first passes, run twice, print 1 failure but list 2 names (`Mochi.MismatchRerunScenario`) | reset `casesPassed` to 0 at the start of each run, as `failedTestIDs` is | medium; not executed | Mochi.RerunScenario | Mochi.Suite.RunAllTestsFresh |
