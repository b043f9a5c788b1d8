/**
 * The count-based solvability check of linear_solver_tests.c
 * (`simple_computation_print`) and the test systems of that file.
 *
 * The check compares the number of unassigned symbols with the number of
 * expressions. The solver's symbol table is not part of this model: a
 * system's symbols are the distinct names its expressions and assignments
 * mention, and a symbol is fixed when some assignment names it.
 */
module Solvability {
  import opened LinearSystem

  datatype Verdict = Solvable | Underconstrained | Overconstrained

  /** The three counts the check prints, and its verdict. */
  datatype Report = Report(numSymbols: nat, numAssigned: nat, numExpressions: nat, verdict: Verdict)

  /**
   * The verdict for the given counts: solvable when the unassigned symbols
   * match the expressions, underconstrained when they outnumber them,
   * overconstrained otherwise.
   */
  function Classify(numSymbols: int, numAssigned: int, numExpressions: int): (v: Verdict)
    ensures v == Solvable <==> numSymbols - numAssigned == numExpressions
    ensures v == Underconstrained <==> numSymbols - numAssigned > numExpressions
    ensures v == Overconstrained <==> numSymbols - numAssigned < numExpressions
  {
    if numSymbols - numAssigned == numExpressions then Solvable
    else if numSymbols - numAssigned > numExpressions then Underconstrained
    else Overconstrained
  }

  /** The symbols of the system that no assignment fixes. */
  function FreeSymbols(sys: System): set<string> {
    Symbols(sys) - AssignedSymbols(sys)
  }

  lemma SubsetCard<T>(a: set<T>, b: set<T>)
    requires a <= b
    ensures |a| <= |b|
    ensures |b - a| == |b| - |a|
  {
    assert b == a + (b - a);
  }

  /**
   * The verdict depends only on how the free symbols compare with the
   * expressions: the check is a count of the degrees of freedom left after
   * the assignments.
   */
  lemma ClassifyFreeSymbols(sys: System)
    ensures var v := Classify(|Symbols(sys)|, |AssignedSymbols(sys)|, |sys.expressions|);
            && (v == Solvable <==> |FreeSymbols(sys)| == |sys.expressions|)
            && (v == Underconstrained <==> |FreeSymbols(sys)| > |sys.expressions|)
            && (v == Overconstrained <==> |FreeSymbols(sys)| < |sys.expressions|)
  {
    SubsetCard(AssignedSymbols(sys), Symbols(sys));
  }

  /**
   * Walk `table` one element at a time, counting the elements in `chosen`:
   * the loop over the symbol table that counts `SYMBOL_ASSIGNED` entries.
   */
  method CountMembers<T>(table: set<T>, chosen: set<T>) returns (n: nat)
    ensures n == |table * chosen|
    ensures n <= |table|
  {
    n := 0;
    var remaining := table;
    var visited: set<T> := {};
    while remaining != {}
      invariant visited !! remaining && visited + remaining == table
      invariant n == |visited * chosen|
      invariant n <= |visited|
      decreases |remaining|
    {
      var s :| s in remaining;
      assert s !in visited * chosen;
      if s in chosen {
        assert (visited + {s}) * chosen == (visited * chosen) + {s};
        n := n + 1;
      } else {
        assert (visited + {s}) * chosen == visited * chosen;
      }
      visited := visited + {s};
      remaining := remaining - {s};
    }
    assert visited == table;
  }

  /**
   * `simple_computation_print`: count the expressions by walking the list,
   * count the fixed symbols by walking the symbol table, and classify.
   */
  method SimpleComputation(sys: System) returns (r: Report)
    ensures r.numExpressions == |sys.expressions|
    ensures r.numSymbols == |Symbols(sys)|
    ensures r.numAssigned == |AssignedSymbols(sys)|
    ensures r.numAssigned <= r.numSymbols
    ensures r.verdict == Classify(|Symbols(sys)|, |AssignedSymbols(sys)|, |sys.expressions|)
  {
    var numExpressions := 0;
    var i := 0;
    while i < |sys.expressions|
      invariant 0 <= i <= |sys.expressions|
      invariant numExpressions == i
    {
      numExpressions := numExpressions + 1;
      i := i + 1;
    }

    var numSymbols := |Symbols(sys)|;
    var numAssigned := CountMembers(Symbols(sys), AssignedSymbols(sys));
    assert Symbols(sys) * AssignedSymbols(sys) == AssignedSymbols(sys);

    r := Report(numSymbols, numAssigned, numExpressions, Classify(numSymbols, numAssigned, numExpressions));
  }

  // ---------------------------------------------------------------------
  // The test systems of linear_solver_tests.c
  // ---------------------------------------------------------------------

  /** The expression `a + b - c`. */
  function Chain(a: string, b: string, c: string): Expression {
    [Plus(a), Plus(b), Minus(c)]
  }

  lemma ChainNames(a: string, b: string, c: string)
    ensures NamesOf(Chain(a, b, c)) == {a, b, c}
  {
    var e := Chain(a, b, c);
    assert e[1..][1..][1..] == [];
    assert NamesOf(e[1..][1..]) == {c} + NamesOf(e[1..][1..][1..]);
    assert NamesOf(e[1..]) == {b} + NamesOf(e[1..][1..]);
  }

  /** The names of five expressions, one expression at a time. */
  lemma FiveNames(es: seq<Expression>)
    requires |es| == 5
    ensures NamesOfAll(es) == NamesOf(es[0]) + NamesOf(es[1]) + NamesOf(es[2]) + NamesOf(es[3]) + NamesOf(es[4])
  {
    var t1 := es[1..];
    var t2 := t1[1..];
    var t3 := t2[1..];
    var t4 := t3[1..];
    assert t4[1..] == [];
    assert NamesOfAll(t4) == NamesOf(es[4]);
    assert NamesOfAll(t3) == NamesOf(es[3]) + NamesOfAll(t4);
    assert NamesOfAll(t2) == NamesOf(es[2]) + NamesOfAll(t3);
    assert NamesOfAll(t1) == NamesOf(es[1]) + NamesOfAll(t2);
  }

  /** Five expressions `a + w = b`, each starting where the previous one ended. */
  function LinkedChains(n: seq<string>, w: seq<string>): seq<Expression>
    requires |n| == 6 && |w| == 5
  {
    [Chain(n[0], w[0], n[1]), Chain(n[1], w[1], n[2]), Chain(n[2], w[2], n[3]),
     Chain(n[3], w[3], n[4]), Chain(n[4], w[4], n[5])]
  }

  lemma LinkedChainsNames(n: seq<string>, w: seq<string>)
    requires |n| == 6 && |w| == 5
    ensures NamesOfAll(LinkedChains(n, w)) == {n[0], w[0], n[1], w[1], n[2], w[2], n[3], w[3], n[4], w[4], n[5]}
  {
    var es := LinkedChains(n, w);
    FiveNames(es);
    ChainNames(n[0], w[0], n[1]);
    ChainNames(n[1], w[1], n[2]);
    ChainNames(n[2], w[2], n[3]);
    ChainNames(n[3], w[3], n[4]);
    ChainNames(n[4], w[4], n[5]);
  }

  /**
   * A fixture's counts, from its symbol sets collected element by element;
   * in every fixture each assigned symbol also appears in some expression.
   */
  lemma FixtureCounts(sys: System, symbols: set<string>, fixed: set<string>, numSymbols: nat, numAssigned: nat)
    requires NamesOfAll(sys.expressions) == symbols
    requires AssignedNames(sys.assignments) == fixed
    requires fixed <= symbols
    requires |symbols| == numSymbols && |fixed| == numAssigned
    ensures Symbols(sys) == symbols && AssignedSymbols(sys) == fixed
    ensures |Symbols(sys)| == numSymbols && |AssignedSymbols(sys)| == numAssigned
  {
    SymbolsByElement(sys);
  }

  /** `breaks_simple_computation`: an overconstrained part beside a disjoint underconstrained part. */
  const BreaksSimpleComputation: System :=
    System([Chain("x1", "w1", "x2"),
            Chain("x1", "w2", "x2"),
            Chain("x3", "w3", "x4")],
           [Assignment("x2", 100.0),
            Assignment("w1", 10.0),
            Assignment("w2", 20.0),
            Assignment("x4", 200.0)])

  lemma BreaksSimpleComputationNames()
    ensures NamesOfAll(BreaksSimpleComputation.expressions) == {"x1", "w1", "x2", "w2", "x3", "w3", "x4"}
  {
  }

  lemma BreaksSimpleComputationAssigned()
    ensures AssignedNames(BreaksSimpleComputation.assignments) == {"x2", "w1", "w2", "x4"}
  {
  }

  lemma BreaksSimpleComputationDistinct()
    ensures |{"x1", "w1", "x2", "w2", "x3", "w3", "x4"}| == 7
    ensures |{"x2", "w1", "w2", "x4"}| == 4
  {
  }

  /**
   * `breaks_simple_computation` has 7 symbols, 4 of them assigned, and 3
   * expressions, so the check calls it solvable, although no valuation satisfies it.
   */
  lemma BreaksSimpleComputationSolvable()
    ensures |Symbols(BreaksSimpleComputation)| == 7
    ensures |AssignedSymbols(BreaksSimpleComputation)| == 4
    ensures |BreaksSimpleComputation.expressions| == 3
    ensures Classify(|Symbols(BreaksSimpleComputation)|, |AssignedSymbols(BreaksSimpleComputation)|, |BreaksSimpleComputation.expressions|) == Solvable
  {
    BreaksSimpleComputationNames();
    BreaksSimpleComputationAssigned();
    BreaksSimpleComputationDistinct();
    FixtureCounts(BreaksSimpleComputation, {"x1", "w1", "x2", "w2", "x3", "w3", "x4"}, {"x2", "w1", "w2", "x4"}, 7, 4);
  }

  /** `linear_dependency`: the same equation twice, once negated. */
  const LinearDependency: System :=
    System([Chain("x1", "w1", "x2"),
            [Minus("x1"), Minus("w1"), Plus("x2")]],
           [Assignment("x2", 100.0),
            Assignment("w1", 10.0)])

  lemma LinearDependencyNames()
    ensures NamesOfAll(LinearDependency.expressions) == {"x1", "w1", "x2"}
  {
  }

  lemma LinearDependencyAssigned()
    ensures AssignedNames(LinearDependency.assignments) == {"x2", "w1"}
  {
  }

  lemma LinearDependencyDistinct()
    ensures |{"x1", "w1", "x2"}| == 3
    ensures |{"x2", "w1"}| == 2
  {
  }

  /**
   * `linear_dependency` has 3 symbols, 2 of them assigned, and 2
   * expressions, so the check calls it overconstrained, although the second equation adds nothing.
   */
  lemma LinearDependencyOverconstrained()
    ensures |Symbols(LinearDependency)| == 3
    ensures |AssignedSymbols(LinearDependency)| == 2
    ensures |LinearDependency.expressions| == 2
    ensures Classify(|Symbols(LinearDependency)|, |AssignedSymbols(LinearDependency)|, |LinearDependency.expressions|) == Overconstrained
  {
    LinearDependencyNames();
    LinearDependencyAssigned();
    LinearDependencyDistinct();
    FixtureCounts(LinearDependency, {"x1", "w1", "x2"}, {"x2", "w1"}, 3, 2);
  }

  /** `underconstrained_minimal`: one equation, one assignment. */
  const UnderconstrainedMinimal: System :=
    System([Chain("x1", "w1", "x2")],
           [Assignment("x2", 100.0)])

  lemma UnderconstrainedMinimalNames()
    ensures NamesOfAll(UnderconstrainedMinimal.expressions) == {"x1", "w1", "x2"}
  {
  }

  lemma UnderconstrainedMinimalAssigned()
    ensures AssignedNames(UnderconstrainedMinimal.assignments) == {"x2"}
  {
  }

  lemma UnderconstrainedMinimalDistinct()
    ensures |{"x1", "w1", "x2"}| == 3
    ensures |{"x2"}| == 1
  {
  }

  /**
   * `underconstrained_minimal` has 3 symbols, 1 of them assigned, and 1
   * expressions, so the check calls it underconstrained.
   */
  lemma UnderconstrainedMinimalUnderconstrained()
    ensures |Symbols(UnderconstrainedMinimal)| == 3
    ensures |AssignedSymbols(UnderconstrainedMinimal)| == 1
    ensures |UnderconstrainedMinimal.expressions| == 1
    ensures Classify(|Symbols(UnderconstrainedMinimal)|, |AssignedSymbols(UnderconstrainedMinimal)|, |UnderconstrainedMinimal.expressions|) == Underconstrained
  {
    UnderconstrainedMinimalNames();
    UnderconstrainedMinimalAssigned();
    UnderconstrainedMinimalDistinct();
    FixtureCounts(UnderconstrainedMinimal, {"x1", "w1", "x2"}, {"x2"}, 3, 1);
  }

  /** `underconstrained`: a chain of five offsets with no absolute position. */
  const UnderconstrainedChain: System :=
    System(LinkedChains(["x1", "x2", "x3", "x4", "x5", "x6"], ["w1", "w2", "w3", "w4", "w5"]),
           [Assignment("w1", 10.0),
            Assignment("w2", 20.0),
            Assignment("w3", 30.0),
            Assignment("w4", 40.0),
            Assignment("w5", 50.0)])

  lemma UnderconstrainedChainNames()
    ensures NamesOfAll(UnderconstrainedChain.expressions) == {"x1", "w1", "x2", "w2", "x3", "w3", "x4", "w4", "x5", "w5", "x6"}
  {
    LinkedChainsNames(["x1", "x2", "x3", "x4", "x5", "x6"], ["w1", "w2", "w3", "w4", "w5"]);
  }

  lemma UnderconstrainedChainAssigned()
    ensures AssignedNames(UnderconstrainedChain.assignments) == {"w1", "w2", "w3", "w4", "w5"}
  {
  }

  lemma UnderconstrainedChainDistinct()
    ensures |{"x1", "w1", "x2", "w2", "x3", "w3", "x4", "w4", "x5", "w5", "x6"}| == 11
    ensures |{"w1", "w2", "w3", "w4", "w5"}| == 5
  {
  }

  /**
   * `underconstrained` has 11 symbols, 5 of them assigned, and 5
   * expressions, so the check calls it underconstrained.
   */
  lemma UnderconstrainedChainUnderconstrained()
    ensures |Symbols(UnderconstrainedChain)| == 11
    ensures |AssignedSymbols(UnderconstrainedChain)| == 5
    ensures |UnderconstrainedChain.expressions| == 5
    ensures Classify(|Symbols(UnderconstrainedChain)|, |AssignedSymbols(UnderconstrainedChain)|, |UnderconstrainedChain.expressions|) == Underconstrained
  {
    UnderconstrainedChainNames();
    UnderconstrainedChainAssigned();
    UnderconstrainedChainDistinct();
    FixtureCounts(UnderconstrainedChain, {"x1", "w1", "x2", "w2", "x3", "w3", "x4", "w4", "x5", "w5", "x6"}, {"w1", "w2", "w3", "w4", "w5"}, 11, 5);
  }

  /** The underconstrained part of `underconstrained_partial`: a chain with no absolute position. */
  const PartialFloating: seq<Expression> :=
    LinkedChains(["x1", "x2", "x8", "x4", "x5", "x6"], ["w1", "w2", "w3", "w4", "w5"])

  /** The solvable part of `underconstrained_partial`. */
  const PartialSolvable: seq<Expression> :=
    [Chain("x7", "w6", "x3"),
     Chain("x3", "w7", "x9")]

  /** `underconstrained_partial`: a floating chain beside a solvable one. */
  const UnderconstrainedPartial: System :=
    System(PartialFloating + PartialSolvable,
           [Assignment("w1", 10.0),
            Assignment("w2", 20.0),
            Assignment("w3", 30.0),
            Assignment("w4", 40.0),
            Assignment("w5", 50.0),
            Assignment("x7", 200.0),
            Assignment("w6", 10.0),
            Assignment("w7", 20.0)])

  lemma PartialFloatingNames()
    ensures NamesOfAll(PartialFloating) == {"x1", "w1", "x2", "w2", "x8", "w3", "x4", "w4", "x5", "w5", "x6"}
  {
    LinkedChainsNames(["x1", "x2", "x8", "x4", "x5", "x6"], ["w1", "w2", "w3", "w4", "w5"]);
  }

  lemma PartialSolvableNames()
    ensures NamesOfAll(PartialSolvable) == {"x7", "w6", "x3", "w7", "x9"}
  {
  }

  lemma UnderconstrainedPartialNames()
    ensures NamesOfAll(UnderconstrainedPartial.expressions) == {"x1", "w1", "x2", "w2", "x8", "w3", "x4", "w4", "x5", "w5", "x6", "x7", "w6", "x3", "w7", "x9"}
  {
    NamesOfAllAppend(PartialFloating, PartialSolvable);
    PartialFloatingNames();
    PartialSolvableNames();
  }

  lemma UnderconstrainedPartialAssigned()
    ensures AssignedNames(UnderconstrainedPartial.assignments) == {"w1", "w2", "w3", "w4", "w5", "x7", "w6", "w7"}
  {
  }

  lemma UnderconstrainedPartialDistinct()
    ensures |{"x1", "w1", "x2", "w2", "x8", "w3", "x4", "w4", "x5", "w5", "x6", "x7", "w6", "x3", "w7", "x9"}| == 16
    ensures |{"w1", "w2", "w3", "w4", "w5", "x7", "w6", "w7"}| == 8
  {
  }

  /**
   * `underconstrained_partial` has 16 symbols, 8 of them assigned, and 7
   * expressions, so the check calls it underconstrained.
   */
  lemma UnderconstrainedPartialUnderconstrained()
    ensures |Symbols(UnderconstrainedPartial)| == 16
    ensures |AssignedSymbols(UnderconstrainedPartial)| == 8
    ensures |UnderconstrainedPartial.expressions| == 7
    ensures Classify(|Symbols(UnderconstrainedPartial)|, |AssignedSymbols(UnderconstrainedPartial)|, |UnderconstrainedPartial.expressions|) == Underconstrained
  {
    UnderconstrainedPartialNames();
    UnderconstrainedPartialAssigned();
    UnderconstrainedPartialDistinct();
    FixtureCounts(UnderconstrainedPartial, {"x1", "w1", "x2", "w2", "x8", "w3", "x4", "w4", "x5", "w5", "x6", "x7", "w6", "x3", "w7", "x9"}, {"w1", "w2", "w3", "w4", "w5", "x7", "w6", "w7"}, 16, 8);
  }

  /** `overconstrained`: two equations that force `w1 = w2` while the assignments differ. */
  const OverconstrainedPair: System :=
    System([Chain("x1", "w1", "x2"),
            Chain("x1", "w2", "x2")],
           [Assignment("x2", 100.0),
            Assignment("w1", 10.0),
            Assignment("w2", 20.0)])

  lemma OverconstrainedPairNames()
    ensures NamesOfAll(OverconstrainedPair.expressions) == {"x1", "w1", "x2", "w2"}
  {
  }

  lemma OverconstrainedPairAssigned()
    ensures AssignedNames(OverconstrainedPair.assignments) == {"x2", "w1", "w2"}
  {
  }

  lemma OverconstrainedPairDistinct()
    ensures |{"x1", "w1", "x2", "w2"}| == 4
    ensures |{"x2", "w1", "w2"}| == 3
  {
  }

  /**
   * `overconstrained` has 4 symbols, 3 of them assigned, and 2
   * expressions, so the check calls it overconstrained.
   */
  lemma OverconstrainedPairOverconstrained()
    ensures |Symbols(OverconstrainedPair)| == 4
    ensures |AssignedSymbols(OverconstrainedPair)| == 3
    ensures |OverconstrainedPair.expressions| == 2
    ensures Classify(|Symbols(OverconstrainedPair)|, |AssignedSymbols(OverconstrainedPair)|, |OverconstrainedPair.expressions|) == Overconstrained
  {
    OverconstrainedPairNames();
    OverconstrainedPairAssigned();
    OverconstrainedPairDistinct();
    FixtureCounts(OverconstrainedPair, {"x1", "w1", "x2", "w2"}, {"x2", "w1", "w2"}, 4, 3);
  }

  // ---------------------------------------------------------------------
  // What the fixtures mean, against what the counts say
  // ---------------------------------------------------------------------

  lemma ChainValue(a: string, b: string, c: string, v: Valuation)
    ensures ExprValue(Chain(a, b, c), v) == v(a) + v(b) - v(c)
  {
    ExprValue3(Plus(a), Plus(b), Minus(c), v);
  }

  /** Both equations `x1 + w - x2 = 0` of a pair force `w1 = w2`. */
  lemma PairForcesEqualOffsets(es: seq<Expression>, v: Valuation)
    requires |es| >= 2 && es[0] == Chain("x1", "w1", "x2") && es[1] == Chain("x1", "w2", "x2")
    ensures HoldsAll(es, v) ==> v("w1") == v("w2")
  {
    ChainValue("x1", "w1", "x2", v);
    ChainValue("x1", "w2", "x2", v);
  }

  /**
   * No valuation satisfies `breaks_simple_computation`: its first two
   * equations force `w1 = w2`, which the assignments `w1 = 10`, `w2 = 20`
   * contradict. The count-based check still calls it solvable.
   */
  lemma BreaksSimpleComputationUnsatisfiable(v: Valuation)
    ensures !Satisfies(BreaksSimpleComputation, v)
  {
    var sys := BreaksSimpleComputation;
    PairForcesEqualOffsets(sys.expressions, v);
    assert AssignmentsHold(sys.assignments, v) ==> v(sys.assignments[1].name) == 10.0 && v(sys.assignments[2].name) == 20.0;
  }

  /** No valuation satisfies `overconstrained`, for the same reason. */
  lemma OverconstrainedPairUnsatisfiable(v: Valuation)
    ensures !Satisfies(OverconstrainedPair, v)
  {
    var sys := OverconstrainedPair;
    PairForcesEqualOffsets(sys.expressions, v);
    assert AssignmentsHold(sys.assignments, v) ==> v(sys.assignments[1].name) == 10.0 && v(sys.assignments[2].name) == 20.0;
  }

  /**
   * `linear_dependency` has exactly one solution on its symbols
   * (`x1 = 90`, `w1 = 10`, `x2 = 100`), although the check calls it
   * overconstrained.
   */
  lemma LinearDependencyUnique(v: Valuation)
    ensures Satisfies(LinearDependency, v) <==> v("x1") == 90.0 && v("w1") == 10.0 && v("x2") == 100.0
  {
    var sys := LinearDependency;
    ChainValue("x1", "w1", "x2", v);
    ExprValue3(Minus("x1"), Minus("w1"), Plus("x2"), v);
    HoldsAllTwo(sys.expressions[0], sys.expressions[1], v);
    AssignmentsHoldTwo(sys.assignments[0], sys.assignments[1], v);
  }

  /** A solution of `underconstrained_minimal` with `x1 = a`. */
  function MinimalSolution(a: real): Valuation {
    name => if name == "x1" then a else if name == "w1" then 100.0 - a else 100.0
  }

  /** Every value of `x1` extends to a solution of `underconstrained_minimal`: it is indeed underconstrained. */
  lemma UnderconstrainedMinimalFree(a: real)
    ensures Satisfies(UnderconstrainedMinimal, MinimalSolution(a))
    ensures MinimalSolution(a)("x1") == a
  {
    var v := MinimalSolution(a);
    ChainValue("x1", "w1", "x2", v);
  }
}
