/**
 * The linear system the layouter feeds: a list of expressions, each stated
 * to equal zero (`solver_expr_equals_zero`), and a list of symbol
 * assignments (`solver_symbol_assign`). Symbols are names; an expression is
 * a sum of signed symbols, as `struct symbol_t` records them (linear_solver.c).
 * The solver itself is not part of this model.
 */
module LinearSystem {

  /** A symbol occurrence in an expression, with its sign. */
  datatype Term = Term(negative: bool, name: string)

  /** A sum of signed symbols, stated to equal zero. */
  type Expression = seq<Term>

  /** A symbol fixed to a value. */
  datatype Assignment = Assignment(name: string, value: real)

  datatype System = System(expressions: seq<Expression>, assignments: seq<Assignment>)

  const EmptySystem: System := System([], [])

  function Plus(name: string): Term {
    Term(false, name)
  }

  function Minus(name: string): Term {
    Term(true, name)
  }

  /** `solver_expr_equals_zero`: record one more expression. */
  function ExprEqualsZero(sys: System, e: Expression): (r: System)
    ensures r.expressions == sys.expressions + [e]
    ensures r.assignments == sys.assignments
  {
    sys.(expressions := sys.expressions + [e])
  }

  /** `solver_symbol_assign`: record one more assignment. */
  function SymbolAssign(sys: System, name: string, value: real): (r: System)
    ensures r.expressions == sys.expressions
    ensures r.assignments == sys.assignments + [Assignment(name, value)]
  {
    sys.(assignments := sys.assignments + [Assignment(name, value)])
  }

  // ---------------------------------------------------------------------
  // What a system means: the valuations that satisfy it
  // ---------------------------------------------------------------------

  /** A value for every symbol name. */
  type Valuation = string -> real

  function TermValue(t: Term, v: Valuation): real {
    if t.negative then -v(t.name) else v(t.name)
  }

  function ExprValue(e: Expression, v: Valuation): real {
    if e == [] then 0.0 else TermValue(e[0], v) + ExprValue(e[1..], v)
  }

  predicate Holds(e: Expression, v: Valuation) {
    ExprValue(e, v) == 0.0
  }

  predicate HoldsAll(es: seq<Expression>, v: Valuation) {
    forall i :: 0 <= i < |es| ==> Holds(es[i], v)
  }

  predicate AssignmentsHold(assignments: seq<Assignment>, v: Valuation) {
    forall i :: 0 <= i < |assignments| ==> v(assignments[i].name) == assignments[i].value
  }

  /** `v` solves the system: every expression is zero and every assignment holds. */
  predicate Satisfies(sys: System, v: Valuation) {
    HoldsAll(sys.expressions, v) && AssignmentsHold(sys.assignments, v)
  }

  // ---------------------------------------------------------------------
  // The symbols a system mentions
  // ---------------------------------------------------------------------

  function ExprSymbols(e: Expression): set<string> {
    set t | t in e :: t.name
  }

  function ExpressionSymbols(es: seq<Expression>): set<string> {
    set i, t | 0 <= i < |es| && t in es[i] :: t.name
  }

  /** The symbols in state `SYMBOL_ASSIGNED`. */
  function AssignedSymbols(sys: System): set<string> {
    set a | a in sys.assignments :: a.name
  }

  /** Every distinct symbol name the system mentions. */
  function Symbols(sys: System): set<string> {
    ExpressionSymbols(sys.expressions) + AssignedSymbols(sys)
  }

  /** `after` is `before` with `ne` expressions and `na` assignments appended, nothing else changed. */
  predicate Extends(before: System, after: System, ne: nat, na: nat) {
    && |after.expressions| == |before.expressions| + ne
    && |after.assignments| == |before.assignments| + na
    && after.expressions[..|before.expressions|] == before.expressions
    && after.assignments[..|before.assignments|] == before.assignments
  }

  /** The expressions `after` holds beyond those of `before`. */
  function AddedExpressions(before: System, after: System): seq<Expression>
    requires |before.expressions| <= |after.expressions|
  {
    after.expressions[|before.expressions|..]
  }

  /** The assignments `after` holds beyond those of `before`. */
  function AddedAssignments(before: System, after: System): seq<Assignment>
    requires |before.assignments| <= |after.assignments|
  {
    after.assignments[|before.assignments|..]
  }

  /** Extending is transitive, with the counts adding up. */
  lemma ExtendsTrans(a: System, b: System, c: System, ne1: nat, na1: nat, ne2: nat, na2: nat)
    requires Extends(a, b, ne1, na1) && Extends(b, c, ne2, na2)
    ensures Extends(a, c, ne1 + ne2, na1 + na2)
  {
    assert c.expressions[..|a.expressions|] == c.expressions[..|b.expressions|][..|a.expressions|];
    assert c.assignments[..|a.assignments|] == c.assignments[..|b.assignments|][..|a.assignments|];
  }

  /** The symbols of an extended system are the old ones plus those of what was added. */
  lemma SymbolsOfExtension(before: System, after: System, ne: nat, na: nat)
    requires Extends(before, after, ne, na)
    ensures Symbols(after) == Symbols(before)
                              + ExpressionSymbols(AddedExpressions(before, after))
                              + AssignedSymbols(System([], AddedAssignments(before, after)))
  {
    var n := |before.expressions|;
    var added := AddedExpressions(before, after);
    assert after.expressions == before.expressions + added;
    forall s | s in ExpressionSymbols(after.expressions)
      ensures s in ExpressionSymbols(before.expressions) + ExpressionSymbols(added)
    {
      var i: int, t: Term :| 0 <= i < |after.expressions| && t in after.expressions[i] && t.name == s;
      if i >= n {
        assert added[i - n] == after.expressions[i];
      }
    }
    forall s | s in ExpressionSymbols(added)
      ensures s in ExpressionSymbols(after.expressions)
    {
      var i: int, t: Term :| 0 <= i < |added| && t in added[i] && t.name == s;
      assert after.expressions[n + i] == added[i];
    }
    var m := |before.assignments|;
    assert after.assignments == before.assignments + AddedAssignments(before, after);
  }

  // ---------------------------------------------------------------------
  // Evaluating the short expressions the layouter writes
  // ---------------------------------------------------------------------

  lemma ExprValue2(a: Term, b: Term, v: Valuation)
    ensures ExprValue([a, b], v) == TermValue(a, v) + TermValue(b, v)
  {
    assert [a, b][1..] == [b];
    assert [b][1..] == [];
    assert ExprValue([b], v) == TermValue(b, v) + ExprValue([], v);
  }

  lemma ExprValue3(a: Term, b: Term, c: Term, v: Valuation)
    ensures ExprValue([a, b, c], v) == TermValue(a, v) + TermValue(b, v) + TermValue(c, v)
  {
    assert [a, b, c][1..] == [b, c];
    ExprValue2(b, c, v);
  }

  lemma HoldsAllTwo(e1: Expression, e2: Expression, v: Valuation)
    ensures HoldsAll([e1, e2], v) <==> Holds(e1, v) && Holds(e2, v)
  {
    assert [e1, e2][0] == e1 && [e1, e2][1] == e2;
  }

  lemma AssignmentsHoldTwo(a1: Assignment, a2: Assignment, v: Valuation)
    ensures AssignmentsHold([a1, a2], v) <==> v(a1.name) == a1.value && v(a2.name) == a2.value
  {
    assert [a1, a2][0] == a1 && [a1, a2][1] == a2;
  }

  lemma ExprSymbols2(a: Term, b: Term)
    ensures ExprSymbols([a, b]) == {a.name, b.name}
  {
    assert a in [a, b] && b in [a, b];
  }

  lemma ExprSymbols3(a: Term, b: Term, c: Term)
    ensures ExprSymbols([a, b, c]) == {a.name, b.name, c.name}
  {
    assert a in [a, b, c] && b in [a, b, c] && c in [a, b, c];
  }

  lemma ExpressionSymbolsTwo(e1: Expression, e2: Expression)
    ensures ExpressionSymbols([e1, e2]) == ExprSymbols(e1) + ExprSymbols(e2)
  {
    var es := [e1, e2];
    forall s | s in ExprSymbols(e1) ensures s in ExpressionSymbols(es) {
      var t :| t in e1 && t.name == s;
      assert t in es[0];
    }
    forall s | s in ExprSymbols(e2) ensures s in ExpressionSymbols(es) {
      var t :| t in e2 && t.name == s;
      assert t in es[1];
    }
  }

  // ---------------------------------------------------------------------
  // The same symbol sets, collected one element at a time
  // ---------------------------------------------------------------------

  function NamesOf(e: Expression): set<string> {
    if e == [] then {} else {e[0].name} + NamesOf(e[1..])
  }

  function NamesOfAll(es: seq<Expression>): set<string> {
    if es == [] then {} else NamesOf(es[0]) + NamesOfAll(es[1..])
  }

  function AssignedNames(assignments: seq<Assignment>): set<string> {
    if assignments == [] then {} else {assignments[0].name} + AssignedNames(assignments[1..])
  }

  lemma {:induction false} NamesOfIsExprSymbols(e: Expression)
    ensures NamesOf(e) == ExprSymbols(e)
    decreases |e|
  {
    if e != [] {
      NamesOfIsExprSymbols(e[1..]);
      assert e == [e[0]] + e[1..];
      forall t | t in e ensures t == e[0] || t in e[1..] {}
    }
  }

  lemma {:induction false} NamesOfAllIsExpressionSymbols(es: seq<Expression>)
    ensures NamesOfAll(es) == ExpressionSymbols(es)
    decreases |es|
  {
    if es != [] {
      NamesOfIsExprSymbols(es[0]);
      NamesOfAllIsExpressionSymbols(es[1..]);
      ExpressionSymbolsCons(es[0], es[1..]);
      assert es == [es[0]] + es[1..];
    }
  }

  lemma ExpressionSymbolsCons(e: Expression, es: seq<Expression>)
    ensures ExpressionSymbols([e] + es) == ExprSymbols(e) + ExpressionSymbols(es)
  {
    var es' := [e] + es;
    forall s | s in ExpressionSymbols(es') ensures s in ExprSymbols(e) + ExpressionSymbols(es) {
      var i: int, t: Term :| 0 <= i < |es'| && t in es'[i] && t.name == s;
      if i > 0 {
        assert es'[i] == es[i - 1];
      }
    }
    forall s | s in ExpressionSymbols(es) ensures s in ExpressionSymbols(es') {
      var i: int, t: Term :| 0 <= i < |es| && t in es[i] && t.name == s;
      assert es'[i + 1] == es[i];
    }
    forall s | s in ExprSymbols(e) ensures s in ExpressionSymbols(es') {
      var t: Term :| t in e && t.name == s;
      assert es'[0] == e;
    }
  }

  lemma {:induction false} AssignedNamesIsAssignedSymbols(assignments: seq<Assignment>)
    ensures AssignedNames(assignments) == AssignedSymbols(System([], assignments))
    decreases |assignments|
  {
    if assignments != [] {
      AssignedNamesIsAssignedSymbols(assignments[1..]);
      assert assignments == [assignments[0]] + assignments[1..];
      forall a | a in assignments ensures a == assignments[0] || a in assignments[1..] {}
    }
  }

  lemma {:induction false} NamesOfAllAppend(es1: seq<Expression>, es2: seq<Expression>)
    ensures NamesOfAll(es1 + es2) == NamesOfAll(es1) + NamesOfAll(es2)
    decreases |es1|
  {
    if es1 != [] {
      assert (es1 + es2)[1..] == es1[1..] + es2;
      NamesOfAllAppend(es1[1..], es2);
    } else {
      assert es1 + es2 == es2;
    }
  }

  /** The symbols of a system, collected one expression and one assignment at a time. */
  lemma SymbolsByElement(sys: System)
    ensures Symbols(sys) == NamesOfAll(sys.expressions) + AssignedNames(sys.assignments)
    ensures AssignedSymbols(sys) == AssignedNames(sys.assignments)
  {
    NamesOfAllIsExpressionSymbols(sys.expressions);
    AssignedNamesIsAssignedSymbols(sys.assignments);
  }

  /** The symbols of expressions listed one after another are the union of their symbols. */
  lemma ExpressionSymbolsSnoc(es: seq<Expression>, e: Expression)
    ensures ExpressionSymbols(es + [e]) == ExpressionSymbols(es) + ExprSymbols(e)
  {
    var es' := es + [e];
    forall s | s in ExpressionSymbols(es') ensures s in ExpressionSymbols(es) + ExprSymbols(e) {
      var i: int, t: Term :| 0 <= i < |es'| && t in es'[i] && t.name == s;
      if i < |es| {
        assert es'[i] == es[i];
      }
    }
    forall s | s in ExpressionSymbols(es) ensures s in ExpressionSymbols(es') {
      var i: int, t: Term :| 0 <= i < |es| && t in es[i] && t.name == s;
      assert es'[i] == es[i];
    }
    forall s | s in ExprSymbols(e) ensures s in ExpressionSymbols(es') {
      var t: Term :| t in e && t.name == s;
      assert es'[|es|] == e;
    }
  }

  /** The assigned symbols of assignments listed one after another are the union of their names. */
  lemma AssignedSymbolsSnoc(assignments: seq<Assignment>, a: Assignment)
    ensures AssignedSymbols(System([], assignments + [a])) == AssignedSymbols(System([], assignments)) + {a.name}
  {
    assert a in assignments + [a];
    forall b | b in assignments ensures b in assignments + [a] {}
  }

  lemma HoldsAllSnoc(es: seq<Expression>, e: Expression)
    ensures forall v: Valuation :: HoldsAll(es + [e], v) <==> HoldsAll(es, v) && Holds(e, v)
  {
    forall v: Valuation ensures HoldsAll(es + [e], v) <==> HoldsAll(es, v) && Holds(e, v) {
      var es' := es + [e];
      assert es'[|es|] == e;
      assert forall i :: 0 <= i < |es| ==> es'[i] == es[i];
    }
  }

  lemma AssignmentsHoldSnoc(assignments: seq<Assignment>, a: Assignment)
    ensures forall v: Valuation :: AssignmentsHold(assignments + [a], v) <==> AssignmentsHold(assignments, v) && v(a.name) == a.value
  {
    forall v: Valuation
      ensures AssignmentsHold(assignments + [a], v) <==> AssignmentsHold(assignments, v) && v(a.name) == a.value
    {
      var grown := assignments + [a];
      assert grown[|assignments|] == a;
      assert forall i :: 0 <= i < |assignments| ==> grown[i] == assignments[i];
    }
  }

  lemma AssignedSymbolsTwo(a1: Assignment, a2: Assignment)
    ensures AssignedSymbols(System([], [a1, a2])) == {a1.name, a2.name}
  {
    assert a1 in [a1, a2] && a2 in [a1, a2];
  }

  /**
   * After `solver_expr_equals_zero` the system also mentions the expression's
   * symbols, assigns nothing new, and its solutions are the old solutions
   * under which the expression sums to zero.
   */
  lemma ExprEqualsZeroEffect(sys: System, e: Expression)
    ensures var r := ExprEqualsZero(sys, e);
            && Symbols(r) == Symbols(sys) + ExprSymbols(e)
            && AssignedSymbols(r) == AssignedSymbols(sys)
            && forall v: Valuation :: Satisfies(r, v) <==> Satisfies(sys, v) && Holds(e, v)
  {
    ExpressionSymbolsSnoc(sys.expressions, e);
    HoldsAllSnoc(sys.expressions, e);
  }

  /**
   * After `solver_symbol_assign` the name is both mentioned and assigned, and
   * the solutions are the old solutions that give `name` the value `value`.
   */
  lemma SymbolAssignEffect(sys: System, name: string, value: real)
    ensures var r := SymbolAssign(sys, name, value);
            && AssignedSymbols(r) == AssignedSymbols(sys) + {name}
            && Symbols(r) == Symbols(sys) + {name}
            && forall v: Valuation :: Satisfies(r, v) <==> Satisfies(sys, v) && v(name) == value
  {
    AssignedSymbolsSnoc(sys.assignments, Assignment(name, value));
    AssignmentsHoldSnoc(sys.assignments, Assignment(name, value));
  }

  /** A valuation satisfies an extended system iff it satisfies the old one and what was added. */
  lemma SatisfiesExtension(before: System, after: System, ne: nat, na: nat, v: Valuation)
    requires Extends(before, after, ne, na)
    ensures Satisfies(after, v) <==>
            Satisfies(before, v)
            && HoldsAll(AddedExpressions(before, after), v)
            && AssignmentsHold(AddedAssignments(before, after), v)
  {
    var n := |before.expressions|;
    var m := |before.assignments|;
    assert after.expressions == before.expressions + AddedExpressions(before, after);
    assert after.assignments == before.assignments + AddedAssignments(before, after);
  }
}
