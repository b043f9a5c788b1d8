/**
 * The layout equation builder of layouter.c. Each call allocates ids from
 * `next_id` and appends expressions (each equal to zero) and assignments to
 * the application's linear system, naming symbols `{id}.{feature}.{axis}`.
 */
module Layout {
  import opened CInts
  import opened FeatureNames
  import opened LinearSystem

  /** `dvec2`; its components are only recorded, never computed with. */
  datatype Vec2 = Vec2(x: real, y: real)

  /**
   * The parts of `struct app_t` the builder touches: the id counter, the
   * layout system and the rectangle list (most recent first).
   */
  datatype App = App(nextId: U64, system: System, rectangles: seq<Entity>)

  /** What an allocating call leaves: the new state and the id it returned. */
  datatype Allocated = Allocated(app: App, id: U64)

  /** `struct app_t app = {0}`. */
  const InitialApp: App := App(0, EmptySystem, [])

  /** The number of expressions `layout_add_rectangle_anchor` adds for an anchor name. */
  function AnchorExpressions(anchor: string): nat {
    if anchor == "b" || anchor == "d" then 2 else 0
  }

  /** `layout_rectangle_size`: a rectangle of fixed size whose `min + size = max` on both axes. */
  function LayoutRectangleSize(app: App, size: Vec2): (r: Allocated)
    ensures r.id == app.nextId
    ensures r.app.nextId == Inc(app.nextId)
    ensures Extends(app.system, r.app.system, 2, 2)
    ensures r.app.rectangles == [Entity(Rectangle, r.id)] + app.rectangles
  {
    var id := app.nextId;
    var s1 := ExprEqualsZero(app.system, [Plus(SymbolName(id, "min", X)), Plus(SymbolName(id, "size", X)), Minus(SymbolName(id, "max", X))]);
    var s2 := ExprEqualsZero(s1, [Plus(SymbolName(id, "min", Y)), Plus(SymbolName(id, "size", Y)), Minus(SymbolName(id, "max", Y))]);
    var s3 := SymbolAssign(s2, SymbolName(id, "size", X), size.x);
    var s4 := SymbolAssign(s3, SymbolName(id, "size", Y), size.y);
    Allocated(App(Inc(id), s4, [Entity(Rectangle, id)] + app.rectangles), id)
  }

  /**
   * `layout_add_rectangle_anchor`: define anchor `b` (x at `min`, y at
   * `min + size`) or `d` (x at `min + size`, y at `min`) of rectangle `id`;
   * any other anchor name adds nothing.
   */
  function LayoutAddRectangleAnchor(app: App, id: U64, anchor: string): (r: App)
    ensures r.nextId == app.nextId && r.rectangles == app.rectangles
    ensures Extends(app.system, r.system, AnchorExpressions(anchor), 0)
  {
    if anchor == "b" then
      var s1 := ExprEqualsZero(app.system, [Plus(SymbolName(id, "min", X)), Minus(SymbolName(id, "b", X))]);
      var s2 := ExprEqualsZero(s1, [Plus(SymbolName(id, "min", Y)), Plus(SymbolName(id, "size", Y)), Minus(SymbolName(id, "b", Y))]);
      app.(system := s2)
    else if anchor == "d" then
      var s1 := ExprEqualsZero(app.system, [Plus(SymbolName(id, "min", X)), Plus(SymbolName(id, "size", X)), Minus(SymbolName(id, "d", X))]);
      var s2 := ExprEqualsZero(s1, [Plus(SymbolName(id, "min", Y)), Minus(SymbolName(id, "d", Y))]);
      app.(system := s2)
    else
      app
  }

  /**
   * `layout_link_d`: a link with its own id whose displacement `d` separates
   * anchor `feature1` of `id1` from anchor `feature2` of `id2`.
   */
  function LayoutLinkD(app: App, id1: U64, feature1: string, id2: U64, feature2: string, d: Vec2): (r: Allocated)
    ensures r.id == app.nextId
    ensures r.app.nextId == Inc(app.nextId)
    ensures r.app.rectangles == app.rectangles
    ensures Extends(app.system, r.app.system, AnchorExpressions(feature1) + AnchorExpressions(feature2) + 2, 2)
  {
    var id := app.nextId;
    var a1 := LayoutAddRectangleAnchor(app.(nextId := Inc(id)), id1, feature1);
    var a2 := LayoutAddRectangleAnchor(a1, id2, feature2);
    var s := LinkEquations(a2.system, id, id1, feature1, id2, feature2, d);
    ExtendsTrans(app.system, a1.system, a2.system, AnchorExpressions(feature1), 0, AnchorExpressions(feature2), 0);
    ExtendsTrans(app.system, a2.system, s, AnchorExpressions(feature1) + AnchorExpressions(feature2), 0, 2, 2);
    Allocated(a2.(system := s), id)
  }

  /** The part of `layout_link_d` after the anchors: the two link expressions and the assignments of `d`. */
  function LinkEquations(sys: System, id: U64, id1: U64, feature1: string, id2: U64, feature2: string, d: Vec2): (r: System)
    ensures Extends(sys, r, 2, 2)
  {
    var s1 := ExprEqualsZero(sys, LinkExpression(id, id1, feature1, id2, feature2, X));
    var s2 := ExprEqualsZero(s1, LinkExpression(id, id1, feature1, id2, feature2, Y));
    var s3 := SymbolAssign(s2, SymbolName(id, "d", X), d.x);
    SymbolAssign(s3, SymbolName(id, "d", Y), d.y)
  }

  /** `{id1}.{feature1}.{a} + {id}.d.{a} - {id2}.{feature2}.{a}` */
  function LinkExpression(id: U64, id1: U64, feature1: string, id2: U64, feature2: string, a: Axis): Expression {
    [Plus(SymbolName(id1, feature1, a)), Plus(SymbolName(id, "d", a)), Minus(SymbolName(id2, feature2, a))]
  }

  /** `layout_fix`: pin feature `feature` of entity `id` at `pos`. */
  function LayoutFix(app: App, id: U64, feature: string, pos: Vec2): (r: App)
    ensures r.nextId == app.nextId && r.rectangles == app.rectangles
    ensures Extends(app.system, r.system, 0, 2)
  {
    var s1 := SymbolAssign(app.system, SymbolName(id, feature, X), pos.x);
    var s2 := SymbolAssign(s1, SymbolName(id, feature, Y), pos.y);
    app.(system := s2)
  }

  // ---------------------------------------------------------------------
  // What each call states about the layout
  // ---------------------------------------------------------------------

  /** The expressions of `layout_rectangle_size` hold iff `min + size = max` on both axes; its assignments fix the size. */
  lemma RectangleSizeMeaning(app: App, size: Vec2, v: Valuation)
    ensures var r := LayoutRectangleSize(app, size);
            var id := r.id;
            && (HoldsAll(AddedExpressions(app.system, r.app.system), v) <==>
                && v(SymbolName(id, "min", X)) + v(SymbolName(id, "size", X)) == v(SymbolName(id, "max", X))
                && v(SymbolName(id, "min", Y)) + v(SymbolName(id, "size", Y)) == v(SymbolName(id, "max", Y)))
            && (AssignmentsHold(AddedAssignments(app.system, r.app.system), v) <==>
                && v(SymbolName(id, "size", X)) == size.x
                && v(SymbolName(id, "size", Y)) == size.y)
  {
    var r := LayoutRectangleSize(app, size);
    var id := r.id;
    var ex := [Plus(SymbolName(id, "min", X)), Plus(SymbolName(id, "size", X)), Minus(SymbolName(id, "max", X))];
    var ey := [Plus(SymbolName(id, "min", Y)), Plus(SymbolName(id, "size", Y)), Minus(SymbolName(id, "max", Y))];
    assert AddedExpressions(app.system, r.app.system) == [ex, ey];
    ExprValue3(ex[0], ex[1], ex[2], v);
    ExprValue3(ey[0], ey[1], ey[2], v);
    HoldsAllTwo(ex, ey, v);
    var ax := Assignment(SymbolName(id, "size", X), size.x);
    var ay := Assignment(SymbolName(id, "size", Y), size.y);
    assert AddedAssignments(app.system, r.app.system) == [ax, ay];
    AssignmentsHoldTwo(ax, ay, v);
  }

  /** The expressions of anchor `b` hold iff `b` sits at (`min.x`, `min.y + size.y`); those of `d` iff at (`min.x + size.x`, `min.y`). */
  lemma AnchorMeaning(app: App, id: U64, anchor: string, v: Valuation)
    ensures var r := LayoutAddRectangleAnchor(app, id, anchor);
            && (anchor == "b" ==>
                (HoldsAll(AddedExpressions(app.system, r.system), v) <==>
                 && v(SymbolName(id, "b", X)) == v(SymbolName(id, "min", X))
                 && v(SymbolName(id, "b", Y)) == v(SymbolName(id, "min", Y)) + v(SymbolName(id, "size", Y))))
            && (anchor == "d" ==>
                (HoldsAll(AddedExpressions(app.system, r.system), v) <==>
                 && v(SymbolName(id, "d", X)) == v(SymbolName(id, "min", X)) + v(SymbolName(id, "size", X))
                 && v(SymbolName(id, "d", Y)) == v(SymbolName(id, "min", Y))))
            && r.system.assignments == app.system.assignments
  {
    var r := LayoutAddRectangleAnchor(app, id, anchor);
    if anchor == "b" {
      var ex := [Plus(SymbolName(id, "min", X)), Minus(SymbolName(id, "b", X))];
      var ey := [Plus(SymbolName(id, "min", Y)), Plus(SymbolName(id, "size", Y)), Minus(SymbolName(id, "b", Y))];
      assert AddedExpressions(app.system, r.system) == [ex, ey];
      ExprValue2(ex[0], ex[1], v);
      ExprValue3(ey[0], ey[1], ey[2], v);
      HoldsAllTwo(ex, ey, v);
    } else if anchor == "d" {
      var ex := [Plus(SymbolName(id, "min", X)), Plus(SymbolName(id, "size", X)), Minus(SymbolName(id, "d", X))];
      var ey := [Plus(SymbolName(id, "min", Y)), Minus(SymbolName(id, "d", Y))];
      assert AddedExpressions(app.system, r.system) == [ex, ey];
      ExprValue3(ex[0], ex[1], ex[2], v);
      ExprValue2(ey[0], ey[1], v);
      HoldsAllTwo(ex, ey, v);
    }
  }

  /**
   * The two link expressions hold iff anchor `feature2` of `id2` is anchor
   * `feature1` of `id1` moved by the link's `d`; the assignments fix `d`.
   */
  lemma LinkMeaning(app: App, id1: U64, feature1: string, id2: U64, feature2: string, d: Vec2, v: Valuation)
    ensures var r := LayoutLinkD(app, id1, feature1, id2, feature2, d);
            var id := r.id;
            var n := |app.system.expressions| + AnchorExpressions(feature1) + AnchorExpressions(feature2);
            && n + 2 == |r.app.system.expressions|
            && (HoldsAll(r.app.system.expressions[n..], v) <==>
                && v(SymbolName(id2, feature2, X)) == v(SymbolName(id1, feature1, X)) + v(SymbolName(id, "d", X))
                && v(SymbolName(id2, feature2, Y)) == v(SymbolName(id1, feature1, Y)) + v(SymbolName(id, "d", Y)))
            && (AssignmentsHold(AddedAssignments(app.system, r.app.system), v) <==>
                && v(SymbolName(id, "d", X)) == d.x
                && v(SymbolName(id, "d", Y)) == d.y)
  {
    var r := LayoutLinkD(app, id1, feature1, id2, feature2, d);
    var id := r.id;
    var a1 := LayoutAddRectangleAnchor(app.(nextId := Inc(id)), id1, feature1);
    var a2 := LayoutAddRectangleAnchor(a1, id2, feature2);
    assert r.app.system == LinkEquations(a2.system, id, id1, feature1, id2, feature2, d);
    assert a2.system.assignments == app.system.assignments;
    assert |a2.system.expressions| == |app.system.expressions| + AnchorExpressions(feature1) + AnchorExpressions(feature2);
    LinkEquationsMeaning(a2.system, id, id1, feature1, id2, feature2, d, v);
  }

  lemma LinkEquationsMeaning(sys: System, id: U64, id1: U64, feature1: string, id2: U64, feature2: string, d: Vec2, v: Valuation)
    ensures var r := LinkEquations(sys, id, id1, feature1, id2, feature2, d);
            && (HoldsAll(AddedExpressions(sys, r), v) <==>
                && v(SymbolName(id2, feature2, X)) == v(SymbolName(id1, feature1, X)) + v(SymbolName(id, "d", X))
                && v(SymbolName(id2, feature2, Y)) == v(SymbolName(id1, feature1, Y)) + v(SymbolName(id, "d", Y)))
            && (AssignmentsHold(AddedAssignments(sys, r), v) <==>
                v(SymbolName(id, "d", X)) == d.x && v(SymbolName(id, "d", Y)) == d.y)
  {
    var r := LinkEquations(sys, id, id1, feature1, id2, feature2, d);
    var ex := LinkExpression(id, id1, feature1, id2, feature2, X);
    var ey := LinkExpression(id, id1, feature1, id2, feature2, Y);
    assert AddedExpressions(sys, r) == [ex, ey];
    ExprValue3(ex[0], ex[1], ex[2], v);
    ExprValue3(ey[0], ey[1], ey[2], v);
    HoldsAllTwo(ex, ey, v);
    var ax := Assignment(SymbolName(id, "d", X), d.x);
    var ay := Assignment(SymbolName(id, "d", Y), d.y);
    assert AddedAssignments(sys, r) == [ax, ay];
    AssignmentsHoldTwo(ax, ay, v);
  }

  lemma LinkEquationsMentions(sys: System, id: U64, id1: U64, feature1: string, id2: U64, feature2: string, d: Vec2)
    ensures Mentioned(sys, LinkEquations(sys, id, id1, feature1, id2, feature2, d)) == LinkSymbols(id, id1, feature1, id2, feature2)
  {
    var r := LinkEquations(sys, id, id1, feature1, id2, feature2, d);
    var ex := LinkExpression(id, id1, feature1, id2, feature2, X);
    var ey := LinkExpression(id, id1, feature1, id2, feature2, Y);
    assert AddedExpressions(sys, r) == [ex, ey];
    ExpressionSymbolsTwo(ex, ey);
    ExprSymbols3(ex[0], ex[1], ex[2]);
    ExprSymbols3(ey[0], ey[1], ey[2]);
    var ax := Assignment(SymbolName(id, "d", X), d.x);
    var ay := Assignment(SymbolName(id, "d", Y), d.y);
    assert AddedAssignments(sys, r) == [ax, ay];
    AssignedSymbolsTwo(ax, ay);
  }

  /** The assignments of `layout_fix` hold iff the feature sits at `pos`. */
  lemma FixMeaning(app: App, id: U64, feature: string, pos: Vec2, v: Valuation)
    ensures var r := LayoutFix(app, id, feature, pos);
            && r.system.expressions == app.system.expressions
            && (AssignmentsHold(AddedAssignments(app.system, r.system), v) <==>
                v(SymbolName(id, feature, X)) == pos.x && v(SymbolName(id, feature, Y)) == pos.y)
  {
    var r := LayoutFix(app, id, feature, pos);
    var ax := Assignment(SymbolName(id, feature, X), pos.x);
    var ay := Assignment(SymbolName(id, feature, Y), pos.y);
    assert AddedAssignments(app.system, r.system) == [ax, ay];
    AssignmentsHoldTwo(ax, ay, v);
  }

  // ---------------------------------------------------------------------
  // Which symbols each call mentions
  // ---------------------------------------------------------------------

  /** The symbols a call added to the system, in expressions or assignments. */
  function Mentioned(before: System, after: System): set<string>
    requires |before.expressions| <= |after.expressions|
    requires |before.assignments| <= |after.assignments|
  {
    ExpressionSymbols(AddedExpressions(before, after)) + AssignedSymbols(System([], AddedAssignments(before, after)))
  }

  /** The symbols `layout_add_rectangle_anchor` defines an anchor with. */
  function AnchorSymbols(id: U64, anchor: string): set<string> {
    if anchor == "b" then
      {SymbolName(id, "min", X), SymbolName(id, "b", X), SymbolName(id, "min", Y), SymbolName(id, "size", Y), SymbolName(id, "b", Y)}
    else if anchor == "d" then
      {SymbolName(id, "min", X), SymbolName(id, "size", X), SymbolName(id, "d", X), SymbolName(id, "min", Y), SymbolName(id, "d", Y)}
    else
      {}
  }

  /** What two successive extensions mention is what each of them mentions. */
  lemma MentionedTrans(a: System, b: System, c: System, ne1: nat, na1: nat, ne2: nat, na2: nat)
    requires Extends(a, b, ne1, na1) && Extends(b, c, ne2, na2)
    ensures Mentioned(a, c) == Mentioned(a, b) + Mentioned(b, c)
  {
    ExtendsTrans(a, b, c, ne1, na1, ne2, na2);
    var ab := System(AddedExpressions(a, b), AddedAssignments(a, b));
    var ac := System(AddedExpressions(a, c), AddedAssignments(a, c));
    assert Extends(ab, ac, ne2, na2) by {
      assert ac.expressions[..ne1] == ab.expressions;
      assert ac.assignments[..na1] == ab.assignments;
    }
    assert AddedExpressions(ab, ac) == AddedExpressions(b, c);
    assert AddedAssignments(ab, ac) == AddedAssignments(b, c);
    SymbolsOfExtension(ab, ac, ne2, na2);
  }

  /** The symbols of rectangle `id`'s own equations. */
  function RectangleSymbols(id: U64): set<string> {
    {SymbolName(id, "min", X), SymbolName(id, "size", X), SymbolName(id, "max", X),
     SymbolName(id, "min", Y), SymbolName(id, "size", Y), SymbolName(id, "max", Y)}
  }

  /** Two expressions and two assignments appended mention their symbols and the two assigned names. */
  lemma MentionedTwoTwo(before: System, after: System, ex: Expression, ey: Expression, ax: Assignment, ay: Assignment)
    requires |before.expressions| <= |after.expressions| && |before.assignments| <= |after.assignments|
    requires AddedExpressions(before, after) == [ex, ey]
    requires AddedAssignments(before, after) == [ax, ay]
    ensures Mentioned(before, after) == ExprSymbols(ex) + ExprSymbols(ey) + {ax.name, ay.name}
  {
    ExpressionSymbolsTwo(ex, ey);
    AssignedSymbolsTwo(ax, ay);
  }

  /** `layout_rectangle_size` mentions exactly `min`, `size` and `max` of the new id on both axes. */
  lemma RectangleSizeMentions(app: App, size: Vec2)
    ensures Mentioned(app.system, LayoutRectangleSize(app, size).app.system) == RectangleSymbols(app.nextId)
  {
    var r := LayoutRectangleSize(app, size);
    var id := r.id;
    var ex := [Plus(SymbolName(id, "min", X)), Plus(SymbolName(id, "size", X)), Minus(SymbolName(id, "max", X))];
    var ey := [Plus(SymbolName(id, "min", Y)), Plus(SymbolName(id, "size", Y)), Minus(SymbolName(id, "max", Y))];
    var ax := Assignment(SymbolName(id, "size", X), size.x);
    var ay := Assignment(SymbolName(id, "size", Y), size.y);
    assert AddedExpressions(app.system, r.app.system) == [ex, ey];
    assert AddedAssignments(app.system, r.app.system) == [ax, ay];
    MentionedTwoTwo(app.system, r.app.system, ex, ey, ax, ay);
    ExprSymbols3(ex[0], ex[1], ex[2]);
    ExprSymbols3(ey[0], ey[1], ey[2]);
  }

  /** `layout_add_rectangle_anchor` mentions exactly the anchor's defining symbols, none for an unknown anchor. */
  lemma AnchorMentions(app: App, id: U64, anchor: string)
    ensures Mentioned(app.system, LayoutAddRectangleAnchor(app, id, anchor).system) == AnchorSymbols(id, anchor)
  {
    var r := LayoutAddRectangleAnchor(app, id, anchor);
    assert AddedAssignments(app.system, r.system) == [];
    assert AssignedSymbols(System([], [])) == {};
    if anchor == "b" {
      var ex := [Plus(SymbolName(id, "min", X)), Minus(SymbolName(id, "b", X))];
      var ey := [Plus(SymbolName(id, "min", Y)), Plus(SymbolName(id, "size", Y)), Minus(SymbolName(id, "b", Y))];
      assert AddedExpressions(app.system, r.system) == [ex, ey];
      ExpressionSymbolsTwo(ex, ey);
      ExprSymbols2(ex[0], ex[1]);
      ExprSymbols3(ey[0], ey[1], ey[2]);
    } else if anchor == "d" {
      var ex := [Plus(SymbolName(id, "min", X)), Plus(SymbolName(id, "size", X)), Minus(SymbolName(id, "d", X))];
      var ey := [Plus(SymbolName(id, "min", Y)), Minus(SymbolName(id, "d", Y))];
      assert AddedExpressions(app.system, r.system) == [ex, ey];
      ExpressionSymbolsTwo(ex, ey);
      ExprSymbols3(ex[0], ex[1], ex[2]);
      ExprSymbols2(ey[0], ey[1]);
    } else {
      assert AddedExpressions(app.system, r.system) == [];
    }
  }

  /** The symbols of the link equations and of the link's `d`. */
  function LinkSymbols(id: U64, id1: U64, feature1: string, id2: U64, feature2: string): set<string> {
    {SymbolName(id1, feature1, X), SymbolName(id, "d", X), SymbolName(id2, feature2, X),
     SymbolName(id1, feature1, Y), SymbolName(id, "d", Y), SymbolName(id2, feature2, Y)}
  }

  /** `layout_link_d` mentions both endpoints' anchor symbols, the anchors it links and the link's own `d`. */
  lemma LinkMentions(app: App, id1: U64, feature1: string, id2: U64, feature2: string, d: Vec2)
    ensures var r := LayoutLinkD(app, id1, feature1, id2, feature2, d);
            Mentioned(app.system, r.app.system)
            == AnchorSymbols(id1, feature1) + AnchorSymbols(id2, feature2) + LinkSymbols(r.id, id1, feature1, id2, feature2)
  {
    var r := LayoutLinkD(app, id1, feature1, id2, feature2, d);
    var id := r.id;
    var a0 := app.(nextId := Inc(id));
    var a1 := LayoutAddRectangleAnchor(a0, id1, feature1);
    var a2 := LayoutAddRectangleAnchor(a1, id2, feature2);
    var k1 := AnchorExpressions(feature1);
    var k2 := AnchorExpressions(feature2);
    AnchorMentions(a0, id1, feature1);
    AnchorMentions(a1, id2, feature2);
    MentionedTrans(app.system, a1.system, a2.system, k1, 0, k2, 0);
    assert r.app.system == LinkEquations(a2.system, id, id1, feature1, id2, feature2, d);
    LinkEquationsMentions(a2.system, id, id1, feature1, id2, feature2, d);
    MentionedTrans(app.system, a2.system, r.app.system, k1 + k2, 0, 2, 2);
  }

  /** `layout_fix` mentions exactly the fixed feature on both axes. */
  lemma FixMentions(app: App, id: U64, feature: string, pos: Vec2)
    ensures Mentioned(app.system, LayoutFix(app, id, feature, pos).system)
            == {SymbolName(id, feature, X), SymbolName(id, feature, Y)}
  {
    var r := LayoutFix(app, id, feature, pos);
    assert AddedExpressions(app.system, r.system) == [];
    var ax := Assignment(SymbolName(id, feature, X), pos.x);
    var ay := Assignment(SymbolName(id, feature, Y), pos.y);
    assert AddedAssignments(app.system, r.system) == [ax, ay];
    AssignedSymbolsTwo(ax, ay);
  }

  // ---------------------------------------------------------------------
  // Freshness: ids never repeat and a new id's symbols are unused
  // ---------------------------------------------------------------------

  /** The symbol belongs to entity `id`: its name starts with `{id}.`. */
  predicate OwnedBy(name: string, id: U64) {
    FormatLd(id) + "." <= name
  }

  lemma SymbolNameOwned(id: U64, feature: string, a: Axis)
    ensures OwnedBy(SymbolName(id, feature, a), id)
  {
    assert SymbolName(id, feature, a) == (FormatLd(id) + ".") + (feature + "." + AxisName(a));
  }

  /** Two dot-free strings that each start `name` when followed by a '.' are equal. */
  lemma {:induction false} DotPrefixUnique(s1: string, s2: string, name: string)
    requires forall k :: 0 <= k < |s1| ==> s1[k] != '.'
    requires forall k :: 0 <= k < |s2| ==> s2[k] != '.'
    requires s1 + "." <= name && s2 + "." <= name
    ensures s1 == s2
    decreases |s1|
  {
    if s1 != [] && s2 != [] {
      assert s1[0] == name[0] == s2[0];
      assert s1[1..] + "." <= name[1..] by { assert (s1 + ".")[1..] == s1[1..] + "."; }
      assert s2[1..] + "." <= name[1..] by { assert (s2 + ".")[1..] == s2[1..] + "."; }
      DotPrefixUnique(s1[1..], s2[1..], name[1..]);
      assert s1 == [s1[0]] + s1[1..] && s2 == [s2[0]] + s2[1..];
    } else {
      assert (s1 + ".")[|s1|] == '.' && (s2 + ".")[|s2|] == '.';
    }
  }

  /** A symbol name belongs to at most one entity. */
  lemma OwnerUnique(name: string, i: U64, j: U64)
    requires OwnedBy(name, i) && OwnedBy(name, j)
    ensures i == j
  {
    DotPrefixUnique(FormatLd(i), FormatLd(j), name);
    FormatLdInjective(i, j);
  }

  /** Rectangles are listed newest first with strictly decreasing ids, all below `next_id`. */
  ghost predicate RectanglesFresh(app: App) {
    && (forall i, j :: 0 <= i < j < |app.rectangles| ==> app.rectangles[j].id < app.rectangles[i].id)
    && (forall i :: 0 <= i < |app.rectangles| ==> app.rectangles[i].id < app.nextId)
  }

  /** Every symbol of the system that belongs to an entity belongs to one whose id is below `next_id`. */
  ghost predicate SymbolsFresh(app: App) {
    forall name, k: U64 :: name in Symbols(app.system) && OwnedBy(name, k) ==> k < app.nextId
  }

  ghost predicate Fresh(app: App) {
    RectanglesFresh(app) && SymbolsFresh(app)
  }

  lemma InitialAppFresh()
    ensures Fresh(InitialApp)
  {
  }

  /** In a fresh state, no symbol of the next id is in the system yet. */
  lemma NextIdUnused(app: App, feature: string, a: Axis)
    requires Fresh(app)
    ensures SymbolName(app.nextId, feature, a) !in Symbols(app.system)
  {
    SymbolNameOwned(app.nextId, feature, a);
  }

  /** Adding symbols that belong to ids below the new `next_id` keeps the symbols fresh. */
  lemma SymbolsFreshAfter(before: App, after: App, ne: nat, na: nat, owners: set<U64>)
    requires SymbolsFresh(before)
    requires Extends(before.system, after.system, ne, na)
    requires before.nextId <= after.nextId
    requires forall k :: k in owners ==> k < after.nextId
    requires forall name :: name in Mentioned(before.system, after.system) ==> exists k :: k in owners && OwnedBy(name, k)
    ensures SymbolsFresh(after)
  {
    var added := Mentioned(before.system, after.system);
    assert Symbols(after.system) == Symbols(before.system) + added by {
      SymbolsOfExtension(before.system, after.system, ne, na);
    }
    forall name, k: U64 | name in Symbols(after.system) && OwnedBy(name, k)
      ensures k < after.nextId
    {
      if name in Symbols(before.system) {
        assert k < before.nextId;
      } else {
        assert name in added;
        var k' :| k' in owners && OwnedBy(name, k');
        OwnerUnique(name, k, k');
      }
    }
  }

  /** The symbols of a rectangle's own equations all belong to it. */
  lemma RectangleSymbolsOwned(id: U64)
    ensures forall name :: name in RectangleSymbols(id) ==> OwnedBy(name, id)
  {
    SymbolNameOwned(id, "min", X);
    SymbolNameOwned(id, "min", Y);
    SymbolNameOwned(id, "size", X);
    SymbolNameOwned(id, "size", Y);
    SymbolNameOwned(id, "max", X);
    SymbolNameOwned(id, "max", Y);
  }

  lemma OwnedByOne(names: set<string>, i: U64)
    requires forall name :: name in names ==> OwnedBy(name, i)
    ensures forall name :: name in names ==> exists o :: o in {i} && OwnedBy(name, o)
  {
    forall name | name in names
      ensures exists o :: o in {i} && OwnedBy(name, o)
    {
      assert i in {i};
    }
  }

  /** Every symbol `layout_rectangle_size` mentions belongs to the new id. */
  lemma RectangleSizeOwned(app: App, size: Vec2)
    ensures var r := LayoutRectangleSize(app, size);
            forall name :: name in Mentioned(app.system, r.app.system) ==> exists k :: k in {r.id} && OwnedBy(name, k)
  {
    RectangleSizeMentions(app, size);
    RectangleSymbolsOwned(app.nextId);
    OwnedByOne(RectangleSymbols(app.nextId), app.nextId);
  }

  /** Without wrap-around, `layout_rectangle_size` keeps the state fresh. */
  lemma RectangleSizeKeepsFresh(app: App, size: Vec2)
    requires Fresh(app)
    requires app.nextId + 1 < U64_LIMIT
    ensures Fresh(LayoutRectangleSize(app, size).app)
  {
    var r := LayoutRectangleSize(app, size);
    RectangleSizeOwned(app, size);
    SymbolsFreshAfter(app, r.app, 2, 2, {r.id});
    assert RectanglesFresh(r.app) by {
      forall i | 0 < i < |r.app.rectangles| ensures r.app.rectangles[i] == app.rectangles[i - 1] {}
    }
  }

  /** The anchor symbols of a rectangle all belong to it. */
  lemma AnchorSymbolsOwned(id: U64, anchor: string)
    ensures forall name :: name in AnchorSymbols(id, anchor) ==> OwnedBy(name, id)
  {
    SymbolNameOwned(id, "min", X);
    SymbolNameOwned(id, "min", Y);
    SymbolNameOwned(id, "size", X);
    SymbolNameOwned(id, "size", Y);
    SymbolNameOwned(id, "b", X);
    SymbolNameOwned(id, "b", Y);
    SymbolNameOwned(id, "d", X);
    SymbolNameOwned(id, "d", Y);
  }

  /** Every symbol `layout_add_rectangle_anchor` mentions belongs to the anchored id. */
  lemma AnchorOwned(app: App, id: U64, anchor: string)
    ensures var r := LayoutAddRectangleAnchor(app, id, anchor);
            forall name :: name in Mentioned(app.system, r.system) ==> exists k :: k in {id} && OwnedBy(name, k)
  {
    AnchorMentions(app, id, anchor);
    AnchorSymbolsOwned(id, anchor);
    OwnedByOne(AnchorSymbols(id, anchor), id);
  }

  /** Anchoring an existing rectangle keeps the state fresh. */
  lemma AnchorKeepsFresh(app: App, id: U64, anchor: string)
    requires Fresh(app)
    requires id < app.nextId
    ensures Fresh(LayoutAddRectangleAnchor(app, id, anchor))
  {
    var r := LayoutAddRectangleAnchor(app, id, anchor);
    AnchorOwned(app, id, anchor);
    SymbolsFreshAfter(app, r, AnchorExpressions(anchor), 0, {id});
  }

  /** The symbols of a link's own equations belong to the link or to its endpoints. */
  lemma LinkSymbolsOwned(id: U64, id1: U64, feature1: string, id2: U64, feature2: string)
    ensures forall name :: name in LinkSymbols(id, id1, feature1, id2, feature2) ==>
              OwnedBy(name, id) || OwnedBy(name, id1) || OwnedBy(name, id2)
  {
    SymbolNameOwned(id1, feature1, X);
    SymbolNameOwned(id1, feature1, Y);
    SymbolNameOwned(id, "d", X);
    SymbolNameOwned(id, "d", Y);
    SymbolNameOwned(id2, feature2, X);
    SymbolNameOwned(id2, feature2, Y);
  }

  /** Every symbol `layout_link_d` mentions belongs to the link or to one of its endpoints. */
  lemma LinkOwned(app: App, id1: U64, feature1: string, id2: U64, feature2: string, d: Vec2)
    ensures var r := LayoutLinkD(app, id1, feature1, id2, feature2, d);
            forall name :: name in Mentioned(app.system, r.app.system) ==> exists k :: k in {r.id, id1, id2} && OwnedBy(name, k)
  {
    var r := LayoutLinkD(app, id1, feature1, id2, feature2, d);
    LinkMentions(app, id1, feature1, id2, feature2, d);
    AnchorSymbolsOwned(id1, feature1);
    AnchorSymbolsOwned(id2, feature2);
    LinkSymbolsOwned(r.id, id1, feature1, id2, feature2);
    OwnedByOneOf(AnchorSymbols(id1, feature1) + AnchorSymbols(id2, feature2) + LinkSymbols(r.id, id1, feature1, id2, feature2), r.id, id1, id2);
  }

  lemma OwnedByOneOf(names: set<string>, i: U64, j: U64, k: U64)
    requires forall name :: name in names ==> OwnedBy(name, i) || OwnedBy(name, j) || OwnedBy(name, k)
    ensures forall name :: name in names ==> exists o :: o in {i, j, k} && OwnedBy(name, o)
  {
    forall name | name in names
      ensures exists o :: o in {i, j, k} && OwnedBy(name, o)
    {
      if OwnedBy(name, i) {
        assert i in {i, j, k};
      } else if OwnedBy(name, j) {
        assert j in {i, j, k};
      } else {
        assert k in {i, j, k};
      }
    }
  }

  /** Without wrap-around, linking existing entities keeps the state fresh. */
  lemma LinkKeepsFresh(app: App, id1: U64, feature1: string, id2: U64, feature2: string, d: Vec2)
    requires Fresh(app)
    requires id1 < app.nextId && id2 < app.nextId
    requires app.nextId + 1 < U64_LIMIT
    ensures Fresh(LayoutLinkD(app, id1, feature1, id2, feature2, d).app)
  {
    var r := LayoutLinkD(app, id1, feature1, id2, feature2, d);
    LinkOwned(app, id1, feature1, id2, feature2, d);
    SymbolsFreshAfter(app, r.app, AnchorExpressions(feature1) + AnchorExpressions(feature2) + 2, 2, {r.id, id1, id2});
  }

  /** Fixing a feature of an existing entity keeps the state fresh. */
  lemma FixKeepsFresh(app: App, id: U64, feature: string, pos: Vec2)
    requires Fresh(app)
    requires id < app.nextId
    ensures Fresh(LayoutFix(app, id, feature, pos))
  {
    var r := LayoutFix(app, id, feature, pos);
    FixMentions(app, id, feature, pos);
    SymbolNameOwned(id, feature, X);
    SymbolNameOwned(id, feature, Y);
    SymbolsFreshAfter(app, r, 0, 2, {id});
  }

  // ---------------------------------------------------------------------
  // Sequences of builder calls
  // ---------------------------------------------------------------------

  /** One call of the builder API, with its arguments. */
  datatype Call =
    | RectangleSize(size: Vec2)
    | AddAnchor(id: U64, anchor: string)
    | LinkD(id1: U64, feature1: string, id2: U64, feature2: string, d: Vec2)
    | Fix(id: U64, feature: string, pos: Vec2)

  /** The state after a run of calls and the ids the allocating calls returned, in order. */
  datatype Trace = Trace(app: App, ids: seq<U64>)

  /** Perform one call; an allocating call reports the id it returned. */
  function Apply(app: App, c: Call): Trace {
    match c
    case RectangleSize(size) =>
      var r := LayoutRectangleSize(app, size);
      Trace(r.app, [r.id])
    case AddAnchor(id, anchor) => Trace(LayoutAddRectangleAnchor(app, id, anchor), [])
    case LinkD(id1, feature1, id2, feature2, d) =>
      var r := LayoutLinkD(app, id1, feature1, id2, feature2, d);
      Trace(r.app, [r.id])
    case Fix(id, feature, pos) => Trace(LayoutFix(app, id, feature, pos), [])
  }

  /** Perform the calls in order. */
  function Run(app: App, calls: seq<Call>): Trace
    decreases |calls|
  {
    if calls == [] then Trace(app, [])
    else
      var t := Apply(app, calls[0]);
      var rest := Run(t.app, calls[1..]);
      Trace(rest.app, t.ids + rest.ids)
  }

  /** How many expressions a call adds, read off the builder's source. */
  function ExpressionsAdded(c: Call): nat {
    match c
    case RectangleSize(_) => 2
    case AddAnchor(_, anchor) => AnchorExpressions(anchor)
    case LinkD(_, feature1, _, feature2, _) => AnchorExpressions(feature1) + AnchorExpressions(feature2) + 2
    case Fix(_, _, _) => 0
  }

  /** How many assignments a call adds. */
  function AssignmentsAdded(c: Call): nat {
    if c.AddAnchor? then 0 else 2
  }

  /** How many ids a call allocates. */
  function IdsAllocated(c: Call): nat {
    if c.RectangleSize? || c.LinkD? then 1 else 0
  }

  function TotalExpressions(calls: seq<Call>): nat {
    if calls == [] then 0 else ExpressionsAdded(calls[0]) + TotalExpressions(calls[1..])
  }

  function TotalAssignments(calls: seq<Call>): nat {
    if calls == [] then 0 else AssignmentsAdded(calls[0]) + TotalAssignments(calls[1..])
  }

  function TotalIds(calls: seq<Call>): nat {
    if calls == [] then 0 else IdsAllocated(calls[0]) + TotalIds(calls[1..])
  }

  /** A single call adds what the counting functions say it adds. */
  lemma ApplyGrows(app: App, c: Call)
    ensures var t := Apply(app, c);
            && Extends(app.system, t.app.system, ExpressionsAdded(c), AssignmentsAdded(c))
            && |t.ids| == IdsAllocated(c)
  {
  }

  /**
   * A run of calls only appends: its system extends the initial one by the
   * summed per-call counts, and it returns one id per allocating call.
   */
  lemma {:induction false} RunGrows(app: App, calls: seq<Call>)
    ensures var t := Run(app, calls);
            && Extends(app.system, t.app.system, TotalExpressions(calls), TotalAssignments(calls))
            && |t.ids| == TotalIds(calls)
    decreases |calls|
  {
    if calls != [] {
      var t := Apply(app, calls[0]);
      ApplyGrows(app, calls[0]);
      RunGrows(t.app, calls[1..]);
      var rest := Run(t.app, calls[1..]);
      ExtendsTrans(app.system, t.app.system, rest.app.system,
                   ExpressionsAdded(calls[0]), AssignmentsAdded(calls[0]),
                   TotalExpressions(calls[1..]), TotalAssignments(calls[1..]));
    }
  }

  /** A single call raises `next_id` by the number of ids it allocates, returning the old value. */
  lemma ApplyIds(app: App, c: Call)
    requires app.nextId + IdsAllocated(c) < U64_LIMIT
    ensures var t := Apply(app, c);
            && t.app.nextId == app.nextId + IdsAllocated(c)
            && forall i :: 0 <= i < |t.ids| ==> t.ids[i] == app.nextId + i
  {
  }

  /**
   * Without wrap-around, the ids a run returns are consecutive from the
   * initial `next_id`, so they are strictly increasing and never repeat,
   * and `next_id` ends just past the last of them.
   */
  lemma {:induction false} RunIds(app: App, calls: seq<Call>)
    requires app.nextId + TotalIds(calls) < U64_LIMIT
    ensures var t := Run(app, calls);
            && t.app.nextId == app.nextId + TotalIds(calls)
            && |t.ids| == TotalIds(calls)
            && (forall i :: 0 <= i < |t.ids| ==> t.ids[i] == app.nextId + i)
            && (forall i, j :: 0 <= i < j < |t.ids| ==> t.ids[i] < t.ids[j])
    decreases |calls|
  {
    RunGrows(app, calls);
    if calls != [] {
      var t := Apply(app, calls[0]);
      ApplyGrows(app, calls[0]);
      ApplyIds(app, calls[0]);
      RunIds(t.app, calls[1..]);
      var rest := Run(t.app, calls[1..]);
      var ids := t.ids + rest.ids;
      forall i | 0 <= i < |ids| ensures ids[i] == app.nextId + i {
        if i >= |t.ids| {
          assert ids[i] == rest.ids[i - |t.ids|];
        }
      }
    }
  }

  /** Each call refers only to entities already allocated, and allocating does not wrap `next_id`. */
  predicate CallValid(app: App, c: Call) {
    match c
    case RectangleSize(_) => app.nextId + 1 < U64_LIMIT
    case AddAnchor(id, _) => id < app.nextId
    case LinkD(id1, _, id2, _, _) => id1 < app.nextId && id2 < app.nextId && app.nextId + 1 < U64_LIMIT
    case Fix(id, _, _) => id < app.nextId
  }

  /** Every call of the run is valid in the state it is made in. */
  predicate RunValid(app: App, calls: seq<Call>)
    decreases |calls|
  {
    calls == [] || (CallValid(app, calls[0]) && RunValid(Apply(app, calls[0]).app, calls[1..]))
  }

  lemma ApplyKeepsFresh(app: App, c: Call)
    requires Fresh(app) && CallValid(app, c)
    ensures Fresh(Apply(app, c).app)
  {
    match c
    case RectangleSize(size) => RectangleSizeKeepsFresh(app, size);
    case AddAnchor(id, anchor) => AnchorKeepsFresh(app, id, anchor);
    case LinkD(id1, feature1, id2, feature2, d) => LinkKeepsFresh(app, id1, feature1, id2, feature2, d);
    case Fix(id, feature, pos) => FixKeepsFresh(app, id, feature, pos);
  }

  /**
   * A run of valid calls keeps the state fresh: rectangle ids stay strictly
   * decreasing in the list and below `next_id`, and no symbol of the system
   * belongs to an id that has not been handed out.
   */
  lemma {:induction false} RunKeepsFresh(app: App, calls: seq<Call>)
    requires Fresh(app) && RunValid(app, calls)
    ensures Fresh(Run(app, calls).app)
    decreases |calls|
  {
    if calls != [] {
      ApplyKeepsFresh(app, calls[0]);
      RunKeepsFresh(Apply(app, calls[0]).app, calls[1..]);
    }
  }

  // ---------------------------------------------------------------------
  // The demonstration layouts
  // ---------------------------------------------------------------------

  /** `basic_rectangle`: one 90x20 rectangle with its `min` fixed at (100, 100). */
  function BasicRectangle(app: App): (r: App)
    ensures Extends(app.system, r.system, 2, 4)
    ensures r.nextId == Inc(app.nextId)
    ensures r.rectangles == [Entity(Rectangle, app.nextId)] + app.rectangles
  {
    var r1 := LayoutRectangleSize(app, Vec2(90.0, 20.0));
    var r := LayoutFix(r1.app, r1.id, "min", Vec2(100.0, 100.0));
    ExtendsTrans(app.system, r1.app.system, r.system, 2, 2, 0, 2);
    r
  }

  /** `basic_rectangle` adds 2 expressions and 4 assignments, allocates one id and keeps the state fresh. */
  lemma BasicRectangleCounts(app: App)
    requires Fresh(app) && app.nextId + 1 < U64_LIMIT
    ensures var r := BasicRectangle(app);
            && Extends(app.system, r.system, 2, 4)
            && r.nextId == app.nextId + 1
            && r.rectangles == [Entity(Rectangle, app.nextId)] + app.rectangles
            && Fresh(r)
  {
    var r1 := LayoutRectangleSize(app, Vec2(90.0, 20.0));
    var r := LayoutFix(r1.app, r1.id, "min", Vec2(100.0, 100.0));
    ExtendsTrans(app.system, r1.app.system, r.system, 2, 2, 0, 2);
    RectangleSizeKeepsFresh(app, Vec2(90.0, 20.0));
    FixKeepsFresh(r1.app, r1.id, "min", Vec2(100.0, 100.0));
  }

  /** Two 90x20 rectangles, the second linked below-right of the first (`b` to `min`, displacement (10, 15)). */
  function StackedPair(app: App): (p: SampleResult)
    ensures Extends(app.system, p.app.system, 8, 6)
    ensures p.rectangle1 == app.nextId && p.rectangle2 == Inc(app.nextId)
    ensures p.app.nextId == AddU64(app.nextId, 3)
    ensures p.app.rectangles == [Entity(Rectangle, Inc(app.nextId)), Entity(Rectangle, app.nextId)] + app.rectangles
  {
    var r1 := LayoutRectangleSize(app, Vec2(90.0, 20.0));
    var r2 := LayoutRectangleSize(r1.app, Vec2(90.0, 20.0));
    var l := LayoutLinkD(r2.app, r1.id, "b", r2.id, "min", Vec2(10.0, 15.0));
    ExtendsTrans(app.system, r1.app.system, r2.app.system, 2, 2, 2, 2);
    ExtendsTrans(app.system, r2.app.system, l.app.system, 4, 4, 4, 2);
    AddU64One(app.nextId);
    IncAddU64(app.nextId, 1);
    IncAddU64(app.nextId, 2);
    SampleResult(l.app, r1.id, r2.id)
  }

  /** Without wrap-around, a stacked pair adds 8 expressions and 6 assignments and allocates three ids. */
  lemma StackedPairCounts(app: App)
    requires Fresh(app) && app.nextId + 3 < U64_LIMIT
    ensures var p := StackedPair(app);
            var n := app.nextId;
            && Extends(app.system, p.app.system, 8, 6)
            && p.app.nextId == n + 3
            && p.app.rectangles == [Entity(Rectangle, n + 1), Entity(Rectangle, n)] + app.rectangles
            && p.rectangle1 == n && p.rectangle2 == n + 1
            && Fresh(p.app)
  {
    var r1 := LayoutRectangleSize(app, Vec2(90.0, 20.0));
    RectangleSizeKeepsFresh(app, Vec2(90.0, 20.0));
    var r2 := LayoutRectangleSize(r1.app, Vec2(90.0, 20.0));
    RectangleSizeKeepsFresh(r1.app, Vec2(90.0, 20.0));
    ExtendsTrans(app.system, r1.app.system, r2.app.system, 2, 2, 2, 2);
    var l := LayoutLinkD(r2.app, r1.id, "b", r2.id, "min", Vec2(10.0, 15.0));
    LinkKeepsFresh(r2.app, r1.id, "b", r2.id, "min", Vec2(10.0, 15.0));
    ExtendsTrans(app.system, r2.app.system, l.app.system, 4, 4, 4, 2);
  }

  /** What `sample` leaves: the state and the ids of its first two rectangles. */
  datatype SampleResult = SampleResult(app: App, rectangle1: U64, rectangle2: U64)

  /** The last part of `sample`: rectangle 5 between rectangle `r2` and `r4`, then rectangle `r1` fixed. */
  function SampleTail(app: App, r1: U64, r2: U64, r4: U64): (t: App)
    ensures Extends(app.system, t.system, 10, 8)
    ensures t.nextId == AddU64(app.nextId, 3)
    ensures t.rectangles == [Entity(Rectangle, app.nextId)] + app.rectangles
  {
    var r5 := LayoutRectangleSize(app, Vec2(25.0, 20.0));
    var l3 := LayoutLinkD(r5.app, r2, "d", r5.id, "min", Vec2(10.0, 0.0));
    var l4 := LayoutLinkD(l3.app, r5.id, "d", r4, "min", Vec2(10.0, 0.0));
    var f := LayoutFix(l4.app, r1, "min", Vec2(100.0, 100.0));
    ExtendsTrans(app.system, r5.app.system, l3.app.system, 2, 2, 4, 2);
    ExtendsTrans(app.system, l3.app.system, l4.app.system, 6, 4, 4, 2);
    ExtendsTrans(app.system, l4.app.system, f.system, 10, 6, 0, 2);
    AddU64One(app.nextId);
    IncAddU64(app.nextId, 1);
    IncAddU64(app.nextId, 2);
    f
  }

  /** Without wrap-around, the tail of `sample` adds 10 expressions and 8 assignments and allocates three ids. */
  lemma SampleTailCounts(app: App, r1: U64, r2: U64, r4: U64)
    requires Fresh(app) && app.nextId + 3 < U64_LIMIT
    requires r1 < app.nextId && r2 < app.nextId && r4 < app.nextId
    ensures var t := SampleTail(app, r1, r2, r4);
            && Extends(app.system, t.system, 10, 8)
            && t.nextId == app.nextId + 3
            && t.rectangles == [Entity(Rectangle, app.nextId)] + app.rectangles
            && Fresh(t)
  {
    var r5 := LayoutRectangleSize(app, Vec2(25.0, 20.0));
    RectangleSizeKeepsFresh(app, Vec2(25.0, 20.0));
    var l3 := LayoutLinkD(r5.app, r2, "d", r5.id, "min", Vec2(10.0, 0.0));
    LinkKeepsFresh(r5.app, r2, "d", r5.id, "min", Vec2(10.0, 0.0));
    ExtendsTrans(app.system, r5.app.system, l3.app.system, 2, 2, 4, 2);
    var l4 := LayoutLinkD(l3.app, r5.id, "d", r4, "min", Vec2(10.0, 0.0));
    LinkKeepsFresh(l3.app, r5.id, "d", r4, "min", Vec2(10.0, 0.0));
    ExtendsTrans(app.system, l3.app.system, l4.app.system, 6, 4, 4, 2);
    var f := LayoutFix(l4.app, r1, "min", Vec2(100.0, 100.0));
    FixKeepsFresh(l4.app, r1, "min", Vec2(100.0, 100.0));
    ExtendsTrans(app.system, l4.app.system, f.system, 10, 6, 0, 2);
  }

  /**
   * `sample`: two stacked pairs (rectangles 1, 2 and 3, 4), rectangle 5
   * linked right of rectangle 2 and left of rectangle 4, and rectangle 1
   * fixed at (100, 100).
   */
  function Sample(app: App): (s: SampleResult)
    ensures Extends(app.system, s.app.system, 26, 20)
    ensures s.app.nextId == AddU64(app.nextId, 9)
    ensures s.rectangle1 == app.nextId && s.rectangle2 == Inc(app.nextId)
  {
    var q := TwoPairs(app);
    var t := SampleTail(q.pairs.app, q.pairs.rectangle1, q.pairs.rectangle2, q.rectangle4);
    ExtendsTrans(app.system, q.pairs.app.system, t.system, 16, 12, 10, 8);
    AddU64Add(app.nextId, 6, 3);
    SampleResult(t, q.pairs.rectangle1, q.pairs.rectangle2)
  }

  /** The two stacked pairs `sample` starts with, and the id of rectangle 4. */
  datatype TwoPairsResult = TwoPairsResult(pairs: SampleResult, rectangle4: U64)

  /** The first two stacked pairs of `sample`: the state after them, rectangles 1 and 2, and rectangle 4. */
  function TwoPairs(app: App): (q: TwoPairsResult)
    ensures Extends(app.system, q.pairs.app.system, 16, 12)
    ensures q.pairs.app.nextId == AddU64(app.nextId, 6)
    ensures q.pairs.rectangle1 == app.nextId && q.pairs.rectangle2 == Inc(app.nextId)
  {
    var p1 := StackedPair(app);
    var p2 := StackedPair(p1.app);
    ExtendsTrans(app.system, p1.app.system, p2.app.system, 8, 6, 8, 6);
    AddU64Add(app.nextId, 3, 3);
    TwoPairsResult(SampleResult(p2.app, p1.rectangle1, p1.rectangle2), p2.rectangle2)
  }

  /** Without wrap-around, two stacked pairs use six consecutive ids, list rectangles 4, 3, 2, 1 newest first and keep the state fresh. */
  lemma TwoPairsCounts(app: App)
    requires Fresh(app) && app.nextId + 6 < U64_LIMIT
    ensures var q := TwoPairs(app);
            var n := app.nextId;
            && Extends(app.system, q.pairs.app.system, 16, 12)
            && q.pairs.app.nextId == n + 6
            && q.pairs.app.rectangles == [Entity(Rectangle, n + 4), Entity(Rectangle, n + 3),
                                          Entity(Rectangle, n + 1), Entity(Rectangle, n)] + app.rectangles
            && q.pairs.rectangle1 == n && q.pairs.rectangle2 == n + 1 && q.rectangle4 == n + 4
            && Fresh(q.pairs.app)
  {
    var p1 := StackedPair(app);
    StackedPairCounts(app);
    var p2 := StackedPair(p1.app);
    StackedPairCounts(p1.app);
    assert TwoPairs(app) == TwoPairsResult(SampleResult(p2.app, p1.rectangle1, p1.rectangle2), p2.rectangle2);
  }

  /**
   * Without wrap-around, `sample` adds 26 expressions and 20 assignments,
   * allocates nine consecutive ids (five rectangles, four links), lists its
   * five rectangles newest first, reports the first two ids and keeps the
   * state fresh.
   */
  lemma SampleCounts(app: App)
    requires Fresh(app) && app.nextId + 9 < U64_LIMIT
    ensures var s := Sample(app);
            var n := app.nextId;
            && Extends(app.system, s.app.system, 26, 20)
            && s.app.nextId == n + 9
            && s.app.rectangles == [Entity(Rectangle, n + 6), Entity(Rectangle, n + 4), Entity(Rectangle, n + 3),
                                    Entity(Rectangle, n + 1), Entity(Rectangle, n)] + app.rectangles
            && s.rectangle1 == n && s.rectangle2 == n + 1
            && Fresh(s.app)
  {
    var q := TwoPairs(app);
    TwoPairsCounts(app);
    var t := SampleTail(q.pairs.app, q.pairs.rectangle1, q.pairs.rectangle2, q.rectangle4);
    SampleTailCounts(q.pairs.app, q.pairs.rectangle1, q.pairs.rectangle2, q.rectangle4);
    assert Sample(app) == SampleResult(t, q.pairs.rectangle1, q.pairs.rectangle2);
  }
}
