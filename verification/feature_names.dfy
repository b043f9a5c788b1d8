/**
 * The symbol-name syntax of the layouter (layouter.c). Equations refer to
 * layout quantities through names. The layouter itself writes
 * `{id}.{feature}.{axis}`; users write `{entity_type}_{id}.{feature}.{axis}`,
 * which `get_user_feature` parses back into a `FeatureRef`.
 */
module FeatureNames {
  import opened Wrappers
  import opened CInts
  import opened Scanner

  /** The kinds of things a layout holds, in table order. */
  datatype EntityType = Rectangle | Link

  /** The quantities of an entity that become symbols, in table order. */
  datatype FeatureId = Min | B | Max | D | Size | Dx | Dy

  datatype Axis = X | Y

  const EntityTypeNames: seq<string> := ["rectangle", "link"]
  const FeatureIdNames: seq<string> := ["min", "b", "max", "d", "size", "dx", "dy"]
  const AxisNames: seq<string> := ["x", "y"]

  /** The enum value whose ordinal is `i`. */
  function EntityTypeAt(i: nat): EntityType
    requires i < |EntityTypeNames|
  {
    if i == 0 then Rectangle else Link
  }

  function EntityTypeIndex(t: EntityType): (i: nat)
    ensures i < |EntityTypeNames| && EntityTypeAt(i) == t
  {
    match t
    case Rectangle => 0
    case Link => 1
  }

  function FeatureIdAt(i: nat): FeatureId
    requires i < |FeatureIdNames|
  {
    [Min, B, Max, D, Size, Dx, Dy][i]
  }

  function FeatureIdIndex(f: FeatureId): (i: nat)
    ensures i < |FeatureIdNames| && FeatureIdAt(i) == f
  {
    match f
    case Min => 0
    case B => 1
    case Max => 2
    case D => 3
    case Size => 4
    case Dx => 5
    case Dy => 6
  }

  function AxisAt(i: nat): Axis
    requires i < |AxisNames|
  {
    if i == 0 then X else Y
  }

  function AxisIndex(a: Axis): (i: nat)
    ensures i < |AxisNames| && AxisAt(i) == a
  {
    match a
    case X => 0
    case Y => 1
  }

  function EntityTypeName(t: EntityType): string {
    EntityTypeNames[EntityTypeIndex(t)]
  }

  function FeatureIdName(f: FeatureId): string {
    FeatureIdNames[FeatureIdIndex(f)]
  }

  function AxisName(a: Axis): string {
    AxisNames[AxisIndex(a)]
  }

  /** `struct feature_t`: what a user feature name denotes. */
  datatype FeatureRef = FeatureRef(kind: EntityType, id: U64, feature: FeatureId, axis: Axis)

  /** `struct entity_t` without its list link. */
  datatype Entity = Entity(kind: EntityType, id: U64)

  /** A `struct feature_t` initialised with `{0}`. */
  const ZeroFeature: FeatureRef := FeatureRef(Rectangle, 0, Min, X)

  /** An id, which fits in an `int`, survives printing and reading back as an `int`. */
  predicate IdFitsInt(id: U64) {
    id <= INT_MAX || U64_LIMIT + INT_MIN <= id
  }

  /**
   * `%ld` applied to a `uint64_t` id: the bits are read as a signed 64-bit
   * number, so ids from 2^63 on print with a minus sign.
   */
  function FormatLd(id: U64): (s: string)
    ensures 0 < |s|
    ensures s[0] == '-' || IsDigit(s[0])
    ensures forall i :: 0 < i < |s| ==> IsDigit(s[i])
    ensures s[0] == '-' <==> id >= I64_LIMIT
  {
    if id < I64_LIMIT then Decimal(id) else "-" + Decimal(U64_LIMIT - id)
  }

  /** Distinct ids print differently. */
  lemma FormatLdInjective(i: U64, j: U64)
    requires FormatLd(i) == FormatLd(j)
    ensures i == j
  {
    if i < I64_LIMIT && j < I64_LIMIT {
      DecimalInjective(i, j);
    } else if i >= I64_LIMIT && j >= I64_LIMIT {
      assert FormatLd(i)[1..] == Decimal(U64_LIMIT - i);
      assert FormatLd(j)[1..] == Decimal(U64_LIMIT - j);
      DecimalInjective(U64_LIMIT - i, U64_LIMIT - j);
    }
  }

  /** `"%ld.%s.%s"` of an id, a feature name and an axis. */
  function SymbolName(id: U64, feature: string, a: Axis): string {
    FormatLd(id) + "." + feature + "." + AxisName(a)
  }

  /**
   * `str_set_feature_name`: the name the layouter gives to a feature of an
   * entity. It starts with the printed id and a '.', so with a digit or a
   * '-'; the entity type does not appear; the last two characters are the
   * '.' and the axis letter.
   */
  function StrSetFeatureName(entity: Entity, f: FeatureId, a: Axis): (s: string)
    ensures FormatLd(entity.id) + "." <= s
    ensures s[0] == '-' || IsDigit(s[0])
    ensures 2 <= |s| && s[|s| - 2..] == "." + AxisName(a)
  {
    SymbolName(entity.id, FeatureIdName(f), a)
  }

  /**
   * `str_set_user_feature_name`: a name in the user syntax. It starts with
   * the entity type's name, a '_', the printed id and a '.', and ends with a
   * '.' and the axis letter.
   */
  function StrSetUserFeatureName(t: EntityType, id: U64, f: FeatureId, a: Axis): (s: string)
    ensures EntityTypeName(t) + "_" + FormatLd(id) + "." <= s
    ensures 2 <= |s| && s[|s| - 2..] == "." + AxisName(a)
  {
    EntityTypeName(t) + "_" + FormatLd(id) + "." + FeatureIdName(f) + "." + AxisName(a)
  }

  /** An optional `.{name}` segment of a user feature name. */
  datatype Segment = Skipped | Matched(index: nat, rest: string) | Unknown

  /**
   * A '.' followed by the first entry of `table` the input continues with;
   * Skipped (nothing consumed) when there is no '.', Unknown when no entry follows.
   */
  function DotSegment(s: string, table: seq<string>): (r: Segment)
    ensures r.Skipped? <==> !(0 < |s| && s[0] == '.')
    ensures r.Matched? ==> r.index < |table| && "." + table[r.index] + r.rest == s
  {
    match ScanChar(s, '.')
    case None => Skipped
    case Some(s') =>
      match FirstMatch(s', table, 0)
      case None => Unknown
      case Some((i, rest)) => Matched(i, rest)
  }

  /**
   * The optional `_{id}` segment: with the id that was read (0 when there is
   * none) and the remaining input. A '_' not followed by an int is consumed.
   */
  function IdSegment(s: string): (U64, string) {
    match ScanChar(s, '_')
    case None => (0, s)
    case Some(s') =>
      match ScanInt(s')
      case None => (0, s')
      case Some((v, rest)) => (IntToU64(v), rest)
  }

  /** What `get_user_feature` returns and what it leaves in `*feature`. */
  datatype ParseOutcome = ParseOutcome(success: bool, feature: FeatureRef)

  /**
   * `get_user_feature(name, feature)`: on success the parsed record replaces
   * `feature`; on failure `feature` is returned as it was passed in. The
   * entity type is required; the id, feature and axis segments are read in
   * turn by the helpers below.
   */
  function GetUserFeature(name: string, feature: FeatureRef): (r: ParseOutcome)
    ensures !r.success ==> r.feature == feature
    ensures r.success ==> EntityTypeName(r.feature.kind) <= name
  {
    match FirstMatch(name, EntityTypeNames, 0)
    case None => ParseOutcome(false, feature)
    case Some((ti, s1)) =>
      var (id, s2) := IdSegment(s1);
      ParseFeature(EntityTypeAt(ti), id, s2, feature)
  }

  /** The optional `.{feature_name}` segment, then the axis. */
  function ParseFeature(t: EntityType, id: U64, s: string, feature: FeatureRef): (r: ParseOutcome)
    ensures !r.success ==> r.feature == feature
    ensures r.success ==> r.feature.kind == t && r.feature.id == id
  {
    match DotSegment(s, FeatureIdNames)
    case Unknown => ParseOutcome(false, feature)
    case Skipped => ParseAxis(t, id, Min, s, feature)
    case Matched(fi, rest) => ParseAxis(t, id, FeatureIdAt(fi), rest, feature)
  }

  /** The optional `.{axis}` segment; whatever follows it is ignored. */
  function ParseAxis(t: EntityType, id: U64, f: FeatureId, s: string, feature: FeatureRef): (r: ParseOutcome)
    ensures !r.success ==> r.feature == feature
    ensures r.success ==> r.feature.kind == t && r.feature.id == id && r.feature.feature == f
  {
    match DotSegment(s, AxisNames)
    case Unknown => ParseOutcome(false, feature)
    case Skipped => ParseOutcome(true, FeatureRef(t, id, f, X))
    case Matched(ai, _) => ParseOutcome(true, FeatureRef(t, id, f, AxisAt(ai)))
  }

  // ---------------------------------------------------------------------
  // Matching each segment of a well-formed name
  // ---------------------------------------------------------------------

  /** An entity type name is matched by its own table row. */
  lemma EntityTypeMatch(t: EntityType, rest: string)
    ensures FirstMatch(EntityTypeName(t) + rest, EntityTypeNames, 0) == Some((EntityTypeIndex(t), rest))
  {
    var s := EntityTypeName(t) + rest;
    if t == Link {
      assert s[0] == 'l';
      assert !(EntityTypeNames[0] <= s) by { assert EntityTypeNames[0][0] == 'r'; }
    }
    FirstMatchIs(s, EntityTypeNames, EntityTypeIndex(t), rest);
  }

  /**
   * Every feature but `dx` and `dy` is matched by its own table row, whatever
   * follows it; no earlier row is a prefix of its name.
   */
  lemma FeatureIdMatch(f: FeatureId, rest: string)
    requires f != Dx && f != Dy
    ensures FirstMatch(FeatureIdName(f) + rest, FeatureIdNames, 0) == Some((FeatureIdIndex(f), rest))
  {
    var s := FeatureIdName(f) + rest;
    var i := FeatureIdIndex(f);
    forall j | 0 <= j < i
      ensures !(FeatureIdNames[j] <= s)
    {
      var n := FeatureIdNames[j];
      if f == Max {
        assert n[|n| - 1] != s[|n| - 1];
      } else {
        assert n[0] != s[0];
      }
    }
    FirstMatchIs(s, FeatureIdNames, i, rest);
  }

  /** `dx` and `dy` are caught by the earlier row `d`, which leaves the axis letter unread. */
  lemma DxDyMatchD(f: FeatureId, rest: string)
    requires f == Dx || f == Dy
    ensures FirstMatch(FeatureIdName(f) + rest, FeatureIdNames, 0)
            == Some((FeatureIdIndex(D), FeatureIdName(f)[1..] + rest))
  {
    var s := FeatureIdName(f) + rest;
    assert s == "d" + (FeatureIdName(f)[1..] + rest);
    forall j | 0 <= j < FeatureIdIndex(D)
      ensures !(FeatureIdNames[j] <= s)
    {
      assert FeatureIdNames[j][0] != s[0];
    }
    FirstMatchIs(s, FeatureIdNames, FeatureIdIndex(D), FeatureIdName(f)[1..] + rest);
  }

  lemma AxisMatch(a: Axis, rest: string)
    ensures FirstMatch(AxisName(a) + rest, AxisNames, 0) == Some((AxisIndex(a), rest))
  {
    var s := AxisName(a) + rest;
    if a == Y {
      assert AxisNames[0][0] != s[0];
    }
    FirstMatchIs(s, AxisNames, AxisIndex(a), rest);
  }

  /** A '.' and a matched table row make a Matched segment. */
  lemma DotSegmentMatched(table: seq<string>, i: nat, rest: string)
    requires i < |table|
    requires FirstMatch(table[i] + rest, table, 0) == Some((i, rest))
    ensures DotSegment("." + table[i] + rest, table) == Matched(i, rest)
  {
    var s := "." + table[i] + rest;
    var s' := table[i] + rest;
    assert s == "." + s';
    assert s[1..] == s';
    assert ScanChar(s, '.') == Some(s');
  }

  /** `_` and the `%ld` notation of an id that fits in an `int` read back as that id. */
  lemma IdSegmentOf(id: U64, rest: string)
    requires IdFitsInt(id)
    requires rest == [] || !IsDigit(rest[0])
    ensures IdSegment("_" + FormatLd(id) + rest) == (id, rest)
  {
    var s := "_" + FormatLd(id) + rest;
    assert s[1..] == FormatLd(id) + rest;
    if id < I64_LIMIT {
      ScanIntDecimal(id, rest);
    } else {
      assert FormatLd(id) + rest == "-" + Decimal(U64_LIMIT - id) + rest;
      ScanIntNegative(U64_LIMIT - id, rest);
    }
  }

  /**
   * An id that does not fit in an `int` is no match for `scanner_int`: the '_'
   * is consumed, the id stays 0 and the digits remain unread.
   */
  lemma IdSegmentOfLargeId(id: U64, rest: string)
    requires !IdFitsInt(id)
    requires rest == [] || !IsDigit(rest[0])
    ensures IdSegment("_" + FormatLd(id) + rest) == (0, FormatLd(id) + rest)
  {
    var s := "_" + FormatLd(id) + rest;
    assert s[1..] == FormatLd(id) + rest;
    if id < I64_LIMIT {
      ScanIntTooLarge(id, rest);
    } else {
      assert FormatLd(id) + rest == "-" + Decimal(U64_LIMIT - id) + rest;
      ScanIntTooSmall(U64_LIMIT - id, rest);
    }
  }

  // ---------------------------------------------------------------------
  // The parse, one stage at a time
  // ---------------------------------------------------------------------

  /** A name that starts with an entity type hands what follows to the id segment. */
  lemma ParseEntityType(t: EntityType, rest: string, feature: FeatureRef)
    ensures GetUserFeature(EntityTypeName(t) + rest, feature)
            == ParseFeature(t, IdSegment(rest).0, IdSegment(rest).1, feature)
  {
    EntityTypeMatch(t, rest);
  }

  /** A type name not followed by '_' hands the rest, with id 0, to the feature segment. */
  lemma ParseEntityTypeWithoutId(t: EntityType, rest: string, feature: FeatureRef)
    requires rest == [] || rest[0] != '_'
    ensures GetUserFeature(EntityTypeName(t) + rest, feature) == ParseFeature(t, 0, rest, feature)
  {
    ParseEntityType(t, rest, feature);
    assert IdSegment(rest) == (0, rest);
  }

  /** A type name, '_' and an id that fits in an `int` hand what follows to the feature segment. */
  lemma ParseEntityTypeAndId(t: EntityType, id: U64, rest: string, feature: FeatureRef)
    requires IdFitsInt(id)
    requires rest == [] || !IsDigit(rest[0])
    ensures GetUserFeature(EntityTypeName(t) + "_" + FormatLd(id) + rest, feature)
            == ParseFeature(t, id, rest, feature)
  {
    var r1 := "_" + FormatLd(id) + rest;
    assert EntityTypeName(t) + "_" + FormatLd(id) + rest == EntityTypeName(t) + r1;
    ParseEntityType(t, r1, feature);
    IdSegmentOf(id, rest);
  }

  /** A type name, '_' and an id too large for an `int` hand the unread id, with id 0, to the feature segment. */
  lemma ParseEntityTypeAndLargeId(t: EntityType, id: U64, rest: string, feature: FeatureRef)
    requires !IdFitsInt(id)
    requires rest == [] || !IsDigit(rest[0])
    ensures GetUserFeature(EntityTypeName(t) + "_" + FormatLd(id) + rest, feature)
            == ParseFeature(t, 0, FormatLd(id) + rest, feature)
  {
    var r1 := "_" + FormatLd(id) + rest;
    assert EntityTypeName(t) + "_" + FormatLd(id) + rest == EntityTypeName(t) + r1;
    IdSegmentOfLargeId(id, rest);
    var seg := IdSegment(r1);
    assert seg.0 == 0 && seg.1 == FormatLd(id) + rest;
    ParseEntityType(t, r1, feature);
  }

  /** A '.' and a feature name other than `dx`/`dy` hand what follows to the axis segment. */
  lemma ParseFeatureMatched(t: EntityType, id: U64, f: FeatureId, rest: string, feature: FeatureRef)
    requires f != Dx && f != Dy
    ensures ParseFeature(t, id, "." + FeatureIdName(f) + rest, feature) == ParseAxis(t, id, f, rest, feature)
  {
    FeatureIdMatch(f, rest);
    DotSegmentMatched(FeatureIdNames, FeatureIdIndex(f), rest);
  }

  /** After a '.', `dx`/`dy` are read as `d` and their axis letter is handed to the axis segment. */
  lemma ParseFeatureDxDy(t: EntityType, id: U64, f: FeatureId, rest: string, feature: FeatureRef)
    requires f == Dx || f == Dy
    ensures ParseFeature(t, id, "." + FeatureIdName(f) + rest, feature)
            == ParseAxis(t, id, D, FeatureIdName(f)[1..] + rest, feature)
  {
    DxDyMatchD(f, rest);
    var s := FeatureIdName(f)[1..] + rest;
    assert "." + FeatureIdName(f) + rest == "." + FeatureIdNames[FeatureIdIndex(D)] + s;
    DotSegmentMatched(FeatureIdNames, FeatureIdIndex(D), s);
  }

  /** Without a '.', the feature segment is skipped and the feature stays `min`. */
  lemma ParseFeatureSkipped(t: EntityType, id: U64, s: string, feature: FeatureRef)
    requires s == [] || s[0] != '.'
    ensures ParseFeature(t, id, s, feature) == ParseAxis(t, id, Min, s, feature)
  {
  }

  /** Without a '.', the axis segment is skipped and the axis stays `x`. */
  lemma ParseAxisSkipped(t: EntityType, id: U64, f: FeatureId, s: string, feature: FeatureRef)
    requires s == [] || s[0] != '.'
    ensures ParseAxis(t, id, f, s, feature) == ParseOutcome(true, FeatureRef(t, id, f, X))
  {
  }

  /** A '.' and an axis name complete the parse; what follows is ignored. */
  lemma ParseAxisMatched(t: EntityType, id: U64, f: FeatureId, a: Axis, rest: string, feature: FeatureRef)
    ensures ParseAxis(t, id, f, "." + AxisName(a) + rest, feature) == ParseOutcome(true, FeatureRef(t, id, f, a))
  {
    AxisMatch(a, rest);
    DotSegmentMatched(AxisNames, AxisIndex(a), rest);
  }

  // ---------------------------------------------------------------------
  // Properties of get_user_feature
  // ---------------------------------------------------------------------

  /** A name that starts with neither `rectangle` nor `link` is rejected and `*feature` is untouched. */
  lemma UnknownEntityTypeRejected(name: string, feature: FeatureRef)
    requires !("rectangle" <= name) && !("link" <= name)
    ensures GetUserFeature(name, feature) == ParseOutcome(false, feature)
  {
    assert FirstMatch(name, EntityTypeNames, 0) == None;
  }

  /**
   * Parsing a printed user feature name gives back the printed record, for
   * every feature but `dx`/`dy` and every id that fits in an `int`; anything
   * after the axis is ignored.
   */
  lemma UserFeatureRoundTrip(t: EntityType, id: U64, f: FeatureId, a: Axis, trailing: string, feature: FeatureRef)
    requires IdFitsInt(id)
    requires f != Dx && f != Dy
    ensures GetUserFeature(StrSetUserFeatureName(t, id, f, a) + trailing, feature)
            == ParseOutcome(true, FeatureRef(t, id, f, a))
  {
    var r3 := "." + AxisName(a) + trailing;
    var r2 := "." + FeatureIdName(f) + r3;
    assert StrSetUserFeatureName(t, id, f, a) + trailing == EntityTypeName(t) + "_" + FormatLd(id) + r2;
    ParseEntityTypeAndId(t, id, r2, feature);
    ParseFeatureMatched(t, id, f, r3, feature);
    ParseAxisMatched(t, id, f, a, trailing, feature);
  }

  /** Printing and parsing back is the identity on records whose feature is not `dx`/`dy`. */
  lemma UserFeatureRoundTripExact(r: FeatureRef)
    requires IdFitsInt(r.id)
    requires r.feature != Dx && r.feature != Dy
    ensures GetUserFeature(StrSetUserFeatureName(r.kind, r.id, r.feature, r.axis), ZeroFeature)
            == ParseOutcome(true, r)
  {
    UserFeatureRoundTrip(r.kind, r.id, r.feature, r.axis, [], ZeroFeature);
    assert StrSetUserFeatureName(r.kind, r.id, r.feature, r.axis) + []
        == StrSetUserFeatureName(r.kind, r.id, r.feature, r.axis);
  }

  /**
   * A printed `dx`/`dy` name parses as feature `d`: the letter after `d` is
   * not a '.', so the axis segment is skipped and the axis stays `x`.
   */
  lemma DxDyParsedAsD(t: EntityType, id: U64, f: FeatureId, a: Axis, feature: FeatureRef)
    requires IdFitsInt(id)
    requires f == Dx || f == Dy
    ensures GetUserFeature(StrSetUserFeatureName(t, id, f, a), feature)
            == ParseOutcome(true, FeatureRef(t, id, D, X))
  {
    var r3 := "." + AxisName(a);
    var r2 := "." + FeatureIdName(f) + r3;
    assert StrSetUserFeatureName(t, id, f, a) == EntityTypeName(t) + "_" + FormatLd(id) + r2;
    ParseEntityTypeAndId(t, id, r2, feature);
    ParseFeatureDxDy(t, id, f, r3, feature);
    var s3 := FeatureIdName(f)[1..] + r3;
    assert s3[0] != '.';
    ParseAxisSkipped(t, id, D, s3, feature);
  }

  /** The concrete case: `rectangle_3.dx.y` reads as feature `d` on axis `x`. */
  lemma DxExample()
    ensures GetUserFeature("rectangle_3.dx.y", ZeroFeature) == ParseOutcome(true, FeatureRef(Rectangle, 3, D, X))
  {
    assert StrSetUserFeatureName(Rectangle, 3, Dx, Y) == "rectangle_3.dx.y";
    DxDyParsedAsD(Rectangle, 3, Dx, Y, ZeroFeature);
  }

  /** Only the entity type is required: without `_`/`.` segments the defaults id 0, `min`, `x` stay. */
  lemma EntityTypeOnly(t: EntityType, trailing: string, feature: FeatureRef)
    requires trailing == [] || (trailing[0] != '_' && trailing[0] != '.')
    ensures GetUserFeature(EntityTypeName(t) + trailing, feature) == ParseOutcome(true, FeatureRef(t, 0, Min, X))
  {
    ParseEntityType(t, trailing, feature);
  }

  /** Without the feature segment the feature stays `min` and the axis `x`. */
  lemma WithoutFeature(t: EntityType, id: U64, trailing: string, feature: FeatureRef)
    requires IdFitsInt(id)
    requires trailing == [] || (trailing[0] != '.' && !IsDigit(trailing[0]))
    ensures GetUserFeature(EntityTypeName(t) + "_" + FormatLd(id) + trailing, feature)
            == ParseOutcome(true, FeatureRef(t, id, Min, X))
  {
    ParseEntityTypeAndId(t, id, trailing, feature);
  }

  /** Without the id segment the id stays 0. */
  lemma WithoutId(t: EntityType, f: FeatureId, a: Axis, trailing: string, feature: FeatureRef)
    requires f != Dx && f != Dy
    ensures GetUserFeature(EntityTypeName(t) + "." + FeatureIdName(f) + "." + AxisName(a) + trailing, feature)
            == ParseOutcome(true, FeatureRef(t, 0, f, a))
  {
    var r3 := "." + AxisName(a) + trailing;
    var r2 := "." + FeatureIdName(f) + r3;
    assert EntityTypeName(t) + "." + FeatureIdName(f) + "." + AxisName(a) + trailing == EntityTypeName(t) + r2;
    ParseEntityTypeWithoutId(t, r2, feature);
    ParseFeatureMatched(t, 0, f, r3, feature);
    ParseAxisMatched(t, 0, f, a, trailing, feature);
  }

  /** Without the axis segment the axis stays `x`. */
  lemma WithoutAxis(t: EntityType, id: U64, f: FeatureId, trailing: string, feature: FeatureRef)
    requires IdFitsInt(id)
    requires f != Dx && f != Dy
    requires trailing == [] || trailing[0] != '.'
    ensures GetUserFeature(EntityTypeName(t) + "_" + FormatLd(id) + "." + FeatureIdName(f) + trailing, feature)
            == ParseOutcome(true, FeatureRef(t, id, f, X))
  {
    var r2 := "." + FeatureIdName(f) + trailing;
    assert EntityTypeName(t) + "_" + FormatLd(id) + "." + FeatureIdName(f) + trailing
        == EntityTypeName(t) + "_" + FormatLd(id) + r2;
    ParseEntityTypeAndId(t, id, r2, feature);
    ParseFeatureMatched(t, id, f, trailing, feature);
  }

  /** A '.' followed by no known feature name makes the parse fail and leaves `*feature` untouched. */
  lemma UnknownFeatureRejected(t: EntityType, id: U64, trailing: string, feature: FeatureRef)
    requires IdFitsInt(id)
    requires forall j :: 0 <= j < |FeatureIdNames| ==> !(FeatureIdNames[j] <= trailing)
    ensures GetUserFeature(EntityTypeName(t) + "_" + FormatLd(id) + "." + trailing, feature)
            == ParseOutcome(false, feature)
  {
    var r2 := "." + trailing;
    assert EntityTypeName(t) + "_" + FormatLd(id) + "." + trailing == EntityTypeName(t) + "_" + FormatLd(id) + r2;
    ParseEntityTypeAndId(t, id, r2, feature);
    assert r2[1..] == trailing;
  }

  /** A second '.' followed by neither `x` nor `y` makes the parse fail and leaves `*feature` untouched. */
  lemma UnknownAxisRejected(t: EntityType, id: U64, f: FeatureId, trailing: string, feature: FeatureRef)
    requires IdFitsInt(id)
    requires f != Dx && f != Dy
    requires !("x" <= trailing) && !("y" <= trailing)
    ensures GetUserFeature(EntityTypeName(t) + "_" + FormatLd(id) + "." + FeatureIdName(f) + "." + trailing, feature)
            == ParseOutcome(false, feature)
  {
    var r3 := "." + trailing;
    var r2 := "." + FeatureIdName(f) + r3;
    assert EntityTypeName(t) + "_" + FormatLd(id) + "." + FeatureIdName(f) + "." + trailing
        == EntityTypeName(t) + "_" + FormatLd(id) + r2;
    ParseEntityTypeAndId(t, id, r2, feature);
    ParseFeatureMatched(t, id, f, r3, feature);
    assert r3[1..] == trailing;
  }

  /** The layouter's own names (`{id}.{feature}.{axis}`) are never read as user feature names. */
  lemma FeatureNameRejected(e: Entity, f: FeatureId, a: Axis, feature: FeatureRef)
    ensures GetUserFeature(StrSetFeatureName(e, f, a), feature) == ParseOutcome(false, feature)
  {
    var name := StrSetFeatureName(e, f, a);
    assert name[0] == FormatLd(e.id)[0];
    assert "rectangle"[0] != name[0] && "link"[0] != name[0];
    UnknownEntityTypeRejected(name, feature);
  }

  /**
   * An id that does not fit in an `int` is lost: the digits after '_' are left
   * unread, so neither '.' check matches and the result is the defaults.
   */
  lemma LargeIdDropped(t: EntityType, id: U64, f: FeatureId, a: Axis, feature: FeatureRef)
    requires !IdFitsInt(id)
    ensures GetUserFeature(StrSetUserFeatureName(t, id, f, a), feature)
            == ParseOutcome(true, FeatureRef(t, 0, Min, X))
  {
    var r2 := "." + FeatureIdName(f) + "." + AxisName(a);
    assert StrSetUserFeatureName(t, id, f, a) == EntityTypeName(t) + "_" + FormatLd(id) + r2;
    ParseEntityTypeAndLargeId(t, id, r2, feature);
    var s2 := FormatLd(id) + r2;
    assert s2[0] == FormatLd(id)[0];
    ParseFeatureSkipped(t, 0, s2, feature);
    ParseAxisSkipped(t, 0, Min, s2, feature);
  }
}
