# layouter core in Dafny

The layouter places rectangles by solving a linear system. It has four small
pieces of sequential logic, and this project models them:

- **Symbol names** (`layouter.c`). A layout symbol is named
  `{id}.{feature}.{axis}`. A user symbol is named
  `{entity_type}_{id}.{feature}.{axis}`. `str_set_feature_name` and
  `str_set_user_feature_name` print these names. `get_user_feature` parses
  the user syntax. It matches the tables `rectangle link`,
  `min b max d size dx dy` and `x y` in table order, first match wins
  (modules `Scanner`, `FeatureNames`).
- **Equation builder** (`layouter.c`). Four calls append to the system:
  `layout_rectangle_size`, `layout_add_rectangle_anchor`, `layout_link_d`
  and `layout_fix`.
  - Each call appends expressions (sums of signed symbols, equal to zero)
    and symbol assignments.
  - The allocating calls take a fresh id from `next_id`.
  - The model covers how many equations each call adds, what they mean
    over real-valued valuations, which symbols they mention, and freshness.
    Freshness means ids never repeat and a new id's symbols are unused.
  - It also covers runs of calls and the demo layouts `basic_rectangle`
    and `sample` (modules `LinearSystem`, `Layout`).
- **Count-based solvability check** (`linear_solver_tests.c`).
  `simple_computation_print` compares the unassigned symbols with the
  expressions. The test systems are constants here. Each has a lemma
  giving its verdict, and some also have one saying what the system
  really admits (module `Solvability`).
- **Colour helpers** (`color.h`). `get_next_color` is a palette cursor with
  a reset. `RGB_HEX` splits a colour into bytes (module `Color`).

C integer widths are explicit (module `CInts`):

- ids are `uint64_t` and `next_id++` wraps;
- the parser reads ids into a C `int`;
- `%ld` prints a `uint64_t` id reinterpreted as signed.

Everything here is taken from the C sources.

Assumptions about code that is not part of this model:

- `scanner.c` is not part of this model:
  - `scanner_str` and `scanner_char` consume a matching prefix or nothing.
  - `scanner_int` reads an optional `-` and the longest run of digits. It
    succeeds only when the value fits a C `int`; otherwise it consumes nothing.
- The solver in `linear_solver.c` is not part of this model. Only its
  recorded expressions and assignments are. Expressions are stored already
  parsed into signed terms. A system's symbols are the distinct names it
  mentions. A symbol is assigned when some assignment names it.
- A system's meaning is the set of real valuations that make every
  expression sum to zero and give every assigned symbol its value. Every
  assignment is read as an equation that must hold, so a symbol assigned
  twice with different values (two `layout_fix` calls on one entity, say)
  has no solution. This reading is the model's choice: how the solver treats
  a re-assigned symbol is not part of this model. LinearSystem.SymbolAssignEffect
  and Layout.FixMeaning rest on it.

## Model

| member | source | states |
|---|---|---|
| CInts.Inc | layouter.c:305-306 | `next_id++` on a `uint64_t`: adds one, and wraps to 0 at 2^64 |
| CInts.IntToU64 | layouter.c:143-145 | storing the parsed C `int` id into the `uint64_t` field keeps it modulo 2^64 |
| Scanner.Decimal | layouter.c:200 | the digits `%ld` prints: nonempty, all digits, no leading zero |
| Scanner.DecimalValue | layouter.c:200 | reading the printed digits back gives the number |
| Scanner.DecimalInjective | layouter.c:200 | different numbers print differently |
| Scanner.ScanStr | layouter.c:131 | `scanner_str` succeeds exactly when the input starts with the string, and consumes it |
| Scanner.ScanChar | layouter.c:144 | `scanner_char` succeeds exactly on a matching first character, and consumes it |
| Scanner.ScanInt | layouter.c:144 | `scanner_int` yields a value that fits an `int`; it consumes an optional '-' and then at least one character, all digits, and stops before a non-digit or at the end of the input |
| Scanner.ScanIntDecimal | layouter.c:144-145 | a printed non-negative `int` followed by a non-digit is read back exactly |
| Scanner.ScanIntNegative | layouter.c:144-145 | a printed negative `int` is read back exactly |
| Scanner.ScanIntTooLarge | layouter.c:144-146 | digits beyond `INT_MAX` do not scan, so the id stays at its default |
| Scanner.ScanIntTooSmall | layouter.c:144-146 | digits below `INT_MIN` do not scan |
| Scanner.FirstMatch | layouter.c:130-136 | the table loop picks the first entry in table order that prefixes the input, or reports that none does |
| FeatureNames.FormatLd | layouter.c:95 | `%ld` of an id is non-empty, every character after the first is a digit, and the first is a minus exactly when the id is at least 2^63 |
| FeatureNames.StrSetFeatureName | layouter.c:89-96 | the layout name of a feature starts with the printed id and a '.', so with a digit or '-'; the entity type does not appear; it ends with '.' and the axis letter |
| FeatureNames.StrSetUserFeatureName | layouter.c:193-201 | the user name starts with the entity type's name, '_', the printed id and '.', and ends with '.' and the axis letter |
| FeatureNames.FormatLdInjective | layouter.c:95 | distinct ids print distinct `%ld` strings |
| FeatureNames.GetUserFeature | layouter.c:117-189 | on failure the output record is untouched; on success the name starts with the parsed entity type's name |
| FeatureNames.ParseFeature | layouter.c:150-165 | a failed feature segment leaves the record untouched; a success keeps the parsed type and id |
| FeatureNames.ParseAxis | layouter.c:167-182 | a failed axis segment leaves the record untouched; a success keeps type, id and feature |
| FeatureNames.DxDyMatchD | layouter.c:43-47 | `dx` and `dy` are matched as `d`, which comes first in the table |
| FeatureNames.UnknownEntityTypeRejected | layouter.c:130-140 | a name starting with neither `rectangle` nor `link` fails and leaves the record untouched |
| FeatureNames.UserFeatureRoundTrip | layouter.c:117-189 | parsing a printed user name, with any trailing text, gives back the printed record, for every id that fits an `int` and every feature except `dx`/`dy` |
| FeatureNames.UserFeatureRoundTripExact | layouter.c:193-201 | parsing `str_set_user_feature_name`'s output gives back the record it printed |
| FeatureNames.DxDyParsedAsD | layouter.c:153-159 | a printed `dx`/`dy` name parses successfully as feature `d`, axis `x` |
| FeatureNames.DxExample | layouter.c:168-182 | `rectangle_3.dx.y` parses as `(rectangle, 3, d, x)` |
| FeatureNames.EntityTypeOnly | layouter.c:121-147 | a bare entity type parses with id 0, feature `min` and axis `x` |
| FeatureNames.WithoutFeature | layouter.c:150-165 | without a `.feature` segment the feature and axis keep their defaults |
| FeatureNames.WithoutId | layouter.c:142-147 | without an `_id` segment the id stays 0 |
| FeatureNames.WithoutAxis | layouter.c:167-182 | without a `.axis` segment the axis stays `x` and the rest is ignored |
| FeatureNames.UnknownFeatureRejected | layouter.c:151-163 | a `.` followed by no known feature fails, record untouched |
| FeatureNames.UnknownAxisRejected | layouter.c:168-180 | a second `.` followed by no known axis fails, record untouched |
| FeatureNames.FeatureNameRejected | layouter.c:89-96 | every name `str_set_feature_name` prints is rejected by the parser |
| FeatureNames.LargeIdDropped | layouter.c:142-147 | an id that does not fit an `int` is dropped: the parse succeeds with id 0 and default feature and axis |
| LinearSystem.ExprEqualsZeroEffect | layouter.c:310 | after recording an expression the system also mentions its symbols and assigns nothing new; its solutions are exactly the old solutions under which the expression sums to zero |
| LinearSystem.SymbolAssignEffect | layouter.c:316 | after recording an assignment the name is both mentioned and assigned; the solutions are exactly the old solutions that give the name that value |
| LinearSystem.ExtendsTrans | layouter.c:369-383 | appending twice is appending once, with the counts added |
| LinearSystem.SymbolsOfExtension | layouter.c:303-330 | the symbols after appending are the old ones plus those of the appended items |
| LinearSystem.SatisfiesExtension | layouter.c:303-330 | a valuation solves the extended system iff it solves the old one and what was appended |
| LinearSystem.SymbolsByElement | linear_solver_tests.c:26 | the symbol set, collected item by item, equals its set-builder definition |
| Layout.LayoutRectangleSize | layouter.c:303-330 | returns the old `next_id`, increments it, appends 2 expressions and 2 assignments, and prepends the new rectangle |
| Layout.LayoutAddRectangleAnchor | layouter.c:332-354 | appends 2 expressions for `b` or `d` and nothing otherwise; `next_id` and rectangles unchanged |
| Layout.LayoutLinkD | layouter.c:356-388 | returns the old `next_id`, increments it, appends both anchors' expressions plus 2, and 2 assignments |
| Layout.LayoutFix | layouter.c:390-403 | appends exactly 2 assignments and nothing else |
| Layout.RectangleSizeMeaning | layouter.c:309-319 | the new expressions hold iff `min + size = max` on both axes; the assignments fix the size |
| Layout.AnchorMeaning | layouter.c:338-351 | anchor `b` sits at (`min.x`, `min.y + size.y`) and anchor `d` at (`min.x + size.x`, `min.y`) |
| Layout.LinkMeaning | layouter.c:373-383 | the link equations hold iff the second anchor is the first moved by `d`; the assignments fix `d` |
| Layout.FixMeaning | layouter.c:396-400 | the assignments hold iff the feature sits at `pos`; no expression is added |
| Layout.RectangleSizeMentions | layouter.c:309-319 | the rectangle's calls mention exactly its `min`, `size`, `max` symbols on both axes |
| Layout.AnchorMentions | layouter.c:338-351 | an anchor mentions exactly its own symbols, and nothing for an unknown anchor |
| Layout.LinkMentions | layouter.c:369-383 | a link mentions both anchors' symbols, both endpoints' features and its own `d` |
| Layout.FixMentions | layouter.c:396-400 | a fix mentions exactly the fixed feature on both axes |
| Layout.OwnerUnique | layouter.c:309 | a symbol name `{id}.…` determines its id |
| Layout.NextIdUnused | layouter.c:305 | in a fresh state no symbol of `next_id` is in the system yet |
| Layout.RectangleSizeKeepsFresh | layouter.c:303-330 | without wrap-around, adding a rectangle keeps ids unique and rectangle ids decreasing along the list |
| Layout.AnchorKeepsFresh | layouter.c:332-354 | anchoring an allocated rectangle keeps the state fresh |
| Layout.LinkKeepsFresh | layouter.c:356-388 | without wrap-around, linking allocated entities keeps the state fresh |
| Layout.FixKeepsFresh | layouter.c:390-403 | fixing an allocated entity keeps the state fresh |
| Layout.RunGrows | layouter.c:303-403 | any run of calls only appends, by the summed per-call counts, and returns one id per allocating call |
| Layout.RunIds | layouter.c:305-306 | without wrap-around a run returns consecutive, strictly increasing ids and `next_id` ends past the last |
| Layout.RunKeepsFresh | layouter.c:303-403 | without wrap-around, a run of calls on allocated ids keeps the state fresh |
| Layout.BasicRectangle | layouter.c:405-409 | `basic_rectangle` appends 2 expressions and 4 assignments, advances `next_id` once with wrap-around and prepends the one rectangle it allocates |
| Layout.BasicRectangleCounts | layouter.c:405-409 | `basic_rectangle` adds 2 expressions, 4 assignments and one rectangle |
| Layout.StackedPair | layouter.c:467-469 | a stacked pair appends 8 expressions and 6 assignments, advances `next_id` three times with wrap-around, returns the first two ids and prepends both rectangles |
| Layout.StackedPairCounts | layouter.c:467-469 | two rectangles linked `b` to `min` add 8 expressions and 6 assignments and use three ids |
| Layout.TwoPairs | layouter.c:467-473 | the two stacked pairs of `sample` append 16 expressions and 12 assignments, advance `next_id` six times with wrap-around and return the first id and the one after it |
| Layout.TwoPairsCounts | layouter.c:467-473 | the two stacked pairs of `sample` add 16 expressions and 12 assignments, use six ids and list rectangles n+4, n+3, n+1, n |
| Layout.SampleTail | layouter.c:475-479 | the rest of `sample` appends 10 expressions and 8 assignments, advances `next_id` three times with wrap-around and prepends rectangle 5 |
| Layout.SampleTailCounts | layouter.c:475-479 | the rest of `sample` adds 10 expressions and 8 assignments and uses three ids |
| Layout.Sample | layouter.c:465-488 | `sample` appends 26 expressions and 20 assignments, advances `next_id` nine times with wrap-around, and reports as rectangles 1 and 2 the first id and the one after it |
| Layout.SampleCounts | layouter.c:465-488 | `sample` adds 26 expressions and 20 assignments and uses nine ids; it reports the first two rectangle ids |
| Solvability.Classify | linear_solver_tests.c:36-42 | solvable iff symbols − assigned = expressions, underconstrained iff greater, overconstrained iff less |
| Solvability.ClassifyFreeSymbols | linear_solver_tests.c:36-42 | the verdict compares the unassigned symbols with the expressions |
| Solvability.CountMembers | linear_solver_tests.c:27-34 | the table walk counts exactly the chosen entries, never more than the table holds |
| Solvability.SimpleComputation | linear_solver_tests.c:17-44 | counts = list length, distinct symbols and assigned symbols (at most the symbols), and the verdict from them |
| Solvability.BreaksSimpleComputationSolvable | linear_solver_tests.c:65-86 | 7 symbols, 4 assigned, 3 expressions: solvable |
| Solvability.BreaksSimpleComputationUnsatisfiable | linear_solver_tests.c:65-86 | no valuation satisfies this system, even though it is counted as solvable |
| Solvability.LinearDependencyOverconstrained | linear_solver_tests.c:88-105 | 3 symbols, 2 assigned, 2 expressions: overconstrained |
| Solvability.LinearDependencyUnique | linear_solver_tests.c:88-105 | the system still has exactly one solution |
| Solvability.UnderconstrainedMinimalUnderconstrained | linear_solver_tests.c:107-116 | 3 symbols, 1 assigned, 1 expression: underconstrained |
| Solvability.UnderconstrainedMinimalFree | linear_solver_tests.c:107-116 | every value of `x1` extends to a solution |
| Solvability.UnderconstrainedChainUnderconstrained | linear_solver_tests.c:118-135 | 11 symbols, 5 assigned, 5 expressions: underconstrained |
| Solvability.UnderconstrainedPartialUnderconstrained | linear_solver_tests.c:137-163 | 16 symbols, 8 assigned, 7 expressions: underconstrained |
| Solvability.OverconstrainedPairOverconstrained | linear_solver_tests.c:165-177 | 4 symbols, 3 assigned, 2 expressions: overconstrained |
| Solvability.OverconstrainedPairUnsatisfiable | linear_solver_tests.c:165-177 | no valuation satisfies it |
| Color.GetNextColor | color.h:203-225 | only a reset writes no colour, and it restores the initial statics; a fetch with `palette_idx` below 13 returns `color_palette[palette_idx]` and advances only the index; past the palette a fetch advances only the hue, and the hue colour is the new step count; the index never passes 13 |
| Color.GetNextColorKeepsValid | color.h:215-218 | `palette_idx` never exceeds the palette size 13 |
| Color.FetchFromPalette | color.h:215-217 | while the palette lasts, calls return its entries in order |
| Color.FetchFromHue | color.h:218-224 | once the palette is used up, the index stays put and each call is one hue step further |
| Color.FetchAfterReset | color.h:188-225 | after a reset the first 13 calls return `color_palette[0..12]` and later calls walk the hue |
| Color.RgbHex | color.h:9-11 | each channel numerator is below 256, and alpha is 1 |
| Color.RgbHexBits | color.h:9-11 | the channels are bits 16-23, 8-15 and 0-7 of `hex` |
| Color.RgbHexOfPack | color.h:9-11 | `RGB_HEX` of `0xRRGGBB` gives back `RR`, `GG`, `BB` |
| Color.PackOfRgbHex | color.h:9-11 | repacking the channels gives `hex` without its top byte |

## Left out

- The build script `pymk.py` is left out. It only shells out to the compiler.
- The GTK and cairo code is left out because it is rendering and UI:
  `draw_cb`, `window_delete_handler`, `main`.
- `mix_layout`, `linked_rectangles_system_floating` and
  `linked_rectangles_system` are left out. They pass hand-written expression
  strings, and the solver's expression parser is not part of this model.
  `floating_rectangle` and `linked_rectangles` are left out too; they are
  further demo sequences like `basic_rectangle`.
- The solver is left out: `solver_solve`, expression parsing, the symbol
  tables and `system_get_symbol_value`. Only type declarations of it exist
  in `linear_solver.c`.
  - Symbols are distinct names.
  - Assigned means named by some assignment.
  - `num_nodes` of the symbol table is the number of distinct names.
- `binary_tree.c` and `common.h` are not part of this model. `id_set` would
  be a plain set; string buffers become Dafny strings.
- Floating-point colour math is left out: `rgba_to_hsla`, `hsla_to_rgba`,
  `shade`, `mix`, `hsv_to_rgb`, and the `PHI_INV` hue arithmetic. A hue
  colour is only identified by its number of hue steps since the reset. The
  division by 255 in `RGB_HEX` is left out as well.
- Coordinates and sizes (`dvec2`) are Dafny reals, not doubles, and are
  never computed with.
- The `printf` output of `simple_computation_print` is left out. The method
  returns the three counts and the verdict instead. The C `int` counters are
  unbounded here.
- `solver_solve_and_print` and `solver_compute_solvability` are left out
  (the latter is empty).
- Layout.RectangleSizeKeepsFresh: proved only when `next_id + 1` does not
  wrap. After 2^64 allocations `next_id++` wraps and ids repeat; `Inc`
  models the wrap itself.
- Layout.LinkKeepsFresh: proved under the same no-wrap precondition.
- Layout.RunIds: proved only when the run's allocations do not wrap
  `next_id`.
- Layout.SampleCounts: proved only when the nine allocations do not wrap
  `next_id`.
- Layout.TwoPairsCounts: proved only when the six allocations do not wrap
  `next_id`.
- Layout.BasicRectangleCounts: the freshness and the plain `next_id + 1` are
  proved only when that allocation does not wrap `next_id`;
  Layout.BasicRectangle states the counts with wrap-around.
- Layout.StackedPairCounts: proved only when the three allocations do not
  wrap `next_id`; Layout.StackedPair states the counts with wrap-around.
- Layout.SampleTailCounts: proved only when the three allocations do not
  wrap `next_id`; Layout.SampleTail states the counts with wrap-around.
- Layout.RunKeepsFresh: proved only for runs whose allocations do not wrap
  `next_id` (`CallValid` asks for it), for the reason given for
  RectangleSizeKeepsFresh.
- Layout.Sample: its contract gives the counts and reported ids with
  wrap-around, not the exact list of rectangles; Layout.SampleCounts gives
  the list when `next_id` does not wrap.
- FeatureNames.UserFeatureRoundTrip: holds only for ids that fit a C `int`.
  That is all `scanner_int` can read back. LargeIdDropped states what
  happens to the others.
- The `str_set_feature_name` TODO about validating the feature is left out.
  The tables make every printed feature valid.
