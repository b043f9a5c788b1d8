/**
 * The colour helpers of color.h the layouter uses: the palette cursor of
 * `get_next_color` and the byte split of `RGB_HEX`.
 *
 * Colours are opaque palette entries. The golden-ratio hue walk that takes
 * over once the palette is used up is kept abstract: a hue colour is
 * identified by how many hue steps were taken since the last reset.
 */
module Color {

  /** A `dvec3` colour; the palette entries are recorded, never computed with. */
  datatype Rgb = Rgb(r: real, g: real, b: real)

  /** `color_palette`: Green, Blue, Red, Yellow, Purple, Deep Orange, Lime, Pink, Indigo, Teal, Deep Pink, Gray, Deep Teal. */
  const Palette: seq<Rgb> := [
    Rgb(0.058824, 0.615686, 0.345098),
    Rgb(0.254902, 0.517647, 0.952941),
    Rgb(0.858824, 0.266667, 0.215686),
    Rgb(0.956863, 0.705882, 0.000000),
    Rgb(0.666667, 0.274510, 0.733333),
    Rgb(1.000000, 0.435294, 0.258824),
    Rgb(0.615686, 0.611765, 0.137255),
    Rgb(0.937255, 0.380392, 0.568627),
    Rgb(0.356863, 0.415686, 0.749020),
    Rgb(0.000000, 0.670588, 0.752941),
    Rgb(0.756863, 0.090196, 0.352941),
    Rgb(0.619608, 0.619608, 0.619608),
    Rgb(0.000000, 0.470588, 0.415686)
  ]

  /** `ARRAY_SIZE(color_palette)`. */
  const PaletteSize: nat := 13

  /**
   * The two static variables of `get_next_color`: the next palette index,
   * and the hue `h`, represented by the number of `PHI_INV` steps taken
   * since `h` was last set to `COLOR_OFFSET`.
   */
  datatype Cursor = Cursor(paletteIdx: nat, hueSteps: nat)

  /** The static initialisers: index 0 and `h = COLOR_OFFSET`. */
  const InitialCursor: Cursor := Cursor(0, 0)

  /** A call either passes `NULL` (reset) or a colour to fill in. */
  datatype Request = Reset | Fetch

  /** What the call writes: nothing, a palette entry, or the hue colour after the given number of steps. */
  datatype Output = NoColor | FromPalette(rgb: Rgb) | FromHue(steps: nat)

  datatype ColorStep = ColorStep(cursor: Cursor, output: Output)

  predicate Valid(c: Cursor) {
    c.paletteIdx <= PaletteSize
  }

  /**
   * `get_next_color`. Only a reset writes nothing, and it restores the
   * initial cursor. A fetch advances exactly one of the two statics by one:
   * while the palette lasts it returns the entry at the old index and
   * advances the index, afterwards it advances the hue, and the hue colour
   * is the one the new hue step count names.
   */
  function GetNextColor(c: Cursor, req: Request): (r: ColorStep)
    ensures r.output.NoColor? <==> req == Reset
    ensures req == Reset ==> r.cursor == InitialCursor
    ensures req == Fetch ==> r.cursor.paletteIdx + r.cursor.hueSteps == c.paletteIdx + c.hueSteps + 1
    ensures req == Fetch ==> c.paletteIdx <= r.cursor.paletteIdx && c.hueSteps <= r.cursor.hueSteps
    ensures r.output.FromPalette? <==> req == Fetch && c.paletteIdx < PaletteSize
    ensures r.output.FromPalette? ==> 0 < r.cursor.paletteIdx <= PaletteSize
                                      && r.output.rgb == Palette[r.cursor.paletteIdx - 1]
    ensures r.output.FromHue? ==> r.output.steps == r.cursor.hueSteps
    ensures r.output.FromPalette? ==> r.cursor == c.(paletteIdx := c.paletteIdx + 1) && r.output.rgb == Palette[c.paletteIdx]
    ensures r.output.FromHue? ==> r.cursor == c.(hueSteps := c.hueSteps + 1)
    ensures Valid(c) ==> Valid(r.cursor)
  {
    match req
    case Reset => ColorStep(Cursor(0, 0), NoColor)
    case Fetch =>
      if c.paletteIdx < |Palette| then
        ColorStep(c.(paletteIdx := c.paletteIdx + 1), FromPalette(Palette[c.paletteIdx]))
      else
        ColorStep(c.(hueSteps := c.hueSteps + 1), FromHue(c.hueSteps + 1))
  }

  /** The palette index never passes the end of the palette. */
  lemma GetNextColorKeepsValid(c: Cursor, req: Request)
    requires Valid(c)
    ensures Valid(GetNextColor(c, req).cursor)
  {
  }

  /** The cursor and the colours written by `n` calls that each pass a colour. */
  datatype Fetched = Fetched(cursor: Cursor, outputs: seq<Output>)

  function FetchMany(c: Cursor, n: nat): Fetched
    decreases n
  {
    if n == 0 then Fetched(c, [])
    else
      var s := GetNextColor(c, Fetch);
      var rest := FetchMany(s.cursor, n - 1);
      Fetched(rest.cursor, [s.output] + rest.outputs)
  }

  /** While the palette lasts, calls return its entries in order and leave the hue alone. */
  lemma {:induction false} FetchFromPalette(c: Cursor, n: nat)
    requires c.paletteIdx + n <= PaletteSize
    ensures var f := FetchMany(c, n);
            && |f.outputs| == n
            && (forall i :: 0 <= i < n ==> f.outputs[i] == FromPalette(Palette[c.paletteIdx + i]))
            && f.cursor == Cursor(c.paletteIdx + n, c.hueSteps)
    decreases n
  {
    if n > 0 {
      var s := GetNextColor(c, Fetch);
      FetchFromPalette(s.cursor, n - 1);
      var rest := FetchMany(s.cursor, n - 1);
      var outs := [s.output] + rest.outputs;
      forall i | 0 <= i < n ensures outs[i] == FromPalette(Palette[c.paletteIdx + i]) {
        if i > 0 {
          assert outs[i] == rest.outputs[i - 1];
          assert s.cursor.paletteIdx + (i - 1) == c.paletteIdx + i;
        }
      }
    }
  }

  /** Once the palette is used up, the index stays put and every call takes one more hue step. */
  lemma {:induction false} FetchFromHue(c: Cursor, n: nat)
    requires c.paletteIdx >= PaletteSize
    ensures var f := FetchMany(c, n);
            && |f.outputs| == n
            && (forall i :: 0 <= i < n ==> f.outputs[i] == FromHue(c.hueSteps + i + 1))
            && f.cursor == Cursor(c.paletteIdx, c.hueSteps + n)
    decreases n
  {
    if n > 0 {
      var s := GetNextColor(c, Fetch);
      FetchFromHue(s.cursor, n - 1);
      var rest := FetchMany(s.cursor, n - 1);
      var outs := [s.output] + rest.outputs;
      forall i | 0 <= i < n ensures outs[i] == FromHue(c.hueSteps + i + 1) {
        if i > 0 {
          assert outs[i] == rest.outputs[i - 1];
        }
      }
    }
  }

  lemma {:induction false} FetchManySplit(c: Cursor, m: nat, n: nat)
    ensures var f := FetchMany(c, m);
            var g := FetchMany(f.cursor, n);
            FetchMany(c, m + n) == Fetched(g.cursor, f.outputs + g.outputs)
    decreases m
  {
    if m > 0 {
      var s := GetNextColor(c, Fetch);
      FetchManySplit(s.cursor, m - 1, n);
      var f' := FetchMany(s.cursor, m - 1);
      var g := FetchMany(f'.cursor, n);
      assert [s.output] + (f'.outputs + g.outputs) == ([s.output] + f'.outputs) + g.outputs;
    } else {
      assert FetchMany(c, 0).outputs == [];
    }
  }

  /** The palette in order followed by hue steps from `h` on, indexed in one sequence. */
  lemma PaletteThenHue(f: seq<Output>, g: seq<Output>, h: nat)
    requires |f| == PaletteSize
    requires forall i :: 0 <= i < PaletteSize ==> f[i] == FromPalette(Palette[i])
    requires forall i :: 0 <= i < |g| ==> g[i] == FromHue(h + i + 1)
    ensures var outs := f + g;
            && (forall i :: 0 <= i < PaletteSize ==> outs[i] == FromPalette(Palette[i]))
            && (forall i :: PaletteSize <= i < |outs| ==> outs[i] == FromHue(h + i - PaletteSize + 1))
  {
    var outs := f + g;
    forall i | 0 <= i < PaletteSize ensures outs[i] == FromPalette(Palette[i]) {
      assert outs[i] == f[i];
    }
    forall i | PaletteSize <= i < |outs| ensures outs[i] == FromHue(h + i - PaletteSize + 1) {
      assert outs[i] == g[i - PaletteSize];
    }
  }

  /** Past the end of the palette: the first 13 outputs are the palette, the rest walk the hue. */
  lemma FetchPastPalette(c: Cursor, n: nat)
    requires c.paletteIdx == 0 && n > PaletteSize
    ensures var f := FetchMany(c, n);
            && |f.outputs| == n
            && (forall i :: 0 <= i < PaletteSize ==> f.outputs[i] == FromPalette(Palette[i]))
            && (forall i :: PaletteSize <= i < n ==> f.outputs[i] == FromHue(c.hueSteps + i - PaletteSize + 1))
  {
    var m := n - PaletteSize;
    var f := FetchMany(c, PaletteSize);
    FetchFromPalette(c, PaletteSize);
    var g := FetchMany(f.cursor, m);
    FetchFromHue(f.cursor, m);
    FetchManySplit(c, PaletteSize, m);
    assert FetchMany(c, n).outputs == f.outputs + g.outputs;
    PaletteThenHue(f.outputs, g.outputs, c.hueSteps);
  }

  /** From palette index 0, the first 13 calls return the palette in order and later ones walk the hue. */
  lemma FetchFromStart(c: Cursor, n: nat)
    requires c.paletteIdx == 0
    ensures var f := FetchMany(c, n);
            && |f.outputs| == n
            && (forall i :: 0 <= i < n && i < PaletteSize ==> f.outputs[i] == FromPalette(Palette[i]))
            && (forall i :: PaletteSize <= i < n ==> f.outputs[i] == FromHue(c.hueSteps + i - PaletteSize + 1))
  {
    if n <= PaletteSize {
      FetchFromPalette(c, n);
    } else {
      FetchPastPalette(c, n);
    }
  }

  /**
   * After a reset, the first 13 calls return the palette in order and
   * every later call returns the next hue colour, one step further each time.
   */
  lemma FetchAfterReset(c: Cursor, n: nat)
    ensures var f := FetchMany(GetNextColor(c, Reset).cursor, n);
            && |f.outputs| == n
            && (forall i :: 0 <= i < n && i < PaletteSize ==> f.outputs[i] == FromPalette(Palette[i]))
            && (forall i :: PaletteSize <= i < n ==> f.outputs[i] == FromHue(i - PaletteSize + 1))
  {
    FetchFromStart(GetNextColor(c, Reset).cursor, n);
  }

  // ---------------------------------------------------------------------
  // RGB_HEX
  // ---------------------------------------------------------------------

  /**
   * The integer part of `RGB_HEX(hex)`: the three channel numerators, before
   * their division by 255, and the alpha of 1.
   */
  datatype HexChannels = HexChannels(red: bv32, green: bv32, blue: bv32, alpha: real)

  function RgbHex(hex: bv32): (c: HexChannels)
    ensures c.red < 0x100 && c.green < 0x100 && c.blue < 0x100
    ensures c.alpha == 1.0
  {
    HexChannels((hex & 0xFF0000) >> 16, (hex & 0x00FF00) >> 8, hex & 0x0000FF, 1.0)
  }

  /** The hex value `0xRRGGBB` with the given bytes. */
  function PackRgb(r: bv8, g: bv8, b: bv8): bv32 {
    ((r as bv32) << 16) | ((g as bv32) << 8) | (b as bv32)
  }

  /** Each channel is one byte of `hex`: red bits 16-23, green bits 8-15, blue bits 0-7. */
  lemma RgbHexBits(hex: bv32, k: bv32)
    requires k < 8
    ensures var c := RgbHex(hex);
            && (c.red >> k) & 1 == (hex >> (16 + k)) & 1
            && (c.green >> k) & 1 == (hex >> (8 + k)) & 1
            && (c.blue >> k) & 1 == (hex >> k) & 1
  {
  }

  /** `RGB_HEX` takes `0xRRGGBB` apart into the bytes it was made from. */
  lemma RgbHexOfPack(r: bv8, g: bv8, b: bv8)
    ensures RgbHex(PackRgb(r, g, b)) == HexChannels(r as bv32, g as bv32, b as bv32, 1.0)
  {
  }

  /** Packing the channels again gives back `hex` without its top byte, which `RGB_HEX` ignores. */
  lemma PackOfRgbHex(hex: bv32)
    ensures var c := RgbHex(hex);
            PackRgb(c.red as bv8, c.green as bv8, c.blue as bv8) == hex & 0xFFFFFF
  {
  }
}
