/** The palette editor (app/composables/usePalette.ts): hex conversions, the
    preset table and the editing operations on the working palette and the
    saved custom palettes. */
module PaletteEditor {
  import opened Wrappers
  import opened Text
  import opened Pixels

  datatype PaletteColor = PaletteColor(hex: string)

  datatype CustomPalette = CustomPalette(name: string, colors: seq<PaletteColor>)

  datatype PresetPalette = PresetPalette(name: string, value: string, colors: seq<PaletteColor>)

  // ---------------------------------------------------------------------------
  // Hex conversions

  predicate AllHexDigits(s: string) {
    forall k :: 0 <= k < |s| ==> IsHexDigit(s[k])
  }

  /** The strings /^#?([a-f\d]{2})([a-f\d]{2})([a-f\d]{2})$/i matches: six hex
      digits of either case, optionally after one '#'. */
  predicate IsHexColor(s: string) {
    || (|s| == 6 && AllHexDigits(s))
    || (|s| == 7 && s[0] == '#' && AllHexDigits(s[1..]))
  }

  /** The six digits of a hex colour, without the '#'. */
  function HexDigits(s: string): (d: string)
    requires IsHexColor(s)
    ensures |d| == 6 && AllHexDigits(d)
  {
    if |s| == 7 then s[1..] else s
  }

  /** parseInt(pair, 16) of a two-digit group. */
  function PairValue(pair: string): byte
    requires |pair| == 2 && AllHexDigits(pair)
  {
    (16 * DigitValue(pair[0]) + DigitValue(pair[1])) as byte
  }

  /** hexToRgb: the three channel values of a hex colour, None (null) for
      anything the pattern rejects. */
  function HexToRgb(hex: string): (rgb: Option<Color>)
    ensures rgb.Some? <==> IsHexColor(hex)
  {
    if IsHexColor(hex) then
      var d := HexDigits(hex);
      Some(Color(PairValue(d[0..2]), PairValue(d[2..4]), PairValue(d[4..6])))
    else
      None
  }

  /** rgbToHex: '#' and the hex form of 2^24 + (r << 16) + (g << 8) + b
      without its leading '1', i.e. two lower case digits per channel. */
  function RgbToHex(c: Color): (hex: string)
    ensures hex == "#" + HexPair(c.r as nat) + HexPair(c.g as nat) + HexPair(c.b as nat)
    ensures |hex| == 7 && IsHexColor(hex)
    ensures forall k :: 1 <= k < 7 ==> !('A' <= hex[k] <= 'F')
  {
    RgbToHexDigits(c);
    "#" + ToRadixString(0x100_0000 + c.r as nat * 0x1_0000 + c.g as nat * 0x100 + c.b as nat, 16)[1..]
  }

  lemma RgbToHexDigits(c: Color)
    ensures ToRadixString(0x100_0000 + c.r as nat * 0x1_0000 + c.g as nat * 0x100 + c.b as nat, 16)
            == "1" + HexPair(c.r as nat) + HexPair(c.g as nat) + HexPair(c.b as nat)
  {
    var r, g, b := c.r as nat, c.g as nat, c.b as nat;
    var n1 := 1 * 0x100 + r;
    var n2 := n1 * 0x100 + g;
    var n3 := n2 * 0x100 + b;
    assert ToRadixString(1, 16) == "1";
    HexAppendByte(1, r);
    assert ToRadixString(n1, 16) == "1" + HexPair(r);
    HexAppendByte(n1, g);
    assert ToRadixString(n2, 16) == "1" + HexPair(r) + HexPair(g);
    HexAppendByte(n2, b);
    assert n3 == 0x100_0000 + r * 0x1_0000 + g * 0x100 + b;
  }

  lemma PairValueOfHexPair(x: byte)
    ensures PairValue(HexPair(x as nat)) == x
  {
  }

  /** Every colour survives the trip through its hex form. */
  lemma HexRoundTrip(c: Color)
    ensures HexToRgb(RgbToHex(c)) == Some(c)
  {
    var hex := RgbToHex(c);
    var d := HexDigits(hex);
    assert d == HexPair(c.r as nat) + HexPair(c.g as nat) + HexPair(c.b as nat);
    assert d[0..2] == HexPair(c.r as nat);
    assert d[2..4] == HexPair(c.g as nat);
    assert d[4..6] == HexPair(c.b as nat);
    PairValueOfHexPair(c.r);
    PairValueOfHexPair(c.g);
    PairValueOfHexPair(c.b);
  }

  /** The lower case form of a string of hex digits. */
  function LowerHex(s: string): (l: string)
    requires AllHexDigits(s)
    ensures |l| == |s|
  {
    seq(|s|, k requires 0 <= k < |s| => DigitChar(DigitValue(s[k])))
  }

  /** Going the other way, a hex colour comes back with a '#' and in lower
      case, and is otherwise unchanged. */
  lemma HexNormalises(hex: string)
    requires IsHexColor(hex)
    ensures RgbToHex(HexToRgb(hex).value) == "#" + LowerHex(HexDigits(hex))
  {
    var d := HexDigits(hex);
    var c := HexToRgb(hex).value;
    PairDigits(d[0..2]);
    PairDigits(d[2..4]);
    PairDigits(d[4..6]);
    assert HexPair(c.r as nat) + HexPair(c.g as nat) + HexPair(c.b as nat) == LowerHex(d);
  }

  lemma PairDigits(pair: string)
    requires |pair| == 2 && AllHexDigits(pair)
    ensures HexPair(PairValue(pair) as nat) == LowerHex(pair)
  {
    var v := PairValue(pair) as nat;
    assert v / 16 == DigitValue(pair[0]) && v % 16 == DigitValue(pair[1]);
  }

  // ---------------------------------------------------------------------------
  // paletteAsRgb and setPaletteFromRgb

  /** paletteAsRgb: the hexToRgb results of the colours whose hex is valid,
      in palette order. */
  function PaletteAsRgb(p: seq<PaletteColor>): (rgb: seq<Color>)
    ensures |rgb| <= |p|
    ensures forall c :: c in rgb ==> exists i :: 0 <= i < |p| && HexToRgb(p[i].hex) == Some(c)
  {
    if |p| == 0 then []
    else
      var rest := PaletteAsRgb(p[1..]);
      assert forall c :: c in rest ==> exists i :: 0 <= i < |p| && HexToRgb(p[i].hex) == Some(c) by {
        forall c | c in rest
          ensures exists i :: 0 <= i < |p| && HexToRgb(p[i].hex) == Some(c)
        {
          var j :| 0 <= j < |p[1..]| && HexToRgb(p[1..][j].hex) == Some(c);
          assert HexToRgb(p[j + 1].hex) == Some(c);
        }
      }
      match HexToRgb(p[0].hex)
      case Some(c) => [c] + rest
      case None => rest
  }

  /** When every hex is valid nothing is dropped: entry i is the value of
      colour i. */
  lemma {:induction false} PaletteAsRgbAllValid(p: seq<PaletteColor>)
    requires forall i :: 0 <= i < |p| ==> IsHexColor(p[i].hex)
    ensures |PaletteAsRgb(p)| == |p|
    ensures forall i :: 0 <= i < |p| ==> Some(PaletteAsRgb(p)[i]) == HexToRgb(p[i].hex)
  {
    if |p| > 0 {
      PaletteAsRgbAllValid(p[1..]);
    }
  }

  /** A colour's channel i of an RGB array, `rgb[i] ?? 0`. */
  function ChannelOrZero(rgb: seq<byte>, i: nat): byte {
    if i < |rgb| then rgb[i] else 0
  }

  function ColorOfRgb(rgb: seq<byte>): Color {
    Color(ChannelOrZero(rgb, 0), ChannelOrZero(rgb, 1), ChannelOrZero(rgb, 2))
  }

  /** The palette setPaletteFromRgb builds. */
  function FromRgb(rgbPalette: seq<seq<byte>>): (p: seq<PaletteColor>)
    ensures |p| == |rgbPalette|
    ensures forall i :: 0 <= i < |p| ==> IsHexColor(p[i].hex)
  {
    seq(|rgbPalette|, i requires 0 <= i < |rgbPalette| => PaletteColor(RgbToHex(ColorOfRgb(rgbPalette[i]))))
  }

  /** Reading a palette set from RGB arrays gives back those colours, with a
      missing channel read as 0 and extra entries ignored. */
  lemma FromRgbRoundTrip(rgbPalette: seq<seq<byte>>)
    ensures PaletteAsRgb(FromRgb(rgbPalette)) == seq(|rgbPalette|, i requires 0 <= i < |rgbPalette| => ColorOfRgb(rgbPalette[i]))
  {
    var p := FromRgb(rgbPalette);
    PaletteAsRgbAllValid(p);
    forall i | 0 <= i < |p|
      ensures PaletteAsRgb(p)[i] == ColorOfRgb(rgbPalette[i])
    {
      HexRoundTrip(ColorOfRgb(rgbPalette[i]));
    }
  }

  // ---------------------------------------------------------------------------
  // Presets

  const PresetPalettes: seq<PresetPalette> := [
    PresetPalette("Black & White", "blackwhite", [PaletteColor("#ffffff"), PaletteColor("#000000")]),
    PresetPalette("Red Monochrome", "redmono", [PaletteColor("#ffe3db"), PaletteColor("#4f1403")]),
    PresetPalette("Green Monochrome", "greenmono", [PaletteColor("#eeffdb"), PaletteColor("#1d3801")]),
    PresetPalette("Blue Monochrome", "bluemono", [PaletteColor("#dbf9ff"), PaletteColor("#02474f")]),
    PresetPalette("Yellow Monochrome", "yellowmono", [PaletteColor("#fffedb"), PaletteColor("#303001")]),
    PresetPalette("Red", "red",
      [PaletteColor("#ffffff"), PaletteColor("#f46842"), PaletteColor("#aa2f0d"), PaletteColor("#000000")]),
    PresetPalette("Green", "green",
      [PaletteColor("#ffffff"), PaletteColor("#c4f441"), PaletteColor("#6da90c"), PaletteColor("#000000")]),
    PresetPalette("Blue", "blue",
      [PaletteColor("#ffffff"), PaletteColor("#41e2f4"), PaletteColor("#0c9fa9"), PaletteColor("#000000")]),
    PresetPalette("Yellow", "yellow",
      [PaletteColor("#ffffff"), PaletteColor("#f4eb41"), PaletteColor("#a9a40c"), PaletteColor("#000000")]),
    PresetPalette("CMYK", "cmyk",
      [PaletteColor("#000000"), PaletteColor("#ffff00"), PaletteColor("#00FFFF"), PaletteColor("#FF00FF"),
       PaletteColor("#FFFFFF")]),
    PresetPalette("RGBY", "rgby",
      [PaletteColor("#FF0000"), PaletteColor("#00FF00"), PaletteColor("#0000FF"), PaletteColor("#FFFF00")]),
    PresetPalette("Game Boy DMG-01", "gameboy",
      [PaletteColor("#CADC9F"), PaletteColor("#0F380F"), PaletteColor("#306230"), PaletteColor("#8BAC0F"),
       PaletteColor("#9BBC0F")]),
    PresetPalette("Purple & Green", "purplegreen", [PaletteColor("#76C066"), PaletteColor("#AD2BBB")]),
    PresetPalette("Yellow & Red", "yellowred", [PaletteColor("#FFEE2C"), PaletteColor("#E20023")]),
    PresetPalette("Blue & Yellow", "blueyellow", [PaletteColor("#134E87"), PaletteColor("#FFF585")]),
    PresetPalette("Black White Red", "bwr", [PaletteColor("#FFFFFF"), PaletteColor("#000000"), PaletteColor("#FF0000")])
  ]

  /** PRESET_PALETTES.find(p => p.value === value). */
  function FindPreset(presets: seq<PresetPalette>, value: string): (r: Option<PresetPalette>)
    ensures r.Some? ==> r.value in presets && r.value.value == value
    ensures r.None? <==> forall i :: 0 <= i < |presets| ==> presets[i].value != value
  {
    if |presets| == 0 then None
    else if presets[0].value == value then Some(presets[0])
    else
      var r := FindPreset(presets[1..], value);
      assert forall i :: 1 <= i < |presets| ==> presets[i] == presets[1..][i - 1];
      r
  }

  /** The colours selectPreset(value) loads, or None when it keeps the
      current ones: the original palette, a saved palette `custom-<n>`
      (the suffix read by parseInt) or a preset found by value. What it
      loads is always one of those three kinds of palette, and "original"
      always loads. */
  function PresetColors(value: string, original: seq<PaletteColor>, customs: seq<CustomPalette>): (r: Option<seq<PaletteColor>>)
    ensures value == "original" ==> r == Some(original)
    ensures r.Some? ==>
      || r.value == original
      || (exists i :: 0 <= i < |customs| && r.value == customs[i].colors)
      || (exists i :: 0 <= i < |PresetPalettes| && r.value == PresetPalettes[i].colors)
  {
    if value == "original" then Some(original)
    else if StartsWith(value, "custom-") then
      match ParseInt(value[|"custom-"|..])
      case Some(index) =>
        if 0 <= index < |customs| then Some(customs[index].colors) else None
      case None => None
    else
      match FindPreset(PresetPalettes, value)
      case Some(preset) => Some(preset.colors)
      case None => None
  }

  /** The name saveCurrentPalette gives the palette it stores at index n
      selects exactly that palette again. */
  lemma SelectSavedPalette(n: nat, original: seq<PaletteColor>, customs: seq<CustomPalette>)
    requires n < |customs|
    ensures PresetColors("custom-" + Decimal(n), original, customs) == Some(customs[n].colors)
  {
    var value := "custom-" + Decimal(n);
    assert value[|"custom-"|..] == Decimal(n);
    assert value[..|"custom-"|] == "custom-";
    CustomIsNotOriginal(value);
    ParseIntDecimal(n);
  }

  /** A name that does not parse to a saved palette's index selects nothing:
      the working palette is kept. */
  lemma SelectUnknownCustom(value: string, original: seq<PaletteColor>, customs: seq<CustomPalette>)
    requires StartsWith(value, "custom-")
    requires match ParseInt(value[|"custom-"|..])
             case Some(index) => !(0 <= index < |customs|)
             case None => true
    ensures PresetColors(value, original, customs) == None
  {
    CustomIsNotOriginal(value);
  }

  lemma CustomIsNotOriginal(value: string)
    requires StartsWith(value, "custom-")
    ensures value != "original"
  {
    assert value[0] == "custom-"[0] != "original"[0];
  }

  /** Every preset loads its own colours: the values are distinct, none is
      "original" and none starts with "custom-". */
  lemma SelectPresetLoadsIt(i: nat, original: seq<PaletteColor>, customs: seq<CustomPalette>)
    requires i < |PresetPalettes|
    ensures PresetColors(PresetPalettes[i].value, original, customs) == Some(PresetPalettes[i].colors)
  {
    PresetValuesDistinct();
    PresetValuesReserved();
    FindFirst(PresetPalettes, i);
  }

  lemma PresetValuesDistinct()
    ensures forall i, j :: 0 <= j < i < |PresetPalettes| ==> PresetPalettes[j].value != PresetPalettes[i].value
  {
  }

  lemma PresetValuesReserved()
    ensures forall i :: 0 <= i < |PresetPalettes| ==>
      PresetPalettes[i].value != "original" && !StartsWith(PresetPalettes[i].value, "custom-")
  {
    forall i | 0 <= i < |PresetPalettes|
      ensures PresetPalettes[i].value != "original" && !StartsWith(PresetPalettes[i].value, "custom-")
    {
      var v := PresetPalettes[i].value;
      assert |v| > 0 && v[0] != 'o' && (|v| < 7 || v[0] != 'c');
    }
  }

  lemma FindFirst(presets: seq<PresetPalette>, i: nat)
    requires i < |presets|
    requires forall j :: 0 <= j < i ==> presets[j].value != presets[i].value
    ensures FindPreset(presets, presets[i].value) == Some(presets[i])
  {
    if i > 0 {
      FindFirst(presets[1..], i - 1);
    }
  }

  // ---------------------------------------------------------------------------
  // importFromJson, over an already parsed value

  /** The shapes JSON.parse can produce. */
  datatype Json =
    | JNull
    | JBool(b: bool)
    | JNumber(n: int)
    | JString(s: string)
    | JArray(items: seq<Json>)
    | JObject(fields: map<string, Json>)

  /** typeof c === 'object' && c !== null && 'hex' in c && typeof c.hex === 'string'. */
  predicate IsColorEntry(c: Json) {
    c.JObject? && "hex" in c.fields && c.fields["hex"].JString?
  }

  /** The value importFromJson accepts: an array whose every entry is a colour
      entry. The hex strings themselves are not checked. */
  predicate IsPaletteJson(parsed: Json) {
    parsed.JArray? && forall i :: 0 <= i < |parsed.items| ==> IsColorEntry(parsed.items[i])
  }

  function ImportedColors(parsed: Json): (p: seq<PaletteColor>)
    requires IsPaletteJson(parsed)
    ensures |p| == |parsed.items|
  {
    seq(|parsed.items|, i requires 0 <= i < |parsed.items| => PaletteColor(parsed.items[i].fields["hex"].s))
  }

  // ---------------------------------------------------------------------------
  // The editor state

  class Editor {
    var paletteColors: seq<PaletteColor>
    var originalPalette: seq<PaletteColor>
    var customPalettes: seq<CustomPalette>
    var selectedPreset: string

    constructor()
      ensures paletteColors == [] && originalPalette == [] && customPalettes == []
      ensures selectedPreset == "original"
    {
      paletteColors := [];
      originalPalette := [];
      customPalettes := [];
      selectedPreset := "original";
    }

    /** setPaletteFromRgb: the working palette becomes the hex forms of the
        given colours; while the original palette is empty, the palette set
        this way also becomes the original. */
    method SetPaletteFromRgb(rgbPalette: seq<seq<byte>>)
      modifies this
      ensures paletteColors == FromRgb(rgbPalette)
      ensures originalPalette == if old(originalPalette) == [] then paletteColors else old(originalPalette)
      ensures customPalettes == old(customPalettes) && selectedPreset == old(selectedPreset)
    {
      paletteColors := FromRgb(rgbPalette);
      if |originalPalette| == 0 {
        originalPalette := paletteColors;
      }
    }

    /** setColorAt: an index inside the palette replaces that colour and
        marks the palette as edited; any other index changes nothing. */
    method SetColorAt(index: int, hex: string)
      modifies this
      ensures if 0 <= index < |old(paletteColors)| then
                && paletteColors == old(paletteColors)[index := PaletteColor(hex)]
                && selectedPreset == "custom"
              else
                paletteColors == old(paletteColors) && selectedPreset == old(selectedPreset)
      ensures originalPalette == old(originalPalette) && customPalettes == old(customPalettes)
    {
      if index >= 0 && index < |paletteColors| {
        paletteColors := paletteColors[index := PaletteColor(hex)];
        selectedPreset := "custom";
      }
    }

    /** addColor(hex = '#ffffff'): appends one colour; None stands for the
        omitted argument. */
    method AddColor(hex: Option<string>)
      modifies this
      ensures paletteColors == old(paletteColors) + [PaletteColor(if hex.Some? then hex.value else "#ffffff")]
      ensures selectedPreset == "custom"
      ensures originalPalette == old(originalPalette) && customPalettes == old(customPalettes)
    {
      var h := if hex.Some? then hex.value else "#ffffff";
      paletteColors := paletteColors + [PaletteColor(h)];
      selectedPreset := "custom";
    }

    /** removeColor: removes the colour at a valid index, but only while the
        palette has more than two colours, so it never drops below two. */
    method RemoveColor(index: int)
      modifies this
      ensures if |old(paletteColors)| > 2 && 0 <= index < |old(paletteColors)| then
                && paletteColors == old(paletteColors)[..index] + old(paletteColors)[index + 1..]
                && selectedPreset == "custom"
              else
                paletteColors == old(paletteColors) && selectedPreset == old(selectedPreset)
      ensures |paletteColors| >= 2 || paletteColors == old(paletteColors)
      ensures originalPalette == old(originalPalette) && customPalettes == old(customPalettes)
    {
      if |paletteColors| > 2 && index >= 0 && index < |paletteColors| {
        paletteColors := paletteColors[..index] + paletteColors[index + 1..];
        selectedPreset := "custom";
      }
    }

    /** selectPreset: records the selection and loads the colours it names,
        if it names any. */
    method SelectPreset(value: string)
      modifies this
      ensures selectedPreset == value
      ensures paletteColors == match PresetColors(value, old(originalPalette), old(customPalettes))
                               case Some(colors) => colors
                               case None => old(paletteColors)
      ensures originalPalette == old(originalPalette) && customPalettes == old(customPalettes)
    {
      selectedPreset := value;
      if value == "original" {
        paletteColors := originalPalette;
      } else if StartsWith(value, "custom-") {
        var index := ParseInt(value[|"custom-"|..]);
        if index.Some? && 0 <= index.value < |customPalettes| {
          paletteColors := customPalettes[index.value].colors;
        }
      } else {
        var preset := FindPreset(PresetPalettes, value);
        if preset.Some? {
          paletteColors := preset.value.colors;
        }
      }
    }

    /** saveCurrentPalette: a blank name is refused; otherwise a copy of the
        working palette is stored under the trimmed name and selected. */
    method SaveCurrentPalette(name: string) returns (saved: bool)
      modifies this
      ensures saved <==> Trim(name) != ""
      ensures !saved ==> customPalettes == old(customPalettes) && selectedPreset == old(selectedPreset)
      ensures saved ==> customPalettes == old(customPalettes) + [CustomPalette(Trim(name), paletteColors)]
      ensures saved ==> selectedPreset == "custom-" + Decimal(|old(customPalettes)|)
      ensures saved ==> PresetColors(selectedPreset, originalPalette, customPalettes) == Some(paletteColors)
      ensures paletteColors == old(paletteColors) && originalPalette == old(originalPalette)
    {
      if Trim(name) == "" {
        return false;
      }
      customPalettes := customPalettes + [CustomPalette(Trim(name), paletteColors)];
      selectedPreset := "custom-" + Decimal(|customPalettes| - 1);
      SelectSavedPalette(|customPalettes| - 1, originalPalette, customPalettes);
      return true;
    }

    /** deleteCustomPalette: a valid index removes that saved palette and
        goes back to the original palette; any other index changes nothing. */
    method DeleteCustomPalette(index: int)
      modifies this
      ensures if 0 <= index < |old(customPalettes)| then
                && customPalettes == old(customPalettes)[..index] + old(customPalettes)[index + 1..]
                && selectedPreset == "original"
                && paletteColors == old(originalPalette)
              else
                && customPalettes == old(customPalettes)
                && selectedPreset == old(selectedPreset)
                && paletteColors == old(paletteColors)
      ensures originalPalette == old(originalPalette)
    {
      if index >= 0 && index < |customPalettes| {
        customPalettes := customPalettes[..index] + customPalettes[index + 1..];
        selectedPreset := "original";
        paletteColors := originalPalette;
      }
    }

    /** importFromJson after JSON.parse: None stands for a parse error. An
        array of colour entries replaces the palette; anything else is
        refused and changes nothing. */
    method ImportParsed(parsed: Option<Json>) returns (imported: bool)
      modifies this
      ensures imported <==> parsed.Some? && IsPaletteJson(parsed.value)
      ensures imported ==> paletteColors == ImportedColors(parsed.value) && selectedPreset == "custom"
      ensures !imported ==> paletteColors == old(paletteColors) && selectedPreset == old(selectedPreset)
      ensures originalPalette == old(originalPalette) && customPalettes == old(customPalettes)
    {
      if parsed.None? || !parsed.value.JArray? {
        return false;
      }
      var items := parsed.value.items;
      var valid := true;
      var i := 0;
      while i < |items|
        invariant 0 <= i <= |items|
        invariant valid <==> forall j :: 0 <= j < i ==> IsColorEntry(items[j])
      {
        valid := valid && IsColorEntry(items[i]);
        i := i + 1;
      }
      if !valid {
        return false;
      }
      paletteColors := ImportedColors(parsed.value);
      selectedPreset := "custom";
      return true;
    }
  }
}
