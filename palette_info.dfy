/**
 * `Look.PaletteScheme` (Lux/Look/Look+PaletteInfo.swift): an optional
 * preferred priority and twenty-one named colours, encoded colour by colour
 * through `CodableColor` (Lux/Look/Look+CodableHelpers.swift), plus the
 * static helpers that pick a colour for a scheme or an interface style.
 */
module PaletteInfo {
  import opened Wrappers
  import opened CoreTypes
  import opened Json
  import Extensions

  /** A colour for every slot of the palette. */
  type Colors = m: imap<ColorSlot, Color> | forall s :: s in m
    witness AllClear()

  function AllClear(): (m: imap<ColorSlot, Color>)
    ensures forall s :: s in m && m[s] == Clear
  {
    imap s: ColorSlot :: ClearAt(s)
  }

  function ClearAt(s: ColorSlot): Color { Clear }

  datatype PaletteScheme = PaletteScheme(preferred: Option<Priority>, colors: Colors)

  /** The brand colours a new palette starts with (`Color(hex:)` of
      "39277F", "272F96" and "72248C"); the other slots start from system
      colours, which are a parameter here. */
  function DefaultPalette(system: Colors): (p: PaletteScheme)
    ensures p.preferred.None?
    ensures forall s :: s !in {PrimarySlot, SecondarySlot, TertiarySlot} ==> p.colors[s] == system[s]
  {
    PaletteScheme(None, system[PrimarySlot := Extensions.RgbColor(0x39277F)]
                              [SecondarySlot := Extensions.RgbColor(0x272F96)]
                              [TertiarySlot := Extensions.RgbColor(0x72248C)])
  }

  /** `priority`: the preferred priority, primary when there is none. */
  function PalettePriority(p: PaletteScheme): (r: Priority)
    ensures p.preferred.Some? ==> r == p.preferred.value
    ensures p.preferred.None? ==> r == Primary
  {
    p.preferred.GetOr(Primary)
  }

  /** `specName`: "1", "2" or "3" for the priority. */
  function PaletteSpecName(p: PaletteScheme): (r: string)
    ensures r == PrioritySpecName(PalettePriority(p), true)
  {
    match PalettePriority(p)
    case Primary => "1"
    case Secondary => "2"
    case Tertiary => "3"
  }

  /** `select(_:light:dark:)`, for `UIColor` and `Color` alike. */
  function Select(scheme: Scheme, light: Color, dark: Color): (r: Color)
    ensures scheme == Dark ==> r == dark
    ensures scheme == Light ==> r == light
  {
    if scheme == Dark then dark else light
  }

  /** `UITraitCollection.userInterfaceStyle`, including values UIKit may add later. */
  datatype InterfaceStyle = StyleLight | StyleDark | StyleUnspecified | StyleOther(raw: int)

  /** The colour a `semantic(light:dark:)` dynamic colour resolves to, for
      `UIColor` and `Color` alike. */
  function Semantic(light: Color, dark: Color, style: InterfaceStyle): (r: Color)
    ensures style == StyleDark ==> r == dark
    ensures style != StyleDark ==> r == light
  {
    match style
    case StyleLight => light
    case StyleDark => dark
    case StyleUnspecified => light
    case StyleOther(_) => light
  }

  /** Resolving `semantic` agrees with `select` when the dark style goes with the dark scheme. */
  lemma SemanticIsSelect(light: Color, dark: Color, style: InterfaceStyle)
    ensures Semantic(light, dark, style) == Select(if style == StyleDark then Dark else Light, light, dark)
  {
  }

  // ---------------------------------------------------------------------
  // CodableColor
  // ---------------------------------------------------------------------

  function EncodeColor(c: Color): (j: Json)
    ensures j.JObj? && j.fields.Keys == ComponentKeys()
  {
    JObj(map[ComponentKey(Red) := JNum(c.red), ComponentKey(Green) := JNum(c.green), ComponentKey(Blue) := JNum(c.blue), ComponentKey(Alpha) := JNum(c.alpha)])
  }

  function ComponentKeys(): set<Key> {
    {ComponentKey(Red), ComponentKey(Green), ComponentKey(Blue), ComponentKey(Alpha)}
  }

  /** The synthesized `CodableColor` decoder: all four components are
      required, and each must be a number. */
  function DecodeColor(j: Json): (r: Option<Color>)
    ensures r.Some? ==> j.JObj? && ComponentKeys() <= j.fields.Keys
  {
    var red :- Member(j, ComponentKey(Red));
    var r :- AsReal(red);
    var green :- Member(j, ComponentKey(Green));
    var g :- AsReal(green);
    var blue :- Member(j, ComponentKey(Blue));
    var b :- AsReal(blue);
    var alpha :- Member(j, ComponentKey(Alpha));
    var a :- AsReal(alpha);
    Some(Color(r, g, b, a))
  }

  lemma DecodeEncodeColor(c: Color)
    ensures DecodeColor(EncodeColor(c)) == Some(c)
  {
  }

  // ---------------------------------------------------------------------
  // PaletteScheme: Codable
  // ---------------------------------------------------------------------

  /** `encode(to:)`: `preferred` (null when nil) and one `CodableColor` per slot. */
  function EncodePalette(p: PaletteScheme): (j: Json)
    ensures j.JObj? && forall k :: k in j.fields ==> k.PaletteKey?
    ensures PaletteKey(PalettePreferred) in j.fields && forall s :: PaletteKey(PaletteColor(s)) in j.fields
    ensures j.fields[PaletteKey(PalettePreferred)] == EncodeOptionalPriority(p.preferred)
    ensures forall s :: j.fields[PaletteKey(PaletteColor(s))] == EncodeColor(p.colors[s])
  {
    JObj((map s: ColorSlot | true :: PaletteKey(PaletteColor(s)) := EncodeColor(p.colors[s]))
           [PaletteKey(PalettePreferred) := EncodeOptionalPriority(p.preferred)])
  }

  /** Every slot's key must hold a colour that decodes. */
  predicate AllColorsDecode(fields: map<Key, Json>) {
    forall s: ColorSlot :: PaletteKey(PaletteColor(s)) in fields && DecodeColor(fields[PaletteKey(PaletteColor(s))]).Some?
  }

  /** `init(from:)`: `preferred` and every colour are required. */
  function DecodePalette(j: Json): (r: Option<PaletteScheme>)
    ensures r.Some? ==> j.JObj? && PaletteKey(PalettePreferred) in j.fields
    ensures r.Some? ==> forall s :: PaletteKey(PaletteColor(s)) in j.fields
  {
    var p :- Member(j, PaletteKey(PalettePreferred));
    var preferred :- DecodeOptionalPriority(p);
    if !AllColorsDecode(j.fields) then None
    else
      Some(PaletteScheme(preferred, DecodedColors(j.fields)))
  }

  function DecodedColors(fields: map<Key, Json>): (c: Colors)
    requires AllColorsDecode(fields)
    ensures forall s :: Some(c[s]) == DecodeColor(fields[PaletteKey(PaletteColor(s))])
  {
    imap s: ColorSlot | true :: DecodeColor(fields[PaletteKey(PaletteColor(s))]).value
  }

  /** Two palettes' colours are equal when they agree on every slot. */
  lemma ColorsEqual(a: Colors, b: Colors)
    requires forall s :: a[s] == b[s]
    ensures a == b
  {
    assert a.Keys == b.Keys;
  }

  /** Fields holding the encoding of every colour decode, slot by slot, to those colours. */
  lemma EncodedColorsDecode(fields: map<Key, Json>, colors: Colors)
    requires forall s :: PaletteKey(PaletteColor(s)) in fields && fields[PaletteKey(PaletteColor(s))] == EncodeColor(colors[s])
    ensures forall s :: PaletteKey(PaletteColor(s)) in fields && DecodeColor(fields[PaletteKey(PaletteColor(s))]) == Some(colors[s])
  {
    forall s: ColorSlot
      ensures DecodeColor(fields[PaletteKey(PaletteColor(s))]) == Some(colors[s])
    {
      DecodeEncodeColor(colors[s]);
    }
  }

  /** Fields holding the encoding of every colour decode to those colours. */
  lemma DecodeEncodedColors(fields: map<Key, Json>, colors: Colors)
    requires forall s :: PaletteKey(PaletteColor(s)) in fields && fields[PaletteKey(PaletteColor(s))] == EncodeColor(colors[s])
    ensures AllColorsDecode(fields)
    ensures DecodedColors(fields) == colors
  {
    EncodedColorsDecode(fields, colors);
    ColorsEqual(DecodedColors(fields), colors);
  }

  /** An object holding a palette's encoded preference and colours decodes to that palette. */
  lemma DecodePaletteFields(j: Json, p: PaletteScheme)
    requires j.JObj? && PaletteKey(PalettePreferred) in j.fields
    requires j.fields[PaletteKey(PalettePreferred)] == EncodeOptionalPriority(p.preferred)
    requires forall s :: PaletteKey(PaletteColor(s)) in j.fields && j.fields[PaletteKey(PaletteColor(s))] == EncodeColor(p.colors[s])
    ensures DecodePalette(j) == Some(p)
  {
    assert Member(j, PaletteKey(PalettePreferred)) == Some(EncodeOptionalPriority(p.preferred));
    DecodeEncodeOptionalPriority(p.preferred);
    DecodeEncodedColors(j.fields, p.colors);
    assert AllColorsDecode(j.fields) && DecodedColors(j.fields) == p.colors;
  }

  lemma DecodeEncodePalette(p: PaletteScheme)
    ensures DecodePalette(EncodePalette(p)) == Some(p)
  {
    DecodePaletteFields(EncodePalette(p), p);
  }
}
