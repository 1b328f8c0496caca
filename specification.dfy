/**
 * `Look.Specification` (Lux/Look/Look+Effects.swift): the palette, the fonts
 * and seven effect values that make up one colour scheme of a look.  The
 * effect values and the texture are floating-point settings that Lux only
 * stores, encodes and reads back; they are kept here as the documents they
 * encode to.
 */
module Specs {
  import opened Wrappers
  import opened CoreTypes
  import opened Json
  import opened LookFonts
  import opened PaletteInfo

  /** An `EffectValue` or a `Texture`, as the document it encodes to. */
  datatype Effect = Effect(doc: Json)

  datatype Specification = Specification(
    texture: Effect,
    color: PaletteScheme,
    font: Fonts,
    tint: Effect,
    fill: Effect,
    elevation: Effect,
    cornerRadius: Effect,
    padding: Effect,
    shadow: Effect)

  /** What the synthesized encoder writes under each of the specification's
      keys, given the encoded palette and fonts. */
  function EncodedField(s: Specification, palette: Json, fonts: Json, f: SpecField): Json {
    match f
    case TextureField => s.texture.doc
    case ColorField => palette
    case FontField => fonts
    case TintField => s.tint.doc
    case FillField => s.fill.doc
    case ElevationField => s.elevation.doc
    case CornerRadiusField => s.cornerRadius.doc
    case PaddingField => s.padding.doc
    case ShadowField => s.shadow.doc
  }

  /** The specification's object around an already encoded palette and fonts. */
  function EncodeWithParts(s: Specification, palette: Json, fonts: Json): (j: Json)
    ensures j.JObj? && forall k :: k in j.fields <==> k.SpecKey?
    ensures forall f :: j.fields[SpecKey(f)] == EncodedField(s, palette, fonts, f)
  {
    JObj(map f: SpecField | true :: SpecKey(f) := EncodedField(s, palette, fonts, f))
  }

  /** The synthesized encoder: one key per stored property. */
  function EncodeSpecification(s: Specification): (j: Json)
    ensures j == EncodeWithParts(s, EncodePalette(s.color), EncodeFonts(s.font))
  {
    EncodeWithParts(s, EncodePalette(s.color), EncodeFonts(s.font))
  }

  /** The synthesized decoder: every key is required. */
  function DecodeSpecification(j: Json): (r: Option<Specification>)
    ensures r.Some? ==> j.JObj? && forall f: SpecField :: SpecKey(f) in j.fields
  {
    if !(j.JObj? && forall f: SpecField :: SpecKey(f) in j.fields) then None
    else
      var color :- DecodePalette(j.fields[SpecKey(ColorField)]);
      var font :- DecodeFonts(j.fields[SpecKey(FontField)]);
      Some(WithEffects(j.fields, color, font))
  }

  /** A specification with the given palette and fonts and the effects read from `fields`. */
  function WithEffects(fields: map<Key, Json>, color: PaletteScheme, font: Fonts): Specification
    requires forall f: SpecField :: SpecKey(f) in fields
  {
    Specification(Effect(fields[SpecKey(TextureField)]), color, font, Effect(fields[SpecKey(TintField)]),
                  Effect(fields[SpecKey(FillField)]), Effect(fields[SpecKey(ElevationField)]),
                  Effect(fields[SpecKey(CornerRadiusField)]), Effect(fields[SpecKey(PaddingField)]),
                  Effect(fields[SpecKey(ShadowField)]))
  }

  /** The effects of an encoded specification read back as they were. */
  lemma WithEncodedEffects(s: Specification, palette: Json, fonts: Json)
    ensures WithEffects(EncodeWithParts(s, palette, fonts).fields, s.color, s.font) == s
  {
    var f := EncodeWithParts(s, palette, fonts).fields;
    assert f[SpecKey(TextureField)] == s.texture.doc;
    assert f[SpecKey(TintField)] == s.tint.doc;
    assert f[SpecKey(FillField)] == s.fill.doc;
    assert f[SpecKey(ElevationField)] == s.elevation.doc;
    assert f[SpecKey(CornerRadiusField)] == s.cornerRadius.doc;
    assert f[SpecKey(PaddingField)] == s.padding.doc;
    assert f[SpecKey(ShadowField)] == s.shadow.doc;
  }

  /** The palette of an encoded specification reads back, whatever the fonts encode to. */
  lemma DecodeEncodedColor(s: Specification, fonts: Json)
    ensures DecodePalette(EncodeWithParts(s, EncodePalette(s.color), fonts).fields[SpecKey(ColorField)]) == Some(s.color)
  {
    DecodeEncodePalette(s.color);
  }

  /** The fonts of an encoded specification read back, whatever the palette encodes to. */
  lemma DecodeEncodedFont(s: Specification, palette: Json)
    ensures DecodeFonts(EncodeWithParts(s, palette, EncodeFonts(s.font)).fields[SpecKey(FontField)]) == Some(s.font)
  {
    DecodeEncodeFonts(s.font);
  }

  /** Decoding an encoded specification gives it back: the palette and the
      fonts through their own codecs, the effects as the documents they are. */
  lemma DecodeEncodeSpecification(s: Specification)
    ensures DecodeSpecification(EncodeSpecification(s)) == Some(s)
  {
    DecodeEncodedColor(s, EncodeFonts(s.font));
    DecodeEncodedFont(s, EncodePalette(s.color));
    WithEncodedEffects(s, EncodePalette(s.color), EncodeFonts(s.font));
  }
}
