/**
 * `Look.Fonts` (Lux/Look/Look+Fonts.swift) and the `CodableFont` wrapper it
 * is encoded through (Lux/Look/Look+CodableHelpers.swift): three fonts, an
 * optional preferred priority, and the per-layout fonts derived from the
 * active one.
 */
module LookFonts {
  import opened Wrappers
  import opened CoreTypes
  import opened Json

  datatype Fonts = Fonts(preferred: Option<Priority>, primary: UIFont, secondary: UIFont, tertiary: UIFont)

  /** `Fonts()`: regular, bold and italic system fonts at the system size,
      with no preference, so the regular face is the active one. */
  function DefaultFonts(): (f: Fonts)
    ensures f.preferred.None? && FontsPriority(f) == Primary
    ensures Active(f) == SystemFont(SystemFontSize)
    ensures forall p :: FontAt(f, p).size == SystemFontSize && FontAt(f, p).descriptor.family == SystemFamily
    ensures forall p, q :: FontAt(f, p) == FontAt(f, q) ==> p == q
  {
    Fonts(None, SystemFont(SystemFontSize), BoldSystemFont(SystemFontSize), ItalicSystemFont(SystemFontSize))
  }

  /** `priority`: the preferred priority, primary when there is none. */
  function FontsPriority(f: Fonts): (p: Priority)
    ensures f.preferred.Some? ==> p == f.preferred.value
    ensures f.preferred.None? ==> p == Primary
  {
    f.preferred.GetOr(Primary)
  }

  /** The font stored under a priority. */
  function FontAt(f: Fonts, p: Priority): UIFont {
    match p
    case Primary => f.primary
    case Secondary => f.secondary
    case Tertiary => f.tertiary
  }

  /** `active`: the font of the current priority. */
  function Active(f: Fonts): (r: UIFont)
    ensures r == FontAt(f, FontsPriority(f))
  {
    match FontsPriority(f)
    case Primary => f.primary
    case Secondary => f.secondary
    case Tertiary => f.tertiary
  }

  /** `specName`: "A", "B" or "C" for the priority. */
  function FontsSpecName(f: Fonts): (r: string)
    ensures r == PrioritySpecName(FontsPriority(f), false)
  {
    match FontsPriority(f)
    case Primary => "A"
    case Secondary => "B"
    case Tertiary => "C"
  }

  /** The eight size slots of `Fonts`; `title` and `caption` ask for `title1` and `caption1`. */
  datatype SizeSlot = LargeTitleSize | TitleSize | HeadlineSize | SubheadlineSize
                    | BodySize | CalloutSize | FootnoteSize | CaptionSize

  function SlotStyle(s: SizeSlot): TextStyle {
    match s
    case LargeTitleSize => LargeTitle
    case TitleSize => Title1
    case HeadlineSize => Headline
    case SubheadlineSize => Subheadline
    case BodySize => Body
    case CalloutSize => Callout
    case FootnoteSize => Footnote
    case CaptionSize => Caption1
  }

  /** `largeTitleUIFont` … `captionUIFont`: the active font at the size the
      system gives the slot's text style (`Font.textSize`, a parameter). */
  function SlotUIFont(f: Fonts, s: SizeSlot, textSize: TextStyle -> real): (r: UIFont)
    ensures r.descriptor == Active(f).descriptor
    ensures r.size == textSize(SlotStyle(s))
  {
    WithSize(Active(f), textSize(SlotStyle(s)))
  }

  /** Any two per-layout fonts differ at most in their size. */
  lemma SlotUIFontsShareFace(f: Fonts, s: SizeSlot, s': SizeSlot, textSize: TextStyle -> real)
    ensures SlotUIFont(f, s, textSize).descriptor == SlotUIFont(f, s', textSize).descriptor
    ensures textSize(SlotStyle(s)) == textSize(SlotStyle(s')) ==> SlotUIFont(f, s, textSize) == SlotUIFont(f, s', textSize)
  {
  }

  // ---------------------------------------------------------------------
  // CodableFont
  // ---------------------------------------------------------------------

  /** `CodableFont(font)`: the archived descriptor, the point size and the family name. */
  function EncodeCodableFont(font: UIFont): (j: Json)
    ensures j.JObj? && j.fields.Keys == {FontKey(FontDescriptorData), FontKey(FontSize), FontKey(FontName)}
  {
    JObj(map[FontKey(FontDescriptorData) := JData(KeyedArchive(font.descriptor)),
             FontKey(FontSize) := JNum(font.size),
             FontKey(FontName) := JStr(font.descriptor.family)])
  }

  /** `UIFont(name:size:)`, standing for the named family's default face. */
  function NamedFont(name: string, size: real): UIFont {
    UIFont(FontDescriptor(name, ""), size)
  }

  /** `CodableFont(from:)` then `.font`: all three keys are required; a
      descriptor that does not unarchive falls back to the family name. */
  function DecodeCodableFont(j: Json): (r: Option<UIFont>)
    ensures r.Some? ==> j.JObj? && {FontKey(FontDescriptorData), FontKey(FontSize), FontKey(FontName)} <= j.fields.Keys
    ensures r.Some? ==> j.fields[FontKey(FontSize)] == JNum(r.value.size)
  {
    var d :- Member(j, FontKey(FontDescriptorData));
    var data :- AsData(d);
    var s :- Member(j, FontKey(FontSize));
    var size :- AsReal(s);
    var n :- Member(j, FontKey(FontName));
    var name :- AsString(n);
    match Unarchive(data)
    case Some(descriptor) => Some(UIFont(descriptor, size))
    case None => Some(NamedFont(name, size))
  }

  lemma DecodeEncodeCodableFont(font: UIFont)
    ensures DecodeCodableFont(EncodeCodableFont(font)) == Some(font)
  {
  }

  // ---------------------------------------------------------------------
  // Fonts: Codable
  // ---------------------------------------------------------------------

  /** `encode(to:)`: `preferred` (written as `null` when nil) and the three fonts. */
  function EncodeFonts(f: Fonts): (j: Json)
    ensures j.JObj? && j.fields.Keys == {FontsKey(FontsPreferred), FontsKey(FontsPrimary), FontsKey(FontsSecondary), FontsKey(FontsTertiary)}
    ensures j.fields[FontsKey(FontsPreferred)].JNull? <==> f.preferred.None?
  {
    JObj(map[FontsKey(FontsPreferred) := EncodeOptionalPriority(f.preferred),
             FontsKey(FontsPrimary) := EncodeCodableFont(f.primary),
             FontsKey(FontsSecondary) := EncodeCodableFont(f.secondary),
             FontsKey(FontsTertiary) := EncodeCodableFont(f.tertiary)])
  }

  /** `init(from:)`: all four keys are required; `preferred` may be `null`. */
  function DecodeFonts(j: Json): (r: Option<Fonts>)
    ensures r.Some? ==> j.JObj? && {FontsKey(FontsPreferred), FontsKey(FontsPrimary), FontsKey(FontsSecondary), FontsKey(FontsTertiary)} <= j.fields.Keys
  {
    var p :- Member(j, FontsKey(FontsPreferred));
    var preferred :- DecodeOptionalPriority(p);
    var a :- Member(j, FontsKey(FontsPrimary));
    var primary :- DecodeCodableFont(a);
    var b :- Member(j, FontsKey(FontsSecondary));
    var secondary :- DecodeCodableFont(b);
    var c :- Member(j, FontsKey(FontsTertiary));
    var tertiary :- DecodeCodableFont(c);
    Some(Fonts(preferred, primary, secondary, tertiary))
  }

  /** Decoding what was encoded gives the same preference and the same three fonts. */
  lemma DecodeEncodeFonts(f: Fonts)
    ensures DecodeFonts(EncodeFonts(f)) == Some(f)
  {
    DecodeEncodeOptionalPriority(f.preferred);
    DecodeEncodeCodableFont(f.primary);
    DecodeEncodeCodableFont(f.secondary);
    DecodeEncodeCodableFont(f.tertiary);
  }
}
