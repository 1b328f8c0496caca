/**
 * The small value types every other part of Lux is built from: surfaces,
 * priorities, font mixes, elevations, colour schemes, text-style layouts and
 * edge sets (Lux/Core/CoreTypes.swift, with `Look.Scheme` and the
 * `UIFont.TextStyle` values that `Look.Layout` aliases).
 */
module CoreTypes {

  // ---------------------------------------------------------------------
  // Text helpers shared by the display names
  // ---------------------------------------------------------------------

  predicate IsAsciiLower(c: char) { 'a' <= c <= 'z' }
  predicate IsAsciiUpper(c: char) { 'A' <= c <= 'Z' }
  predicate IsAsciiDigit(c: char) { '0' <= c <= '9' }

  function ToUpper(c: char): char {
    if IsAsciiLower(c) then (c as int - 32) as char else c
  }

  function ToLower(c: char): char {
    if IsAsciiUpper(c) then (c as int + 32) as char else c
  }

  /** Foundation's `capitalized`: the first letter of every space-separated
      word in upper case, every other letter in lower case (ASCII letters). */
  function Capitalized(s: string): string {
    CapitalizedFrom(s, true)
  }

  function CapitalizedFrom(s: string, atWordStart: bool): string
    decreases |s|
  {
    if s == [] then []
    else if s[0] == ' ' then [' '] + CapitalizedFrom(s[1..], true)
    else [if atWordStart then ToUpper(s[0]) else ToLower(s[0])] + CapitalizedFrom(s[1..], false)
  }

  // ---------------------------------------------------------------------
  // Surface
  // ---------------------------------------------------------------------

  datatype Surface = Canvas | Normal | Accent | Active

  function SurfaceRawValue(s: Surface): (r: string)
    ensures |r| == 6
  {
    match s
    case Canvas => "canvas"
    case Normal => "normal"
    case Accent => "accent"
    case Active => "active"
  }

  /** `Surface.displayName`: the raw value, capitalised. */
  function SurfaceDisplayName(s: Surface): string {
    Capitalized(SurfaceRawValue(s))
  }

  /** A lower-case word is left as it is after its first letter. */
  lemma {:induction false} CapitalizedLowerTail(w: string)
    requires forall i :: 0 <= i < |w| ==> IsAsciiLower(w[i])
    ensures CapitalizedFrom(w, false) == w
  {
    if w != [] {
      CapitalizedLowerTail(w[1..]);
    }
  }

  /** Capitalising a non-empty lower-case word raises its first letter only. */
  lemma CapitalizedLowerWord(w: string)
    requires w != []
    requires forall i :: 0 <= i < |w| ==> IsAsciiLower(w[i])
    ensures Capitalized(w) == [ToUpper(w[0])] + w[1..]
    ensures IsAsciiUpper(Capitalized(w)[0])
  {
    CapitalizedLowerTail(w[1..]);
  }

  /** The display name is the raw value with its first letter raised. */
  lemma SurfaceDisplayNameOf(s: Surface)
    ensures |SurfaceDisplayName(s)| == |SurfaceRawValue(s)|
    ensures SurfaceDisplayName(s)[0] == ToUpper(SurfaceRawValue(s)[0])
    ensures SurfaceDisplayName(s)[1..] == SurfaceRawValue(s)[1..]
  {
    var raw := SurfaceRawValue(s);
    assert forall i :: 0 <= i < |raw| ==> IsAsciiLower(raw[i]) by {
      match s
      case Canvas =>
      case Normal =>
      case Accent =>
      case Active =>
    }
    CapitalizedLowerWord(raw);
  }

  /** Different surfaces have different display names. */
  lemma SurfaceDisplayNameInjective(s: Surface, s': Surface)
    ensures SurfaceDisplayName(s) == SurfaceDisplayName(s') <==> s == s'
  {
    SurfaceDisplayNameOf(s);
    SurfaceDisplayNameOf(s');
    if s != s' {
      assert SurfaceRawValue(s)[2] != SurfaceRawValue(s')[2] by {
        match s
        case Canvas =>
        case Normal =>
        case Accent =>
        case Active =>
      }
      assert SurfaceDisplayName(s)[2] == SurfaceDisplayName(s)[1..][1];
      assert SurfaceDisplayName(s')[2] == SurfaceDisplayName(s')[1..][1];
    }
  }

  // ---------------------------------------------------------------------
  // Priority
  // ---------------------------------------------------------------------

  datatype Priority = Primary | Secondary | Tertiary

  /** `Priority.specName(numeric:)`: a digit when `numeric`, a letter otherwise. */
  function PrioritySpecName(p: Priority, numeric: bool): (r: string)
    ensures |r| == 1
    ensures numeric <==> IsAsciiDigit(r[0])
    ensures !numeric ==> IsAsciiUpper(r[0])
    ensures r[0] as int - (if numeric then '1' else 'A') as int == PriorityIndex(p)
  {
    match p
    case Primary => if numeric then "1" else "A"
    case Secondary => if numeric then "2" else "B"
    case Tertiary => if numeric then "3" else "C"
  }

  /** Position of a priority in declaration order. */
  function PriorityIndex(p: Priority): nat {
    match p
    case Primary => 0
    case Secondary => 1
    case Tertiary => 2
  }

  lemma PrioritySpecNameInjective(p: Priority, q: Priority, numeric: bool, numeric': bool)
    requires PrioritySpecName(p, numeric) == PrioritySpecName(q, numeric')
    ensures p == q && numeric == numeric'
  {
    assert PrioritySpecName(p, numeric)[0] == PrioritySpecName(q, numeric')[0];
  }

  // ---------------------------------------------------------------------
  // Font mix, colour scheme
  // ---------------------------------------------------------------------

  datatype FontMix = ByPriority | Mixed

  datatype Scheme = Light | Dark

  function Opposite(s: Scheme): (r: Scheme)
    ensures r != s
  {
    if s == Light then Dark else Light
  }

  // ---------------------------------------------------------------------
  // Elevation
  // ---------------------------------------------------------------------

  datatype Elevation = Shadow | Below3x | Below2x | Below | Normal | Above | Above2x | Above3x | Highlight

  /** Position of an elevation in declaration order. */
  function ElevationIndex(e: Elevation): nat {
    match e
    case Shadow => 0
    case Below3x => 1
    case Below2x => 2
    case Below => 3
    case Normal => 4
    case Above => 5
    case Above2x => 6
    case Above3x => 7
    case Highlight => 8
  }

  /** `Elevation.value` (a CGFloat in the source; every case is a whole number). */
  function ElevationValue(e: Elevation): (v: int)
    ensures -4 <= v <= 4
    ensures v == ElevationIndex(e) - 4
  {
    match e
    case Shadow => -4
    case Below3x => -3
    case Below2x => -2
    case Below => -1
    case Normal => 0
    case Above => 1
    case Above2x => 2
    case Above3x => 3
    case Highlight => 4
  }

  /** `Elevation.complementary`: the mirror image around `normal`. */
  function ComplementaryElevation(e: Elevation): (r: Elevation)
    ensures ElevationValue(r) == -ElevationValue(e)
  {
    match e
    case Shadow => Highlight
    case Below3x => Above3x
    case Below2x => Above2x
    case Below => Above
    case Normal => Elevation.Normal
    case Above => Below
    case Above2x => Below2x
    case Above3x => Below3x
    case Highlight => Shadow
  }

  lemma ElevationValueInjective(a: Elevation, b: Elevation)
    ensures ElevationValue(a) == ElevationValue(b) <==> a == b
    ensures ElevationIndex(a) < ElevationIndex(b) <==> ElevationValue(a) < ElevationValue(b)
  {
    match a
    case Shadow =>
    case Below3x =>
    case Below2x =>
    case Below =>
    case Normal =>
    case Above =>
    case Above2x =>
    case Above3x =>
    case Highlight =>
  }

  lemma ComplementaryElevationInvolution(e: Elevation)
    ensures ComplementaryElevation(ComplementaryElevation(e)) == e
  {
    ElevationValueInjective(ComplementaryElevation(ComplementaryElevation(e)), e);
  }

  lemma ComplementaryElevationFixedPoint(e: Elevation)
    ensures ComplementaryElevation(e) == e <==> e == Elevation.Normal
  {
    ElevationValueInjective(ComplementaryElevation(e), e);
  }

  // ---------------------------------------------------------------------
  // Layout: `Look.Layout` is `UIFont.TextStyle`, a raw-value struct whose
  // equality is equality of raw values.  The known styles are constructors;
  // any other raw value is `Custom`, and a `Custom` never carries the raw
  // value of a known style, so two layouts are equal exactly when their raw
  // values are.
  // ---------------------------------------------------------------------

  datatype TextStyle =
    | LargeTitle | Title1 | Title2 | Title3 | Headline | Subheadline
    | Body | Callout | Footnote | Caption1 | Caption2
    | Custom(raw: string)

  function TextStyleRawValue(l: TextStyle): string {
    match l
    case LargeTitle => "UICTFontTextStyleTitle0"
    case Title1 => "UICTFontTextStyleTitle1"
    case Title2 => "UICTFontTextStyleTitle2"
    case Title3 => "UICTFontTextStyleTitle3"
    case Headline => "UICTFontTextStyleHeadline"
    case Subheadline => "UICTFontTextStyleSubhead"
    case Body => "UICTFontTextStyleBody"
    case Callout => "UICTFontTextStyleCallout"
    case Footnote => "UICTFontTextStyleFootnote"
    case Caption1 => "UICTFontTextStyleCaption1"
    case Caption2 => "UICTFontTextStyleCaption2"
    case Custom(raw) => raw
  }

  predicate IsKnownRaw(raw: string) {
    || raw == "UICTFontTextStyleTitle0"
    || raw == "UICTFontTextStyleTitle1"
    || raw == "UICTFontTextStyleTitle2"
    || raw == "UICTFontTextStyleTitle3"
    || raw == "UICTFontTextStyleHeadline"
    || raw == "UICTFontTextStyleSubhead"
    || raw == "UICTFontTextStyleBody"
    || raw == "UICTFontTextStyleCallout"
    || raw == "UICTFontTextStyleFootnote"
    || raw == "UICTFontTextStyleCaption1"
    || raw == "UICTFontTextStyleCaption2"
  }

  type Layout = l: TextStyle | l.Custom? ==> !IsKnownRaw(l.raw) witness Body

  /** `UIFont.TextStyle.title` and `.caption` are aliases. */
  const Title: Layout := Title1
  const Caption: Layout := Caption1

  /** `Look.Layout(rawValue:)`, which never fails. */
  function LayoutFromRaw(raw: string): (l: Layout)
    ensures TextStyleRawValue(l) == raw
  {
    if raw == "UICTFontTextStyleTitle0" then LargeTitle
    else if raw == "UICTFontTextStyleTitle1" then Title1
    else if raw == "UICTFontTextStyleTitle2" then Title2
    else if raw == "UICTFontTextStyleTitle3" then Title3
    else if raw == "UICTFontTextStyleHeadline" then Headline
    else if raw == "UICTFontTextStyleSubhead" then Subheadline
    else if raw == "UICTFontTextStyleBody" then Body
    else if raw == "UICTFontTextStyleCallout" then Callout
    else if raw == "UICTFontTextStyleFootnote" then Footnote
    else if raw == "UICTFontTextStyleCaption1" then Caption1
    else if raw == "UICTFontTextStyleCaption2" then Caption2
    else Custom(raw)
  }

  /** Reading back the raw value of a layout gives the same layout. */
  lemma LayoutFromRawOfRaw(l: Layout)
    ensures LayoutFromRaw(TextStyleRawValue(l)) == l
  {
    match l
    case Custom(r) =>
      assert !IsKnownRaw(r);
    case _ =>
  }

  /** Layouts are determined by their raw values. */
  lemma LayoutRawValueInjective(a: Layout, b: Layout)
    ensures TextStyleRawValue(a) == TextStyleRawValue(b) <==> a == b
  {
    LayoutFromRawOfRaw(a);
    LayoutFromRawOfRaw(b);
  }

  // ---------------------------------------------------------------------
  // Colours: a SwiftUI `Color` or `UIColor` is kept as its sRGB components
  // and opacity, each in 0...1.
  // ---------------------------------------------------------------------

  datatype Color = Color(red: real, green: real, blue: real, alpha: real)

  /** SwiftUI's `Color.clear`. */
  const Clear := Color(0.0, 0.0, 0.0, 0.0)

  /** The colour fields of `Look.PaletteScheme`, in declaration order. */
  datatype ColorSlot =
    | PrimarySlot | SecondarySlot | TertiarySlot
    | LabelSlot | Label2Slot | Label3Slot | Label4Slot
    | FillSlot | Fill2Slot | Fill3Slot | Fill4Slot
    | ShadowSlot
    | TintSlot | Tint2Slot | Tint3Slot
    | BackgroundSlot | Background2Slot | Background3Slot
    | GroupSlot | Group2Slot | Group3Slot

  // ---------------------------------------------------------------------
  // Fonts
  // ---------------------------------------------------------------------

  /** A `UIFontDescriptor`: the family and the face within it. */
  datatype FontDescriptor = FontDescriptor(family: string, face: string)

  /** A `UIFont`: a descriptor at a point size. */
  datatype UIFont = UIFont(descriptor: FontDescriptor, size: real)

  /** SwiftUI `Font`: either built from a `UIFont` or any other font value. */
  datatype Font = FromUIFont(ui: UIFont) | OtherFont(name: string)

  /** `UIFont.systemFontSize`. */
  const SystemFontSize: real := 14.0

  const SystemFamily: string := ".SF UI Text"

  /** `UIFont.systemFont(ofSize:)`, `boldSystemFont` and `italicSystemFont`. */
  function SystemFont(size: real): UIFont { UIFont(FontDescriptor(SystemFamily, "Regular"), size) }
  function BoldSystemFont(size: real): UIFont { UIFont(FontDescriptor(SystemFamily, "Bold"), size) }
  function ItalicSystemFont(size: real): UIFont { UIFont(FontDescriptor(SystemFamily, "Italic"), size) }

  /** `withSize(_:)`: the same descriptor at another size. */
  function WithSize(f: UIFont, size: real): (r: UIFont)
    ensures r.descriptor == f.descriptor && r.size == size
  {
    f.(size := size)
  }

  // ---------------------------------------------------------------------
  // Edge sets (SwiftUI `Edge.Set`)
  // ---------------------------------------------------------------------

  datatype Edge = Top | Leading | Bottom | Trailing

  const AllEdges: set<Edge> := {Top, Leading, Bottom, Trailing}
  const VerticalEdges: set<Edge> := {Top, Bottom}
  const HorizontalEdges: set<Edge> := {Leading, Trailing}
}
