/**
 * The derived properties of a `Trait` (Lux/Trait/Trait+Properties.swift):
 * the colour scheme and specification it resolves to, its display names,
 * the colours and font it paints with, and the paragraph padding its layout
 * selects.  `Look.current` and the system colour scheme are parameters; the
 * colour arithmetic of a specification's surfaces is a paint function
 * passed in, and `Font.textSize` is a parameter as in `LookFonts`.
 */
module TraitProperties {
  import opened Wrappers
  import opened CoreTypes
  import opened LookFonts
  import opened Specs
  import opened Traits
  import opened Looks
  import opened Extensions

  // ---------------------------------------------------------------------
  // Scheme and specification
  // ---------------------------------------------------------------------

  /** `colorScheme`: the trait's preferred scheme, else the current look's. */
  function ColorScheme(t: Trait, current: LookData, system: Scheme): (r: Scheme)
    ensures t.preferredColorScheme.Some? ==> r == t.preferredColorScheme.value
    ensures t.preferredColorScheme.None? ==> r == SchemeOf(current, system)
  {
    t.preferredColorScheme.GetOr(SchemeOf(current, system))
  }

  /** `systemSpec`: the current look's specification for the trait's
      preferred scheme, or the current look's own `spec` without one. */
  function SystemSpec(t: Trait, current: LookData, system: Scheme): (r: Specification)
    ensures r == if ColorScheme(t, current, system) == Light then current.specLight else current.specDark
  {
    match t.preferredColorScheme
    case None => SpecOf(current, system)
    case Some(Light) => current.specLight
    case Some(Dark) => current.specDark
  }

  /** `preferredSpec`: the trait's own specification for its scheme, if any. */
  function PreferredSpec(t: Trait, current: LookData, system: Scheme): Option<Specification> {
    if ColorScheme(t, current, system) == Light then t.preferredLightSpec else t.preferredDarkSpec
  }

  /** `spec`: the trait's specification for the scheme it resolves to, and
      otherwise the current look's specification for that same scheme. */
  function Spec(t: Trait, current: LookData, system: Scheme): (s: Specification)
    ensures ColorScheme(t, current, system) == Light ==> s == t.preferredLightSpec.GetOr(current.specLight)
    ensures ColorScheme(t, current, system) == Dark ==> s == t.preferredDarkSpec.GetOr(current.specDark)
  {
    PreferredSpec(t, current, system).GetOr(SystemSpec(t, current, system))
  }

  /** The trait a look hands out resolves to that look's scheme and to
      that look's specification for it. */
  lemma LookTraitResolvesToLook(d: LookData, system: Scheme, currentElevation: Elevation)
    ensures ColorScheme(TraitOf(d, system, currentElevation), d, system) == SchemeOf(d, system)
    ensures Spec(TraitOf(d, system, currentElevation), d, system) == SpecOf(d, system)
  {
    var t := TraitOf(d, system, currentElevation);
    MakeTraitSchemeless(d, system, currentElevation);
    assert SystemSpec(t, d, system) == SpecOf(d, system);
  }

  lemma MakeTraitSchemeless(d: LookData, system: Scheme, currentElevation: Elevation)
    ensures TraitOf(d, system, currentElevation).preferredColorScheme.None?
  {
  }

  // ---------------------------------------------------------------------
  // Names
  // ---------------------------------------------------------------------

  /** The size slot that `fontType` gives a layout; `None` for the layouts
      its switch sends to the system font. */
  function LayoutSlot(l: Layout): Option<SizeSlot> {
    match l
    case LargeTitle => Some(LargeTitleSize)
    case Title1 | Title2 | Title3 => Some(TitleSize)
    case Headline => Some(HeadlineSize)
    case Subheadline => Some(SubheadlineSize)
    case Body => Some(BodySize)
    case Callout => Some(CalloutSize)
    case Caption1 | Caption2 => Some(CaptionSize)
    case Footnote => Some(FootnoteSize)
    case Custom(_) => None
  }

  /** Each size slot's display name. */
  function SlotDisplayName(s: SizeSlot): string {
    match s
    case LargeTitleSize => "Large Title"
    case TitleSize => "Title"
    case HeadlineSize => "Headline"
    case SubheadlineSize => "Sub Headline"
    case BodySize => "Body"
    case CalloutSize => "Callout"
    case CaptionSize => "Caption"
    case FootnoteSize => "Footnote"
  }

  /** The display name groups layouts exactly as `fontType` does: a known
      layout is named after its size slot, an unknown one "Undefined Trait". */
  lemma LayoutDisplayNameBySlot(l: Layout)
    ensures LayoutSlot(l).Some? ==> TextStyleDisplayName(l) == SlotDisplayName(LayoutSlot(l).value)
    ensures LayoutSlot(l).None? <==> l.Custom?
    ensures LayoutSlot(l).None? ==> TextStyleDisplayName(l) == "Undefined Trait"
  {
  }

  /** Different slots have different names, none of them "Undefined Trait". */
  lemma SlotDisplayNameInjective(s: SizeSlot, s': SizeSlot)
    ensures SlotDisplayName(s) == SlotDisplayName(s') <==> s == s'
    ensures SlotDisplayName(s) != "Undefined Trait"
  {
    var n, n' := SlotDisplayName(s), SlotDisplayName(s');
    if s != s' {
      assert n[0] != n'[0] || n[3] != n'[3];
    }
    assert n[0] != 'U';
  }

  /** Two layouts share a display name exactly when they share a size slot. */
  lemma LayoutDisplayNameIffSlot(a: Layout, b: Layout)
    ensures TextStyleDisplayName(a) == TextStyleDisplayName(b) <==> LayoutSlot(a) == LayoutSlot(b)
  {
    LayoutDisplayNameBySlot(a);
    LayoutDisplayNameBySlot(b);
    if LayoutSlot(a).Some? {
      SlotDisplayNameInjective(LayoutSlot(a).value, LayoutSlot(a).value);
      if LayoutSlot(b).Some? {
        SlotDisplayNameInjective(LayoutSlot(a).value, LayoutSlot(b).value);
      }
    } else if LayoutSlot(b).Some? {
      SlotDisplayNameInjective(LayoutSlot(b).value, LayoutSlot(b).value);
    }
  }

  /** Canvas and normal surfaces do not use a colour priority. */
  predicate UsesColorPriority(s: Surface) {
    s == Accent || s == Active
  }

  /** `specNameShort`: surface, dash, font priority letter and, for the
      accent and active surfaces, the colour priority digit. */
  function SpecNameShort(t: Trait): (r: string)
    ensures |r| == if UsesColorPriority(t.surface) then 9 else 8
    ensures r[..6] == SurfaceDisplayName(t.surface) && r[6] == '-'
    ensures r[7..8] == PrioritySpecName(t.fontPriority, false)
    ensures UsesColorPriority(t.surface) ==> r[8..] == PrioritySpecName(t.colorPriority, true)
  {
    SurfaceDisplayNameOf(t.surface);
    var head := SurfaceDisplayName(t.surface) + "-" + PrioritySpecName(t.fontPriority, false);
    assert head[..6] == SurfaceDisplayName(t.surface) && head[7..8] == PrioritySpecName(t.fontPriority, false);
    if t.surface == Canvas || t.surface == Surface.Normal then
      head
    else
      head + PrioritySpecName(t.colorPriority, true)
  }

  /** The short name determines the surface, the font priority and, where
      the surface uses one, the colour priority, and nothing else. */
  lemma SpecNameShortIff(a: Trait, b: Trait)
    ensures SpecNameShort(a) == SpecNameShort(b) <==>
              a.surface == b.surface && a.fontPriority == b.fontPriority
              && (UsesColorPriority(a.surface) ==> a.colorPriority == b.colorPriority)
  {
    var na, nb := SpecNameShort(a), SpecNameShort(b);
    if a.surface == b.surface && a.fontPriority == b.fontPriority
       && (UsesColorPriority(a.surface) ==> a.colorPriority == b.colorPriority) {
      assert na == na[..6] + [na[6]] + na[7..8] + na[8..];
      assert nb == nb[..6] + [nb[6]] + nb[7..8] + nb[8..];
    }
    if na == nb {
      assert na[..6] == nb[..6];
      SurfaceDisplayNameInjective(a.surface, b.surface);
      assert na[7..8] == nb[7..8];
      PrioritySpecNameInjective(a.fontPriority, b.fontPriority, false, false);
      if UsesColorPriority(a.surface) {
        assert na[8..] == nb[8..];
        PrioritySpecNameInjective(a.colorPriority, b.colorPriority, true, true);
      }
    }
  }

  /** `specName` (and `displayName`): the layout's name, a space, the short name. */
  function SpecName(t: Trait): (r: string)
    ensures r == TextStyleDisplayName(t.layout) + [' '] + SpecNameShort(t)
  {
    TextStyleDisplayName(t.layout) + " " + SpecNameShort(t)
  }

  /** The short name is the tail of the full name after the layout's name. */
  lemma SpecNameEndsWithShort(t: Trait)
    ensures |SpecName(t)| == |TextStyleDisplayName(t.layout)| + 1 + |SpecNameShort(t)|
    ensures SpecName(t)[|TextStyleDisplayName(t.layout)| + 1..] == SpecNameShort(t)
    ensures SpecName(t)[..|TextStyleDisplayName(t.layout)|] == TextStyleDisplayName(t.layout)
  {
  }

  // ---------------------------------------------------------------------
  // Colours
  // ---------------------------------------------------------------------

  /** A request to a specification's surface palette: the foreground or the
      background of a surface at an elevation, with the colour priority for
      the accent and active surfaces. */
  datatype PaintRequest = PaintRequest(spec: Specification, foreground: bool, surface: Surface,
                                       elevation: Elevation, prio: Option<Priority>)

  /** What the trait asks its specification's palette for. */
  function PaintFor(t: Trait, current: LookData, system: Scheme, foreground: bool): PaintRequest {
    PaintRequest(Spec(t, current, system), foreground, t.surface, t.elevation,
                 if UsesColorPriority(t.surface) then Some(t.colorPriority) else None)
  }

  /** `surfaceColor`: the colour override, else clear for a canvas drawn in
      clear mode, else the palette's background for the surface. */
  function SurfaceColor(t: Trait, current: LookData, system: Scheme, paint: PaintRequest -> Color): (r: Color)
    ensures t.colorOverride.Some? ==> r == t.colorOverride.value
    ensures t.colorOverride.None? && t.surface == Canvas && t.canvasRenderMode == ClearMode ==> r == Clear
    ensures t.colorOverride.None? && !(t.surface == Canvas && t.canvasRenderMode == ClearMode) ==>
              r == paint(PaintFor(t, current, system, false))
  {
    if t.colorOverride.Some? then t.colorOverride.value
    else
      var spec := Spec(t, current, system);
      match t.surface
      case Canvas =>
        (match t.canvasRenderMode
         case SurfaceMode => paint(PaintRequest(spec, false, Canvas, t.elevation, None))
         case ClearMode => Clear)
      case Normal => paint(PaintRequest(spec, false, Surface.Normal, t.elevation, None))
      case Accent => paint(PaintRequest(spec, false, Accent, t.elevation, Some(t.colorPriority)))
      case Active => paint(PaintRequest(spec, false, Active, t.elevation, Some(t.colorPriority)))
  }

  /** `foregroundColor`: the colour override, else the palette's foreground
      for the surface (a canvas's render mode plays no part). */
  function ForegroundColor(t: Trait, current: LookData, system: Scheme, paint: PaintRequest -> Color): (r: Color)
    ensures t.colorOverride.Some? ==> r == t.colorOverride.value
    ensures t.colorOverride.None? ==> r == paint(PaintFor(t, current, system, true))
  {
    if t.colorOverride.Some? then t.colorOverride.value
    else
      var spec := Spec(t, current, system);
      match t.surface
      case Canvas => paint(PaintRequest(spec, true, Canvas, t.elevation, None))
      case Normal => paint(PaintRequest(spec, true, Surface.Normal, t.elevation, None))
      case Accent => paint(PaintRequest(spec, true, Accent, t.elevation, Some(t.colorPriority)))
      case Active => paint(PaintRequest(spec, true, Active, t.elevation, Some(t.colorPriority)))
  }

  /** On the canvas and normal surfaces neither colour depends on the
      colour priority. */
  lemma ColorsIgnorePriorityOffAccent(t: Trait, p: Priority, current: LookData, system: Scheme,
                                      paint: PaintRequest -> Color)
    requires !UsesColorPriority(t.surface)
    ensures SurfaceColor(t.(colorPriority := p), current, system, paint) == SurfaceColor(t, current, system, paint)
    ensures ForegroundColor(t.(colorPriority := p), current, system, paint) == ForegroundColor(t, current, system, paint)
  {
    var t' := t.(colorPriority := p);
    assert ColorScheme(t', current, system) == ColorScheme(t, current, system);
    assert Spec(t', current, system) == Spec(t, current, system);
    assert PaintFor(t', current, system, false) == PaintFor(t, current, system, false);
    assert PaintFor(t', current, system, true) == PaintFor(t, current, system, true);
  }

  // ---------------------------------------------------------------------
  // Fonts
  // ---------------------------------------------------------------------

  /** The font slot the mixed font mix uses for each size slot. */
  function MixedPriority(s: SizeSlot): Priority {
    match s
    case LargeTitleSize => Primary
    case TitleSize => Secondary
    case HeadlineSize => Tertiary
    case SubheadlineSize => Secondary
    case BodySize => Primary
    case CalloutSize => Secondary
    case CaptionSize => Tertiary
    case FootnoteSize => Secondary
  }

  /** The font slot `fontType` reads: the trait's font priority when mixing
      by priority, the fixed slot of the layout when mixed. */
  function FontSlot(t: Trait, s: SizeSlot): Priority {
    if t.preferredFontMix == ByPriority then t.fontPriority else MixedPriority(s)
  }

  /** `fontType`: a font of the specification at the size of the layout's
      slot, or the system font for a layout the switch does not list. */
  function FontType(t: Trait, current: LookData, system: Scheme, textSize: TextStyle -> real): (r: UIFont)
    ensures LayoutSlot(t.layout).None? ==> r == SystemFont(SystemFontSize)
    ensures LayoutSlot(t.layout).Some? ==>
              var slot := LayoutSlot(t.layout).value;
              r == WithSize(FontAt(Spec(t, current, system).font, FontSlot(t, slot)), textSize(SlotStyle(slot)))
  {
    var fonts := Spec(t, current, system).font;
    match t.preferredFontMix
    case ByPriority =>
      var font := FontAt(fonts, t.fontPriority);
      (match t.layout
       case LargeTitle => WithSize(font, textSize(LargeTitle))
       case Title1 | Title2 | Title3 => WithSize(font, textSize(Title1))
       case Headline => WithSize(font, textSize(Headline))
       case Subheadline => WithSize(font, textSize(Subheadline))
       case Body => WithSize(font, textSize(Body))
       case Callout => WithSize(font, textSize(Callout))
       case Caption1 | Caption2 => WithSize(font, textSize(Caption1))
       case Footnote => WithSize(font, textSize(Footnote))
       case Custom(_) => SystemFont(SystemFontSize))
    case Mixed =>
      (match t.layout
       case LargeTitle => WithSize(fonts.primary, textSize(LargeTitle))
       case Title1 | Title2 | Title3 => WithSize(fonts.secondary, textSize(Title1))
       case Headline => WithSize(fonts.tertiary, textSize(Headline))
       case Subheadline => WithSize(fonts.secondary, textSize(Subheadline))
       case Body => WithSize(fonts.primary, textSize(Body))
       case Callout => WithSize(fonts.secondary, textSize(Callout))
       case Caption1 | Caption2 => WithSize(fonts.tertiary, textSize(Caption1))
       case Footnote => WithSize(fonts.secondary, textSize(Footnote))
       case Custom(_) => SystemFont(SystemFontSize))
  }

  /** Mixing by priority with the font priority the specification itself
      prefers gives exactly that specification's per-layout font. */
  lemma FontTypeIsSpecSlotFont(t: Trait, current: LookData, system: Scheme, textSize: TextStyle -> real)
    requires t.preferredFontMix == ByPriority && LayoutSlot(t.layout).Some?
    requires t.fontPriority == FontsPriority(Spec(t, current, system).font)
    ensures FontType(t, current, system, textSize) == SlotUIFont(Spec(t, current, system).font, LayoutSlot(t.layout).value, textSize)
  {
    var fonts := Spec(t, current, system).font;
    assert FontAt(fonts, FontsPriority(fonts)) == LookFonts.Active(fonts);
  }

  /** The mixed font mix ignores the trait's font priority. */
  lemma MixedIgnoresFontPriority(t: Trait, p: Priority, current: LookData, system: Scheme, textSize: TextStyle -> real)
    requires t.preferredFontMix == Mixed
    ensures FontType(t.(fontPriority := p), current, system, textSize) == FontType(t, current, system, textSize)
  {
    var t' := t.(fontPriority := p);
    assert ColorScheme(t', current, system) == ColorScheme(t, current, system);
    assert Spec(t', current, system) == Spec(t, current, system);
  }

  /** `typography`: the font override, else the font type. */
  function Typography(t: Trait, current: LookData, system: Scheme, textSize: TextStyle -> real): (r: Font)
    ensures t.fontOverride.Some? ==> r == t.fontOverride.value
    ensures t.fontOverride.None? ==> r == FromUIFont(FontType(t, current, system, textSize))
  {
    t.fontOverride.GetOr(FromUIFont(FontType(t, current, system, textSize)))
  }

  // ---------------------------------------------------------------------
  // Spacing
  // ---------------------------------------------------------------------

  /** `hairline` and `hairline2x`. */
  const Hairline: real := 1.0
  const Hairline2x: real := 2.0

  /** `tertiaryOpacity`, `secondaryOpacity`, `primaryOpacity`. */
  const TertiaryOpacity: real := 0.25
  const SecondaryOpacity: real := 0.5
  const PrimaryOpacity: real := 0.75

  /** The opacities rise with the priority, and the double hairline is twice the hairline. */
  lemma OpacitiesOrdered()
    ensures 0.0 < TertiaryOpacity < SecondaryOpacity < PrimaryOpacity < 1.0
    ensures Hairline2x == 2.0 * Hairline
  {
  }

  /** `spacing`: the specification's base padding scaled by the layout multiplier. */
  function Spacing(t: Trait, basePadding: real): real {
    basePadding * t.multipliers.layout
  }

  datatype EdgeInsets = EdgeInsets(top: real, leading: real, bottom: real, trailing: real)

  /** The four paragraph paddings. */
  datatype Paragraph = HeaderParagraph | BodyParagraph | FooterParagraph | CaptionParagraph

  /** `headerParagraphPadding` … `footerParagraphPadding` for a spacing:
      half a spacing at the sides, and a double, half or quarter spacing
      above and below. */
  function ParagraphInsets(p: Paragraph, spacing: real): (e: EdgeInsets)
    ensures e.leading == e.trailing == spacing * 0.5
    ensures e.top == (if p == HeaderParagraph then spacing * 2.0
                      else if p == CaptionParagraph then spacing * 0.25 else spacing * 0.5)
    ensures e.bottom == (if p == FooterParagraph then spacing * 2.0
                         else if p == CaptionParagraph then spacing * 0.25 else spacing * 0.5)
  {
    match p
    case HeaderParagraph => EdgeInsets(spacing * 2.0, spacing * 0.5, spacing * 0.5, spacing * 0.5)
    case BodyParagraph => EdgeInsets(spacing * 0.5, spacing * 0.5, spacing * 0.5, spacing * 0.5)
    case CaptionParagraph => EdgeInsets(spacing * 0.25, spacing * 0.5, spacing * 0.25, spacing * 0.5)
    case FooterParagraph => EdgeInsets(spacing * 0.5, spacing * 0.5, spacing * 2.0, spacing * 0.5)
  }

  /** The switch of `paragraphPadding`; its first case already takes callout. */
  function ParagraphOf(l: Layout): Paragraph {
    match l
    case Title1 | LargeTitle | Callout | Title2 | Title3 => HeaderParagraph
    case Body | Headline => BodyParagraph
    case Footnote => FooterParagraph
    case Subheadline | Caption1 | Caption2 => CaptionParagraph
    case Custom(_) => BodyParagraph
  }

  /** `paragraphPadding`. */
  function ParagraphPadding(t: Trait, basePadding: real): EdgeInsets {
    ParagraphInsets(ParagraphOf(t.layout), Spacing(t, basePadding))
  }

  /** Which padding each layout gets: titles and callout the header's,
      footnote the footer's, subheadline and captions the caption's, and
      every other layout the body's. */
  lemma ParagraphOfLayout(l: Layout)
    ensures ParagraphOf(l) == HeaderParagraph <==> l in {LargeTitle, Title1, Title2, Title3, Callout}
    ensures ParagraphOf(l) == FooterParagraph <==> l == Footnote
    ensures ParagraphOf(l) == CaptionParagraph <==> l in {Subheadline, Caption1, Caption2}
    ensures ParagraphOf(l) == BodyParagraph <==> l == Body || l == Headline || l.Custom?
  {
  }

  /** With a positive spacing the insets tell the paragraph kinds apart. */
  lemma ParagraphInsetsInjective(p: Paragraph, q: Paragraph, spacing: real)
    requires spacing > 0.0
    ensures ParagraphInsets(p, spacing) == ParagraphInsets(q, spacing) <==> p == q
  {
  }
}
