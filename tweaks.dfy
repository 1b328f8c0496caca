/**
 * `Lux.Tweak` (Lux/Style/Lux+Tweaks.swift): the named edits of a `Trait`.
 * `Apply` is `Tweak.apply(to:)`, a copy-and-update of the trait record;
 * `TweakFold` applies a list of tweaks left to right, the way
 * `Trait.tweak(_:)` does, and is what the `complementary` tweak uses.
 */
module Tweaks {
  import opened Wrappers
  import opened CoreTypes
  import opened Traits

  datatype Tweak =
    | NoTweak   // `.none`
    // fonts
    | PrimaryFont | SecondaryFont | TertiaryFont
    // colours
    | PrimaryColor | SecondaryColor | TertiaryColor | ActiveColor | ContrastColor
    // typography
    | TypoSorted | TypoMixed
    // layout
    | LargeTitleLayout | TitleLayout | HeadlineLayout | SubheadlineLayout
    | BodyLayout | CalloutLayout | CaptionLayout | FooterLayout
    // surface
    | CanvasSurface | NormalSurface | AccentSurface | ActiveSurface
    // complements
    | Complementary | ComplementarySurface | ComplementaryLayout | ComplementaryFont | ComplementaryColor
    // elevation and canvas drawing
    | ElevationNormal | ElevationAbove | ElevationAbove2x | ElevationAbove3x | ElevationTop
    | ElevationBelow | ElevationBelow2x | ElevationBelow3x | ElevationBottom
    | ElevationNormalOnCanvas | ElevationInputSurface
    | SurfaceClearOnCanvas | SurfaceRenderAlways
    // layout multipliers (the source spells the fourth one `Quater`)
    | LayoutMultiplierZero | LayoutMultiplierBase | LayoutMultiplierHalf
    | LayoutMultiplierQuater | LayoutMultiplierEighth
    // padding multipliers
    | PaddingZero | PaddingBase | PaddingHalf | PaddingQuarter | PaddingEighth
    // corner-radius multipliers
    | CornerRadiusZero | CornerRadiusBase | CornerRadiusHalf | CornerRadiusQuarter | CornerRadiusEighth
    // padded edges
    | EdgesNone | EdgesVertical | EdgesHorizontal | EdgesTop | EdgesBottom | EdgesLeading | EdgesTrailing
    // colour scheme
    | LightSpec | DarkSpec | DefaultSpec

  // The `CGFloat` constants the multiplier tweaks assign.
  const Zero: real := 0.0
  const Base: real := 1.0
  const Half: real := 0.5
  const Quarter: real := 0.25
  const Eighth: real := 0.125

  // ---------------------------------------------------------------------
  // The rotations
  // ---------------------------------------------------------------------

  /** `complementarySurface`: canvas, normal, accent, active, canvas. */
  function NextSurface(s: Surface): Surface {
    match s
    case Canvas => Surface.Normal
    case Normal => Accent
    case Accent => Active
    case Active => Canvas
  }

  /** `complementaryFont` and `complementaryColor`: primary, secondary, tertiary, primary. */
  function NextPriority(p: Priority): Priority {
    match p
    case Primary => Secondary
    case Secondary => Tertiary
    case Tertiary => Primary
  }

  /** `complementaryLayout`: down the title ladder to body, then body and
      callout swap; subheadline, caption and footnote go to body; the
      styles the switch does not name stay. */
  function NextLayout(l: Layout): Layout {
    match l
    case LargeTitle => Title
    case Title1 => Headline
    case Headline => Body
    case Subheadline => Body
    case Body => Callout
    case Callout => Body
    case Caption1 => Body
    case Footnote => Body
    case _ => l
  }

  /** `elevationInputSurface`: the elevation an input field takes on each surface. */
  function InputElevation(s: Surface): Elevation {
    match s
    case Canvas => Elevation.Normal
    case Normal => Above
    case Accent => Above
    case Active => Below
  }

  /** The three rotations `.complementary` chains. */
  function RotateFont(t: Trait): Trait { t.(fontPriority := NextPriority(t.fontPriority)) }
  function RotateLayout(t: Trait): Trait { t.(layout := NextLayout(t.layout)) }
  function RotateColor(t: Trait): Trait { t.(colorPriority := NextPriority(t.colorPriority)) }

  // ---------------------------------------------------------------------
  // apply(to:)
  // ---------------------------------------------------------------------

  function Apply(tw: Tweak, t: Trait): Trait {
    match tw
    case NoTweak => t
    case PrimaryFont => t.(fontPriority := Primary)
    case SecondaryFont => t.(fontPriority := Secondary)
    case TertiaryFont => t.(fontPriority := Tertiary)
    case PrimaryColor => t.(colorOverride := None, colorPriority := Primary)
    case SecondaryColor => t.(colorOverride := None, colorPriority := Secondary)
    case TertiaryColor => t.(colorOverride := None, colorPriority := Tertiary)
    case ActiveColor => t.(surface := Active)
    case ContrastColor => t.(surface := Active)
    case TypoSorted => t.(preferredFontMix := ByPriority)
    case TypoMixed => t.(preferredFontMix := Mixed)
    case LargeTitleLayout => t.(layout := LargeTitle)
    case TitleLayout => t.(layout := Title)
    case HeadlineLayout => t.(layout := Headline)
    case SubheadlineLayout => t.(layout := Subheadline)
    case BodyLayout => t.(layout := Body)
    case CalloutLayout => t.(layout := Callout)
    case CaptionLayout => t.(layout := Caption)
    case FooterLayout => t.(layout := Footnote)
    case CanvasSurface => t.(surface := Canvas)
    case NormalSurface => t.(surface := Surface.Normal)
    case AccentSurface => t.(surface := Accent)
    case ActiveSurface => t.(surface := Active)
    case ComplementarySurface => t.(surface := NextSurface(t.surface))
    case ComplementaryLayout => RotateLayout(t)
    case ComplementaryFont => RotateFont(t)
    case ComplementaryColor => RotateColor(t)
    case Complementary =>
      // `tweak(.complementaryFont, .complementaryLayout, .complementaryColor)`,
      // which `ComplementaryIsFold` shows to be this composition
      RotateColor(RotateLayout(RotateFont(t)))
    case ElevationNormal => t.(elevation := Elevation.Normal)
    case ElevationAbove => t.(elevation := Above)
    case ElevationAbove2x => t.(elevation := Above2x)
    case ElevationAbove3x => t.(elevation := Above3x)
    case ElevationTop => t.(elevation := Highlight)
    case ElevationBelow => t.(elevation := Below)
    case ElevationBelow2x => t.(elevation := Below2x)
    case ElevationBelow3x => t.(elevation := Below3x)
    case ElevationBottom => t.(elevation := Shadow)
    case ElevationNormalOnCanvas => t.(elevation := if t.surface == Canvas then Elevation.Normal else t.elevation)
    case ElevationInputSurface => t.(elevation := InputElevation(t.surface))
    case SurfaceClearOnCanvas => t.(canvasRenderMode := ClearMode)
    case SurfaceRenderAlways => t.(canvasRenderMode := SurfaceMode)
    case PaddingZero => t.(multipliers := t.multipliers.(padding := Zero))
    case PaddingBase => t.(multipliers := t.multipliers.(padding := Base))
    case PaddingHalf => t.(multipliers := t.multipliers.(padding := Half))
    case PaddingQuarter => t.(multipliers := t.multipliers.(padding := Quarter))
    case PaddingEighth => t.(multipliers := t.multipliers.(padding := Eighth))
    case CornerRadiusZero => t.(multipliers := t.multipliers.(cornerRadius := Zero))
    case CornerRadiusBase => t.(multipliers := t.multipliers.(cornerRadius := Base))
    case CornerRadiusHalf => t.(multipliers := t.multipliers.(cornerRadius := Half))
    case CornerRadiusQuarter => t.(multipliers := t.multipliers.(cornerRadius := Quarter))
    case CornerRadiusEighth => t.(multipliers := t.multipliers.(cornerRadius := Eighth))
    case LayoutMultiplierZero => t.(multipliers := t.multipliers.(layout := Zero))
    case LayoutMultiplierBase => t.(multipliers := t.multipliers.(layout := Base))
    case LayoutMultiplierHalf => t.(multipliers := t.multipliers.(layout := Half))
    case LayoutMultiplierQuater => t.(multipliers := t.multipliers.(layout := Quarter))
    case LayoutMultiplierEighth => t.(multipliers := t.multipliers.(layout := Eighth))
    case EdgesNone => t.(edges := SetPadding(t.edges, {}))
    case EdgesVertical => t.(edges := SetPadding(t.edges, VerticalEdges))
    case EdgesHorizontal => t.(edges := SetPadding(t.edges, HorizontalEdges))
    case EdgesTop => t.(edges := SetPadding(t.edges, {Top}))
    case EdgesBottom => t.(edges := SetPadding(t.edges, {Bottom}))
    case EdgesLeading => t.(edges := SetPadding(t.edges, {Leading}))
    case EdgesTrailing => t.(edges := SetPadding(t.edges, {Trailing}))
    case LightSpec => t.(preferredColorScheme := Some(Light))
    case DarkSpec => t.(preferredColorScheme := Some(Dark))
    case DefaultSpec => t.(preferredColorScheme := None)
  }

  /** `Trait.tweak(_:)`: the tweaks applied left to right. */
  function TweakFold(t: Trait, tweaks: seq<Tweak>): Trait {
    if |tweaks| == 0 then t
    else Apply(tweaks[|tweaks| - 1], TweakFold(t, tweaks[..|tweaks| - 1]))
  }

  lemma {:induction false} TweakFoldConcat(t: Trait, a: seq<Tweak>, b: seq<Tweak>)
    ensures TweakFold(t, a + b) == TweakFold(TweakFold(t, a), b)
    decreases |b|
  {
    if |b| == 0 {
      assert a + b == a;
    } else {
      var b' := b[..|b| - 1];
      assert (a + b)[..|a + b| - 1] == a + b';
      TweakFoldConcat(t, a, b');
    }
  }

  lemma TweakFoldSnoc(t: Trait, a: seq<Tweak>, x: Tweak)
    ensures TweakFold(t, a + [x]) == Apply(x, TweakFold(t, a))
  {
    assert (a + [x])[..|a|] == a;
  }

  lemma TweakFoldOfTwo(t: Trait, a: Tweak, b: Tweak)
    ensures TweakFold(t, [a, b]) == Apply(b, Apply(a, t))
  {
    assert [a, b][..1] == [a];
    assert TweakFold(t, [a, b]) == Apply(b, TweakFold(t, [a]));
    assert [a][..0] == [];
    assert TweakFold(t, [a]) == Apply(a, t);
  }

  lemma TweakFoldOfThree(t: Trait, a: Tweak, b: Tweak, c: Tweak)
    ensures TweakFold(t, [a, b, c]) == Apply(c, Apply(b, Apply(a, t)))
  {
    assert [a, b, c][..2] == [a, b];
    assert TweakFold(t, [a, b, c]) == Apply(c, TweakFold(t, [a, b]));
    assert [a, b][..1] == [a];
    assert TweakFold(t, [a, b]) == Apply(b, TweakFold(t, [a]));
    assert [a][..0] == [];
    assert TweakFold(t, [a]) == Apply(a, t);
  }

  lemma ApplyFontRotation(t: Trait)
    ensures Apply(ComplementaryFont, t) == RotateFont(t)
  {
  }

  lemma ApplyLayoutRotation(t: Trait)
    ensures Apply(ComplementaryLayout, t) == RotateLayout(t)
  {
  }

  lemma ApplySurfaceRotation(t: Trait)
    ensures Apply(ComplementarySurface, t) == t.(surface := NextSurface(t.surface))
  {
  }

  lemma ApplyComplementary(t: Trait)
    ensures Apply(Complementary, t) == RotateColor(RotateLayout(RotateFont(t)))
  {
  }

  lemma ApplyColorRotation(t: Trait)
    ensures Apply(ComplementaryColor, t) == RotateColor(t)
  {
  }

  /** `.complementary` is the fold of the font, layout and colour rotations, in that order. */
  lemma ComplementaryIsFold(t: Trait)
    ensures Apply(Complementary, t) == TweakFold(t, [ComplementaryFont, ComplementaryLayout, ComplementaryColor])
  {
    TweakFoldOfThree(t, ComplementaryFont, ComplementaryLayout, ComplementaryColor);
    ApplyFontRotation(t);
    ApplyLayoutRotation(RotateFont(t));
    ApplyColorRotation(RotateLayout(RotateFont(t)));
  }

  // ---------------------------------------------------------------------
  // What each tweak may change
  // ---------------------------------------------------------------------

  /** The trait's stored properties, the multipliers and edges split into their parts. */
  datatype TraitField =
    | LightSpecField | DarkSpecField | LayoutField | SurfaceField
    | FontPriorityField | ColorPriorityField | FontOverrideField | ColorOverrideField
    | ElevationField | CanvasRenderModeField | FontMixField | ColorSchemeField
    | SafeAreaField | LayoutMultiplierField | CornerRadiusMultiplierField
    | PaddingMultiplierField | PaddingEdgesField | MarginEdgesField

  /** `b` holds the same value as `a` in every field outside `fields`. */
  predicate UnchangedExcept(a: Trait, b: Trait, fields: set<TraitField>) {
    && (LightSpecField !in fields ==> a.preferredLightSpec == b.preferredLightSpec)
    && (DarkSpecField !in fields ==> a.preferredDarkSpec == b.preferredDarkSpec)
    && (LayoutField !in fields ==> a.layout == b.layout)
    && (SurfaceField !in fields ==> a.surface == b.surface)
    && (FontPriorityField !in fields ==> a.fontPriority == b.fontPriority)
    && (ColorPriorityField !in fields ==> a.colorPriority == b.colorPriority)
    && (FontOverrideField !in fields ==> a.fontOverride == b.fontOverride)
    && (ColorOverrideField !in fields ==> a.colorOverride == b.colorOverride)
    && (ElevationField !in fields ==> a.elevation == b.elevation)
    && (CanvasRenderModeField !in fields ==> a.canvasRenderMode == b.canvasRenderMode)
    && (FontMixField !in fields ==> a.preferredFontMix == b.preferredFontMix)
    && (ColorSchemeField !in fields ==> a.preferredColorScheme == b.preferredColorScheme)
    && (SafeAreaField !in fields ==> a.surfaceIgnoresSafeArea == b.surfaceIgnoresSafeArea)
    && (LayoutMultiplierField !in fields ==> a.multipliers.layout == b.multipliers.layout)
    && (CornerRadiusMultiplierField !in fields ==> a.multipliers.cornerRadius == b.multipliers.cornerRadius)
    && (PaddingMultiplierField !in fields ==> a.multipliers.padding == b.multipliers.padding)
    && (PaddingEdgesField !in fields ==> a.edges.padding == b.edges.padding)
    && (MarginEdgesField !in fields ==> a.edges.margin == b.edges.margin)
  }

  /** The fields split the trait completely: unchanged outside nothing is equal. */
  lemma UnchangedExceptNothingIsEqual(a: Trait, b: Trait)
    requires UnchangedExcept(a, b, {})
    ensures a == b
  {
  }

  /** The kinds of tweak, by what they write. */
  datatype TweakKind =
    | NoEdit | FontEdit | ColorEdit | ColorRotation | SurfaceEdit | FontMixEdit | LayoutEdit
    | ComplementEdit | ElevationEdit | CanvasEdit | LayoutMultiplierEdit | PaddingMultiplierEdit
    | CornerRadiusMultiplierEdit | EdgesEdit | SchemeEdit

  function Kind(tw: Tweak): TweakKind {
    match tw
    case NoTweak => NoEdit
    case PrimaryFont | SecondaryFont | TertiaryFont | ComplementaryFont => FontEdit
    case PrimaryColor | SecondaryColor | TertiaryColor => ColorEdit
    case ComplementaryColor => ColorRotation
    case ActiveColor | ContrastColor | CanvasSurface | NormalSurface | AccentSurface | ActiveSurface
       | ComplementarySurface => SurfaceEdit
    case TypoSorted | TypoMixed => FontMixEdit
    case LargeTitleLayout | TitleLayout | HeadlineLayout | SubheadlineLayout | BodyLayout
       | CalloutLayout | CaptionLayout | FooterLayout | ComplementaryLayout => LayoutEdit
    case Complementary => ComplementEdit
    case ElevationNormal | ElevationAbove | ElevationAbove2x | ElevationAbove3x | ElevationTop
       | ElevationBelow | ElevationBelow2x | ElevationBelow3x | ElevationBottom
       | ElevationNormalOnCanvas | ElevationInputSurface => ElevationEdit
    case SurfaceClearOnCanvas | SurfaceRenderAlways => CanvasEdit
    case LayoutMultiplierZero | LayoutMultiplierBase | LayoutMultiplierHalf
       | LayoutMultiplierQuater | LayoutMultiplierEighth => LayoutMultiplierEdit
    case PaddingZero | PaddingBase | PaddingHalf | PaddingQuarter | PaddingEighth => PaddingMultiplierEdit
    case CornerRadiusZero | CornerRadiusBase | CornerRadiusHalf | CornerRadiusQuarter
       | CornerRadiusEighth => CornerRadiusMultiplierEdit
    case EdgesNone | EdgesVertical | EdgesHorizontal | EdgesTop | EdgesBottom | EdgesLeading
       | EdgesTrailing => EdgesEdit
    case LightSpec | DarkSpec | DefaultSpec => SchemeEdit
  }

  /** The fields a tweak of each kind is allowed to write. */
  function Touched(k: TweakKind): set<TraitField> {
    match k
    case NoEdit => {}
    case FontEdit => {FontPriorityField}
    case ColorEdit => {ColorPriorityField, ColorOverrideField}
    case ColorRotation => {ColorPriorityField}
    case SurfaceEdit => {SurfaceField}
    case FontMixEdit => {FontMixField}
    case LayoutEdit => {LayoutField}
    case ComplementEdit => {FontPriorityField, LayoutField, ColorPriorityField}
    case ElevationEdit => {ElevationField}
    case CanvasEdit => {CanvasRenderModeField}
    case LayoutMultiplierEdit => {LayoutMultiplierField}
    case PaddingMultiplierEdit => {PaddingMultiplierField}
    case CornerRadiusMultiplierEdit => {CornerRadiusMultiplierField}
    case EdgesEdit => {PaddingEdgesField, MarginEdgesField}
    case SchemeEdit => {ColorSchemeField}
  }

  lemma FontEditsTouchOnlyFontPriority(tw: Tweak, t: Trait)
    requires Kind(tw) == FontEdit
    ensures UnchangedExcept(t, Apply(tw, t), {FontPriorityField})
  {
  }

  lemma ColorEditsTouchOnlyColor(tw: Tweak, t: Trait)
    requires Kind(tw) == ColorEdit || Kind(tw) == ColorRotation
    ensures UnchangedExcept(t, Apply(tw, t), {ColorPriorityField, ColorOverrideField})
    ensures Kind(tw) == ColorRotation ==> UnchangedExcept(t, Apply(tw, t), {ColorPriorityField})
  {
  }

  lemma SurfaceEditsTouchOnlySurface(tw: Tweak, t: Trait)
    requires Kind(tw) == SurfaceEdit
    ensures UnchangedExcept(t, Apply(tw, t), {SurfaceField})
  {
  }

  lemma LayoutEditsTouchOnlyLayout(tw: Tweak, t: Trait)
    requires Kind(tw) == LayoutEdit
    ensures UnchangedExcept(t, Apply(tw, t), {LayoutField})
  {
  }

  lemma ComplementTouchesFontLayoutColor(t: Trait)
    ensures UnchangedExcept(t, Apply(Complementary, t), {FontPriorityField, LayoutField, ColorPriorityField})
  {
  }

  lemma ElevationEditsTouchOnlyElevation(tw: Tweak, t: Trait)
    requires Kind(tw) == ElevationEdit
    ensures UnchangedExcept(t, Apply(tw, t), {ElevationField})
  {
  }

  lemma LayoutMultiplierEditsTouchOnlyIt(tw: Tweak, t: Trait)
    requires Kind(tw) == LayoutMultiplierEdit
    ensures UnchangedExcept(t, Apply(tw, t), Touched(Kind(tw)))
  {
  }

  lemma PaddingMultiplierEditsTouchOnlyIt(tw: Tweak, t: Trait)
    requires Kind(tw) == PaddingMultiplierEdit
    ensures UnchangedExcept(t, Apply(tw, t), Touched(Kind(tw)))
  {
  }

  lemma CornerRadiusMultiplierEditsTouchOnlyIt(tw: Tweak, t: Trait)
    requires Kind(tw) == CornerRadiusMultiplierEdit
    ensures UnchangedExcept(t, Apply(tw, t), Touched(Kind(tw)))
  {
  }

  lemma EdgesEditsTouchOnlyEdges(tw: Tweak, t: Trait)
    requires Kind(tw) == EdgesEdit
    ensures UnchangedExcept(t, Apply(tw, t), {PaddingEdgesField, MarginEdgesField})
  {
  }

  lemma OtherEditsTouchOnlyTheirField(tw: Tweak, t: Trait)
    requires Kind(tw) in {NoEdit, FontMixEdit, CanvasEdit, SchemeEdit}
    ensures UnchangedExcept(t, Apply(tw, t), Touched(Kind(tw)))
  {
  }

  /** Every tweak leaves every field outside those of its kind as it was. */
  lemma ApplyChangesOnlyTouched(tw: Tweak, t: Trait)
    ensures UnchangedExcept(t, Apply(tw, t), Touched(Kind(tw)))
  {
    match Kind(tw)
    case FontEdit => FontEditsTouchOnlyFontPriority(tw, t);
    case ColorEdit => ColorEditsTouchOnlyColor(tw, t);
    case ColorRotation => ColorEditsTouchOnlyColor(tw, t);
    case SurfaceEdit => SurfaceEditsTouchOnlySurface(tw, t);
    case LayoutEdit => LayoutEditsTouchOnlyLayout(tw, t);
    case ComplementEdit => ComplementTouchesFontLayoutColor(t);
    case ElevationEdit => ElevationEditsTouchOnlyElevation(tw, t);
    case LayoutMultiplierEdit => LayoutMultiplierEditsTouchOnlyIt(tw, t);
    case PaddingMultiplierEdit => PaddingMultiplierEditsTouchOnlyIt(tw, t);
    case CornerRadiusMultiplierEdit => CornerRadiusMultiplierEditsTouchOnlyIt(tw, t);
    case EdgesEdit => EdgesEditsTouchOnlyEdges(tw, t);
    case _ => OtherEditsTouchOnlyTheirField(tw, t);
  }

  // ---------------------------------------------------------------------
  // What the tweaks write
  // ---------------------------------------------------------------------

  /** The tweaks whose result depends on the field they write. */
  predicate IsRotation(tw: Tweak) {
    tw in {Complementary, ComplementarySurface, ComplementaryLayout, ComplementaryFont, ComplementaryColor}
  }

  /** Every other tweak assigns: applying it twice is applying it once. */
  lemma SettersIdempotent(tw: Tweak, t: Trait)
    requires !IsRotation(tw)
    ensures Apply(tw, Apply(tw, t)) == Apply(tw, t)
  {
  }

  /** The surface rotation is one cycle through all four surfaces. */
  lemma SurfaceRotationCycle(s: Surface)
    ensures NextSurface(NextSurface(NextSurface(NextSurface(s)))) == s
    ensures NextSurface(s) != s && NextSurface(NextSurface(s)) != s
    ensures NextSurface(NextSurface(NextSurface(s))) != s
  {
  }

  /** The priority rotation is one cycle through the three priorities. */
  lemma PriorityRotationCycle(p: Priority)
    ensures NextPriority(NextPriority(NextPriority(p))) == p
    ensures NextPriority(p) != p && NextPriority(NextPriority(p)) != p
  {
  }

  /** The layouts `complementaryLayout` names. */
  predicate RotatedLayout(l: Layout) {
    l in {LargeTitle, Title1, Headline, Subheadline, Body, Callout, Caption1, Footnote}
  }

  /** The layout rotation moves exactly the named layouts; within three
      steps it reaches body or callout, which it then swaps. */
  lemma LayoutRotationSettles(l: Layout)
    ensures NextLayout(l) == l <==> !RotatedLayout(l)
    ensures RotatedLayout(l) ==> NextLayout(NextLayout(NextLayout(l))) in {Body, Callout}
    ensures l in {Body, Callout} ==> NextLayout(l) in {Body, Callout} && NextLayout(NextLayout(l)) == l
  {
  }

  /** `elevationNormalOnCanvas` resets the elevation on a canvas and only there. */
  lemma NormalOnCanvas(t: Trait)
    ensures Apply(ElevationNormalOnCanvas, t).elevation
         == (if t.surface == Canvas then Elevation.Normal else t.elevation)
  {
  }

  /** `elevationInputSurface` reads the surface it leaves in place. */
  lemma InputSurfaceElevation(t: Trait)
    ensures Apply(ElevationInputSurface, t).elevation == InputElevation(t.surface)
    ensures Apply(ElevationInputSurface, t).surface == t.surface
  {
  }

  /** The padded edges each edge tweak selects. */
  function EdgesOf(tw: Tweak): set<Edge>
    requires Kind(tw) == EdgesEdit
  {
    match tw
    case EdgesNone => {}
    case EdgesVertical => VerticalEdges
    case EdgesHorizontal => HorizontalEdges
    case EdgesTop => {Top}
    case EdgesBottom => {Bottom}
    case EdgesLeading => {Leading}
    case EdgesTrailing => {Trailing}
  }

  /** Edge tweaks go through the `padding` observer, so the margin follows. */
  lemma EdgeTweaksCoupleMargin(tw: Tweak, t: Trait)
    requires Kind(tw) == EdgesEdit
    ensures Apply(tw, t).edges.padding == EdgesOf(tw)
    ensures Coupled(Apply(tw, t).edges)
  {
  }

  /** The scheme each scheme tweak prefers: light, dark, or none. */
  function SchemeOf(tw: Tweak): Option<Scheme>
    requires Kind(tw) == SchemeEdit
  {
    match tw
    case LightSpec => Some(Light)
    case DarkSpec => Some(Dark)
    case DefaultSpec => None
  }

  lemma SchemeTweaks(tw: Tweak, t: Trait)
    requires Kind(tw) == SchemeEdit
    ensures Apply(tw, t).preferredColorScheme == SchemeOf(tw)
  {
  }
}
