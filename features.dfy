/**
 * `Lux.Feature` (Lux/Style/Lux+Features.swift): the view modifiers a `Lux`
 * can apply.  Most wrap the view once; six are composites that render a
 * fixed list of other features through `lux.feature(...)`, and `none` does
 * nothing.  The rendering itself is a method of `LuxCore.Lux`; this module
 * holds the enumeration and the expansion table.
 */
module Features {
  import opened Wrappers

  datatype Feature =
    | NoFeature   // `.none`
    // foreground colour
    | ForegroundColor | AccentColor
    // surface rendering
    | BackgroundSurfaceBase | BackgroundSurfaceComposition | BackgroundSurfaceWithForegroundColor
    | BackgroundSystemBlur
    // padding
    | Padding | Margin | HeaderPadding | BodyPadding | FooterPadding
    | HairlinePadding | HairlinePadding2x | ParagraphPadding
    // layout
    | Paragraph | ControlLayout
    // typography, icon, corner radius
    | FontTypography | IconFixedSize | CornerRadius
    // opacity, visibility
    | DisabledOpacity | InactiveOpacity | SecondaryOpacity | Invisible | Hidden
    // separators
    | SeparatorHeight | SeparatorFrame
    // utilities
    | PanelBorder | InputUnderline | Shadow | RectangularContentShape | EmptyContentShape
    | DisabledHitTesting
    // frames
    | FlexibleWidth | FlexibleHeight | FlexibleFrame | ScreenWidth | ScreenHeight | ScreenFrame
    // fixed size, aspect ratio
    | HorizontallyFixed | VerticallyFixed | FixedSize | FillAspectRatio | FitAspectRatio

  /** The six composites. */
  predicate IsComposite(f: Feature) {
    || f == BackgroundSurfaceWithForegroundColor || f == Paragraph || f == ControlLayout
    || f == SeparatorFrame || f == FlexibleFrame || f == ScreenFrame
  }

  /** The features a composite renders, in order; `None` for the others. */
  function Expansion(f: Feature): (r: Option<seq<Feature>>)
    ensures r.Some? <==> IsComposite(f)
  {
    if f == BackgroundSurfaceWithForegroundColor then Some([ForegroundColor, BackgroundSurfaceComposition])
    else if f == Paragraph then Some([ForegroundColor, FontTypography, ParagraphPadding])
    else if f == ControlLayout then Some([ForegroundColor, FontTypography, Padding])
    else if f == SeparatorFrame then Some([SeparatorHeight, FlexibleWidth])
    else if f == FlexibleFrame then Some([FlexibleWidth, FlexibleHeight])
    else if f == ScreenFrame then Some([ScreenWidth, ScreenHeight])
    else None
  }

  /** A feature that wraps the view in one modifier of its own. */
  predicate IsPrimitive(f: Feature) {
    f != NoFeature && !IsComposite(f)
  }

  /** Composites nest one level deep: what they expand to is primitive. */
  lemma ExpansionsArePrimitive(f: Feature)
    requires IsComposite(f)
    ensures |Expansion(f).value| >= 2
    ensures forall g :: g in Expansion(f).value ==> IsPrimitive(g)
  {
  }

  /** How far a feature is from the primitives: one for a composite. */
  function Rank(f: Feature): nat {
    if IsComposite(f) then 1 else 0
  }

  /** The largest rank in a list of features. */
  function MaxRank(fs: seq<Feature>): (r: nat)
    ensures forall i :: 0 <= i < |fs| ==> Rank(fs[i]) <= r
    ensures r <= 1
  {
    if exists i :: 0 <= i < |fs| && IsComposite(fs[i]) then 1 else 0
  }

  /** A list of primitives only. */
  lemma PrimitivesHaveRankZero(fs: seq<Feature>)
    requires forall g :: g in fs ==> IsPrimitive(g)
    ensures MaxRank(fs) == 0
  {
    if exists i :: 0 <= i < |fs| && IsComposite(fs[i]) {
      var i :| 0 <= i < |fs| && IsComposite(fs[i]);
      assert fs[i] in fs;
    }
  }
}
