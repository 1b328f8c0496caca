/**
 * `Lux.Style` (Lux/Style/Lux+Effect.swift) and its presets
 * (Lux/API/FX+Styles.swift): a list of tweaks and a list of features,
 * the presets built from one another by list concatenation.
 */
module Styles {
  import opened CoreTypes
  import opened Traits
  import opened Tweaks
  import opened Features

  datatype Style = Style(tweaks: seq<Tweak>, features: seq<Feature>)

  /** `Style.Make` and `Style.MakeFeaturing`. */
  function Make(tweaks: seq<Tweak>, features: seq<Feature>): Style { Style(tweaks, features) }
  function MakeFeaturing(features: seq<Feature>): Style { Style([], features) }

  // Containers

  const NoStyle: Style := Make([], [])
  const OnPanel: Style := Make([ElevationNormal], [])
  const OnBar: Style := Make([ElevationAbove, ElevationNormalOnCanvas], [])
  const OnButton: Style := Make([ElevationAbove2x, ElevationNormalOnCanvas, SurfaceClearOnCanvas], [])
  const OnTextField: Style := Make([ElevationInputSurface], [])

  const Panel: Style :=
    Make(OnPanel.tweaks + [PaddingZero], [FlexibleWidth, BackgroundSurfaceComposition, ForegroundColor])
  const PanelWithBorder: Style := Make(Panel.tweaks, Panel.features + [PanelBorder])
  const Card: Style := Make(Panel.tweaks, Panel.features + [CornerRadius])
  const Bar: Style :=
    Make(OnBar.tweaks + [PaddingQuarter, CornerRadiusZero],
         [Padding, BackgroundSurfaceComposition, ForegroundColor, FlexibleWidth, BackgroundSurfaceComposition])

  // Elements

  const IconLarge: Style := MakeFeaturing([Padding, IconFixedSize])
  const ButtonLarge: Style :=
    Make(IconLarge.tweaks + OnButton.tweaks,
         [Padding, BackgroundSurfaceComposition, ForegroundColor, CornerRadius, Margin])
  const TextfieldLarge: Style :=
    Make(OnTextField.tweaks,
         [Padding, BackgroundSurfaceComposition, ForegroundColor, InputUnderline, CornerRadius, Margin])

  // Elements composed

  const Compact: Style := Make([PaddingHalf], [])
  const Icon: Style := Make(IconLarge.tweaks + Compact.tweaks, IconLarge.features)
  const Button: Style := Make(ButtonLarge.tweaks + Compact.tweaks, ButtonLarge.features)
  const Textfield: Style := Make(TextfieldLarge.tweaks + Compact.tweaks, TextfieldLarge.features)

  // Composable

  const Separator: Style := MakeFeaturing([SeparatorFrame])
  const Typography: Style := MakeFeaturing([ForegroundColor, FontTypography])
  const Text: Style := MakeFeaturing([FontTypography])
  const AccentColorStyle: Style := Make([AccentSurface], [ForegroundColor, FontTypography, AccentColor])
  const TouchesDisabled: Style := MakeFeaturing([DisabledHitTesting, EmptyContentShape])

  // Layout

  const LayoutBlock: Style := MakeFeaturing(Typography.features + [Padding])
  const LayoutElement: Style := Make([EdgesBottom], Typography.features + [Padding])
  const ParagraphStyle: Style := MakeFeaturing(Typography.features + [VerticallyFixed, Features.ParagraphPadding])
  const MultiParagraphBlock: Style := MakeFeaturing(Typography.features + [Padding])
  const ParagraphBlock: Style := MakeFeaturing(ParagraphStyle.features + MultiParagraphBlock.features)

  /** The trait a style's tweaks leave behind: `Style.render` applies them
      in order, the way `Trait.tweak(_:)` folds them. */
  function StyledTrait(t: Trait, s: Style): Trait {
    TweakFold(t, s.tweaks)
  }

  /** The compact element presets render as their large variants followed
      by halving the padding, with the same features. */
  lemma {:induction false} CompactIsLargeThenHalfPadding(t: Trait)
    ensures Icon.features == IconLarge.features && StyledTrait(t, Icon) == Apply(PaddingHalf, StyledTrait(t, IconLarge))
    ensures Button.features == ButtonLarge.features && StyledTrait(t, Button) == Apply(PaddingHalf, StyledTrait(t, ButtonLarge))
    ensures Textfield.features == TextfieldLarge.features
            && StyledTrait(t, Textfield) == Apply(PaddingHalf, StyledTrait(t, TextfieldLarge))
  {
    TweakFoldSnoc(t, IconLarge.tweaks, PaddingHalf);
    TweakFoldSnoc(t, ButtonLarge.tweaks, PaddingHalf);
    TweakFoldSnoc(t, TextfieldLarge.tweaks, PaddingHalf);
  }

  /** Every compact element ends with half the base padding, whatever
      the trait it started from. */
  lemma CompactPadding(t: Trait)
    ensures StyledTrait(t, Icon).multipliers.padding == Half
    ensures StyledTrait(t, Button).multipliers.padding == Half
    ensures StyledTrait(t, Textfield).multipliers.padding == Half
  {
    CompactIsLargeThenHalfPadding(t);
  }

  /** A panel sits at the normal elevation with no padding multiplier,
      the rest of the trait kept. */
  lemma {:induction false} PanelTrait(t: Trait)
    ensures StyledTrait(t, Panel) == t.(elevation := Elevation.Normal, multipliers := t.multipliers.(padding := Zero))
  {
    PanelTweaks();
    TweakFoldOfTwo(t, ElevationNormal, PaddingZero);
    LevelUnpadded(t);
  }

  lemma PanelTweaks()
    ensures Panel.tweaks == [ElevationNormal, PaddingZero]
  {
  }

  lemma LevelUnpadded(t: Trait)
    ensures Apply(PaddingZero, Apply(ElevationNormal, t))
            == t.(elevation := Elevation.Normal, multipliers := t.multipliers.(padding := Zero))
  {
  }

  /** The card and the bordered panel reuse the panel's tweaks, so they
      leave the same trait. */
  lemma CardTrait(t: Trait)
    ensures StyledTrait(t, Card) == t.(elevation := Elevation.Normal, multipliers := t.multipliers.(padding := Zero))
    ensures StyledTrait(t, PanelWithBorder) == StyledTrait(t, Card)
  {
    PanelTrait(t);
  }

  /** How the presets share their lists: `card` and `panelWithBorder` add
      one feature to `panel`'s, `buttonLarge` takes `onButton`'s tweaks
      (`iconLarge` has none), `bar` composes its background twice, and
      `paragraphBlock` is `paragraph` followed by `multiParagraphBlock`. */
  lemma PresetLists()
    ensures NoStyle.tweaks == [] && NoStyle.features == []
    ensures Panel.tweaks == [ElevationNormal, PaddingZero]
    ensures Panel.features == [FlexibleWidth, BackgroundSurfaceComposition, ForegroundColor]
    ensures Card.tweaks == Panel.tweaks && Card.features == Panel.features + [CornerRadius]
    ensures PanelWithBorder.tweaks == Panel.tweaks && PanelWithBorder.features == Panel.features + [PanelBorder]
    ensures IconLarge.tweaks == [] && ButtonLarge.tweaks == OnButton.tweaks
    ensures Compact.tweaks == [PaddingHalf] && Compact.features == []
    ensures Bar.features[1] == Bar.features[4] == BackgroundSurfaceComposition
    ensures ParagraphBlock.features == ParagraphStyle.features + MultiParagraphBlock.features
  {
  }
}
