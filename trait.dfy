/**
 * `Trait` (Lux/Trait/Trait.swift): the style record that every Lux view
 * carries — the layout, surface, elevation, font and colour priorities, the
 * font mix, an optional preferred scheme, overrides, multipliers and edges.
 */
module Traits {
  import opened Wrappers
  import opened CoreTypes
  import opened Specs

  /** `Trait.Canvas`: how a canvas surface is drawn. */
  datatype Canvas = SurfaceMode | ClearMode

  /** `Trait.AdjustmentValues`: factors applied to layout sizes, corner radii and padding. */
  datatype AdjustmentValues = AdjustmentValues(layout: real, cornerRadius: real, padding: real)

  const DefaultMultipliers: AdjustmentValues := AdjustmentValues(1.0, 1.0, 1.0)

  /** `Trait.AdjustmentEdges`: the edges that get padding and those that get a margin. */
  datatype AdjustmentEdges = AdjustmentEdges(padding: set<Edge>, margin: set<Edge>)

  const DefaultEdges: AdjustmentEdges := AdjustmentEdges(AllEdges, AllEdges)

  /** The edges keep margin and padding on the same sides. */
  predicate Coupled(e: AdjustmentEdges) {
    e.margin == e.padding
  }

  /** Assigning `padding`: its `didSet` copies the new value into `margin`,
      whatever the margin was before. */
  function SetPadding(e: AdjustmentEdges, padding: set<Edge>): (r: AdjustmentEdges)
    ensures r.padding == padding
    ensures Coupled(r)
  {
    e.(padding := padding, margin := padding)
  }

  datatype Trait = Trait(
    preferredLightSpec: Option<Specification>,
    preferredDarkSpec: Option<Specification>,
    layout: Layout,
    surface: Surface,
    fontPriority: Priority,
    colorPriority: Priority,
    fontOverride: Option<Font>,
    colorOverride: Option<Color>,
    elevation: Elevation,
    canvasRenderMode: Canvas,
    preferredFontMix: FontMix,
    preferredColorScheme: Option<Scheme>,
    surfaceIgnoresSafeArea: bool,
    multipliers: AdjustmentValues,
    edges: AdjustmentEdges)

  /** `Trait.init`: every argument is given explicitly here (the Swift
      defaults read the current look; `Looks.TraitOf` supplies them).
      The one optional specification serves both schemes; the properties
      without an initialiser parameter start from their declared values. */
  function MakeTrait(spec: Option<Specification>, layout: Layout, surface: Surface,
                     fontPriority: Priority, colorPriority: Priority, fontMix: FontMix,
                     preferredElevation: Elevation, preferredFont: Option<Font>,
                     preferredColor: Option<Color>): (t: Trait)
    ensures t.preferredLightSpec == spec && t.preferredDarkSpec == spec
    ensures t.layout == layout && t.surface == surface
    ensures t.fontPriority == fontPriority && t.colorPriority == colorPriority
    ensures t.preferredFontMix == fontMix && t.elevation == preferredElevation
    ensures t.fontOverride == preferredFont && t.colorOverride == preferredColor
    ensures t.canvasRenderMode == SurfaceMode && t.surfaceIgnoresSafeArea
    ensures t.preferredColorScheme.None?
    ensures t.multipliers == AdjustmentValues(1.0, 1.0, 1.0)
    ensures t.edges.padding == AllEdges && Coupled(t.edges)
  {
    Trait(spec, spec, layout, surface, fontPriority, colorPriority, preferredFont, preferredColor,
          preferredElevation, SurfaceMode, fontMix, None, true, DefaultMultipliers, DefaultEdges)
  }

  /** The values `hash(into:)` combines, in order.  A specification
      contributes through its own hash, taken here as the value itself. */
  datatype HashInput = HashInput(
    layout: Layout, surface: Surface, canvasRenderMode: Canvas,
    fontPriority: Priority, colorPriority: Priority,
    lightSpec: Option<Specification>, darkSpec: Option<Specification>,
    fontOverride: Option<Font>, colorOverride: Option<Color>,
    fontMix: FontMix, colorScheme: Option<Scheme>)

  function HashInputOf(t: Trait): HashInput {
    HashInput(t.layout, t.surface, t.canvasRenderMode, t.fontPriority, t.colorPriority,
              t.preferredLightSpec, t.preferredDarkSpec, t.fontOverride, t.colorOverride,
              t.preferredFontMix, t.preferredColorScheme)
  }

  /** `==`: two traits are equal when their hashes are, that is (hash
      collisions aside) when everything the hash combines is equal. */
  ghost predicate TraitEq(a: Trait, b: Trait) {
    HashInputOf(a) == HashInputOf(b)
  }

  /** The four properties the hash leaves out. */
  function WithUnhashedOf(a: Trait, b: Trait): Trait {
    a.(elevation := b.elevation, surfaceIgnoresSafeArea := b.surfaceIgnoresSafeArea,
       multipliers := b.multipliers, edges := b.edges)
  }

  /** Trait equality ignores exactly the elevation, `surfaceIgnoresSafeArea`,
      the multipliers and the edges: two traits are equal if and only if they
      agree once those four are taken from one of them. */
  lemma TraitEqIgnoresExactlyUnhashed(a: Trait, b: Trait)
    ensures TraitEq(a, b) <==> WithUnhashedOf(a, b) == b
  {
    if TraitEq(a, b) {
      assert HashInputOf(a).layout == HashInputOf(b).layout;
    }
  }
}
