/**
 * The `Trait` operators (Lux/Trait/Trait+Operators.swift): applying one
 * tweak or a list of them, the `preferred*` overrides, the repeated
 * complements and `multiply`.  The variadic `tweak` and the
 * `complementary*(level:)` loops are methods proved against closed forms.
 */
module TraitOperators {
  import opened Wrappers
  import opened CoreTypes
  import opened Traits
  import opened Tweaks

  /** `_tweak(as:)`: one tweak, applied to this trait. */
  function TweakAs(t: Trait, tw: Tweak): Trait {
    Apply(tw, t)
  }

  /** `tweak(_:)`: the accumulator takes each tweak in turn. */
  method Tweak(t: Trait, tweaks: seq<Tweak>) returns (r: Trait)
    ensures r == TweakFold(t, tweaks)
  {
    r := t;
    for i := 0 to |tweaks|
      invariant r == TweakFold(t, tweaks[..i])
    {
      assert tweaks[..i + 1][..i] == tweaks[..i];
      r := TweakAs(r, tweaks[i]);
    }
    assert tweaks[..|tweaks|] == tweaks;
  }

  /** No tweaks leave the trait as it is; one tweak is `_tweak`. */
  lemma TweakFoldShort(t: Trait, tw: Tweak)
    ensures TweakFold(t, []) == t
    ensures TweakFold(t, [tw]) == TweakAs(t, tw)
  {
    assert [tw][..0] == [];
  }

  // ---------------------------------------------------------------------
  // External preferences
  // ---------------------------------------------------------------------

  /** `preferred(color:)`: sets the colour override, `nil` included. */
  function PreferredColor(t: Trait, color: Option<Color>): (r: Trait)
    ensures r.colorOverride == color && UnchangedExcept(t, r, {ColorOverrideField})
  {
    t.(colorOverride := color)
  }

  /** `preferred(font:)`: sets the font override. */
  function PreferredFont(t: Trait, font: Font): (r: Trait)
    ensures r.fontOverride == Some(font) && UnchangedExcept(t, r, {FontOverrideField})
  {
    t.(fontOverride := Some(font))
  }

  /** `preferred(surface:)`. */
  function PreferredSurface(t: Trait, surface: Surface): (r: Trait)
    ensures r.surface == surface && UnchangedExcept(t, r, {SurfaceField})
  {
    t.(surface := surface)
  }

  /** `preferred(layout:)`. */
  function PreferredLayout(t: Trait, layout: Layout): (r: Trait)
    ensures r.layout == layout && UnchangedExcept(t, r, {LayoutField})
  {
    t.(layout := layout)
  }

  // ---------------------------------------------------------------------
  // multiply
  // ---------------------------------------------------------------------

  /** The key paths into `AdjustmentValues`. */
  datatype MultiplierKey = LayoutKey | CornerRadiusKey | PaddingKey

  function MultiplierAt(m: AdjustmentValues, key: MultiplierKey): real {
    match key
    case LayoutKey => m.layout
    case CornerRadiusKey => m.cornerRadius
    case PaddingKey => m.padding
  }

  function MultiplierField(key: MultiplierKey): TraitField {
    match key
    case LayoutKey => LayoutMultiplierField
    case CornerRadiusKey => CornerRadiusMultiplierField
    case PaddingKey => PaddingMultiplierField
  }

  /** `multiply(_:_:)`: despite its name it stores `value` in the chosen
      multiplier rather than multiplying by it. */
  function Multiply(t: Trait, key: MultiplierKey, value: real): (r: Trait)
    ensures MultiplierAt(r.multipliers, key) == value
    ensures UnchangedExcept(t, r, {MultiplierField(key)})
  {
    match key
    case LayoutKey => t.(multipliers := t.multipliers.(layout := value))
    case CornerRadiusKey => t.(multipliers := t.multipliers.(cornerRadius := value))
    case PaddingKey => t.(multipliers := t.multipliers.(padding := value))
  }

  // ---------------------------------------------------------------------
  // Repeated rotations
  // ---------------------------------------------------------------------

  function SurfaceSteps(s: Surface, n: nat): Surface {
    if n == 0 then s else NextSurface(SurfaceSteps(s, n - 1))
  }

  function PrioritySteps(p: Priority, n: nat): Priority {
    if n == 0 then p else NextPriority(PrioritySteps(p, n - 1))
  }

  function LayoutSteps(l: Layout, n: nat): Layout {
    if n == 0 then l else NextLayout(LayoutSteps(l, n - 1))
  }

  lemma {:induction false} SurfaceStepsShift(s: Surface, n: nat)
    ensures SurfaceSteps(s, n + 4) == SurfaceSteps(s, n)
  {
    if n == 0 {
      SurfaceRotationCycle(s);
      assert SurfaceSteps(s, 4) == NextSurface(NextSurface(NextSurface(NextSurface(s))));
    } else {
      SurfaceStepsShift(s, n - 1);
    }
  }

  /** Four surface rotations are the identity. */
  lemma {:induction false} SurfaceStepsPeriod(s: Surface, n: nat)
    ensures SurfaceSteps(s, n) == SurfaceSteps(s, n % 4)
    decreases n
  {
    if n >= 4 {
      SurfaceStepsShift(s, n - 4);
      SurfaceStepsPeriod(s, n - 4);
    }
  }

  lemma {:induction false} PriorityStepsShift(p: Priority, n: nat)
    ensures PrioritySteps(p, n + 3) == PrioritySteps(p, n)
  {
    if n == 0 {
      PriorityRotationCycle(p);
      assert PrioritySteps(p, 3) == NextPriority(NextPriority(NextPriority(p)));
    } else {
      PriorityStepsShift(p, n - 1);
    }
  }

  /** Three priority rotations are the identity. */
  lemma {:induction false} PriorityStepsPeriod(p: Priority, n: nat)
    ensures PrioritySteps(p, n) == PrioritySteps(p, n % 3)
    decreases n
  {
    if n >= 3 {
      PriorityStepsShift(p, n - 3);
      PriorityStepsPeriod(p, n - 3);
    }
  }

  lemma LayoutStep(l: Layout, n: nat)
    ensures LayoutSteps(l, n + 1) == NextLayout(LayoutSteps(l, n))
  {
  }

  /** From the third rotation on, the layout alternates with period two. */
  lemma {:induction false} LayoutStepsAlternate(l: Layout, n: nat)
    requires n >= 3
    ensures LayoutSteps(l, n + 2) == LayoutSteps(l, n)
  {
    if n == 3 {
      var l1 := LayoutSteps(l, 1);
      var l2 := LayoutSteps(l, 2);
      var l3 := LayoutSteps(l, 3);
      var l4 := LayoutSteps(l, 4);
      LayoutStep(l, 0);
      LayoutStep(l, 1);
      LayoutStep(l, 2);
      LayoutStep(l, 3);
      LayoutStep(l, 4);
      LayoutRotationSettles(l);
      LayoutRotationSettles(l3);
      if !RotatedLayout(l) {
        assert l1 == l && l2 == l && l3 == l;
      }
    } else {
      LayoutStepsAlternate(l, n - 1);
    }
  }

  // ---------------------------------------------------------------------
  // complementary*(level:)
  // ---------------------------------------------------------------------

  /** `complementarySurface(level:)`; a negative level traps in `0 ..< level`. */
  method ComplementarySurfaceLevel(t: Trait, level: int) returns (r: Trait)
    requires level >= 0
    ensures r == t.(surface := SurfaceSteps(t.surface, level % 4))
  {
    r := t;
    for i := 0 to level
      invariant r == t.(surface := SurfaceSteps(t.surface, i))
    {
      TweakFoldShort(r, ComplementarySurface);
      r := Tweak(r, [ComplementarySurface]);
    }
    SurfaceStepsPeriod(t.surface, level);
  }

  /** `complementaryFont(level:)`. */
  method ComplementaryFontLevel(t: Trait, level: int) returns (r: Trait)
    requires level >= 0
    ensures r == t.(fontPriority := PrioritySteps(t.fontPriority, level % 3))
  {
    r := t;
    for i := 0 to level
      invariant r == t.(fontPriority := PrioritySteps(t.fontPriority, i))
    {
      TweakFoldShort(r, ComplementaryFont);
      r := Tweak(r, [ComplementaryFont]);
    }
    PriorityStepsPeriod(t.fontPriority, level);
  }

  /** `complementaryColor(level:)`. */
  method ComplementaryColorLevel(t: Trait, level: int) returns (r: Trait)
    requires level >= 0
    ensures r == t.(colorPriority := PrioritySteps(t.colorPriority, level % 3))
  {
    r := t;
    for i := 0 to level
      invariant r == t.(colorPriority := PrioritySteps(t.colorPriority, i))
    {
      TweakFoldShort(r, ComplementaryColor);
      r := Tweak(r, [ComplementaryColor]);
    }
    PriorityStepsPeriod(t.colorPriority, level);
  }

  /** `complementaryLayout(level:)`. */
  method ComplementaryLayoutLevel(t: Trait, level: int) returns (r: Trait)
    requires level >= 0
    ensures r == t.(layout := LayoutSteps(t.layout, level))
  {
    r := t;
    for i := 0 to level
      invariant r == t.(layout := LayoutSteps(t.layout, i))
    {
      TweakFoldShort(r, ComplementaryLayout);
      r := Tweak(r, [ComplementaryLayout]);
    }
  }

  /** One round of `complementary(level:)`. */
  lemma ComplementaryRound(t: Trait)
    ensures TweakFold(t, [Complementary, ComplementarySurface])
         == t.(fontPriority := NextPriority(t.fontPriority), layout := NextLayout(t.layout),
               colorPriority := NextPriority(t.colorPriority), surface := NextSurface(t.surface))
  {
    TweakFoldOfTwo(t, Complementary, ComplementarySurface);
    ApplyComplementary(t);
    ApplySurfaceRotation(RotateColor(RotateLayout(RotateFont(t))));
  }

  /** `complementary(level:)`: each round is `.complementary` then
      `.complementarySurface`, so every round rotates font, layout, colour
      and surface once. */
  method ComplementaryLevel(t: Trait, level: int) returns (r: Trait)
    requires level >= 0
    ensures r == t.(fontPriority := PrioritySteps(t.fontPriority, level % 3),
                    layout := LayoutSteps(t.layout, level),
                    colorPriority := PrioritySteps(t.colorPriority, level % 3),
                    surface := SurfaceSteps(t.surface, level % 4))
  {
    r := t;
    for i := 0 to level
      invariant r == t.(fontPriority := PrioritySteps(t.fontPriority, i),
                        layout := LayoutSteps(t.layout, i),
                        colorPriority := PrioritySteps(t.colorPriority, i),
                        surface := SurfaceSteps(t.surface, i))
    {
      ComplementaryRound(r);
      r := Tweak(r, [Complementary, ComplementarySurface]);
    }
    PriorityStepsPeriod(t.fontPriority, level);
    PriorityStepsPeriod(t.colorPriority, level);
    SurfaceStepsPeriod(t.surface, level);
  }
}
