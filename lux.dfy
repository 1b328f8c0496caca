/**
 * The `Lux` object (Lux/Core/Lux.swift) and the composition pipeline that
 * acts on it: the configuration calls (Lux/Core/Lux+Config.swift), the
 * render and control-flow protocols (Lux/Core/Lux+Protocols.swift), the
 * rendering of tweaks, features and styles (Lux/Style/Lux+Tweaks.swift,
 * Lux/Style/Lux+Features.swift).
 *
 * A `Lux` holds a view, a trait and two append-only logs.  A SwiftUI view
 * is kept as the trace of what built it: the view it started from and,
 * around it, one `Modified` layer per primitive feature rendered, with the
 * trait that feature read.  Blocks handed in by callers are functions of
 * the view (and trait) they are given.
 */
module LuxCore {
  import opened Wrappers
  import opened CoreTypes
  import opened Traits
  import opened Tweaks
  import opened Features
  import Styles

  /** `AnyView`, as the trace of what built it. */
  datatype View =
    | Content(id: nat)                                        // a view handed to `Lux`
    | EmptyView                                               // `EmptyView().anyView()`
    | Modified(inner: View, feature: Feature, readTrait: Trait)   // one primitive feature's modifier

  /** How many modifiers wrap the view that was handed in. */
  function Depth(v: View): nat {
    if v.Modified? then 1 + Depth(v.inner) else 0
  }

  /** `UIDevice.current.userInterfaceIdiom`. */
  datatype Idiom = Unspecified | Phone | Pad | TV | CarPlay | Mac

  // ---------------------------------------------------------------------
  // What rendering features does to the view and to `_features`
  // ---------------------------------------------------------------------

  /** Primitive features, each wrapping the view once, in order. */
  function WrapAll(v: View, t: Trait, fs: seq<Feature>): (r: View)
    ensures Depth(r) == Depth(v) + |fs|
  {
    if |fs| == 0 then v else Modified(WrapAll(v, t, fs[..|fs| - 1]), fs[|fs| - 1], t)
  }

  /** `Feature.render(to:)` on the view: nothing for `none`, one modifier for
      a primitive, the modifiers of its parts for a composite. */
  function RenderedView(v: View, t: Trait, f: Feature): View {
    if f == NoFeature then v
    else if IsComposite(f) then WrapAll(v, t, Expansion(f).value)
    else Modified(v, f, t)
  }

  /** `Feature.render(to:)` on `_features`: a composite goes through
      `lux.feature(...)`, which logs its parts; nothing else logs. */
  function RenderLog(f: Feature): seq<Feature> {
    if IsComposite(f) then Expansion(f).value else []
  }

  /** `_feature(as:)` on `_features`: the feature itself, then what rendering it logs. */
  function FeatureLog(f: Feature): seq<Feature> {
    [f] + RenderLog(f)
  }

  /** Several features rendered in order. */
  function FeaturesView(v: View, t: Trait, fs: seq<Feature>): View {
    if |fs| == 0 then v else RenderedView(FeaturesView(v, t, fs[..|fs| - 1]), t, fs[|fs| - 1])
  }

  /** What `Style.render` logs for its features: only the composites' parts. */
  function RenderLogs(fs: seq<Feature>): seq<Feature> {
    if |fs| == 0 then [] else RenderLogs(fs[..|fs| - 1]) + RenderLog(fs[|fs| - 1])
  }

  /** What `feature(_:...)` logs: every feature and the parts of the composites. */
  function FeatureLogs(fs: seq<Feature>): seq<Feature> {
    if |fs| == 0 then [] else FeatureLogs(fs[..|fs| - 1]) + FeatureLog(fs[|fs| - 1])
  }

  /** How many modifiers a feature adds. */
  function Weight(f: Feature): nat {
    if f == NoFeature then 0 else if IsComposite(f) then |Expansion(f).value| else 1
  }

  function Weights(fs: seq<Feature>): nat {
    if |fs| == 0 then 0 else Weights(fs[..|fs| - 1]) + Weight(fs[|fs| - 1])
  }

  /** One more feature rendered after a prefix of a list. */
  lemma FeaturesStep(v: View, t: Trait, fs: seq<Feature>, i: nat)
    requires i < |fs|
    ensures FeaturesView(v, t, fs[..i + 1]) == RenderedView(FeaturesView(v, t, fs[..i]), t, fs[i])
    ensures FeatureLogs(fs[..i + 1]) == FeatureLogs(fs[..i]) + FeatureLog(fs[i])
    ensures RenderLogs(fs[..i + 1]) == RenderLogs(fs[..i]) + RenderLog(fs[i])
  {
    assert fs[..i + 1][..i] == fs[..i];
  }

  /** A log extended twice is the log extended by both. */
  lemma LogAppend(log: seq<Feature>, logged: seq<Feature>, more: seq<Feature>)
    ensures log + logged + more == log + (logged + more)
  {
  }

  /** Rendering features adds exactly their weight in modifiers around the view. */
  lemma {:induction false} FeaturesViewDepth(v: View, t: Trait, fs: seq<Feature>)
    ensures Depth(FeaturesView(v, t, fs)) == Depth(v) + Weights(fs)
    decreases |fs|
  {
    if |fs| > 0 {
      FeaturesViewDepth(v, t, fs[..|fs| - 1]);
    }
  }

  /** Primitive features rendered one by one wrap the view exactly as a
      composite made of them does. */
  lemma {:induction false} PrimitivesViewIsWrapAll(v: View, t: Trait, fs: seq<Feature>)
    requires forall g :: g in fs ==> IsPrimitive(g)
    ensures FeaturesView(v, t, fs) == WrapAll(v, t, fs)
    decreases |fs|
  {
    if |fs| > 0 {
      var init := fs[..|fs| - 1];
      assert forall g :: g in init ==> g in fs;
      assert fs[|fs| - 1] in fs;
      PrimitivesViewIsWrapAll(v, t, init);
    }
  }

  /** A primitive feature logs only itself. */
  lemma PrimitiveLogsItself(f: Feature)
    requires IsPrimitive(f)
    ensures RenderLog(f) == [] && FeatureLog(f) == [f]
  {
  }

  /** Every feature of a list of primitives but the last is primitive. */
  lemma PrimitivesInit(fs: seq<Feature>)
    requires |fs| > 0 && forall g :: g in fs ==> IsPrimitive(g)
    ensures forall g :: g in fs[..|fs| - 1] ==> IsPrimitive(g)
    ensures IsPrimitive(fs[|fs| - 1])
  {
    assert forall g :: g in fs[..|fs| - 1] ==> g in fs;
    assert fs[|fs| - 1] in fs;
  }

  /** Primitive features, logged as they render, log themselves and nothing else. */
  lemma {:induction false} PrimitivesLogThemselves(fs: seq<Feature>)
    requires forall g :: g in fs ==> IsPrimitive(g)
    ensures FeatureLogs(fs) == fs
    decreases |fs|
  {
    if |fs| > 0 {
      var init, last := fs[..|fs| - 1], fs[|fs| - 1];
      PrimitivesInit(fs);
      PrimitivesLogThemselves(init);
      PrimitiveLogsItself(last);
      assert fs == init + [last];
    }
  }

  /** Primitive features rendered unlogged log nothing. */
  lemma {:induction false} PrimitivesRenderUnlogged(fs: seq<Feature>)
    requires forall g :: g in fs ==> IsPrimitive(g)
    ensures RenderLogs(fs) == []
    decreases |fs|
  {
    if |fs| > 0 {
      PrimitivesInit(fs);
      PrimitivesRenderUnlogged(fs[..|fs| - 1]);
      PrimitiveLogsItself(fs[|fs| - 1]);
    }
  }

  /** Rendering a list of features logs, besides the features themselves,
      exactly what rendering them without logging would. */
  lemma {:induction false} FeatureLogsLength(fs: seq<Feature>)
    ensures |FeatureLogs(fs)| == |fs| + |RenderLogs(fs)|
    decreases |fs|
  {
    if |fs| > 0 {
      FeatureLogsLength(fs[..|fs| - 1]);
    }
  }

  /** `_feature` logs a layout composite and then its parts. */
  lemma LayoutCompositeLogs()
    ensures FeatureLog(Paragraph) == [Paragraph, ForegroundColor, FontTypography, Features.ParagraphPadding]
    ensures FeatureLog(ControlLayout) == [ControlLayout, ForegroundColor, FontTypography, Padding]
    ensures FeatureLog(BackgroundSurfaceWithForegroundColor)
            == [BackgroundSurfaceWithForegroundColor, ForegroundColor, BackgroundSurfaceComposition]
  {
  }

  /** `_feature` logs a frame composite and then its parts. */
  lemma FrameCompositeLogs()
    ensures FeatureLog(SeparatorFrame) == [SeparatorFrame, SeparatorHeight, FlexibleWidth]
    ensures FeatureLog(FlexibleFrame) == [FlexibleFrame, FlexibleWidth, FlexibleHeight]
    ensures FeatureLog(ScreenFrame) == [ScreenFrame, ScreenWidth, ScreenHeight]
  {
  }

  /** `none` is logged and renders nothing. */
  lemma NoFeatureRendersNothing(v: View, t: Trait)
    ensures FeatureLog(NoFeature) == [NoFeature]
    ensures RenderedView(v, t, NoFeature) == v
  {
  }

  // ---------------------------------------------------------------------
  // The state of a `Lux` and what each call makes of it
  // ---------------------------------------------------------------------

  datatype LuxState = LuxState(view: View, traitValue: Trait, tweaks: seq<Tweak>, features: seq<Feature>)

  /** `_tweak(as:)`. */
  function WithTweak(st: LuxState, tw: Tweak): LuxState {
    st.(traitValue := Apply(tw, st.traitValue), tweaks := st.tweaks + [tw])
  }

  /** `Style.render(to:)`: the tweaks, unlogged, then the features,
      unlogged, rendered with the trait the tweaks leave. */
  function Styled(st: LuxState, s: Styles.Style): LuxState {
    var t := TweakFold(st.traitValue, s.tweaks);
    st.(traitValue := t, view := FeaturesView(st.view, t, s.features), features := st.features + RenderLogs(s.features))
  }

  /** `style(_:...)`: each style rendered in order. */
  function StyledAll(st: LuxState, ss: seq<Styles.Style>): LuxState {
    if |ss| == 0 then st else Styled(StyledAll(st, ss[..|ss| - 1]), ss[|ss| - 1])
  }

  /** Rendering a style changes the trait only through its tweaks, never
      logs a tweak, and logs only the parts of its composite features. */
  lemma StyledKeepsTweakLog(st: LuxState, s: Styles.Style)
    ensures Styled(st, s).tweaks == st.tweaks
    ensures Styled(st, s).traitValue == Styles.StyledTrait(st.traitValue, s)
    ensures Depth(Styled(st, s).view) == Depth(st.view) + Weights(s.features)
  {
    FeaturesViewDepth(st.view, TweakFold(st.traitValue, s.tweaks), s.features);
  }

  /** A style whose features are all primitive logs nothing when rendered
      and wraps the view once per feature. */
  lemma StyledPrimitives(st: LuxState, s: Styles.Style)
    requires forall g :: g in s.features ==> IsPrimitive(g)
    ensures Styled(st, s).features == st.features
    ensures Depth(Styled(st, s).view) == Depth(st.view) + |s.features|
  {
    PrimitivesRenderUnlogged(s.features);
    PrimitivesViewIsWrapAll(st.view, TweakFold(st.traitValue, s.tweaks), s.features);
  }

  /** A button is built from primitive features only, so by
      `StyledPrimitives` rendering it logs nothing and adds five modifiers. */
  lemma ButtonIsPrimitive()
    ensures |Styles.Button.features| == 5
    ensures forall g :: g in Styles.Button.features ==> IsPrimitive(g)
  {
    assert Styles.Button.features == [Padding, BackgroundSurfaceComposition, ForegroundColor, CornerRadius, Margin];
  }

  // ---------------------------------------------------------------------
  // The object
  // ---------------------------------------------------------------------

  class Lux {
    var view: View
    var traitValue: Trait
    var tweaks: seq<Tweak>      // `_tweaks`
    var features: seq<Feature>  // `_features`
    var hasUIView: bool         // `_uiView != nil`

    function State(): LuxState
      reads this
    {
      LuxState(view, traitValue, tweaks, features)
    }

    /** `init(_:trait:)`: the given view and trait, empty logs. */
    constructor(view: View, traitValue: Trait)
      ensures State() == LuxState(view, traitValue, [], []) && !hasUIView
    {
      this.view := view;
      this.traitValue := traitValue;
      tweaks := [];
      features := [];
      hasUIView := false;
    }

    /** `init(uiView:trait:)`: an empty placeholder view. */
    constructor WithUIView(traitValue: Trait)
      ensures State() == LuxState(EmptyView, traitValue, [], []) && hasUIView
    {
      this.traitValue := traitValue;
      view := EmptyView;
      tweaks := [];
      features := [];
      hasUIView := true;
    }

    /** `append(tweak:)`. */
    method AppendTweak(tw: Tweak)
      modifies this
      ensures State() == old(State()).(tweaks := old(tweaks) + [tw])
      ensures hasUIView == old(hasUIView)
    {
      tweaks := tweaks + [tw];
    }

    /** `append(feature:)`. */
    method AppendFeature(f: Feature)
      modifies this
      ensures State() == old(State()).(features := old(features) + [f])
      ensures hasUIView == old(hasUIView)
    {
      features := features + [f];
    }

    /** `setView`. */
    method SetView(v: View)
      modifies this
      ensures State() == old(State()).(view := v)
      ensures hasUIView == old(hasUIView)
    {
      view := v;
    }

    /** `viewMutation`: the block's result replaces the view; nothing else changes. */
    method ViewMutation(block: View -> View)
      modifies this
      ensures State() == old(State()).(view := block(old(view)))
      ensures hasUIView == old(hasUIView)
    {
      var current := view;
      view := block(current);
    }

    /** `viewBlock`. */
    method ViewBlock(block: View -> View)
      modifies this
      ensures State() == old(State()).(view := block(old(view)))
      ensures hasUIView == old(hasUIView)
    {
      ViewMutation(block);
    }

    /** `traitMutation`: the block's result replaces the trait; nothing else changes. */
    method TraitMutation(block: Trait -> Trait)
      modifies this
      ensures State() == old(State()).(traitValue := block(old(traitValue)))
      ensures hasUIView == old(hasUIView)
    {
      var current := traitValue;
      traitValue := block(current);
    }

    /** `trait(_:)`: the trait replaced wholesale. */
    method SetTrait(t: Trait)
      modifies this
      ensures State() == old(State()).(traitValue := t)
      ensures hasUIView == old(hasUIView)
    {
      TraitMutation(_ => t);
    }

    /** `Tweak.render(to:)`: the tweak applied to the trait, unlogged. */
    method RenderTweak(tw: Tweak)
      modifies this
      ensures State() == old(State()).(traitValue := Apply(tw, old(traitValue)))
      ensures hasUIView == old(hasUIView)
    {
      TraitMutation(t => Apply(tw, t));
    }

    /** `_tweak(as:)`: logged, then rendered. */
    method TweakAs(tw: Tweak)
      modifies this
      ensures State() == WithTweak(old(State()), tw)
      ensures hasUIView == old(hasUIView)
    {
      AppendTweak(tw);
      RenderTweak(tw);
    }

    /** `tweak(_:...)`: each tweak, logged and applied, left to right. */
    method TweakEach(tws: seq<Tweak>)
      modifies this
      ensures State() == old(State()).(traitValue := TweakFold(old(traitValue), tws), tweaks := old(tweaks) + tws)
      ensures hasUIView == old(hasUIView)
    {
      var i := 0;
      while i < |tws|
        invariant 0 <= i <= |tws|
        invariant State() == old(State()).(traitValue := TweakFold(old(traitValue), tws[..i]), tweaks := old(tweaks) + tws[..i])
        invariant hasUIView == old(hasUIView)
      {
        TweakAs(tws[i]);
        assert tws[..i + 1] == tws[..i] + [tws[i]];
        TweakFoldSnoc(old(traitValue), tws[..i], tws[i]);
        i := i + 1;
      }
      assert tws[..i] == tws;
    }

    /** `_tweakBlock`: the mutator's result becomes the trait. */
    method TweakBlock(mutator: Trait -> Trait)
      modifies this
      ensures State() == old(State()).(traitValue := mutator(old(traitValue)))
      ensures hasUIView == old(hasUIView)
    {
      TraitMutation(t => mutator(t));
    }

    /** `_renderBlock`: the block's view, when it returns one, replaces the view. */
    method RenderBlock(block: (View, Trait) -> Option<View>)
      modifies this
      ensures block(old(view), old(traitValue)).Some? ==> State() == old(State()).(view := block(old(view), old(traitValue)).value)
      ensures block(old(view), old(traitValue)).None? ==> State() == old(State())
      ensures hasUIView == old(hasUIView)
    {
      var result := block(view, traitValue);
      if result.Some? {
        view := result.value;
      }
    }

    /** `Feature.render(to:)`. */
    method RenderFeature(f: Feature)
      modifies this
      ensures view == RenderedView(old(view), old(traitValue), f)
      ensures features == old(features) + RenderLog(f)
      ensures traitValue == old(traitValue) && tweaks == old(tweaks) && hasUIView == old(hasUIView)
      decreases Rank(f), 1
    {
      if f == NoFeature {
      } else if IsComposite(f) {
        RenderComposite(f);
      } else {
        var t := traitValue;
        ViewMutation(v => Modified(v, f, t));
      }
    }

    /** A composite's branch of `Feature.render(to:)`: its parts go through
        `lux.feature(...)`, logged and rendered one by one. */
    method RenderComposite(f: Feature)
      requires IsComposite(f)
      modifies this
      ensures view == WrapAll(old(view), old(traitValue), Expansion(f).value)
      ensures features == old(features) + Expansion(f).value
      ensures traitValue == old(traitValue) && tweaks == old(tweaks) && hasUIView == old(hasUIView)
      decreases Rank(f), 0
    {
      var parts := Expansion(f).value;
      ExpansionsArePrimitive(f);
      PrimitivesHaveRankZero(parts);
      FeatureEach(parts);
      PrimitivesViewIsWrapAll(old(view), old(traitValue), parts);
      PrimitivesLogThemselves(parts);
    }

    /** `_feature(as:)`: logged, then rendered. */
    method FeatureAs(f: Feature)
      modifies this
      ensures view == RenderedView(old(view), old(traitValue), f)
      ensures features == old(features) + FeatureLog(f)
      ensures traitValue == old(traitValue) && tweaks == old(tweaks) && hasUIView == old(hasUIView)
      decreases Rank(f), 2
    {
      AppendFeature(f);
      RenderFeature(f);
    }

    /** `feature(_:...)`: each feature, logged and rendered, left to right. */
    method FeatureEach(fs: seq<Feature>)
      modifies this
      ensures view == FeaturesView(old(view), old(traitValue), fs)
      ensures features == old(features) + FeatureLogs(fs)
      ensures traitValue == old(traitValue) && tweaks == old(tweaks) && hasUIView == old(hasUIView)
      decreases MaxRank(fs), 3
    {
      var i := 0;
      while i < |fs|
        invariant 0 <= i <= |fs|
        invariant view == FeaturesView(old(view), old(traitValue), fs[..i])
        invariant features == old(features) + FeatureLogs(fs[..i])
        invariant traitValue == old(traitValue) && tweaks == old(tweaks) && hasUIView == old(hasUIView)
      {
        FeatureAs(fs[i]);
        FeaturesStep(old(view), old(traitValue), fs, i);
        LogAppend(old(features), FeatureLogs(fs[..i]), FeatureLog(fs[i]));
        i := i + 1;
      }
      assert fs[..i] == fs;
    }

    /** The first loop of `Style.render(to:)`: each tweak rendered, unlogged. */
    method RenderTweaks(tws: seq<Tweak>)
      modifies this
      ensures State() == old(State()).(traitValue := TweakFold(old(traitValue), tws))
      ensures hasUIView == old(hasUIView)
    {
      var i := 0;
      while i < |tws|
        invariant 0 <= i <= |tws|
        invariant State() == old(State()).(traitValue := TweakFold(old(traitValue), tws[..i]))
        invariant hasUIView == old(hasUIView)
      {
        RenderTweak(tws[i]);
        assert tws[..i + 1] == tws[..i] + [tws[i]];
        TweakFoldSnoc(old(traitValue), tws[..i], tws[i]);
        i := i + 1;
      }
      assert tws[..i] == tws;
    }

    /** The second loop of `Style.render(to:)`: each feature rendered, unlogged. */
    method RenderFeatures(fs: seq<Feature>)
      modifies this
      ensures view == FeaturesView(old(view), old(traitValue), fs)
      ensures features == old(features) + RenderLogs(fs)
      ensures traitValue == old(traitValue) && tweaks == old(tweaks) && hasUIView == old(hasUIView)
    {
      var j := 0;
      while j < |fs|
        invariant 0 <= j <= |fs|
        invariant view == FeaturesView(old(view), old(traitValue), fs[..j])
        invariant features == old(features) + RenderLogs(fs[..j])
        invariant traitValue == old(traitValue) && tweaks == old(tweaks) && hasUIView == old(hasUIView)
      {
        RenderFeature(fs[j]);
        FeaturesStep(old(view), old(traitValue), fs, j);
        LogAppend(old(features), RenderLogs(fs[..j]), RenderLog(fs[j]));
        j := j + 1;
      }
      assert fs[..j] == fs;
    }

    /** `Style.render(to:)`: every tweak, then every feature, none of them logged. */
    method RenderStyle(s: Styles.Style)
      modifies this
      ensures State() == Styled(old(State()), s)
      ensures hasUIView == old(hasUIView)
    {
      RenderTweaks(s.tweaks);
      RenderFeatures(s.features);
    }

    /** `_style(as:)`. */
    method StyleAs(s: Styles.Style)
      modifies this
      ensures State() == Styled(old(State()), s)
      ensures hasUIView == old(hasUIView)
    {
      RenderStyle(s);
    }

    /** `style(_:...)`: each style rendered in order. */
    method StyleEach(ss: seq<Styles.Style>)
      modifies this
      ensures State() == StyledAll(old(State()), ss)
      ensures hasUIView == old(hasUIView)
    {
      var i := 0;
      while i < |ss|
        invariant 0 <= i <= |ss|
        invariant State() == StyledAll(old(State()), ss[..i])
        invariant hasUIView == old(hasUIView)
      {
        StyleAs(ss[i]);
        assert ss[..i + 1][..i] == ss[..i];
        i := i + 1;
      }
      assert ss[..i] == ss;
    }

    /** `if(_:_:)`: the block runs only when the condition holds, and its
        view, when it returns one, replaces the view. */
    method If(condition: bool, block: (View, Trait) -> Option<View>)
      modifies this
      ensures condition && block(old(view), old(traitValue)).Some? ==>
                State() == old(State()).(view := block(old(view), old(traitValue)).value)
      ensures !(condition && block(old(view), old(traitValue)).Some?) ==> State() == old(State())
      ensures hasUIView == old(hasUIView)
    {
      if condition {
        var result := block(view, traitValue);
        if result.Some? {
          view := result.value;
        }
      }
    }

    /** `unless(_:_:)`: the mirror image of `if`. */
    method Unless(condition: bool, block: (View, Trait) -> Option<View>)
      modifies this
      ensures !condition && block(old(view), old(traitValue)).Some? ==>
                State() == old(State()).(view := block(old(view), old(traitValue)).value)
      ensures !(!condition && block(old(view), old(traitValue)).Some?) ==> State() == old(State())
      ensures hasUIView == old(hasUIView)
    {
      if condition == false {
        var result := block(view, traitValue);
        if result.Some? {
          view := result.value;
        }
      }
    }

    /** `if(userInterfaceIdiom:_:)`, the device's idiom given. */
    method IfIdiom(device: Idiom, idiom: Idiom, block: (View, Trait) -> Option<View>)
      modifies this
      ensures device == idiom && block(old(view), old(traitValue)).Some? ==>
                State() == old(State()).(view := block(old(view), old(traitValue)).value)
      ensures !(device == idiom && block(old(view), old(traitValue)).Some?) ==> State() == old(State())
      ensures hasUIView == old(hasUIView)
    {
      If(device == idiom, block);
    }

    /** `unless(userInterfaceIdiom:_:)`, the device's idiom given. */
    method UnlessIdiom(device: Idiom, idiom: Idiom, block: (View, Trait) -> Option<View>)
      modifies this
      ensures device != idiom && block(old(view), old(traitValue)).Some? ==>
                State() == old(State()).(view := block(old(view), old(traitValue)).value)
      ensures !(device != idiom && block(old(view), old(traitValue)).Some?) ==> State() == old(State())
      ensures hasUIView == old(hasUIView)
    {
      If(device != idiom, block);
    }
  }
}
