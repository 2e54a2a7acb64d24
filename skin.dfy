/**
 * The controller-skin options: the background-colour mode, how it resolves to
 * a colour, and the declared defaults and opacity domain.
 */
module Skin {
  import W = Wrappers
  import opened Colors
  import opened Sliders

  /** Which colour fills the area behind the controller skin. */
  datatype SkinBackgroundColor = None | Theme | Custom {

    /** The raw value, which is also the description shown to the user. */
    function Description(): (d: string)
      ensures ModeOfRawValue(d) == W.Some(this)
    {
      match this
      case None => "None"
      case Theme => "Theme"
      case Custom => "Custom"
    }

    /** `uiColor`: black, the theme colour, or the custom background colour option. */
    function UiColor(ctx: SkinContext): (c: Color)
      ensures this == None ==> c == Black
      ensures this == Theme ==> c == ctx.themeColor
      ensures this == Custom ==> c == ctx.skin.backgroundColor
    {
      match this
      case None => Black
      case Theme => ctx.themeColor
      case Custom => ctx.skin.backgroundColor
    }
  }

  /** `SkinBackgroundColor.allCases`, in declaration order. */
  const AllModes: seq<SkinBackgroundColor> := [None, Theme, Custom]

  lemma EveryModeIsListed()
    ensures forall m: SkinBackgroundColor :: m in AllModes
  {
    forall m: SkinBackgroundColor ensures m in AllModes {
      match m
      case None => assert AllModes[0] == m;
      case Theme => assert AllModes[1] == m;
      case Custom => assert AllModes[2] == m;
    }
  }

  /** `SkinBackgroundColor(rawValue:)`. */
  function ModeOfRawValue(raw: string): (m: W.Option<SkinBackgroundColor>)
    ensures m.None? <==> raw !in ["None", "Theme", "Custom"]
  {
    match raw
    case "None" => W.Some(None)
    case "Theme" => W.Some(Theme)
    case "Custom" => W.Some(Custom)
    case _ => W.None
  }

  /** Descriptions are distinct, so they identify the mode; in declaration order
      they read "None", "Theme", "Custom". */
  lemma DescriptionsIdentifyModes(a: SkinBackgroundColor, b: SkinBackgroundColor)
    ensures a.Description() == b.Description() ==> a == b
    ensures [AllModes[0].Description(), AllModes[1].Description(), AllModes[2].Description()]
         == ["None", "Theme", "Custom"]
  {
  }

  /** The options of the controller-skin feature. */
  datatype SkinOptions = SkinOptions(
    colorMode: SkinBackgroundColor,
    backgroundColor: Color,
    alwaysShow: bool,
    opacity: real)

  /** The declared default of every option. */
  const Defaults := SkinOptions(colorMode := None, backgroundColor := Black, alwaysShow := false, opacity := 0.7)

  const OpacitySlider := Slider(0.0, 1.0, 0.05)

  /** The values offered for `colorMode`: every mode, in declaration order. */
  function ColorModeValues(): (vs: seq<SkinBackgroundColor>)
    ensures forall m :: m in vs
  {
    EveryModeIsListed();
    AllModes
  }

  /** The settings `uiColor` reads, passed explicitly. */
  datatype SkinContext = SkinContext(
    skin: SkinOptions,     // the skin feature's options
    themeColor: Color)     // the theme colour as a UIColor

  /** The default opacity is a value the slider can show; the slider is usable;
      the default mode is offered. */
  lemma DefaultsWithinDomains()
    ensures WellFormed(OpacitySlider) && Admits(OpacitySlider, Defaults.opacity)
    ensures Defaults.colorMode in ColorModeValues()
  {
    assert OpacitySlider.upper == GridPoint(OpacitySlider, 20);
    assert Defaults.opacity == GridPoint(OpacitySlider, 14);
  }

  /** Each mode reads one setting and nothing else: `.none` reads none, `.theme`
      only the theme colour, `.custom` only the custom background colour. */
  lemma UiColorReadsOneSetting(m: SkinBackgroundColor, c1: SkinContext, c2: SkinContext)
    requires m == Theme ==> c1.themeColor == c2.themeColor
    requires m == Custom ==> c1.skin.backgroundColor == c2.skin.backgroundColor
    ensures m.UiColor(c1) == m.UiColor(c2)
  {
  }

  /** With the declared defaults the skin background is black whatever the theme,
      and `.custom` agrees with `.none` until the custom colour is changed. */
  lemma DefaultsGiveBlackBackground(ctx: SkinContext)
    requires ctx.skin == Defaults
    ensures Defaults.colorMode.UiColor(ctx) == Black
    ensures Custom.UiColor(ctx) == None.UiColor(ctx)
  {
  }
}
