/**
 * The favourite-games options: the declared defaults and slider domains, and how
 * the chosen favourite-artwork style resolves each property of a favourite
 * game's artwork from the settings.
 */
module FavoriteGames {
  import W = Wrappers
  import opened Colors
  import opened Sliders
  import A = ArtworkOptions

  /** The style of favourite-game artwork. */
  datatype FavoriteArtworkStyle = None | Theme | Custom {

    /** The raw value, which is also the description shown to the user. */
    function Description(): (d: string)
      ensures StyleOfRawValue(d) == W.Some(this)
    {
      match this
      case None => "Default"
      case Theme => "Theme"
      case Custom => "Custom"
    }

    /** The background colour: the value of the setting the origin table names
        for this style and the background colour mode. */
    function BackgroundColor(ctx: StyleContext): (c: W.Option<Color>)
      ensures c == Pick(ColorOrigin(this, ctx.favorites.backgroundColorMode),
                        ctx.artwork.backgroundColor, W.Some(ctx.themeFavoriteColor), W.Some(ctx.favorites.backgroundColor))
    {
      match this
      case None => ctx.artwork.backgroundColor
      case Theme => W.Some(ctx.themeFavoriteColor)
      case Custom =>
        if ctx.favorites.backgroundColorMode == A.Custom then W.Some(ctx.favorites.backgroundColor)
        else W.Some(ctx.themeFavoriteColor)
    }

    /** The border colour: the value of the setting the origin table names for
        this style and the border colour mode. */
    function BorderColor(ctx: StyleContext): (c: W.Option<Color>)
      ensures c == Pick(ColorOrigin(this, ctx.favorites.borderColorMode),
                        ctx.artwork.borderColor, W.Some(ctx.themeFavoriteColor), W.Some(ctx.favorites.borderColor))
    {
      match this
      case None => ctx.artwork.borderColor
      case Theme => W.Some(ctx.themeFavoriteColor)
      case Custom =>
        if ctx.favorites.borderColorMode == A.Custom then W.Some(ctx.favorites.borderColor)
        else W.Some(ctx.themeFavoriteColor)
    }

    /** The textColor: read from the setting the origin table names for this style;
        no colour mode is consulted. */
    function TextColor(ctx: StyleContext): (v: Color)
      ensures v == Pick(PlainOrigin(this), ctx.artwork.textColor, ctx.artwork.textColor, ctx.favorites.textColor)
    {
      match this
      case Custom => ctx.favorites.textColor
      case _ => ctx.artwork.textColor
    }

    /** The shadowColor: read from the setting the origin table names for this style;
        no colour mode is consulted. */
    function ShadowColor(ctx: StyleContext): (v: W.Option<Color>)
      ensures v == Pick(PlainOrigin(this), ctx.artwork.shadowColor, ctx.artwork.shadowColor, W.Some(ctx.favorites.shadowColor))
    {
      match this
      case Custom => W.Some(ctx.favorites.shadowColor)
      case _ => ctx.artwork.shadowColor
    }

    /** The cornerRadius: read from the setting the origin table names for this style;
        no colour mode is consulted. */
    function CornerRadius(ctx: StyleContext): (v: real)
      ensures v == Pick(PlainOrigin(this), ctx.artwork.cornerRadius, ctx.artwork.cornerRadius, ctx.favorites.cornerRadius)
    {
      match this
      case Custom => ctx.favorites.cornerRadius
      case _ => ctx.artwork.cornerRadius
    }

    /** The borderWidth: read from the setting the origin table names for this style;
        no colour mode is consulted. */
    function BorderWidth(ctx: StyleContext): (v: real)
      ensures v == Pick(PlainOrigin(this), ctx.artwork.borderWidth, ctx.artwork.borderWidth, ctx.favorites.borderWidth)
    {
      match this
      case Custom => ctx.favorites.borderWidth
      case _ => ctx.artwork.borderWidth
    }

    /** The shadowOpacity: read from the setting the origin table names for this style;
        no colour mode is consulted. */
    function ShadowOpacity(ctx: StyleContext): (v: real)
      ensures v == Pick(PlainOrigin(this), ctx.artwork.shadowOpacity, ctx.artwork.shadowOpacity, ctx.favorites.shadowOpacity)
    {
      match this
      case Custom => ctx.favorites.shadowOpacity
      case _ => ctx.artwork.shadowOpacity
    }

    /** The shadowRadius: read from the setting the origin table names for this style;
        no colour mode is consulted. */
    function ShadowRadius(ctx: StyleContext): (v: real)
      ensures v == Pick(PlainOrigin(this), ctx.artwork.shadowRadius, ctx.artwork.shadowRadius, ctx.favorites.shadowRadius)
    {
      match this
      case Custom => ctx.favorites.shadowRadius
      case _ => ctx.artwork.shadowRadius
    }

    /** All eight resolved properties together. `.none` is exactly the generic
        artwork style; `.theme` is that style with the theme's favourite colour as
        background and border. */
    function Resolve(ctx: StyleContext): (r: A.Appearance)
      ensures this == None ==> r == ctx.artwork
      ensures this == Theme ==>
        r == ctx.artwork.(backgroundColor := W.Some(ctx.themeFavoriteColor), borderColor := W.Some(ctx.themeFavoriteColor))
    {
      A.Appearance(BackgroundColor(ctx), BorderColor(ctx), TextColor(ctx), ShadowColor(ctx),
                   CornerRadius(ctx), BorderWidth(ctx), ShadowOpacity(ctx), ShadowRadius(ctx))
    }
  }

  /** `FavoriteArtworkStyle.allCases`, in declaration order. */
  const AllStyles: seq<FavoriteArtworkStyle> := [None, Theme, Custom]

  lemma EveryStyleIsListed()
    ensures forall s: FavoriteArtworkStyle :: s in AllStyles
  {
    forall s: FavoriteArtworkStyle ensures s in AllStyles {
      match s
      case None => assert AllStyles[0] == s;
      case Theme => assert AllStyles[1] == s;
      case Custom => assert AllStyles[2] == s;
    }
  }

  lemma NonCustomStylesAreListed()
    ensures forall s: FavoriteArtworkStyle :: s in [None, Theme] <==> s != Custom
  {
    forall s: FavoriteArtworkStyle ensures s in [None, Theme] <==> s != Custom {
      match s
      case None => assert [None, Theme][0] == s;
      case Theme => assert [None, Theme][1] == s;
      case Custom =>
    }
  }

  /** `FavoriteArtworkStyle(rawValue:)`. */
  function StyleOfRawValue(raw: string): (s: W.Option<FavoriteArtworkStyle>)
    ensures s.None? <==> raw !in ["Default", "Theme", "Custom"]
  {
    match raw
    case "Default" => W.Some(None)
    case "Theme" => W.Some(Theme)
    case "Custom" => W.Some(Custom)
    case _ => W.None
  }

  /** Descriptions are distinct, so they identify the style; in declaration order
      they read "Default", "Theme", "Custom". */
  lemma DescriptionsIdentifyStyles(a: FavoriteArtworkStyle, b: FavoriteArtworkStyle)
    ensures a.Description() == b.Description() ==> a == b
    ensures [AllStyles[0].Description(), AllStyles[1].Description(), AllStyles[2].Description()]
         == ["Default", "Theme", "Custom"]
  {
  }

  /** The settings the resolution reads, passed explicitly. */
  datatype StyleContext = StyleContext(
    favorites: FavoriteGamesOptions,   // the favourites feature's options
    artwork: A.Appearance,             // what the generic artwork style yields
    themeFavoriteColor: Color)         // the theme colour's favourite colour

  /** The options of the favourite-games feature. */
  datatype FavoriteGamesOptions = FavoriteGamesOptions(
    sortFirst: bool,
    showStarIcon: bool,
    style: FavoriteArtworkStyle,
    backgroundColorMode: A.ArtworkCustomColor,
    backgroundColor: Color,
    borderColorMode: A.ArtworkCustomColor,
    borderColor: Color,
    textColorMode: A.ArtworkCustomColor,
    textColor: Color,
    shadowColorMode: A.ArtworkCustomColor,
    shadowColor: Color,
    shadowRadius: real,
    shadowOpacity: real,
    cornerRadius: real,
    borderWidth: real)

  /** The declared default of every option. */
  const Defaults := FavoriteGamesOptions(
    sortFirst := true,
    showStarIcon := true,
    style := Theme,
    backgroundColorMode := A.Custom,
    backgroundColor := Orange,
    borderColorMode := A.Custom,
    borderColor := Orange,
    textColorMode := A.Theme,
    textColor := Black,
    shadowColorMode := A.Theme,
    shadowColor := White,
    shadowRadius := 5.0,
    shadowOpacity := 0.5,
    cornerRadius := 0.15,
    borderWidth := 2.0)

  const ShadowRadiusSlider := Slider(0.0, 10.0, 0.5)
  const ShadowOpacitySlider := Slider(0.0, 1.0, 0.1)
  const CornerRadiusSlider := Slider(0.0, 0.25, 0.01)
  const BorderWidthSlider := Slider(0.0, 3.0, 0.5)

  /** The values offered for `style`: every style with pro features enabled,
      otherwise every style but `.custom`; in declaration order either way. */
  function StyleValues(proFeaturesEnabled: bool): (vs: seq<FavoriteArtworkStyle>)
    ensures forall s :: s in vs <==> (s != Custom || proFeaturesEnabled)
    ensures vs <= AllStyles
  {
    EveryStyleIsListed();
    NonCustomStylesAreListed();
    if proFeaturesEnabled then AllStyles else [None, Theme]
  }

  /** The values offered for each colour mode: all of them. */
  function ColorModeValues(): (vs: seq<A.ArtworkCustomColor>)
    ensures forall m :: m in vs
  {
    A.EveryColorModeIsListed();
    A.AllColorModes
  }

  // ---------------------------------------------------------------------------
  // Consistency of the declarations

  /** Each numeric default is a value its slider can show, and each slider is usable. */
  lemma DefaultsWithinSliders()
    ensures WellFormed(ShadowRadiusSlider) && Admits(ShadowRadiusSlider, Defaults.shadowRadius)
    ensures WellFormed(ShadowOpacitySlider) && Admits(ShadowOpacitySlider, Defaults.shadowOpacity)
    ensures WellFormed(CornerRadiusSlider) && Admits(CornerRadiusSlider, Defaults.cornerRadius)
    ensures WellFormed(BorderWidthSlider) && Admits(BorderWidthSlider, Defaults.borderWidth)
  {
    assert ShadowRadiusSlider.upper == GridPoint(ShadowRadiusSlider, 20);
    assert Defaults.shadowRadius == GridPoint(ShadowRadiusSlider, 10);
    assert ShadowOpacitySlider.upper == GridPoint(ShadowOpacitySlider, 10);
    assert Defaults.shadowOpacity == GridPoint(ShadowOpacitySlider, 5);
    assert CornerRadiusSlider.upper == GridPoint(CornerRadiusSlider, 25);
    assert Defaults.cornerRadius == GridPoint(CornerRadiusSlider, 15);
    assert BorderWidthSlider.upper == GridPoint(BorderWidthSlider, 6);
    assert Defaults.borderWidth == GridPoint(BorderWidthSlider, 4);
  }

  /** Every choice-valued default is among the values offered for it; the default
      style is offered with and without pro features. */
  lemma DefaultsAreOffered(proFeaturesEnabled: bool)
    ensures Defaults.style in StyleValues(proFeaturesEnabled)
    ensures Defaults.backgroundColorMode in ColorModeValues() && Defaults.borderColorMode in ColorModeValues()
    ensures Defaults.textColorMode in ColorModeValues() && Defaults.shadowColorMode in ColorModeValues()
  {
  }

  // ---------------------------------------------------------------------------
  // Resolution, against a table of where each property is read from

  /** The setting a resolved property is read from. */
  datatype Origin = ArtworkStyle | ThemeColor | FavoritesOption

  /** Where the background or border colour comes from, given the style and the
      colour mode the favourites options set for it. */
  function ColorOrigin(style: FavoriteArtworkStyle, mode: A.ArtworkCustomColor): Origin {
    match style
    case None => ArtworkStyle
    case Theme => ThemeColor
    case Custom => if mode == A.Custom then FavoritesOption else ThemeColor
  }

  /** Where every other property comes from: no mode is consulted. */
  function PlainOrigin(style: FavoriteArtworkStyle): Origin {
    if style == Custom then FavoritesOption else ArtworkStyle
  }

  /** The value read from `origin`, given what each of the three settings holds. */
  function Pick<T>(origin: Origin, artwork: T, theme: T, favorites: T): T {
    match origin
    case ArtworkStyle => artwork
    case ThemeColor => theme
    case FavoritesOption => favorites
  }

  /** Only the two colour properties ever take the theme colour, and only `.custom`
      reads a favourites option. */
  lemma OriginsByStyle(style: FavoriteArtworkStyle, mode: A.ArtworkCustomColor)
    ensures PlainOrigin(style) != ThemeColor
    ensures ColorOrigin(style, mode) == FavoritesOption <==> style == Custom && mode == A.Custom
    ensures PlainOrigin(style) == FavoritesOption <==> style == Custom
    ensures ColorOrigin(style, mode) == ArtworkStyle <==> style == None
  {
  }

  /** Under `.custom`, a background or border colour whose mode is `.theme` is
      coloured as `.theme` colours it, each colour independently of the other. */
  lemma CustomWithThemeModesColorsLikeTheme(ctx: StyleContext)
    ensures ctx.favorites.backgroundColorMode == A.Theme ==> Custom.BackgroundColor(ctx) == Theme.BackgroundColor(ctx)
    ensures ctx.favorites.borderColorMode == A.Theme ==> Custom.BorderColor(ctx) == Theme.BorderColor(ctx)
  {
  }

  /** `.custom` never reads the artwork style, and its text and shadow colours do
      not depend on the text and shadow colour modes. */
  lemma CustomStyleReadsOnlyFavoritesAndTheme(c1: StyleContext, c2: StyleContext)
    requires c1.themeFavoriteColor == c2.themeFavoriteColor
    requires c1.favorites.(textColorMode := A.Theme, shadowColorMode := A.Theme)
          == c2.favorites.(textColorMode := A.Theme, shadowColorMode := A.Theme)
    ensures Custom.Resolve(c1) == Custom.Resolve(c2)
  {
  }

  /** Without pro features every style offered resolves without reading any
      favourites option: the favourites options cannot change the artwork. */
  lemma WithoutProFavoritesOptionsAreInert(style: FavoriteArtworkStyle, c1: StyleContext, c2: StyleContext)
    requires style in StyleValues(false)
    requires c1.artwork == c2.artwork && c1.themeFavoriteColor == c2.themeFavoriteColor
    ensures style.Resolve(c1) == style.Resolve(c2)
  {
  }

  /** With the declared defaults and the style switched to `.custom`, favourites
      are orange-backed and orange-bordered with black text and a white shadow of
      the default metrics. */
  lemma CustomStyleWithDefaults(ctx: StyleContext)
    requires ctx.favorites == Defaults
    ensures Custom.Resolve(ctx) == A.Appearance(W.Some(Orange), W.Some(Orange), Black, W.Some(White), 0.15, 2.0, 0.5, 5.0)
    ensures Defaults.style.Resolve(ctx).backgroundColor == W.Some(ctx.themeFavoriteColor)
  {
  }
}
