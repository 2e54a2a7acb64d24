# Ignited system registry and artwork/skin style rules, in Dafny

This project models three parts of the Ignited emulator front end.

- **The system registry** (`Ignited/Systems/System.swift`). It covers:
  - the eight emulated systems in declaration order (nes, genesis, snes, n64, gb, gbc, gba, ds);
  - the two-way mapping between a system and its DeltaCore game type;
  - the systems whose core is registered;
  - the core each system runs on, where only DS honours the user's preferred core;
  - the file-extension lookup, which lower-cases the extension and then applies a many-to-one table.
- **The favourite-games options** (`Ignited/Features/Library/FavoriteGamesOptions.swift`).
  The favourite-artwork style (`.none` "Default", `.theme`, `.custom`) decides which setting supplies each artwork property.
  The property is taken from the generic artwork style, from the theme's favourite colour, or from the favourites options.
  The file also declares the option defaults, the slider domains and the values offered for `style`, which depend on pro features.
- **The controller-skin options** (`Ignited/Features/Controllers/SkinOptions.swift`).
  The skin background mode resolves to black, to the theme colour or to the custom colour.
  The file also declares the defaults and the opacity slider.

Everything here is pure: switch selections, a filter and failable initialisers become Dafny functions over datatypes.
The global `Settings` the Swift code reads become explicit parameters:

- `StyleContext` and `SkinContext` are snapshots of the settings;
- `preferredCores` is the per-game-type preferred core;
- `registeredCores` is the registered-core table.

`FavoriteGames.Defaults` and `Skin.Defaults` hold the declared defaults.
The slider domains are `Sliders.Slider` values, and their default-in-domain checks use exact `real`s.

Modules: `Wrappers` (Option), `Ascii` (case folding), `Cores` (the DeltaCore game types and core handles), `Systems`, `Colors`, `Sliders`, `ArtworkOptions` (the generic artwork settings the favourites style falls back on), `FavoriteGames`, `Skin`.

The model follows the code as written:
- `System.allCases` lists genesis second, not last.
- No code in these files clamps or quantises slider input, and none restores defaults; neither is modelled.
- `textColorMode` and `shadowColorMode` are declared as options that choose the text and shadow colour of the custom style. No resolution code reads them: under `.custom` both colours always come from the custom colour options (`FavoriteGames.CustomStyleReadsOnlyFavoritesAndTheme` proves the two modes have no effect). The model keeps this behaviour as written.

## Model

| member | source | states |
|---|---|---|
| Systems.System.Ordinal | Ignited/Systems/System.swift:22-31 | the position of each system in `allCases`, which lists it there |
| Systems.AllCasesListsEverySystemInOrder | Ignited/Systems/System.swift:22-31 | `allCases` holds every system, strictly in declaration order |
| Systems.System.GameType | Ignited/Systems/System.swift:104-116 | every system has one of the eight named game types, and `System(gameType:)` of it gives the system back (round trip) |
| Systems.GameTypeInjective | Ignited/Systems/System.swift:104-116 | distinct systems never share a game type |
| Systems.SystemOf | Ignited/Systems/System.swift:118-132 | `System(gameType:)` returns nothing exactly for game types outside the eight listed |
| Systems.SystemOfRoundTrip | Ignited/Systems/System.swift:118-132 | a system found for a game type carries that game type |
| Systems.System.DeltaCore | Ignited/Systems/System.swift:90-102 | DS runs on the user's preferred core when one is set and on MelonDS otherwise |
| Systems.OnlyDsHonoursPreference | Ignited/Systems/System.swift:90-101 | every system but DS gets the same core whatever the preferences hold |
| Systems.FixedCoresDistinct | Ignited/Systems/System.swift:92-100 | the fixed cores of the non-DS systems are pairwise distinct and are never a DS core |
| Systems.Filter | Ignited/Systems/System.swift:34 | the filter keeps exactly the systems whose game type is a key, and the result is a subsequence of its input |
| Systems.OrderedTail | Ignited/Systems/System.swift:33-36 | the tail of a list in declaration order keeps that order and holds exactly the members other than the head, each with a larger ordinal |
| Systems.SubsequenceKeepsOrder | Ignited/Systems/System.swift:33-36 | a subsequence of a list in declaration order is itself in declaration order |
| Systems.RegisteredSystems | Ignited/Systems/System.swift:33-36 | `registeredSystems` contains exactly the systems whose game type has a registered core, and it is a subsequence of `allCases` in strictly increasing declaration order |
| Systems.OrderedListsWithSameMembersAreEqual | Ignited/Systems/System.swift:33-36 | membership and declaration order determine `registeredSystems` uniquely |
| Systems.RegisteredSystemsExtremes | Ignited/Systems/System.swift:33-36 | with every game type registered the result is `allCases`; with none it is empty |
| Systems.GameTypeOfExtension | Ignited/Systems/System.swift:137-151 | every extension that resolves gives one of the eight named game types, and that game type maps back to a system |
| Systems.ExtensionSwitch | Ignited/Systems/System.swift:140-150 | on a lower-cased extension, the switch hits exactly the keys of the extension table and gives their entries |
| Systems.ExtensionLookupMatchesTable | Ignited/Systems/System.swift:139-150 | for every input, the switch agrees with the extension table applied to the lower-cased extension: a key gives its entry, anything else gives nothing |
| Systems.ExtensionLookupIgnoresCase | Ignited/Systems/System.swift:139 | the lookup gives the same answer for two spellings that differ only in ASCII case, and for an extension and its lower-cased form |
| Systems.FileExtensionMapIsLowerCase | Ignited/Systems/System.swift:141-148 | every table key is lower-case, so the lookup reaches it and gives its entry; every entry's game type belongs to a system |
| Systems.SnesExtensions | Ignited/Systems/System.swift:142 | "smc", "sfc" and "fig" give snes |
| Systems.N64Extensions | Ignited/Systems/System.swift:143 | "n64" and "z64" give n64 |
| Systems.DsExtensions | Ignited/Systems/System.swift:147 | "ds" and "nds" give ds |
| Systems.SegaExtensions | Ignited/Systems/System.swift:148 | the ten extensions gen, bin, md, smd, sms, gg, sg, mdx, m3u and chd give genesis |
| Systems.UpperCaseSpellings | Ignited/Systems/System.swift:139-147 | "SFC" gives snes and "NDS" gives ds |
| Systems.UnknownExtensions | Ignited/Systems/System.swift:139-149 | "zip" and the empty extension give nothing |
| Ascii.LowerChar | Ignited/Systems/System.swift:139 | folding a character never leaves an upper-case ASCII letter; it changes only upper-case letters, each to the letter 32 code points above |
| Ascii.Lower | Ignited/Systems/System.swift:139 | `lowercased()` keeps the length and folds each character |
| Ascii.LowerIsLowerCase | Ignited/Systems/System.swift:139 | lower-casing yields a lower-case string and is idempotent |
| Ascii.LowerOfLowerCase | Ignited/Systems/System.swift:139 | lower-casing leaves a lower-case string unchanged |
| Ascii.LowerDecidesCase | Ignited/Systems/System.swift:139 | two strings lower-case to the same string exactly when they differ only in ASCII case |
| FavoriteGames.FavoriteArtworkStyle.Description | Ignited/Features/Library/FavoriteGamesOptions.swift:14-22 | the description is the raw value, and `init(rawValue:)` of it gives the style back |
| FavoriteGames.StyleOfRawValue | Ignited/Features/Library/FavoriteGamesOptions.swift:14-18 | `init(rawValue:)` fails exactly on strings other than "Default", "Theme" and "Custom" |
| FavoriteGames.EveryStyleIsListed | Ignited/Features/Library/FavoriteGamesOptions.swift:14-18 | `allCases` lists every style |
| FavoriteGames.NonCustomStylesAreListed | Ignited/Features/Library/FavoriteGamesOptions.swift:101 | the list offered without pro holds exactly the styles other than `.custom` |
| FavoriteGames.DescriptionsIdentifyStyles | Ignited/Features/Library/FavoriteGamesOptions.swift:14-22 | descriptions are distinct; in declaration order they are "Default", "Theme", "Custom" |
| FavoriteGames.StyleValues | Ignited/Features/Library/FavoriteGamesOptions.swift:99-102 | a prefix of `allCases` that contains `.custom` exactly when pro features are enabled and always contains `.none` and `.theme` |
| ArtworkOptions.EveryColorModeIsListed | Ignited/Features/Library/FavoriteGamesOptions.swift:107 | `ArtworkCustomColor.allCases` lists every colour mode of the two-case type |
| FavoriteGames.ColorModeValues | Ignited/Features/Library/FavoriteGamesOptions.swift:104-156 | the four colour-mode options offer every colour mode |
| FavoriteGames.DefaultsWithinSliders | Ignited/Features/Library/FavoriteGamesOptions.swift:168-238 | the defaults shadow radius 5, shadow opacity 0.5, corner radius 0.15 and border width 2 each lie in their slider's range and on its step grid; each slider's top end is on its grid |
| FavoriteGames.DefaultsAreOffered | Ignited/Features/Library/FavoriteGamesOptions.swift:99-156 | the default style `.theme` is offered with and without pro, and the default colour modes are offered |
| FavoriteGames.FavoriteArtworkStyle.BackgroundColor | Ignited/Features/Library/FavoriteGamesOptions.swift:24-30 | the background colour is the value of the setting the origin table names: the artwork style under `.none`, the theme's favourite colour under `.theme`, and under `.custom` the custom background colour when its mode is `.custom`, else the theme's favourite colour |
| FavoriteGames.FavoriteArtworkStyle.BorderColor | Ignited/Features/Library/FavoriteGamesOptions.swift:32-38 | the border colour follows the same three-way rule, keyed on the border colour mode |
| FavoriteGames.FavoriteArtworkStyle.TextColor | Ignited/Features/Library/FavoriteGamesOptions.swift:40-45 | the text colour is read from the origin the table names for the style: the favourites option under `.custom`, else the artwork style; no mode is consulted |
| FavoriteGames.FavoriteArtworkStyle.ShadowColor | Ignited/Features/Library/FavoriteGamesOptions.swift:47-53 | the shadow colour is read the same way: the favourites option under `.custom`, else the artwork style |
| FavoriteGames.FavoriteArtworkStyle.CornerRadius | Ignited/Features/Library/FavoriteGamesOptions.swift:55-60 | the corner radius is the favourites option under `.custom`, else the artwork style's |
| FavoriteGames.FavoriteArtworkStyle.BorderWidth | Ignited/Features/Library/FavoriteGamesOptions.swift:62-67 | the border width is the favourites option under `.custom`, else the artwork style's |
| FavoriteGames.FavoriteArtworkStyle.ShadowOpacity | Ignited/Features/Library/FavoriteGamesOptions.swift:69-74 | the shadow opacity is the favourites option under `.custom`, else the artwork style's |
| FavoriteGames.FavoriteArtworkStyle.ShadowRadius | Ignited/Features/Library/FavoriteGamesOptions.swift:76-81 | the shadow radius is the favourites option under `.custom`, else the artwork style's |
| FavoriteGames.FavoriteArtworkStyle.Resolve | Ignited/Features/Library/FavoriteGamesOptions.swift:24-81 | `.none` resolves to exactly the generic artwork style; `.theme` is that style with the theme's favourite colour as background and border colour |
| FavoriteGames.OriginsByStyle | Ignited/Features/Library/FavoriteGamesOptions.swift:24-81 | only background and border colour ever take the theme colour; a favourites option is read only under `.custom`, and for those two colours only when their mode is `.custom`; the artwork style supplies the colours only under `.none` |
| FavoriteGames.CustomWithThemeModesColorsLikeTheme | Ignited/Features/Library/FavoriteGamesOptions.swift:24-38 | under `.custom`, the background colour whose mode is `.theme` equals the `.theme` style's background, and likewise the border colour, each independently of the other colour's mode |
| FavoriteGames.CustomStyleReadsOnlyFavoritesAndTheme | Ignited/Features/Library/FavoriteGamesOptions.swift:40-81 | `.custom` never reads the artwork style, and its text and shadow colours do not depend on the text and shadow colour modes |
| FavoriteGames.WithoutProFavoritesOptionsAreInert | Ignited/Features/Library/FavoriteGamesOptions.swift:24-102 | without pro, every style offered resolves the same whatever the favourites options hold |
| FavoriteGames.CustomStyleWithDefaults | Ignited/Features/Library/FavoriteGamesOptions.swift:93-238 | with the declared defaults, `.custom` resolves to orange background and border, black text, white shadow and the default metrics; the default style takes the theme colour as background |
| Skin.SkinBackgroundColor.Description | Ignited/Features/Controllers/SkinOptions.swift:13-21 | the description is the raw value, and `init(rawValue:)` of it gives the mode back |
| Skin.ModeOfRawValue | Ignited/Features/Controllers/SkinOptions.swift:13-17 | `init(rawValue:)` fails exactly on strings other than "None", "Theme" and "Custom" |
| Skin.EveryModeIsListed | Ignited/Features/Controllers/SkinOptions.swift:13-17 | `allCases` lists every mode |
| Skin.DescriptionsIdentifyModes | Ignited/Features/Controllers/SkinOptions.swift:13-21 | descriptions are distinct; in declaration order they are "None", "Theme", "Custom" |
| Skin.ColorModeValues | Ignited/Features/Controllers/SkinOptions.swift:41-44 | the colour-mode option offers every mode |
| Skin.DefaultsWithinDomains | Ignited/Features/Controllers/SkinOptions.swift:41-71 | the default opacity 0.7 lies in 0–1 and on the 0.05 grid; the slider's top end is on its grid; the default mode `.none` is offered |
| Skin.SkinBackgroundColor.UiColor | Ignited/Features/Controllers/SkinOptions.swift:23-29 | `.none` gives black, `.theme` the theme colour, and `.custom` the skin's custom background colour option |
| Skin.UiColorReadsOneSetting | Ignited/Features/Controllers/SkinOptions.swift:23-29 | `.none` reads no setting, `.theme` reads only the theme colour, and `.custom` reads only the skin's custom background colour |
| Skin.DefaultsGiveBlackBackground | Ignited/Features/Controllers/SkinOptions.swift:23-56 | with the declared defaults the skin background is black whatever the theme, and `.custom` agrees with `.none` |

## Left out

- Systems.GameTypeOfExtension: `lowercased()` is modelled for ASCII letters only. Unicode case mapping is not modelled; no key of the extension table is outside ASCII.
- `localizedName`, `localizedShortName`, `year`, `allCores` and `localizedDescription`: these are display strings and handle lists, with no logic.
- The emulation cores, `Delta.registeredCores` and `Settings.preferredCore(for:)` come from outside this code. The model uses opaque handles (`Cores.Core`), the registered-core table as a map, and the preferences as a map keyed by game type.
- `DeltaCore.GameType` is an extensible type declared outside this code. The eight tags the app names are datatype cases; `Unlisted` stands for every other tag. The raw strings of the tags are not part of this model.
- `ArtworkCustomColor` and the generic artwork style are declared outside this code. Only `.theme` and `.custom` are modelled, and the artwork style is taken as the eight properties it yields (`ArtworkOptions.Appearance`).
- `Settings.proFeaturesEnabled`, the theme colours and every option value are global settings in the source. Here they are explicit parameters; reading and persisting them is not modelled.
- Colours: `Color` and `UIColor` are one opaque value type, and the `UIColor(_:)` conversion is the identity. Optional results are kept as in the source.
- `Double` values are exact `real`s. Binary floating-point rounding of 0.1, 0.15, 0.7 and the other step values is not modelled.
- Slider input is clamped and quantised by the UI framework, not by code in these files, so no clamping is modelled.
- The "Restore Defaults" options (`reset`) call `PowerUserOptions.resetFeature`, which is not part of this model. The reset behaviour is therefore not modelled.
- Option metadata (names, descriptions, `pro:` flags, detail views): this is rendering data for the external feature framework.
- The feature containers (`ControllerFeatures.swift`, `LibraryFeatures.swift`), `ControllerOptions.swift` and the SwiftUI settings view (`FeatureSectionView.swift`) are not part of this model. They are declarations for an external reflection-based framework, UI code, or a single declared constant.
