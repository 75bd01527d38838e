# WisdomWeather recommendation core in Dafny

WisdomWeather is an iOS weather app with a home-screen widget. Its one piece of
real logic is `OutfitRecommender.recommendOutfit(for:)`. It turns a weather
observation into:

- a list of clothing items, chosen by a switch on (temperature, humidity);
- a list of advisory guides, from three rules (precipitation, wind, UV).

Beside it sit three copies of a temperature-to-colour mapping:

- the app's free functions `getBackgroundColor(for:)` and `getTextColor(for:)`;
- private copies of the same two functions inside `ContentView`;
- the widget's copy, an extension on `WeatherDataEntry`.

This project models all of these and proves what they do.

Modules:

- `Switch` (switch.dfy): Swift's `switch` over a `Double`. Range patterns are an
  `Interval` (`lo...`, `lo...hi`, `lo..<hi`, `..<hi`). A switch is a table of arms
  where the first matching arm wins and `default` supplies the fallback.
  `SelectPicks` and `SelectFallback` are proved by induction; the one-key colour
  switches (app, `ContentView` and widget) build on them.
- `Weather` (weather.dfy): the value records `WeatherData`, `ClothingItem`,
  `WeatherGuide` and `WeatherClothingRecommendation`.
- `Outfit` (outfit.dfy): the recommender. Its two-key switch on (temperature,
  humidity), whose cases may carry a `where humidity > 60` guard, has its own
  first-match function `SelectOutfit` with the lemmas `OutfitPicks` and
  `OutfitFallback`.
  - `RecommendOutfit` is imperative, like the source. It builds two local lists by
    appending: first the clothing chosen by an if-chain in case order, then the
    three guide rules in order.
  - It is proved equal to the pure specification `Recommend`. That spec uses the
    switch's case table (`OutfitArms`) and the guide rules (`GuidesFor`).
- `Colors` (colors.dfy): the app's colour functions, with their closed ranges.
- `ContentView` (content_view.dfy): the private copies and the no-data fallbacks
  `?? 21`, `?? 0` and the white background.
- `Widget` (widget.dfy): the widget's half-open copy, `backgroundColor`, and the
  placeholder entry.
- `Consistency` (consistency.dfy): facts linking clothing and colours, plus two
  whole-observation scenarios.

Representation:

- `Double` is `real` and Swift `Int` is `int`.
- Image names, SF Symbol names and colour assets are tokens. `Color("Mild")` is
  `Asset(Mild)`, and `Color.white` / `Color.black` are `White` / `Black`.
- The Korean item names and guide messages are kept verbatim as strings.

**The code, not the ideal banding, is modelled.** The inner bands of the
recommender and of the app's colour functions are closed integer ranges
(`23...27`, `20...22`, …) matched against a real temperature. So a temperature
strictly between two ranges, such as 27.5, 22.5 or 19.9, matches no case. For
such a temperature:

- the clothing list is empty (`default: break`);
- the app background is `Color.white`;
- the app text is `Color.black`.

A design that makes the bands contiguous and the clothing list never empty is
not what the code does. The widget's copy uses half-open ranges and has no such
gaps. The model keeps both conventions and proves where they agree and where they
differ: backgrounds differ in every gap, text colours only in (27,28), (11,12) and
(8,9).

The UV rule uses the threshold the code has: `uvIndex > 5`.

Humidity is classified as given. `WisdomWeather/WeatherViewModel.swift:67` passes
the 0–1 fraction from the weather service unchanged, while
`WisdomWeather/WeatherDataService.swift:52` scales it to a percentage.
`FractionHumidityReadsAsDry` shows that a fraction never reaches the humid lists.

## Model

| member | source | states |
|---|---|---|
| `Switch.SelectPicks` | WisdomWeather/getTextAndBackgroundColor.swift:12-31 | a switch returns the body of the first arm whose range contains the value, whatever later arms say |
| `Switch.SelectFallback` | WisdomWeather/getTextAndBackgroundColor.swift:29-30 | when no arm's range contains the value, the switch returns its `default` |
| `Colors.BackgroundBands` | WisdomWeather/getTextAndBackgroundColor.swift:11-32 | background is ExtremeHot for t ≥ 28 and ExtremeCold for t < 5; the closed ranges map [23,27]→VeryHot, [20,22]→Warm, [17,19]→Mild, [12,16]→Cool, [9,11]→Cold, [5,8]→VeryCold; the result is `Color.white` exactly in the six open gaps |
| `Colors.TextColors` | WisdomWeather/getTextAndBackgroundColor.swift:34-55 | text is black exactly on [12,22] and in the gaps, and white everywhere else (t ≥ 23 outside the gap (27,28), [5,11] outside the gap (8,9), and t < 5) |
| `Colors.TextContrastsWithBackground` | WisdomWeather/getTextAndBackgroundColor.swift:11-55 | text is black exactly when the background is Cool, Mild, Warm or the white default, and white exactly on the other five bands |
| `Colors.IntegerTemperatureInOneBand` | WisdomWeather/getTextAndBackgroundColor.swift:13-28 | every integer temperature lies in exactly one of the eight ranges, so it gets a named band and never the default |
| `Colors.BackgroundMonotone` | WisdomWeather/getTextAndBackgroundColor.swift:13-28 | for t1 ≤ t2 that both get a named band, band(t1) is no hotter than band(t2) |
| `Outfit.OutfitPicks` | WisdomWeather/OutfitRecommender.swift:18-111 | the tuple switch returns the list of the first case whose range contains the temperature and whose `where humidity > 60` guard, if any, holds |
| `Outfit.OutfitFallback` | WisdomWeather/OutfitRecommender.swift:112-113 | when no case matches, the clothing list stays empty |
| `Outfit.ClothingExtremeHot` | WisdomWeather/OutfitRecommender.swift:19-25 | t ≥ 28 gives exactly the four-item list (민소매, 반팔 티셔츠, 반바지, 짧은 치마), whatever the humidity |
| `Outfit.ClothingVeryHot` | WisdomWeather/OutfitRecommender.swift:26-36 | for t in [23,27], humidity > 60 gives the t-shirt/thin-shirt/shorts list and any other humidity the thin-pullover/cotton-trousers list |
| `Outfit.ClothingWarm` | WisdomWeather/OutfitRecommender.swift:37-48 | for t in [20,22], humidity > 60 gives the first list, otherwise the second |
| `Outfit.ClothingMild` | WisdomWeather/OutfitRecommender.swift:49-60 | for t in [17,19], humidity > 60 gives the first list, otherwise the second |
| `Outfit.ClothingCool` | WisdomWeather/OutfitRecommender.swift:61-73 | for t in [12,16], humidity > 60 gives the first list, otherwise the second |
| `Outfit.ClothingCold` | WisdomWeather/OutfitRecommender.swift:74-86 | for t in [9,11], humidity > 60 gives the first list, otherwise the second |
| `Outfit.ClothingVeryCold` | WisdomWeather/OutfitRecommender.swift:87-101 | for t in [5,8], humidity > 60 gives the first list, otherwise the second |
| `Outfit.ClothingExtremeCold` | WisdomWeather/OutfitRecommender.swift:102-111 | t < 5 gives exactly the seven-item list (패딩 … 두꺼운 양말), whatever the humidity |
| `Outfit.ClothingInGap` | WisdomWeather/OutfitRecommender.swift:112-113 | a temperature in one of the gaps (27,28), (22,23), (19,20), (16,17), (11,12), (8,9) gives an empty list (so 19.9 gives no items) |
| `Outfit.ClothingBands` | WisdomWeather/OutfitRecommender.swift:18-114 | the whole decision table: the list for every band and humidity side, and an empty list exactly in the gaps |
| `Outfit.ClothingListShape` | WisdomWeather/OutfitRecommender.swift:20-111 | every non-empty clothing list has 2 to 7 items and every item carries an image |
| `Outfit.ClothingHumidityThreshold` | WisdomWeather/OutfitRecommender.swift:26-101 | two humidities on the same side of 60 (exactly 60 counts as not humid) always give the same list |
| `Outfit.ClothingHumidityMatters` | WisdomWeather/OutfitRecommender.swift:26-101 | in each of the six closed inner ranges, a humidity above 60 and one at or below 60 give different lists |
| `Outfit.FractionHumidityReadsAsDry` | WisdomWeather/WeatherViewModel.swift:67 | a humidity passed as a 0–1 fraction is always classified like 60 percent, on the not-humid side |
| `Outfit.GuideRules` | WisdomWeather/OutfitRecommender.swift:117-137 | snow guide iff precipitation > 0 and t < 0; rain guide iff precipitation > 0 and t ≥ 0; padding guide iff wind > 20 and t < 0; jacket guide iff wind > 20 and t ≥ 0; sunscreen iff UV > 5; one guide per firing rule, in precipitation → wind → UV order |
| `Outfit.GuideExamples` | WisdomWeather/OutfitRecommender.swift:117-137 | (5,10,25,8) gives rain, jacket, sunscreen; (0,10,0,0) and (0,10,20,5) give none; precipitation at −1 gives snow and at exactly 0 gives rain |
| `Outfit.RecommendationInputs` | WisdomWeather/OutfitRecommender.swift:18-137 | the clothing depends only on temperature and humidity, and the guides only on precipitation, temperature, wind and UV |
| `Outfit.RecommendOutfit` | WisdomWeather/OutfitRecommender.swift:12-140 | the imperative appends build exactly the recommendation of the case table and the three guide rules |
| `Widget.BackgroundBands` | Widget/DressRecommendationWidget.swift:75-96 | the half-open ranges send every real temperature to exactly one of the eight named bands; the `Color.white` default is unreachable |
| `Widget.TextColors` | Widget/DressRecommendationWidget.swift:98-119 | widget text is black iff 12 ≤ t < 23 and white otherwise; every temperature matches exactly one arm, so the default is unreachable |
| `Widget.BackgroundBoundaries` | Widget/DressRecommendationWidget.swift:77-92 | 28→ExtremeHot, 27.99→VeryHot, 23→VeryHot, 22.99→Warm, 5→VeryCold, 4.99→ExtremeCold |
| `Widget.EntryBackground` | Widget/DressRecommendationWidget.swift:52-54 | an entry's `backgroundColor` is always a named band, and equals the app's colour for the entry's temperature whenever the app gives a named band |
| `Widget.PlaceholderColors` | Widget/DressRecommendationWidget.swift:14-16 | the placeholder entry (19.9 degrees) has the Mild background and black text |
| `Widget.AgreesWithApp` | Widget/DressRecommendationWidget.swift:75-119 | outside the app's gaps the widget and app give the same background and text colours; inside them the app background is white and the widget's a named band, the text differs (widget white, app black) in (27,28), (11,12) and (8,9), and both texts are black in (22,23), (19,20) and (16,17) |
| `Widget.AgreesWithAppOnIntegers` | Widget/DressRecommendationWidget.swift:75-119 | at every integer temperature the widget and app colours agree |
| `Widget.DisagreesWithAppAt27Point5` | Widget/DressRecommendationWidget.swift:79-80 | at 27.5 the widget shows VeryHot while the app shows white |
| `ContentView.PrivateBackgroundMatchesFree` | WisdomWeather/ContentView.swift:113-134 | the private background function returns the free function's colour for every temperature |
| `ContentView.PrivateTextMatchesFree` | WisdomWeather/ContentView.swift:136-157 | the private text function returns the free function's colour for every temperature |
| `ContentView.NoDataFallbacks` | WisdomWeather/ContentView.swift:16-105 | with no weather data the screen is white, the main text is black (`?? 21`) and the dividers are white (`?? 0`) |
| `ContentView.ForegroundContrastsWithScreen` | WisdomWeather/ContentView.swift:16-105 | with or without data, the main text is black exactly when the screen is Cool, Mild, Warm or white |
| `Consistency.WhiteBackgroundIffNoClothing` | WisdomWeather/getTextAndBackgroundColor.swift:11-32 | the app background is the white default exactly when the recommender returns no clothing |
| `Consistency.ClothingFollowsBackgroundBand` | WisdomWeather/OutfitRecommender.swift:18-114 | two temperatures with the same app background get the same clothing at the same humidity |
| `Consistency.ColdStormScenario` | WisdomWeather/OutfitRecommender.swift:12-140 | −5 degrees, humidity 70, precipitation 1, wind 25, UV 9 gives the winter list, the snow, padding and sunscreen guides in that order, and the ExtremeCold background |
| `Consistency.PlaceholderScenario` | Widget/DressRecommendationWidget.swift:14-16 | the placeholder reading gets no clothing, rain and jacket guides and no sunscreen (UV 5), and a white app background, yet Mild in the widget |

## Left out

- Location services, reverse geocoding and the persistence of the last location (LocationService.swift, LocationManager.swift): these are platform I/O.
- The WeatherKit fetches, async hops and published state (WeatherDataService.swift, WeatherViewModel.swift): these are network and UI plumbing. Only their humidity scaling is discussed above.
- The widget `Provider` timeline, with its `Date` and calendar arithmetic, and the `Date` field of `WeatherDataEntry`: these depend on the clock. The placeholder entry's weather values are modelled.
- Widget/WidgetBundle.swift and all SwiftUI `View` and `Widget` bodies, apart from the colour choices of `ContentView`: this is rendering code.
- The `UUID` ids of `ClothingItem` and `WeatherGuide`: they are random. Equal results mean equal names, images and messages.
- `Image` and `Color` values are opaque tokens. How an asset colour looks is not modelled.
- IEEE-754 details: NaN, infinities and rounding of literals such as 19.9 are not modelled, because `Double` is modelled as `real`. So the widget's `default` branches, which only NaN reaches, are unreachable in the model.
- The nested `ClothingItem`, `WeatherGuide` and `WeatherClothingRecommendation` types inside `WeatherDataEntry`: the widget never uses them.
- Localisation: the Korean strings are kept as literal constants.
