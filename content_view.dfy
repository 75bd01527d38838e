/**
  The colour choices of the app's main screen. `ContentView` carries private
  copies of `getBackgroundColor(for:)` and `getTextColor(for:)` (which shadow
  the free functions inside the view) and falls back to fixed values while
  no weather data has arrived: a white background, `temperature ?? 21` for
  the text and `temperature ?? 0` for the dividers.
 */
module ContentView {
  import opened Switch
  import opened Weather
  import Colors

  /** The private background switch, in source order. */
  const BackgroundArms: seq<(Interval, Colors.Color)> := [
    (AtLeast(28.0), Colors.Asset(Colors.ExtremeHot)),
    (Closed(23.0, 27.0), Colors.Asset(Colors.VeryHot)),
    (Closed(20.0, 22.0), Colors.Asset(Colors.Warm)),
    (Closed(17.0, 19.0), Colors.Asset(Colors.Mild)),
    (Closed(12.0, 16.0), Colors.Asset(Colors.Cool)),
    (Closed(9.0, 11.0), Colors.Asset(Colors.Cold)),
    (Closed(5.0, 8.0), Colors.Asset(Colors.VeryCold)),
    (Below(5.0), Colors.Asset(Colors.ExtremeCold))
  ]

  /** The private text switch, in source order. */
  const TextArms: seq<(Interval, Colors.Color)> := [
    (AtLeast(28.0), Colors.White),
    (Closed(23.0, 27.0), Colors.White),
    (Closed(20.0, 22.0), Colors.Black),
    (Closed(17.0, 19.0), Colors.Black),
    (Closed(12.0, 16.0), Colors.Black),
    (Closed(9.0, 11.0), Colors.White),
    (Closed(5.0, 8.0), Colors.White),
    (Below(5.0), Colors.White)
  ]

  function GetBackgroundColor(temperature: real): Colors.Color
  {
    Select(BackgroundArms, temperature, Colors.White)
  }

  function GetTextColor(temperature: real): Colors.Color
  {
    Select(TextArms, temperature, Colors.Black)
  }

  /** The full-screen background: the temperature's band, or white without data. */
  function ScreenBackground(weatherData: Option<WeatherData>): Colors.Color
  {
    match weatherData
    case Some(w) => GetBackgroundColor(w.temperature)
    case None => Colors.White
  }

  /** `.foregroundStyle(getTextColor(for: weatherData?.temperature ?? 21))`. */
  function ForegroundColor(weatherData: Option<WeatherData>): Colors.Color
  {
    var temperature := match weatherData
      case Some(w) => Some(w.temperature)
      case None => None;
    GetTextColor(temperature.GetOr(21.0))
  }

  /** The dividers: `getTextColor(for: weatherData?.temperature ?? 0)`. */
  function DividerColor(weatherData: Option<WeatherData>): Colors.Color
  {
    var temperature := match weatherData
      case Some(w) => Some(w.temperature)
      case None => None;
    GetTextColor(temperature.GetOr(0.0))
  }

  /** The private background copy returns the free function's colour for
      every temperature. */
  lemma PrivateBackgroundMatchesFree(t: real)
    ensures GetBackgroundColor(t) == Colors.GetBackgroundColor(t)
  {
    assert BackgroundArms == Colors.BackgroundArms;
  }

  /** The private text copy returns the free function's colour for every
      temperature. */
  lemma PrivateTextMatchesFree(t: real)
    ensures GetTextColor(t) == Colors.GetTextColor(t)
  {
    assert TextArms == Colors.TextArms;
  }

  /** Before any weather data arrives the screen is white, the main text
      black (as at 21 degrees) and the dividers white (as at 0 degrees). */
  lemma NoDataFallbacks()
    ensures ScreenBackground(None) == Colors.White
    ensures ForegroundColor(None) == Colors.Black
    ensures DividerColor(None) == Colors.White
  {
    PrivateTextMatchesFree(21.0);
    PrivateTextMatchesFree(0.0);
    Colors.TextColors(21.0);
    Colors.TextColors(0.0);
  }

  /** With or without data, the main text is black exactly when the screen
      background is Cool, Mild, Warm or white. */
  lemma ForegroundContrastsWithScreen(weatherData: Option<WeatherData>)
    ensures ForegroundColor(weatherData) == Colors.Black <==>
      ScreenBackground(weatherData) in
        {Colors.Asset(Colors.Cool), Colors.Asset(Colors.Mild), Colors.Asset(Colors.Warm), Colors.White}
  {
    match weatherData
    case Some(w) =>
      PrivateBackgroundMatchesFree(w.temperature);
      PrivateTextMatchesFree(w.temperature);
      Colors.TextContrastsWithBackground(w.temperature);
    case None =>
      NoDataFallbacks();
  }
}
