/**
  The widget's own copy of the colour mapping, an extension on
  `WeatherDataEntry`. Unlike the app's copy it uses HALF-OPEN ranges
  (`23..<28`, `20..<23`, ...), which leave no gap: every real temperature
  lands in one of the eight named bands.
 */
module Widget {
  import opened Switch
  import Colors

  /** A timeline entry; its `date` is not modelled. */
  datatype WeatherDataEntry = WeatherDataEntry(
    condition: string,
    temperature: real,
    humidity: real,
    precipitationIntensity: real,
    windSpeed: real,
    uvIndex: int,
    symbolName: string)

  /** The arms of the widget's background switch, in source order. */
  const BackgroundArms: seq<(Interval, Colors.Color)> := [
    (AtLeast(28.0), Colors.Asset(Colors.ExtremeHot)),
    (HalfOpen(23.0, 28.0), Colors.Asset(Colors.VeryHot)),
    (HalfOpen(20.0, 23.0), Colors.Asset(Colors.Warm)),
    (HalfOpen(17.0, 20.0), Colors.Asset(Colors.Mild)),
    (HalfOpen(12.0, 17.0), Colors.Asset(Colors.Cool)),
    (HalfOpen(9.0, 12.0), Colors.Asset(Colors.Cold)),
    (HalfOpen(5.0, 9.0), Colors.Asset(Colors.VeryCold)),
    (Below(5.0), Colors.Asset(Colors.ExtremeCold))
  ]

  /** The arms of the widget's text switch, in source order. */
  const TextArms: seq<(Interval, Colors.Color)> := [
    (AtLeast(28.0), Colors.White),
    (HalfOpen(23.0, 28.0), Colors.White),
    (HalfOpen(20.0, 23.0), Colors.Black),
    (HalfOpen(17.0, 20.0), Colors.Black),
    (HalfOpen(12.0, 17.0), Colors.Black),
    (HalfOpen(9.0, 12.0), Colors.White),
    (HalfOpen(5.0, 9.0), Colors.White),
    (Below(5.0), Colors.White)
  ]

  function GetBackgroundColor(temperature: real): Colors.Color
  {
    Select(BackgroundArms, temperature, Colors.White)
  }

  function GetTextColor(temperature: real): Colors.Color
  {
    Select(TextArms, temperature, Colors.Black)
  }

  /** The computed property `backgroundColor`. */
  function BackgroundColor(entry: WeatherDataEntry): Colors.Color
  {
    GetBackgroundColor(entry.temperature)
  }

  /** The entry the provider's `placeholder` and `getSnapshot` build. */
  const PlaceholderEntry := WeatherDataEntry("Rainy", 19.9, 20.0, 1.0, 21.0, 5, "cloud.rain.fill")

  /** The half-open bands cover the real line: each temperature matches
      exactly one arm, so the `Color.white` default is never returned. */
  lemma BackgroundBands(t: real)
    ensures t >= 28.0 ==> GetBackgroundColor(t) == Colors.Asset(Colors.ExtremeHot)
    ensures 23.0 <= t < 28.0 ==> GetBackgroundColor(t) == Colors.Asset(Colors.VeryHot)
    ensures 20.0 <= t < 23.0 ==> GetBackgroundColor(t) == Colors.Asset(Colors.Warm)
    ensures 17.0 <= t < 20.0 ==> GetBackgroundColor(t) == Colors.Asset(Colors.Mild)
    ensures 12.0 <= t < 17.0 ==> GetBackgroundColor(t) == Colors.Asset(Colors.Cool)
    ensures 9.0 <= t < 12.0 ==> GetBackgroundColor(t) == Colors.Asset(Colors.Cold)
    ensures 5.0 <= t < 9.0 ==> GetBackgroundColor(t) == Colors.Asset(Colors.VeryCold)
    ensures t < 5.0 ==> GetBackgroundColor(t) == Colors.Asset(Colors.ExtremeCold)
    ensures GetBackgroundColor(t).Asset?
    ensures Colors.ExactlyOneArm(BackgroundArms, t)
  {
    var a := BackgroundArms;
    var k := if t >= 28.0 then 0 else if t >= 23.0 then 1 else if t >= 20.0 then 2
      else if t >= 17.0 then 3 else if t >= 12.0 then 4 else if t >= 9.0 then 5
      else if t >= 5.0 then 6 else 7;
    assert Contains(a[k].0, t);
    assert forall j | 0 <= j < |a| && j != k :: !Contains(a[j].0, t);
    SelectPicks(a, t, Colors.White, k);
  }

  /** Black text exactly on [12, 23); every temperature matches exactly one
      arm, so the default is never reached. */
  lemma TextColors(t: real)
    ensures GetTextColor(t) == Colors.Black <==> 12.0 <= t < 23.0
    ensures GetTextColor(t) == Colors.White <==> !(12.0 <= t < 23.0)
    ensures Colors.ExactlyOneArm(TextArms, t)
  {
    var a := TextArms;
    var k := if t >= 28.0 then 0 else if t >= 23.0 then 1 else if t >= 20.0 then 2
      else if t >= 17.0 then 3 else if t >= 12.0 then 4 else if t >= 9.0 then 5
      else if t >= 5.0 then 6 else 7;
    assert Contains(a[k].0, t);
    assert forall j | 0 <= j < |a| && j != k :: !Contains(a[j].0, t);
    SelectPicks(a, t, Colors.Black, k);
  }

  /** Each band boundary belongs to the warmer band. */
  lemma BackgroundBoundaries()
    ensures GetBackgroundColor(28.0) == Colors.Asset(Colors.ExtremeHot)
    ensures GetBackgroundColor(27.99) == Colors.Asset(Colors.VeryHot)
    ensures GetBackgroundColor(23.0) == Colors.Asset(Colors.VeryHot)
    ensures GetBackgroundColor(22.99) == Colors.Asset(Colors.Warm)
    ensures GetBackgroundColor(5.0) == Colors.Asset(Colors.VeryCold)
    ensures GetBackgroundColor(4.99) == Colors.Asset(Colors.ExtremeCold)
  {
    BackgroundBands(28.0);
    BackgroundBands(27.99);
    BackgroundBands(23.0);
    BackgroundBands(22.99);
    BackgroundBands(5.0);
    BackgroundBands(4.99);
  }

  /** An entry's `backgroundColor` is always a named band, and the app's
      band wherever the app's closed ranges give one. */
  lemma EntryBackground(entry: WeatherDataEntry)
    ensures BackgroundColor(entry).Asset?
    ensures Colors.GetBackgroundColor(entry.temperature).Asset? ==>
      BackgroundColor(entry) == Colors.GetBackgroundColor(entry.temperature)
  {
    BackgroundBands(entry.temperature);
    Colors.BackgroundBands(entry.temperature);
  }

  /** The placeholder entry (19.9 degrees) is shown on the Mild background
      with black text. */
  lemma PlaceholderColors()
    ensures BackgroundColor(PlaceholderEntry) == Colors.Asset(Colors.Mild)
    ensures GetTextColor(PlaceholderEntry.temperature) == Colors.Black
  {
    BackgroundBands(19.9);
    TextColors(19.9);
  }

  /** The widget and the app pick the same colours wherever the app's closed
      ranges match. In the gaps the app falls back to white on black while
      the widget still shows a band; the text then differs in the gaps whose
      widget band has white text, (27,28), (11,12) and (8,9), and stays black
      in (22,23), (19,20) and (16,17). */
  lemma AgreesWithApp(t: real)
    ensures !Colors.InClosedGap(t) ==>
      GetBackgroundColor(t) == Colors.GetBackgroundColor(t) && GetTextColor(t) == Colors.GetTextColor(t)
    ensures Colors.InClosedGap(t) ==>
      Colors.GetBackgroundColor(t) == Colors.White && GetBackgroundColor(t) != Colors.White
    ensures (27.0 < t < 28.0 || 11.0 < t < 12.0 || 8.0 < t < 9.0) ==>
      GetTextColor(t) == Colors.White && Colors.GetTextColor(t) == Colors.Black
    ensures (22.0 < t < 23.0 || 19.0 < t < 20.0 || 16.0 < t < 17.0) ==>
      GetTextColor(t) == Colors.Black && Colors.GetTextColor(t) == Colors.Black
  {
    BackgroundBands(t);
    TextColors(t);
    Colors.BackgroundBands(t);
    Colors.TextColors(t);
  }

  /** At every whole-degree temperature the two copies agree. */
  lemma AgreesWithAppOnIntegers(n: int)
    ensures GetBackgroundColor(n as real) == Colors.GetBackgroundColor(n as real)
    ensures GetTextColor(n as real) == Colors.GetTextColor(n as real)
  {
    AgreesWithApp(n as real);
  }

  /** 27.5 degrees: VeryHot in the widget, the white default in the app. */
  lemma DisagreesWithAppAt27Point5()
    ensures GetBackgroundColor(27.5) == Colors.Asset(Colors.VeryHot)
    ensures Colors.GetBackgroundColor(27.5) == Colors.White
  {
    BackgroundBands(27.5);
    Colors.BackgroundBands(27.5);
  }
}
