/**
  How the recommender and the colour mapping relate. Both switch on the
  same closed integer ranges, so a temperature that gets no clothing is
  exactly one that gets the white default background, and two temperatures
  on the same background band get the same clothing.
 */
module Consistency {
  import opened Weather
  import opened Outfit
  import Colors
  import Widget

  /** The white default background appears exactly when the clothing list is empty. */
  lemma WhiteBackgroundIffNoClothing(t: real, h: real)
    ensures Colors.GetBackgroundColor(t) == Colors.White <==> ClothingFor(t, h) == []
  {
    Colors.BackgroundBands(t);
    ClothingBands(t, h);
  }

  /** The clothing is a function of the background band and the humidity. */
  lemma ClothingFollowsBackgroundBand(t1: real, t2: real, h: real)
    requires Colors.GetBackgroundColor(t1) == Colors.GetBackgroundColor(t2)
    ensures ClothingFor(t1, h) == ClothingFor(t2, h)
  {
    Colors.BackgroundBands(t1);
    Colors.BackgroundBands(t2);
    ClothingBands(t1, h);
    ClothingBands(t2, h);
  }

  /** A cold, humid, wet, windy, sunny day: the winter list, all three
      guides in rule order, and the ExtremeCold background. */
  lemma ColdStormScenario()
    ensures Recommend(WeatherData("Snow", -5.0, 70.0, 1.0, 25.0, 9, "cloud.snow")) ==
      WeatherClothingRecommendation(ExtremeColdOutfit, [SnowGuide, HeavyWindGuide, SunscreenGuide])
    ensures Colors.GetBackgroundColor(-5.0) == Colors.Asset(Colors.ExtremeCold)
  {
    ClothingExtremeCold(-5.0, 70.0);
    Colors.BackgroundBands(-5.0);
  }

  /** The widget's placeholder observation (19.9 degrees, humidity 20, rain,
      wind 21, UV 5), run through the recommender and the app's colours:
      no clothing, a rain and a jacket guide, no sunscreen, and a white
      background, while the widget shows it on Mild. */
  lemma PlaceholderScenario()
    ensures Recommend(WeatherData("Rainy", 19.9, 20.0, 1.0, 21.0, 5, "cloud.rain.fill")) ==
      WeatherClothingRecommendation([], [RainGuide, WindGuide])
    ensures Colors.GetBackgroundColor(19.9) == Colors.White
    ensures Widget.BackgroundColor(Widget.PlaceholderEntry) == Colors.Asset(Colors.Mild)
  {
    ClothingInGap(19.9, 20.0);
    Colors.BackgroundBands(19.9);
    Widget.PlaceholderColors();
  }
}
