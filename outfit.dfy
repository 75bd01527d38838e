/**
  `OutfitRecommender.recommendOutfit(for:)`: clothing chosen by a two-key
  switch on (temperature, humidity), followed by three independent guide
  rules for precipitation, wind and UV.

  The switch's inner bands are closed integer ranges matched against a real
  temperature, so temperatures strictly between two bands (27.5, 19.9, ...)
  match no case and the `default: break` leaves the clothing list empty.
 */
module Outfit {
  import opened Switch
  import opened Weather
  import Colors

  function Item(name: string, image: string): ClothingItem
  {
    ClothingItem(name, Some(image))
  }

  // The clothing lists, one per case of the switch, in source order.

  const ExtremeHotOutfit: seq<ClothingItem> := [
    Item("민소매", "camisole"), Item("반팔 티셔츠", "t-shirt"),
    Item("반바지", "shorts"), Item("짧은 치마", "skirt")]
  const VeryHotHumidOutfit: seq<ClothingItem> := [
    Item("반팔 티셔츠", "t-shirt"), Item("얇은 셔츠", "long-sleeved-shirt"),
    Item("반바지", "shorts")]
  const VeryHotDryOutfit: seq<ClothingItem> := [
    Item("얇은 긴팔 티셔츠", "pullover"), Item("면바지", "pants-mans")]
  const WarmHumidOutfit: seq<ClothingItem> := [
    Item("얇은 가디건", "cardigan"), Item("셔츠", "pullover"), Item("블라우스", "blouse")]
  const WarmDryOutfit: seq<ClothingItem> := [
    Item("긴팔 티셔츠", "longsleeve"), Item("후드티", "sweatshirt"), Item("청바지", "pants-mans2")]
  const MildHumidOutfit: seq<ClothingItem> := [
    Item("얇은 재킷", "windbreaker"), Item("후드티", "sweatshirt"), Item("청바지", "pants-mans2")]
  const MildDryOutfit: seq<ClothingItem> := [
    Item("얇은 니트", "knit"), Item("얇은 가디건", "cardigan"), Item("긴바지", "pants-mans2")]
  const CoolHumidOutfit: seq<ClothingItem> := [
    Item("가디건", "cardigan"), Item("기모 후드티", "sweatshirt"), Item("청바지", "pants-mans2")]
  const CoolDryOutfit: seq<ClothingItem> := [
    Item("재킷", "anorak"), Item("야상", "a-down-jacket"),
    Item("면바지", "pants"), Item("니트", "knit")]
  const ColdHumidOutfit: seq<ClothingItem> := [
    Item("야상", "a-down-jacket"), Item("점퍼", "jacket"), Item("청바지", "pants")]
  const ColdDryOutfit: seq<ClothingItem> := [
    Item("재킷", "jacket"), Item("트렌치 코트", "duffle-coat"),
    Item("기모 바지", "pants"), Item("니트", "knit")]
  const VeryColdHumidOutfit: seq<ClothingItem> := [
    Item("가죽 재킷", "jacket"), Item("청바지", "pants"), Item("플리스", "a-down-jacket2")]
  const VeryColdDryOutfit: seq<ClothingItem> := [
    Item("울 코트", "duffle-coat"), Item("레깅스", "leggings-womans"),
    Item("두꺼운 바지", "pants"), Item("스카프", "scarf"),
    Item("내복", "pants-mans3"), Item("니트", "knit")]
  const ExtremeColdOutfit: seq<ClothingItem> := [
    Item("패딩", "a-down-jacket3"), Item("두꺼운 코트", "duffle-coat"),
    Item("내복", "pants-mans3"), Item("목도리", "scarf"), Item("장갑", "mittens"),
    Item("비니", "beanie"), Item("두꺼운 양말", "socks")]

  // The guides, in the order the three rules append them.

  const SnowGuide := WeatherGuide("눈이 내릴 수 있으니 우산을 꼭 챙기세요!", "snowflake")
  const RainGuide := WeatherGuide("비가 내릴 수 있으니 우산을 꼭 챙기세요!", "cloud.rain.fill")
  const HeavyWindGuide := WeatherGuide("바람이 많이 불어요! 패딩을 챙기세요.", "wind.snow")
  const WindGuide := WeatherGuide("바람이 많이 불어요! 재킷을 챙기세요.", "wind")
  const SunscreenGuide := WeatherGuide("자외선 지수가 높아요. 선크림을 바르세요.", "sun.max.trianglebadge.exclamationmark.fill")

  /** The `where` clause of a tuple case: none (`_`) or `humidity > limit`. */
  datatype Guard = AnyHumidity | HumidityAbove(limit: real)

  /** One case `(range, humidity-pattern) [where ...]` of the clothing switch. */
  datatype OutfitArm = OutfitArm(range: Interval, guard: Guard, outfit: seq<ClothingItem>)

  predicate ArmMatches(arm: OutfitArm, t: real, h: real)
  {
    Contains(arm.range, t) && (arm.guard.HumidityAbove? ==> h > arm.guard.limit)
  }

  /** A `switch (temperature, humidity)` whose `default` leaves the list empty. */
  function SelectOutfit(arms: seq<OutfitArm>, t: real, h: real): seq<ClothingItem>
  {
    if arms == [] then []
    else if ArmMatches(arms[0], t, h) then arms[0].outfit
    else SelectOutfit(arms[1..], t, h)
  }

  predicate OutfitMissesBefore(arms: seq<OutfitArm>, t: real, h: real, k: nat)
    requires k <= |arms|
  {
    forall j | 0 <= j < k :: !ArmMatches(arms[j], t, h)
  }

  lemma {:induction false} OutfitPicks(arms: seq<OutfitArm>, t: real, h: real, k: nat)
    requires k < |arms| && ArmMatches(arms[k], t, h)
    requires OutfitMissesBefore(arms, t, h, k)
    ensures SelectOutfit(arms, t, h) == arms[k].outfit
  {
    if k > 0 {
      assert !ArmMatches(arms[0], t, h);
      OutfitPicks(arms[1..], t, h, k - 1);
    }
  }

  lemma {:induction false} OutfitFallback(arms: seq<OutfitArm>, t: real, h: real)
    requires OutfitMissesBefore(arms, t, h, |arms|)
    ensures SelectOutfit(arms, t, h) == []
  {
    if arms != [] {
      assert !ArmMatches(arms[0], t, h);
      OutfitFallback(arms[1..], t, h);
    }
  }

  /** The cases of the clothing switch, in source order. */
  const OutfitArms: seq<OutfitArm> := [
    OutfitArm(AtLeast(28.0), AnyHumidity, ExtremeHotOutfit),
    OutfitArm(Closed(23.0, 27.0), HumidityAbove(60.0), VeryHotHumidOutfit),
    OutfitArm(Closed(23.0, 27.0), AnyHumidity, VeryHotDryOutfit),
    OutfitArm(Closed(20.0, 22.0), HumidityAbove(60.0), WarmHumidOutfit),
    OutfitArm(Closed(20.0, 22.0), AnyHumidity, WarmDryOutfit),
    OutfitArm(Closed(17.0, 19.0), HumidityAbove(60.0), MildHumidOutfit),
    OutfitArm(Closed(17.0, 19.0), AnyHumidity, MildDryOutfit),
    OutfitArm(Closed(12.0, 16.0), HumidityAbove(60.0), CoolHumidOutfit),
    OutfitArm(Closed(12.0, 16.0), AnyHumidity, CoolDryOutfit),
    OutfitArm(Closed(9.0, 11.0), HumidityAbove(60.0), ColdHumidOutfit),
    OutfitArm(Closed(9.0, 11.0), AnyHumidity, ColdDryOutfit),
    OutfitArm(Closed(5.0, 8.0), HumidityAbove(60.0), VeryColdHumidOutfit),
    OutfitArm(Closed(5.0, 8.0), AnyHumidity, VeryColdDryOutfit),
    OutfitArm(Below(5.0), AnyHumidity, ExtremeColdOutfit)
  ]

  /** The clothing list for one (temperature, humidity) reading. */
  function ClothingFor(temperature: real, humidity: real): seq<ClothingItem>
  {
    SelectOutfit(OutfitArms, temperature, humidity)
  }

  /** The precipitation rule: at most one umbrella guide. */
  function PrecipitationGuides(precipitationIntensity: real, temperature: real): seq<WeatherGuide>
  {
    if precipitationIntensity > 0.0 then
      [if temperature < 0.0 then SnowGuide else RainGuide]
    else []
  }

  /** The wind rule: at most one guide, padding below zero, jacket otherwise. */
  function WindGuides(windSpeed: real, temperature: real): seq<WeatherGuide>
  {
    if windSpeed > 20.0 then
      [if temperature < 0.0 then HeavyWindGuide else WindGuide]
    else []
  }

  /** The UV rule: sunscreen above index 5. */
  function UvGuides(uvIndex: int): seq<WeatherGuide>
  {
    if uvIndex > 5 then [SunscreenGuide] else []
  }

  /** The guides, in the order the three rules run. */
  function GuidesFor(precipitationIntensity: real, temperature: real, windSpeed: real, uvIndex: int): seq<WeatherGuide>
  {
    PrecipitationGuides(precipitationIntensity, temperature)
      + WindGuides(windSpeed, temperature)
      + UvGuides(uvIndex)
  }

  /** What `recommendOutfit(for:)` returns for an observation. */
  function Recommend(w: WeatherData): WeatherClothingRecommendation
  {
    WeatherClothingRecommendation(
      ClothingFor(w.temperature, w.humidity),
      GuidesFor(w.precipitationIntensity, w.temperature, w.windSpeed, w.uvIndex))
  }

  /** At 28 degrees and above the summer list, whatever the humidity. */
  lemma ClothingExtremeHot(t: real, h: real)
    requires t >= 28.0
    ensures ClothingFor(t, h) == ExtremeHotOutfit
  {
    OutfitPicks(OutfitArms, t, h, 0);
  }

  /** In [23, 27] humidity above 60 picks the first list, anything else the second. */
  lemma ClothingVeryHot(t: real, h: real)
    requires 23.0 <= t <= 27.0
    ensures ClothingFor(t, h) == if h > 60.0 then VeryHotHumidOutfit else VeryHotDryOutfit
  {
    if h > 60.0 { OutfitPicks(OutfitArms, t, h, 1); } else { OutfitPicks(OutfitArms, t, h, 2); }
  }

  /** In [20, 22] humidity above 60 picks the first list, anything else the second. */
  lemma ClothingWarm(t: real, h: real)
    requires 20.0 <= t <= 22.0
    ensures ClothingFor(t, h) == if h > 60.0 then WarmHumidOutfit else WarmDryOutfit
  {
    if h > 60.0 { OutfitPicks(OutfitArms, t, h, 3); } else { OutfitPicks(OutfitArms, t, h, 4); }
  }

  /** In [17, 19] humidity above 60 picks the first list, anything else the second. */
  lemma ClothingMild(t: real, h: real)
    requires 17.0 <= t <= 19.0
    ensures ClothingFor(t, h) == if h > 60.0 then MildHumidOutfit else MildDryOutfit
  {
    if h > 60.0 { OutfitPicks(OutfitArms, t, h, 5); } else { OutfitPicks(OutfitArms, t, h, 6); }
  }

  /** In [12, 16] humidity above 60 picks the first list, anything else the second. */
  lemma ClothingCool(t: real, h: real)
    requires 12.0 <= t <= 16.0
    ensures ClothingFor(t, h) == if h > 60.0 then CoolHumidOutfit else CoolDryOutfit
  {
    if h > 60.0 { OutfitPicks(OutfitArms, t, h, 7); } else { OutfitPicks(OutfitArms, t, h, 8); }
  }

  /** In [9, 11] humidity above 60 picks the first list, anything else the second. */
  lemma ClothingCold(t: real, h: real)
    requires 9.0 <= t <= 11.0
    ensures ClothingFor(t, h) == if h > 60.0 then ColdHumidOutfit else ColdDryOutfit
  {
    if h > 60.0 { OutfitPicks(OutfitArms, t, h, 9); } else { OutfitPicks(OutfitArms, t, h, 10); }
  }

  /** In [5, 8] humidity above 60 picks the first list, anything else the second. */
  lemma ClothingVeryCold(t: real, h: real)
    requires 5.0 <= t <= 8.0
    ensures ClothingFor(t, h) == if h > 60.0 then VeryColdHumidOutfit else VeryColdDryOutfit
  {
    if h > 60.0 { OutfitPicks(OutfitArms, t, h, 11); } else { OutfitPicks(OutfitArms, t, h, 12); }
  }

  /** Below 5 degrees the winter list, whatever the humidity. */
  lemma ClothingExtremeCold(t: real, h: real)
    requires t < 5.0
    ensures ClothingFor(t, h) == ExtremeColdOutfit
  {
    OutfitPicks(OutfitArms, t, h, 13);
  }

  /** A temperature strictly between two closed ranges matches no case:
      the `default: break` leaves the list empty (19.9 is one such value). */
  lemma ClothingInGap(t: real, h: real)
    requires Colors.InClosedGap(t)
    ensures ClothingFor(t, h) == []
  {
    var a := OutfitArms;
    assert forall j | 0 <= j < |a| :: !Contains(a[j].range, t);
    OutfitFallback(a, t, h);
  }

  /** Which list each (temperature, humidity) reading selects, and that
      exactly the gaps between the closed ranges give an empty list. */
  lemma ClothingBands(t: real, h: real)
    ensures t >= 28.0 ==> ClothingFor(t, h) == ExtremeHotOutfit
    ensures 23.0 <= t <= 27.0 ==>
      ClothingFor(t, h) == if h > 60.0 then VeryHotHumidOutfit else VeryHotDryOutfit
    ensures 20.0 <= t <= 22.0 ==>
      ClothingFor(t, h) == if h > 60.0 then WarmHumidOutfit else WarmDryOutfit
    ensures 17.0 <= t <= 19.0 ==>
      ClothingFor(t, h) == if h > 60.0 then MildHumidOutfit else MildDryOutfit
    ensures 12.0 <= t <= 16.0 ==>
      ClothingFor(t, h) == if h > 60.0 then CoolHumidOutfit else CoolDryOutfit
    ensures 9.0 <= t <= 11.0 ==>
      ClothingFor(t, h) == if h > 60.0 then ColdHumidOutfit else ColdDryOutfit
    ensures 5.0 <= t <= 8.0 ==>
      ClothingFor(t, h) == if h > 60.0 then VeryColdHumidOutfit else VeryColdDryOutfit
    ensures t < 5.0 ==> ClothingFor(t, h) == ExtremeColdOutfit
    ensures Colors.InClosedGap(t) <==> ClothingFor(t, h) == []
  {
    if t >= 28.0 { ClothingExtremeHot(t, h); }
    else if 23.0 <= t <= 27.0 { ClothingVeryHot(t, h); }
    else if 20.0 <= t <= 22.0 { ClothingWarm(t, h); }
    else if 17.0 <= t <= 19.0 { ClothingMild(t, h); }
    else if 12.0 <= t <= 16.0 { ClothingCool(t, h); }
    else if 9.0 <= t <= 11.0 { ClothingCold(t, h); }
    else if 5.0 <= t <= 8.0 { ClothingVeryCold(t, h); }
    else if t < 5.0 { ClothingExtremeCold(t, h); }
    else { ClothingInGap(t, h); }
  }

  /** Every non-empty clothing list has two to seven items, each with an image. */
  lemma ClothingListShape(t: real, h: real)
    ensures ClothingFor(t, h) != [] ==> 2 <= |ClothingFor(t, h)| <= 7
    ensures forall i | 0 <= i < |ClothingFor(t, h)| :: ClothingFor(t, h)[i].clothingImage.Some?
  {
    ClothingBands(t, h);
  }

  /** Only which side of 60 the humidity falls on matters: exactly 60 and
      any lower value pick the same list. */
  lemma ClothingHumidityThreshold(t: real, h1: real, h2: real)
    requires (h1 > 60.0) == (h2 > 60.0)
    ensures ClothingFor(t, h1) == ClothingFor(t, h2)
  {
    ClothingBands(t, h1);
    ClothingBands(t, h2);
  }

  /** In the six closed inner ranges the humidity split is observable. */
  lemma ClothingHumidityMatters(t: real, humid: real, dry: real)
    requires 5.0 <= t <= 27.0 && !Colors.InClosedGap(t)
    requires humid > 60.0 >= dry
    ensures ClothingFor(t, humid) != ClothingFor(t, dry)
  {
    ClothingBands(t, humid);
    ClothingBands(t, dry);
  }

  /** A humidity given as a 0..1 fraction instead of a percentage never
      reaches the humid lists: it is classified like 60 percent. */
  lemma FractionHumidityReadsAsDry(t: real, h: real)
    requires 0.0 <= h <= 1.0
    ensures ClothingFor(t, h) == ClothingFor(t, 60.0)
  {
    ClothingHumidityThreshold(t, h, 60.0);
  }

  /** Which of the three rules a guide comes from: 0 precipitation, 1 wind,
      2 UV; 3 for a guide no rule produces. */
  function RuleOf(g: WeatherGuide): nat
  {
    if g == SnowGuide || g == RainGuide then 0
    else if g == HeavyWindGuide || g == WindGuide then 1
    else if g == SunscreenGuide then 2
    else 3
  }

  /** The guide rules: each fires on its own condition, the snow and padding
      variants exactly below zero, and the guides come out in precipitation,
      wind, UV order, at most one per rule. */
  lemma GuideRules(p: real, t: real, w: real, uv: int)
    ensures SnowGuide in GuidesFor(p, t, w, uv) <==> p > 0.0 && t < 0.0
    ensures RainGuide in GuidesFor(p, t, w, uv) <==> p > 0.0 && t >= 0.0
    ensures HeavyWindGuide in GuidesFor(p, t, w, uv) <==> w > 20.0 && t < 0.0
    ensures WindGuide in GuidesFor(p, t, w, uv) <==> w > 20.0 && t >= 0.0
    ensures SunscreenGuide in GuidesFor(p, t, w, uv) <==> uv > 5
    ensures |GuidesFor(p, t, w, uv)| ==
      (if p > 0.0 then 1 else 0) + (if w > 20.0 then 1 else 0) + (if uv > 5 then 1 else 0)
    ensures forall i, j | 0 <= i < j < |GuidesFor(p, t, w, uv)| ::
      RuleOf(GuidesFor(p, t, w, uv)[i]) < RuleOf(GuidesFor(p, t, w, uv)[j])
  {
  }

  /** The guide rules on concrete readings: all three fire together in
      rule order, none fires on a calm dry day, and exactly zero degrees
      counts as rain rather than snow. */
  lemma GuideExamples()
    ensures GuidesFor(5.0, 10.0, 25.0, 8) == [RainGuide, WindGuide, SunscreenGuide]
    ensures GuidesFor(0.0, 10.0, 0.0, 0) == []
    ensures GuidesFor(5.0, -1.0, 0.0, 0) == [SnowGuide]
    ensures GuidesFor(5.0, 0.0, 0.0, 0) == [RainGuide]
    ensures GuidesFor(0.0, 10.0, 20.0, 5) == []
  {
  }

  /** The clothing depends on temperature and humidity only; the guides on
      precipitation, temperature, wind and UV only. */
  lemma RecommendationInputs(w1: WeatherData, w2: WeatherData)
    ensures w1.temperature == w2.temperature && w1.humidity == w2.humidity ==>
      Recommend(w1).clothingItems == Recommend(w2).clothingItems
    ensures (w1.precipitationIntensity == w2.precipitationIntensity
             && w1.temperature == w2.temperature && w1.windSpeed == w2.windSpeed
             && w1.uvIndex == w2.uvIndex) ==>
      Recommend(w1).weatherGuides == Recommend(w2).weatherGuides
  {
  }

  /**
    The imperative body of `recommendOutfit(for:)`: two local lists, one
    clothing list appended by the first matching case, then the three guide
    rules appended in order.
   */
  method RecommendOutfit(weatherData: WeatherData) returns (r: WeatherClothingRecommendation)
    ensures r == Recommend(weatherData)
  {
    var clothingItems: seq<ClothingItem> := [];
    var weatherGuides: seq<WeatherGuide> := [];
    var t, h := weatherData.temperature, weatherData.humidity;

    if t >= 28.0 {
      clothingItems := clothingItems + ExtremeHotOutfit;
      ClothingExtremeHot(t, h);
    } else if 23.0 <= t <= 27.0 && h > 60.0 {
      clothingItems := clothingItems + VeryHotHumidOutfit;
      ClothingVeryHot(t, h);
    } else if 23.0 <= t <= 27.0 {
      clothingItems := clothingItems + VeryHotDryOutfit;
      ClothingVeryHot(t, h);
    } else if 20.0 <= t <= 22.0 && h > 60.0 {
      clothingItems := clothingItems + WarmHumidOutfit;
      ClothingWarm(t, h);
    } else if 20.0 <= t <= 22.0 {
      clothingItems := clothingItems + WarmDryOutfit;
      ClothingWarm(t, h);
    } else if 17.0 <= t <= 19.0 && h > 60.0 {
      clothingItems := clothingItems + MildHumidOutfit;
      ClothingMild(t, h);
    } else if 17.0 <= t <= 19.0 {
      clothingItems := clothingItems + MildDryOutfit;
      ClothingMild(t, h);
    } else if 12.0 <= t <= 16.0 && h > 60.0 {
      clothingItems := clothingItems + CoolHumidOutfit;
      ClothingCool(t, h);
    } else if 12.0 <= t <= 16.0 {
      clothingItems := clothingItems + CoolDryOutfit;
      ClothingCool(t, h);
    } else if 9.0 <= t <= 11.0 && h > 60.0 {
      clothingItems := clothingItems + ColdHumidOutfit;
      ClothingCold(t, h);
    } else if 9.0 <= t <= 11.0 {
      clothingItems := clothingItems + ColdDryOutfit;
      ClothingCold(t, h);
    } else if 5.0 <= t <= 8.0 && h > 60.0 {
      clothingItems := clothingItems + VeryColdHumidOutfit;
      ClothingVeryCold(t, h);
    } else if 5.0 <= t <= 8.0 {
      clothingItems := clothingItems + VeryColdDryOutfit;
      ClothingVeryCold(t, h);
    } else if t < 5.0 {
      clothingItems := clothingItems + ExtremeColdOutfit;
      ClothingExtremeCold(t, h);
    } else {
      // default: break
      ClothingInGap(t, h);
    }
    assert clothingItems == ClothingFor(t, h);

    if weatherData.precipitationIntensity > 0.0 {
      if t < 0.0 {
        weatherGuides := weatherGuides + [SnowGuide];
      } else {
        weatherGuides := weatherGuides + [RainGuide];
      }
    }
    assert weatherGuides == PrecipitationGuides(weatherData.precipitationIntensity, t);

    if weatherData.windSpeed > 20.0 {
      if t < 0.0 {
        weatherGuides := weatherGuides + [HeavyWindGuide];
      } else {
        weatherGuides := weatherGuides + [WindGuide];
      }
    }
    assert weatherGuides == PrecipitationGuides(weatherData.precipitationIntensity, t)
      + WindGuides(weatherData.windSpeed, t);

    if weatherData.uvIndex > 5 {
      weatherGuides := weatherGuides + [SunscreenGuide];
    }

    r := WeatherClothingRecommendation(clothingItems, weatherGuides);
  }
}
