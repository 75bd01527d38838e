/**
  The value types the recommender reads and returns. The `UUID` ids of the
  `Identifiable` records are not modelled, so equality here is equality of
  names, images and messages. `Double` becomes `real`, Swift's `Int`
  becomes `int`, and an `Image` is the asset name it was created from.
 */
module Weather {

  datatype Option<T> = None | Some(value: T)
  {
    /** Swift's `optional ?? fallback`. */
    function GetOr(fallback: T): T
    {
      match this
      case Some(v) => v
      case None => fallback
    }
  }

  /** One observation as delivered by the weather service. */
  datatype WeatherData = WeatherData(
    condition: string,
    temperature: real,
    humidity: real,
    precipitationIntensity: real,
    windSpeed: real,
    uvIndex: int,
    symbolName: string)

  /** `ClothingItem(clothingName:clothingImage:)`; the image is optional. */
  datatype ClothingItem = ClothingItem(clothingName: string, clothingImage: Option<string>)

  /** `WeatherGuide(message:guideSymbolName:)`. */
  datatype WeatherGuide = WeatherGuide(message: string, guideSymbolName: string)

  datatype WeatherClothingRecommendation = WeatherClothingRecommendation(
    clothingItems: seq<ClothingItem>,
    weatherGuides: seq<WeatherGuide>)
}
