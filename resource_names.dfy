/** Icon resource names for weather codes
    (app/.../theme/resource/utils/Constants.kt). */
module Constants {
  import opened Wrappers
  import opened WeatherCodes

  /** `getResourcesName(code)`: the drawable name of a weather code; a null
      code falls back to the cloudy icon. */
  function ResourcesName(code: Option<WeatherCode>): string {
    match code
    case Some(Clear) => "weather_clear"
    case Some(PartlyCloudy) => "weather_partly_cloudy"
    case Some(Cloudy) => "weather_cloudy"
    case Some(Rain) => "weather_rain"
    case Some(ShoweryRain) => "weather_showery_rain"
    case Some(LightRain) => "weather_light_rain"
    case Some(ModerateRain) => "weather_moderate_rain"
    case Some(HeavyRain) => "weather_heavy_rain"
    case Some(Rainstorm) => "weather_rainstorm"
    case Some(Snow) => "weather_snow"
    case Some(ShowerySnow) => "weather_showery_snow"
    case Some(LightSnow) => "weather_light_snow"
    case Some(ModerateSnow) => "weather_moderate_snow"
    case Some(HeavySnow) => "weather_heavy_snow"
    case Some(Snowstorm) => "weather_snowstorm"
    case Some(Wind) => "weather_wind"
    case Some(Fog) => "weather_fog"
    case Some(Haze) => "weather_haze"
    case Some(Sleet) => "weather_sleet"
    case Some(Hail) => "weather_hail"
    case Some(Thunder) => "weather_thunder"
    case Some(Thunderstorm) => "weather_thunderstorm"
    case None => "weather_cloudy"
  }

  /** `getShortcutsName(code)`: the launcher-shortcut icon name of a weather
      code; a null code falls back to the cloudy icon. */
  function ShortcutsName(code: Option<WeatherCode>): string {
    match code
    case Some(Clear) => "shortcuts_clear"
    case Some(PartlyCloudy) => "shortcuts_partly_cloudy"
    case Some(Cloudy) => "shortcuts_cloudy"
    case Some(Rain) => "shortcuts_rain"
    case Some(ShoweryRain) => "shortcuts_showery_rain"
    case Some(LightRain) => "shortcuts_light_rain"
    case Some(ModerateRain) => "shortcuts_moderate_rain"
    case Some(HeavyRain) => "shortcuts_heavy_rain"
    case Some(Rainstorm) => "shortcuts_rainstorm"
    case Some(Snow) => "shortcuts_snow"
    case Some(ShowerySnow) => "shortcuts_showery_snow"
    case Some(LightSnow) => "shortcuts_light_snow"
    case Some(ModerateSnow) => "shortcuts_moderate_snow"
    case Some(HeavySnow) => "shortcuts_heavy_snow"
    case Some(Snowstorm) => "shortcuts_snowstorm"
    case Some(Wind) => "shortcuts_wind"
    case Some(Fog) => "shortcuts_fog"
    case Some(Haze) => "shortcuts_haze"
    case Some(Sleet) => "shortcuts_sleet"
    case Some(Hail) => "shortcuts_hail"
    case Some(Thunder) => "shortcuts_thunder"
    case Some(Thunderstorm) => "shortcuts_thunderstorm"
    case None => "shortcuts_cloudy"
  }

  // The name tables checked against the ids, one family of codes at a time.

  lemma ResourcesNameOfSkyCodes(c: WeatherCode)
    requires c in {Clear, PartlyCloudy, Cloudy}
    ensures ResourcesName(Some(c)) == "weather_" + Id(c)
  {
  }

  lemma ResourcesNameOfRainCodes(c: WeatherCode)
    requires c in {Rain, ShoweryRain, LightRain, ModerateRain, HeavyRain, Rainstorm}
    ensures ResourcesName(Some(c)) == "weather_" + Id(c)
  {
  }

  lemma ResourcesNameOfSnowCodes(c: WeatherCode)
    requires c in {Snow, ShowerySnow, LightSnow, ModerateSnow, HeavySnow, Snowstorm}
    ensures ResourcesName(Some(c)) == "weather_" + Id(c)
  {
  }

  lemma ResourcesNameOfOtherCodes(c: WeatherCode)
    requires c in {Wind, Fog, Haze, Sleet, Hail, Thunder, Thunderstorm}
    ensures ResourcesName(Some(c)) == "weather_" + Id(c)
  {
  }

  /** Every resource name is "weather_" followed by the code's id, and the
      null code gets the cloudy name. */
  lemma ResourcesNameIsPrefixedId(c: WeatherCode)
    ensures ResourcesName(Some(c)) == "weather_" + Id(c)
    ensures ResourcesName(None) == ResourcesName(Some(Cloudy))
  {
    if c in {Clear, PartlyCloudy, Cloudy} {
      ResourcesNameOfSkyCodes(c);
    } else if c in {Rain, ShoweryRain, LightRain, ModerateRain, HeavyRain, Rainstorm} {
      ResourcesNameOfRainCodes(c);
    } else if c in {Snow, ShowerySnow, LightSnow, ModerateSnow, HeavySnow, Snowstorm} {
      ResourcesNameOfSnowCodes(c);
    } else {
      ResourcesNameOfOtherCodes(c);
    }
  }

  lemma ShortcutsNameOfSkyCodes(c: WeatherCode)
    requires c in {Clear, PartlyCloudy, Cloudy}
    ensures ShortcutsName(Some(c)) == "shortcuts_" + Id(c)
  {
  }

  lemma ShortcutsNameOfRainCodes(c: WeatherCode)
    requires c in {Rain, ShoweryRain, LightRain, ModerateRain, HeavyRain, Rainstorm}
    ensures ShortcutsName(Some(c)) == "shortcuts_" + Id(c)
  {
  }

  lemma ShortcutsNameOfSnowCodes(c: WeatherCode)
    requires c in {Snow, ShowerySnow, LightSnow, ModerateSnow, HeavySnow, Snowstorm}
    ensures ShortcutsName(Some(c)) == "shortcuts_" + Id(c)
  {
  }

  lemma ShortcutsNameOfOtherCodes(c: WeatherCode)
    requires c in {Wind, Fog, Haze, Sleet, Hail, Thunder, Thunderstorm}
    ensures ShortcutsName(Some(c)) == "shortcuts_" + Id(c)
  {
  }

  /** Every shortcut name is "shortcuts_" followed by the code's id, and the
      null code gets the cloudy name. */
  lemma ShortcutsNameIsPrefixedId(c: WeatherCode)
    ensures ShortcutsName(Some(c)) == "shortcuts_" + Id(c)
    ensures ShortcutsName(None) == ShortcutsName(Some(Cloudy))
  {
    if c in {Clear, PartlyCloudy, Cloudy} {
      ShortcutsNameOfSkyCodes(c);
    } else if c in {Rain, ShoweryRain, LightRain, ModerateRain, HeavyRain, Rainstorm} {
      ShortcutsNameOfRainCodes(c);
    } else if c in {Snow, ShowerySnow, LightSnow, ModerateSnow, HeavySnow, Snowstorm} {
      ShortcutsNameOfSnowCodes(c);
    } else {
      ShortcutsNameOfOtherCodes(c);
    }
  }

  /** Distinct codes get distinct resource names. */
  lemma ResourcesNameInjective(a: WeatherCode, b: WeatherCode)
    ensures ResourcesName(Some(a)) == ResourcesName(Some(b)) ==> a == b
  {
    ResourcesNameIsPrefixedId(a);
    ResourcesNameIsPrefixedId(b);
    var p := "weather_";
    if ResourcesName(Some(a)) == ResourcesName(Some(b)) {
      assert (p + Id(a))[|p|..] == Id(a);
      assert (p + Id(b))[|p|..] == Id(b);
      IdInjective(a, b);
    }
  }

  /** Distinct codes get distinct shortcut names. */
  lemma ShortcutsNameInjective(a: WeatherCode, b: WeatherCode)
    ensures ShortcutsName(Some(a)) == ShortcutsName(Some(b)) ==> a == b
  {
    ShortcutsNameIsPrefixedId(a);
    ShortcutsNameIsPrefixedId(b);
    var p := "shortcuts_";
    if ShortcutsName(Some(a)) == ShortcutsName(Some(b)) {
      assert (p + Id(a))[|p|..] == Id(a);
      assert (p + Id(b))[|p|..] == Id(b);
      IdInjective(a, b);
    }
  }
}
