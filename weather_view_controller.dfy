/** The mapping between weather codes and the animated background's
    weather kinds (app/.../theme/weatherView/WeatherViewController.kt). */
module WeatherViewController {
  import opened Wrappers
  import opened WeatherCodes
  import opened Locations

  /** The `WEATHER_KIND_*` constants of the background view. */
  datatype WeatherKind =
    | KindClear | KindCloud | KindCloudy | KindRainy | KindLightRain | KindModerateRain
    | KindHeavyRain | KindRainstorm | KindSnow | KindLightSnow | KindModerateSnow
    | KindHeavySnow | KindSnowstorm | KindWind | KindFog | KindHaze | KindSleet
    | KindHail | KindThunder | KindThunderstorm

  /** The eleven kinds `getWeatherCode(kind)` lists. */
  const ListedKinds: set<WeatherKind> := {
    KindCloudy, KindCloud, KindFog, KindHail, KindHaze, KindRainy,
    KindSleet, KindSnow, KindThunderstorm, KindThunder, KindWind}

  /** `getWeatherCode(kind)`: the code of a listed kind, CLEAR otherwise. */
  function WeatherCodeOfKind(kind: WeatherKind): (r: WeatherCode)
    ensures kind !in ListedKinds ==> r == Clear
  {
    match kind
    case KindCloudy => Cloudy
    case KindCloud => PartlyCloudy
    case KindFog => Fog
    case KindHail => Hail
    case KindHaze => Haze
    case KindRainy => Rain
    case KindSleet => Sleet
    case KindSnow => Snow
    case KindThunderstorm => Thunderstorm
    case KindThunder => Thunder
    case KindWind => Wind
    case _ => Clear
  }

  /** `getWeatherKind(code)`: CLEAR for a missing code. */
  function WeatherKindOfCode(code: Option<WeatherCode>): (r: WeatherKind)
    ensures code.None? ==> r == KindClear
  {
    match code
    case None => KindClear
    case Some(c) =>
      match c
      case Clear => KindClear
      case PartlyCloudy => KindCloud
      case Cloudy => KindCloudy
      case Rain => KindRainy
      case LightRain => KindLightRain
      case ShoweryRain | ModerateRain => KindModerateRain
      case HeavyRain => KindHeavyRain
      case Rainstorm => KindRainstorm
      case Snow => KindSnow
      case LightSnow => KindLightSnow
      case ShowerySnow | ModerateSnow => KindModerateSnow
      case HeavySnow => KindHeavySnow
      case Snowstorm => KindSnowstorm
      case Wind => KindWind
      case Fog => KindFog
      case Haze => KindHaze
      case Sleet => KindSleet
      case Hail => KindHail
      case Thunder => KindThunder
      case Thunderstorm => KindThunderstorm
  }

  /** A listed kind survives the round trip through its code; every other
      kind becomes CLEAR. */
  lemma KindRoundTrip(kind: WeatherKind)
    ensures kind in ListedKinds ==> WeatherKindOfCode(Some(WeatherCodeOfKind(kind))) == kind
    ensures kind !in ListedKinds ==> WeatherKindOfCode(Some(WeatherCodeOfKind(kind))) == KindClear
  {
  }

  /** Two codes share a kind only when they are the showery and moderate
      forms of rain, or of snow. */
  lemma WeatherKindOfCodeMerges(a: WeatherCode, b: WeatherCode)
    requires a != b && WeatherKindOfCode(Some(a)) == WeatherKindOfCode(Some(b))
    ensures {a, b} == {ShoweryRain, ModerateRain} || {a, b} == {ShowerySnow, ModerateSnow}
  {
  }

  /** `getWeatherKind(location)`: with no override (or "auto") the current
      weather code decides; otherwise the override is looked up as a code
      id, and an unknown override gives CLEAR. */
  function WeatherKindOfLocation(location: Option<Location>): (r: WeatherKind)
    ensures location.None? ==> r == KindClear
    ensures location.Some? && location.value.backgroundWeatherKind.GetOr("auto") == "auto" ==>
      r == WeatherKindOfCode(location.value.currentWeatherCode)
  {
    var kind := if location.Some? then location.value.backgroundWeatherKind.GetOr("auto") else "auto";
    if kind == "auto" then
      WeatherKindOfCode(if location.Some? then location.value.currentWeatherCode else None)
    else
      WeatherKindOfCode(GetInstance(location.value.backgroundWeatherKind))
  }

  /** An override naming a code's id selects that code's kind. */
  lemma WeatherKindOfOverride(location: Location, c: WeatherCode)
    requires location.backgroundWeatherKind == Some(Id(c))
    ensures WeatherKindOfLocation(Some(location)) == WeatherKindOfCode(Some(c))
  {
    var kind := location.backgroundWeatherKind.value;
    assert kind != "auto" by {
      IdDecodes(c);
      assert CodeOfId("auto") == None;
    }
    GetInstanceOfId(c);
    assert GetInstance(location.backgroundWeatherKind) == Some(c);
  }

  /** An override other than "auto" that names no code, in any case,
      selects CLEAR. */
  lemma WeatherKindOfUnknownOverride(location: Location)
    requires location.backgroundWeatherKind.Some? && location.backgroundWeatherKind.value != "auto"
    requires forall d: WeatherCode :: !Text.EqualsIgnoreCase(Id(d), location.backgroundWeatherKind.value)
    ensures WeatherKindOfLocation(Some(location)) == KindClear
  {
    GetInstanceOfUnknown(location.backgroundWeatherKind.value);
  }

  /** `isDaylight(location)`: a "day" or "night" override decides;
      otherwise the location's sun decides, and with no location it is
      day. */
  function IsDaylight(location: Option<Location>, now: int): (r: bool)
    ensures location.Some? && location.value.backgroundDayNightType == Some("day") ==> r
    ensures location.Some? && location.value.backgroundDayNightType == Some("night") ==> !r
    ensures location.None? ==> r
    ensures location.Some? && location.value.backgroundDayNightType.GetOr("auto") !in {"day", "night"} ==>
      r == Locations.IsDaylight(location.value, now)
  {
    var kind := if location.Some? then location.value.backgroundDayNightType.GetOr("auto") else "auto";
    if kind == "day" then true
    else if kind == "night" then false
    else if location.Some? then Locations.IsDaylight(location.value, now)
    else true
  }

  /** The position of a code's name in the kind-name array, "automatic"
      at position 0 not counted. */
  function WeatherTextIndex(code: WeatherCode): (r: nat)
    ensures r <= 19
  {
    match code
    case Clear => 0
    case PartlyCloudy => 1
    case Cloudy => 2
    case Rain | ShoweryRain => 3
    case LightRain => 4
    case ModerateRain => 5
    case HeavyRain => 6
    case Rainstorm => 7
    case Snow | ShowerySnow => 8
    case LightSnow => 9
    case ModerateSnow => 10
    case HeavySnow => 11
    case Snowstorm => 12
    case Sleet => 13
    case Hail => 14
    case Fog => 15
    case Haze => 16
    case Thunder => 17
    case Thunderstorm => 18
    case Wind => 19
  }

  /** `getWeatherText(code)`: the name at the code's index plus one, so the
      leading "automatic" entry is never returned; a name array too short
      for that position makes the lookup fail (None). */
  function WeatherText(code: WeatherCode, values: seq<string>): (r: Option<string>)
    ensures r.Some? <==> WeatherTextIndex(code) + 1 < |values|
    ensures |values| >= 21 ==> r.Some?
    ensures r.Some? ==> r.value == values[WeatherTextIndex(code) + 1]
    ensures r.Some? ==> exists i :: 1 <= i <= 20 && i < |values| && r.value == values[i]
  {
    var i := WeatherTextIndex(code) + 1;
    if i < |values| then Some(values[i]) else None
  }

  /** Two codes share a name only for RAIN and SHOWERY_RAIN, or SNOW and
      SHOWERY_SNOW. */
  lemma WeatherTextIndexMerges(a: WeatherCode, b: WeatherCode)
    requires a != b && WeatherTextIndex(a) == WeatherTextIndex(b)
    ensures {a, b} == {Rain, ShoweryRain} || {a, b} == {Snow, ShowerySnow}
  {
  }

  /** Every position 0..19 is some code's. */
  lemma WeatherTextIndexOnto(i: nat)
    requires i <= 19
    ensures exists c :: WeatherTextIndex(c) == i
  {
    var all := [Clear, PartlyCloudy, Cloudy, Rain, LightRain, ModerateRain, HeavyRain, Rainstorm,
                Snow, LightSnow, ModerateSnow, HeavySnow, Snowstorm, Sleet, Hail, Fog, Haze,
                Thunder, Thunderstorm, Wind];
    assert WeatherTextIndex(all[i]) == i;
  }
}
