/** Translation of China (weather.com.cn) responses into the shared weather
    model (app/src/src_nonfreenet/.../china/ChinaResultConverter.kt).
    Response fields arrive already parsed: numbers as reals (a field that
    does not parse as `None`), instants as milliseconds since the epoch. */
module ChinaConverter {
  import opened Wrappers
  import opened Numeric
  import opened Text
  import opened WeatherCodes
  import opened Domain
  import QWeatherConverter

  // ----- Location -----

  const LocationKeyPrefix: string := "weathercn:"

  /** The `cityId` of a searched location: the location key with every
      "weathercn:" removed. */
  function CityId(locationKey: string): (r: string)
    ensures |r| <= |locationKey|
  {
    ReplaceAllShrinks(locationKey, LocationKeyPrefix, "");
    ReplaceAll(locationKey, LocationKeyPrefix, "")
  }

  lemma {:induction false} ReplaceAllShrinks(s: string, pat: string, rep: string)
    requires |pat| > 0 && |rep| <= |pat|
    ensures |ReplaceAll(s, pat, rep)| <= |s|
    decreases |s|
  {
    if |s| >= |pat| {
      if s[..|pat|] == pat {
        ReplaceAllShrinks(s[|pat|..], pat, rep);
      } else {
        ReplaceAllShrinks(s[1..], pat, rep);
      }
    }
  }

  /** A prefixed key gives back the provider's id, and a key without the
      prefix is kept as it is. */
  lemma CityIdStripsPrefix(id: string)
    requires !Contains(id, LocationKeyPrefix)
    ensures CityId(LocationKeyPrefix + id) == id
    ensures CityId(id) == id
  {
    ReplaceAllLeading(LocationKeyPrefix, id, "");
    ReplaceAllWithoutOccurrence(id, LocationKeyPrefix, "");
  }

  // ----- Icon tables -----

  /** `getWeatherText(icon)`: "Unknown" for a missing, empty or unlisted
      icon; one-digit codes may carry a leading zero. */
  function WeatherText(icon: Option<string>): (r: string)
    ensures IsNullOrEmpty(icon) ==> r == "Unknown"
    ensures r != ""
  {
    if IsNullOrEmpty(icon) then "Unknown"
    else match icon.value
      case "0" | "00" => "Clear"
      case "1" | "01" => "Cloudy"
      case "2" | "02" => "Overcast"
      case "3" | "03" => "Shower"
      case "4" | "04" => "Thundershower"
      case "5" | "05" => "Hail"
      case "6" | "06" => "Sleet"
      case "7" | "07" => "Light Rain"
      case "8" | "08" => "Moderate Rain"
      case "9" | "09" => "Heavy Rain"
      case "10" => "Rainstorm"
      case "11" => "Heavy Rainstorm"
      case "12" => "Severe Rainstorm"
      case "13" => "Snow Flurry"
      case "14" => "Light Snow"
      case "15" => "Moderate Snow"
      case "16" => "Heavy Snow"
      case "17" => "Snowstorm"
      case "18" => "Fog"
      case "19" => "Freezing Rain"
      case "20" => "Sandstorm"
      case "21" => "Light to Moderate Rain"
      case "22" => "Moderate to Heavy Rain"
      case "23" => "Heavy Rain to Rainstorm"
      case "24" => "Rainstorm to Heavy Rainstorm"
      case "25" => "Heavy to Severe Rainstorm"
      case "26" => "Light to Moderate Snow"
      case "27" => "Moderate to Heavy Snow"
      case "28" => "Heavy Snow to Snowstorm"
      case "29" => "Dust"
      case "30" => "Sand"
      case "31" => "Severe Sandstorm"
      case "53" | "54" | "55" | "56" => "Haze"
      case _ => "Unknown"
  }

  /** The weather code of a non-empty icon; CLOUDY for unlisted icons. */
  function IconWeatherCode(icon: string): (r: WeatherCode)
    ensures !r.Rain? && !r.Snow? && !r.Thunder?
  {
    match icon
    case "0" | "00" => Clear
    case "1" | "01" => PartlyCloudy
    case "3" | "03" => ShoweryRain
    case "7" | "07" => LightRain
    case "8" | "08" | "21" => ModerateRain
    case "9" | "09" | "22" => HeavyRain
    case "10" | "11" | "12" | "23" | "24" | "25" => Rainstorm
    case "4" | "04" => Thunderstorm
    case "5" | "05" => Hail
    case "6" | "06" | "19" => Sleet
    case "13" => ShowerySnow
    case "14" => LightSnow
    case "15" | "26" => ModerateSnow
    case "16" | "27" => HeavySnow
    case "17" | "28" => Snowstorm
    case "18" | "32" | "49" | "57" => Fog
    case "20" | "29" | "30" => Wind
    case "53" | "54" | "55" | "56" => Haze
    case _ => Cloudy
  }

  /** `getWeatherCode(icon)`: absent exactly for a missing or empty icon. */
  function WeatherCodeOfIcon(icon: Option<string>): (r: Option<WeatherCode>)
    ensures r.None? <==> IsNullOrEmpty(icon)
    ensures r.Some? ==> r == Some(IconWeatherCode(icon.value))
  {
    if IsNullOrEmpty(icon) then None else Some(IconWeatherCode(icon.value))
  }

  /** The icons the text table lists. */
  const TextIcons: set<string> := {
    "0", "00", "1", "01", "2", "02", "3", "03", "4", "04", "5", "05", "6", "06",
    "7", "07", "8", "08", "9", "09", "10", "11", "12", "13", "14", "15", "16", "17",
    "18", "19", "20", "21", "22", "23", "24", "25", "26", "27", "28", "29", "30", "31",
    "53", "54", "55", "56"}

  /** The icons the code table lists. */
  const CodeIcons: set<string> := {
    "0", "00", "1", "01", "3", "03", "4", "04", "5", "05", "6", "06", "7", "07",
    "8", "08", "9", "09", "10", "11", "12", "13", "14", "15", "16", "17", "18", "19",
    "20", "21", "22", "23", "24", "25", "26", "27", "28", "29", "30", "32", "49", "53",
    "54", "55", "56", "57"}

  /** A missing, empty or unlisted icon reads "Unknown"; an unlisted
      non-empty icon is CLOUDY. */
  lemma UnlistedIconFallbacks(icon: string)
    ensures WeatherText(None) == "Unknown" && WeatherText(Some("")) == "Unknown"
    ensures icon !in TextIcons ==> WeatherText(Some(icon)) == "Unknown"
    ensures icon !in CodeIcons ==> IconWeatherCode(icon) == Cloudy
  {
  }

  /** A one-digit icon and its zero-padded form read the same. */
  lemma LeadingZeroIgnored(d: char)
    requires '0' <= d <= '9'
    ensures WeatherText(Some([d])) == WeatherText(Some(['0', d]))
    ensures WeatherCodeOfIcon(Some([d])) == WeatherCodeOfIcon(Some(['0', d]))
  {
  }

  /** "2" (overcast) and "31" (severe sandstorm) have a text but no code of
      their own, and fall back to CLOUDY. */
  lemma OvercastAndSevereSandstormAreCloudy()
    ensures WeatherText(Some("2")) == "Overcast" && IconWeatherCode("2") == Cloudy
    ensures WeatherText(Some("02")) == "Overcast" && IconWeatherCode("02") == Cloudy
    ensures WeatherText(Some("31")) == "Severe Sandstorm" && IconWeatherCode("31") == Cloudy
  {
  }

  /** "32", "49" and "57" have a code but no text: they show as fog and
      read as "Unknown". */
  lemma FogCodesWithoutText(icon: string)
    requires icon in {"32", "49", "57"}
    ensures IconWeatherCode(icon) == Fog && WeatherText(Some(icon)) == "Unknown"
  {
  }

  // ----- Alerts -----

  const BlueLevels: set<string> := {"蓝", "蓝色"}
  const YellowLevels: set<string> := {"黄", "黄色"}
  const OrangeLevels: set<string> := {"橙", "橙色", "橘", "橘色", "橘黄", "橘黄色"}
  const RedLevels: set<string> := {"红", "红色"}

  /** `getAlertSeverity(color)`: blue, yellow, orange and red levels map to
      MINOR, MODERATE, SEVERE and EXTREME; anything else is UNKNOWN. */
  function AlertSeverity(level: Option<string>): (r: Domain.AlertSeverity)
    ensures !IsNullOrEmpty(level) && level.value in BlueLevels ==> r == Minor
    ensures !IsNullOrEmpty(level) && level.value in YellowLevels ==> r == Moderate
    ensures !IsNullOrEmpty(level) && level.value in OrangeLevels ==> r == Severe
    ensures !IsNullOrEmpty(level) && level.value in RedLevels ==> r == Extreme
    ensures r == Unknown <==>
      IsNullOrEmpty(level) || level.value !in BlueLevels + YellowLevels + OrangeLevels + RedLevels
  {
    if IsNullOrEmpty(level) then Unknown
    else match level.value
      case "蓝" | "蓝色" => Minor
      case "黄" | "黄色" => Moderate
      case "橙" | "橙色" | "橘" | "橘色" | "橘黄" | "橘黄色" => Severe
      case "红" | "红色" => Extreme
      case _ => Unknown
  }

  /** `getAlertColor(color)`: a colour exactly for the listed levels. */
  function AlertColor(level: Option<string>): (r: Option<Rgb>)
    ensures r.None? <==>
      IsNullOrEmpty(level) || level.value !in BlueLevels + YellowLevels + OrangeLevels + RedLevels
  {
    if IsNullOrEmpty(level) then None
    else match level.value
      case "蓝" | "蓝色" => Some(Rgb(66, 151, 231))
      case "黄" | "黄色" => Some(Rgb(255, 242, 184))
      case "橙" | "橙色" | "橘" | "橘色" | "橘黄" | "橘黄色" => Some(Rgb(255, 145, 0))
      case "红" | "红色" => Some(Rgb(255, 86, 86))
      case _ => None
  }

  /** The colour each known severity is drawn in. */
  function SeverityColor(s: Domain.AlertSeverity): Option<Rgb> {
    match s
    case Unknown => None
    case Minor => Some(Rgb(66, 151, 231))
    case Moderate => Some(Rgb(255, 242, 184))
    case Severe => Some(Rgb(255, 145, 0))
    case Extreme => Some(Rgb(255, 86, 86))
  }

  /** Both tables use the same keys: the colour is present exactly when the
      severity is known, and it is that severity's colour. */
  lemma AlertColorFollowsSeverity(level: Option<string>)
    ensures AlertColor(level) == SeverityColor(AlertSeverity(level))
    ensures AlertColor(level).Some? <==> AlertSeverity(level) != Unknown
  {
  }

  /** The four colours are the ones the QWeather converter uses for blue,
      yellow, orange and red warnings. */
  lemma AlertColorsMatchQWeather()
    ensures AlertColor(Some("蓝")) == QWeatherConverter.WarningColor(Some("Blue"))
    ensures AlertColor(Some("黄")) == QWeatherConverter.WarningColor(Some("Yellow"))
    ensures AlertColor(Some("橙")) == QWeatherConverter.WarningColor(Some("Orange"))
    ensures AlertColor(Some("红")) == QWeatherConverter.WarningColor(Some("Red"))
  {
  }

  /** An alert as the response carries it. */
  datatype ChinaAlert = ChinaAlert(
    title: Option<string>,
    detail: Option<string>,
    level: Option<string>,
    pubTime: Option<int>)

  /** `getHeadLine(title, description)`: the title when there is no
      description or when no pattern matches it; `matcher` stands for the
      regular-expression extraction. */
  function HeadLine(title: Option<string>, description: Option<string>, matcher: string -> Option<string>): (r: Option<string>)
    ensures description.None? ==> r == title
    ensures description.Some? && matcher(description.value).None? ==> r == title
    ensures description.Some? && matcher(description.value).Some? ==> r == matcher(description.value)
  {
    if description.None? then title
    else match matcher(description.value)
      case Some(h) => Some(h)
      case None => title
  }

  /** One alert; `idOf` stands for the hash of title, detail, level and
      time the source uses as id, `unknownColor` for the colour of the
      UNKNOWN severity. */
  function ChinaAlertOf(a: ChinaAlert, idOf: ChinaAlert -> string, matcher: string -> Option<string>, unknownColor: Rgb): (r: Alert)
    ensures r.alertId == idOf(a) && r.startDate == a.pubTime && r.description == a.detail
    ensures r.headline == HeadLine(a.title, a.detail, matcher)
    ensures r.severity == AlertSeverity(a.level)
    ensures r.color == SeverityColor(AlertSeverity(a.level)).GetOr(unknownColor)
  {
    AlertColorFollowsSeverity(a.level);
    Alert(idOf(a), a.pubTime, HeadLine(a.title, a.detail, matcher), a.detail,
          AlertSeverity(a.level), AlertColor(a.level).GetOr(unknownColor))
  }

  function ChinaAlerts(alerts: seq<ChinaAlert>, idOf: ChinaAlert -> string, matcher: string -> Option<string>, unknownColor: Rgb): (r: seq<Alert>)
    ensures |r| == |alerts|
    ensures forall i :: 0 <= i < |alerts| ==> r[i] == ChinaAlertOf(alerts[i], idOf, matcher, unknownColor)
  {
    seq(|alerts|, i requires 0 <= i < |alerts| => ChinaAlertOf(alerts[i], idOf, matcher, unknownColor))
  }

  /** `getAlertList`: empty for a missing or empty list; otherwise one alert
      per entry in the stable alert order. */
  function AlertList(alerts: Option<seq<ChinaAlert>>, idOf: ChinaAlert -> string, matcher: string -> Option<string>, unknownColor: Rgb): (r: seq<Alert>)
    ensures alerts.None? ==> r == []
    ensures alerts.Some? ==>
      && |r| == |alerts.value|
      && multiset(r) == multiset(ChinaAlerts(alerts.value, idOf, matcher, unknownColor))
      && AlertsSorted(r)
      && forall k :: WithKey(r, k) == WithKey(ChinaAlerts(alerts.value, idOf, matcher, unknownColor), k)
  {
    if alerts.None? || alerts.value == [] then []
    else SortAlerts(ChinaAlerts(alerts.value, idOf, matcher, unknownColor))
  }

  // ----- Reverse index -----

  const Pm25Thresholds: seq<real> := [0.0, 35.0, 75.0, 115.0, 150.0, 250.0, 350.0, 500.0]
  const AqiThresholds: seq<real> := [0.0, 50.0, 100.0, 150.0, 200.0, 300.0, 400.0, 500.0]

  /** This converter's own copy of `reverseIndex`. */
  function ReverseIndex(aqi: Option<int>): (r: Option<real>)
    ensures r.None? <==> aqi.None? || aqi.value <= 0
  {
    if aqi.None? || aqi.value <= 0 then None
    else
      var x := aqi.value as real;
      assert AqiThresholds[0] < x;
      var level := IndexOfLastBelow(AqiThresholds, x);
      if level < |AqiThresholds| - 1 then
        Some((x - AqiThresholds[level]) * (Pm25Thresholds[level + 1] - Pm25Thresholds[level])
             / (AqiThresholds[level + 1] - AqiThresholds[level]) + Pm25Thresholds[level])
      else
        Some(x * Pm25Thresholds[|Pm25Thresholds| - 1] / AqiThresholds[|AqiThresholds| - 1])
  }

  /** The two copies use the same tables and formula, so they agree on every
      input; every property proved of the QWeather copy holds here. */
  lemma ReverseIndexAgrees(aqi: Option<int>)
    ensures ReverseIndex(aqi) == QWeatherConverter.ReverseIndex(aqi)
  {
    assert Pm25Thresholds == QWeatherConverter.Pm25Thresholds;
    assert AqiThresholds == QWeatherConverter.AqiThresholds;
  }

  // ----- Precipitation probability and wind -----

  /** `getPrecipitationProbability(forecast, index)`: absent when the list
      is missing or empty, when the index is outside it, or when the entry
      does not parse. */
  function PrecipitationProbability(probabilities: Option<seq<Option<real>>>, index: int): (r: Option<real>)
    ensures r.Some? <==>
      probabilities.Some? && 0 <= index < |probabilities.value| && probabilities.value[index].Some?
    ensures r.Some? ==> r == probabilities.value[index]
  {
    if probabilities.None? || probabilities.value == [] then None
    else if 0 <= index < |probabilities.value| then probabilities.value[index]
    else None
  }

  /** One hourly wind entry. */
  datatype HourlyWind = HourlyWind(datetime: Option<int>, direction: Option<string>, speed: Option<string>)

  /** `getHourlyWindMap`: entries without a time are dropped, and each time
      maps to the first entry carrying it. */
  function HourlyWindMap(winds: Option<seq<HourlyWind>>): (m: map<int, HourlyWind>)
    ensures winds.None? ==> m == map[]
    ensures winds.Some? ==> forall t :: t in m <==>
      exists i :: 0 <= i < |winds.value| && winds.value[i].datetime == Some(t)
  {
    if winds.None? then map[] else FirstByTime(winds.value)
  }

  function FirstByTime(ws: seq<HourlyWind>): (m: map<int, HourlyWind>)
    ensures forall t :: t in m <==> exists i :: 0 <= i < |ws| && ws[i].datetime == Some(t)
  {
    if ws == [] then map[]
    else
      var rest := FirstByTime(ws[1..]);
      assert forall i :: 1 <= i < |ws| ==> ws[i] == ws[1..][i - 1];
      if ws[0].datetime.None? then rest else rest[ws[0].datetime.value := ws[0]]
  }

  /** The entry a time maps to is the first one carrying that time. */
  lemma {:induction false} FirstByTimeKeepsFirst(ws: seq<HourlyWind>, i: nat)
    requires i < |ws| && ws[i].datetime.Some?
    requires forall j :: 0 <= j < i ==> ws[j].datetime != ws[i].datetime
    ensures FirstByTime(ws)[ws[i].datetime.value] == ws[i]
  {
    if i > 0 {
      assert ws[1..][i - 1] == ws[i];
      FirstByTimeKeepsFirst(ws[1..], i - 1);
    }
  }

  // ----- Minutely list -----

  const MinuteMillis: int := 60000

  /** The precipitation nowcast: its publication time and one value per
      minute, in mm per minute. */
  datatype Precipitation = Precipitation(pubTime: Option<int>, value: Option<seq<real>>, description: Option<string>)

  /** `getMinutelyList`: empty when the nowcast, its values or its
      publication time are missing; otherwise one one-minute entry per value,
      starting at the publication time truncated to the minute, with the
      intensity converted from mm/min to mm/h. */
  function MinutelyList(precipitation: Option<Precipitation>): (r: seq<Minutely>)
    ensures precipitation.None? || precipitation.value.value.None? || precipitation.value.pubTime.None? ==> r == []
    ensures precipitation.Some? && precipitation.value.value.Some? && precipitation.value.pubTime.Some? ==>
      var p := precipitation.value;
      && |r| == |p.value.value|
      && forall i :: 0 <= i < |r| ==>
           && r[i].date == p.pubTime.value - p.pubTime.value % MinuteMillis + i * MinuteMillis
           && r[i].minuteInterval == 1
           && r[i].precipitationIntensity == Some(p.value.value[i] * 60.0)
  {
    if precipitation.None? || precipitation.value.value.None? || precipitation.value.value.value == []
       || precipitation.value.pubTime.None? then []
    else
      var p := precipitation.value;
      seq(|p.value.value|, i requires 0 <= i < |p.value.value| => MinuteOf(p.pubTime.value, i, p.value.value[i]))
  }

  function MinuteOf(pubTime: int, minute: int, value: real): Minutely {
    Minutely(pubTime - pubTime % MinuteMillis + minute * MinuteMillis, 1, Some(value * 60.0))
  }

  /** Consecutive entries are one minute apart, and the first lies within
      the minute before the publication time. */
  lemma MinutelyListSpacing(precipitation: Option<Precipitation>, i: nat)
    requires i + 1 < |MinutelyList(precipitation)|
    ensures MinutelyList(precipitation)[i + 1].date == MinutelyList(precipitation)[i].date + MinuteMillis
    ensures precipitation.value.pubTime.value - MinuteMillis < MinutelyList(precipitation)[0].date <= precipitation.value.pubTime.value
  {
  }

  /** Builds the minutely list as the source does, one append per value. */
  method BuildMinutelyList(precipitation: Option<Precipitation>) returns (r: seq<Minutely>)
    ensures r == MinutelyList(precipitation)
  {
    r := [];
    if precipitation.None? || precipitation.value.value.None? || precipitation.value.value.value == [] {
      return;
    }
    if precipitation.value.pubTime.None? {
      return;
    }
    var current := precipitation.value.pubTime.value;
    var values := precipitation.value.value.value;
    var minute := 0;
    while minute < |values|
      invariant 0 <= minute <= |values|
      invariant |r| == minute
      invariant forall i :: 0 <= i < minute ==> r[i] == MinuteOf(current, i, values[i])
    {
      r := r + [MinuteOf(current, minute, values[minute])];
      minute := minute + 1;
    }
  }

  // ----- Daily list -----

  const DayMillis: int := 86400000

  /** A day's weather icons: `from` for the day, `to` for the night. */
  datatype FromTo = FromTo(from: Option<string>, to: Option<string>)

  /** The daily forecast fields the converter reads. */
  datatype ForecastDaily = ForecastDaily(
    weather: Option<seq<FromTo>>,
    precipitationProbability: Option<seq<Option<real>>>,
    aqi: Option<seq<int>>)

  /** One daily entry, `index` days after `dayStart` (the start of the
      publication day in the location's time zone). */
  function DailyOf(f: ForecastDaily, dayStart: int, index: nat, w: FromTo): (r: Daily)
    ensures r.date == dayStart + index * DayMillis
    ensures r.day.weatherText == Some(WeatherText(w.from)) && r.day.weatherCode == WeatherCodeOfIcon(w.from)
    ensures r.night.weatherText == Some(WeatherText(w.to)) && r.night.weatherCode == WeatherCodeOfIcon(w.to)
    ensures r.day.precipitationProbability == r.night.precipitationProbability
              == PrecipitationProbability(f.precipitationProbability, index)
    ensures r.airQuality.Some? <==> f.aqi.Some? && index < |f.aqi.value|
    ensures r.airQuality.Some? ==> r.airQuality.value.pm25 == ReverseIndex(Some(f.aqi.value[index]))
  {
    var probability := PrecipitationProbability(f.precipitationProbability, index);
    Daily(
      dayStart + index * DayMillis,
      HalfDay(Some(WeatherText(w.from)), WeatherCodeOfIcon(w.from), probability),
      HalfDay(Some(WeatherText(w.to)), WeatherCodeOfIcon(w.to), probability),
      if f.aqi.Some? && index < |f.aqi.value| then Some(AirQuality(ReverseIndex(Some(f.aqi.value[index])))) else None)
  }

  /** `getDailyList`: one entry per day of the weather list, none when it
      is missing or empty. */
  function DailyList(f: ForecastDaily, dayStart: int): (r: seq<Daily>)
    ensures f.weather.None? ==> r == []
    ensures f.weather.Some? ==> |r| == |f.weather.value|
    ensures f.weather.Some? ==> forall i :: 0 <= i < |r| ==> r[i] == DailyOf(f, dayStart, i, f.weather.value[i])
  {
    if f.weather.None? || f.weather.value == [] then []
    else seq(|f.weather.value|, i requires 0 <= i < |f.weather.value| => DailyOf(f, dayStart, i, f.weather.value[i]))
  }

  /** Builds the daily list as the source does, one append per day. */
  method BuildDailyList(f: ForecastDaily, dayStart: int) returns (r: seq<Daily>)
    ensures r == DailyList(f, dayStart)
  {
    r := [];
    if f.weather.None? || f.weather.value == [] {
      return;
    }
    var days := f.weather.value;
    var index := 0;
    while index < |days|
      invariant 0 <= index <= |days|
      invariant |r| == index
      invariant forall i :: 0 <= i < index ==> r[i] == DailyOf(f, dayStart, i, days[i])
    {
      r := r + [DailyOf(f, dayStart, index, days[index])];
      index := index + 1;
    }
  }

  // ----- Presence guards -----

  /** The forecast response: the current weather icon, the daily and hourly
      forecasts (only their presence matters for the guard), the nowcast
      and the alerts. */
  datatype Forecast = Forecast(
    current: Option<Option<string>>,
    forecastDaily: Option<ForecastDaily>,
    forecastHourly: Option<()>,
    minutely: Option<Precipitation>,
    alerts: Option<seq<ChinaAlert>>)

  datatype ConvertError = InvalidOrIncompleteData

  /** The converted weather: current text and code, the nowcast
      description, the alerts, the minutely and the daily forecasts. */
  datatype Weather = Weather(
    weatherText: string,
    weatherCode: Option<WeatherCode>,
    summary: Option<string>,
    alerts: seq<Alert>,
    minutely: seq<Minutely>,
    daily: seq<Daily>)

  /** The guard `convert` and `convertSecondary` share. */
  predicate Complete(f: Forecast) {
    f.current.Some? && f.forecastDaily.Some? && f.forecastHourly.Some?
  }

  /** `convert`: rejects a response lacking the current weather, the daily
      or the hourly forecast; otherwise converts every part. */
  method Convert(f: Forecast, dayStart: int, idOf: ChinaAlert -> string, matcher: string -> Option<string>, unknownColor: Rgb)
    returns (r: Result<Weather, ConvertError>)
    ensures r.Failure? <==> !Complete(f)
    ensures r.Success? ==> r.value == Weather(
      WeatherText(f.current.value),
      WeatherCodeOfIcon(f.current.value),
      if f.minutely.Some? then f.minutely.value.description else None,
      AlertList(f.alerts, idOf, matcher, unknownColor),
      MinutelyList(f.minutely),
      DailyList(f.forecastDaily.value, dayStart))
  {
    if f.current.None? || f.forecastDaily.None? || f.forecastHourly.None? {
      return Failure(InvalidOrIncompleteData);
    }
    var minutely := BuildMinutelyList(f.minutely);
    var daily := BuildDailyList(f.forecastDaily.value, dayStart);
    r := Success(Weather(
      WeatherText(f.current.value),
      WeatherCodeOfIcon(f.current.value),
      if f.minutely.Some? then f.minutely.value.description else None,
      AlertList(f.alerts, idOf, matcher, unknownColor),
      minutely,
      daily));
  }

  /** `convertSecondary`: the same guard; the daily list is not part of
      the secondary result. */
  method ConvertSecondary(f: Forecast, idOf: ChinaAlert -> string, matcher: string -> Option<string>, unknownColor: Rgb)
    returns (r: Result<Weather, ConvertError>)
    ensures r.Failure? <==> !Complete(f)
    ensures r.Success? ==> r.value == Weather(
      WeatherText(f.current.value),
      WeatherCodeOfIcon(f.current.value),
      if f.minutely.Some? then f.minutely.value.description else None,
      AlertList(f.alerts, idOf, matcher, unknownColor),
      MinutelyList(f.minutely),
      [])
  {
    if f.current.None? || f.forecastDaily.None? || f.forecastHourly.None? {
      return Failure(InvalidOrIncompleteData);
    }
    var minutely := BuildMinutelyList(f.minutely);
    r := Success(Weather(
      WeatherText(f.current.value),
      WeatherCodeOfIcon(f.current.value),
      if f.minutely.Some? then f.minutely.value.description else None,
      AlertList(f.alerts, idOf, matcher, unknownColor),
      minutely,
      []));
  }
}
