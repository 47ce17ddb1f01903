/** Translation of QWeather responses into the shared weather model
    (app/src/src_nonfreenet/.../qweather/QWeatherResultConverter.kt).
    Response fields arrive already parsed: numbers as reals, instants as
    milliseconds since the epoch. */
module QWeatherConverter {
  import opened Wrappers
  import opened Numeric
  import opened Text
  import opened WeatherCodes
  import opened Domain

  // ----- Icon tables -----

  /** The English text of an icon code; "Unknown" for codes not listed. */
  function EnglishWeatherText(icon: string): (r: string)
    ensures r != ""
  {
    match icon
    case "100" => "Sunny"
    case "101" => "Cloudy"
    case "102" => "Few Clouds"
    case "103" => "Partly Cloudy"
    case "104" => "Overcast"
    case "150" => "Clear"
    case "151" => "Cloudy"
    case "152" => "Few Clouds"
    case "153" => "Partly Cloudy"
    case "300" => "Shower"
    case "301" => "Heavy Shower"
    case "302" => "Thundershower"
    case "303" => "Heavy Thunderstorm"
    case "304" => "Hail"
    case "305" => "Light Rain"
    case "306" => "Moderate Rain"
    case "307" => "Heavy Rain"
    case "308" => "Extreme Rain"
    case "309" => "Drizzle Rain"
    case "310" => "Rainstorm"
    case "311" => "Heavy Rainstorm"
    case "312" => "Severe Rainstorm"
    case "313" => "Freezing Rain"
    case "314" => "Light to Moderate Rain"
    case "315" => "Moderate to Heavy Rain"
    case "316" => "Heavy Rain to Rainstorm"
    case "317" => "Rainstorm to Heavy Rainstorm"
    case "318" => "Heavy to Severe Rainstorm"
    case "350" => "Shower"
    case "351" => "Heavy Shower"
    case "399" => "Rain"
    case "400" => "Light Snow"
    case "401" => "Moderate Snow"
    case "402" => "Heavy Snow"
    case "403" => "Snowstorm"
    case "404" => "Sleet"
    case "405" => "Rain and Snow"
    case "406" => "Shower Rain and Snow"
    case "407" => "Snow Flurry"
    case "408" => "Light to Moderate Snow"
    case "409" => "Moderate to Heavy Snow"
    case "410" => "Heavy Snow to Snowstorm"
    case "456" => "Shower Rain and Snow"
    case "457" => "Snow Flurry"
    case "499" => "Snow"
    case "500" => "Mist"
    case "501" => "Fog"
    case "502" => "Haze"
    case "503" => "Sand"
    case "504" => "Dust"
    case "507" => "Sandstorm"
    case "508" => "Severe Sandstorm"
    case "509" => "Dense Fog"
    case "510" => "Strong Fog"
    case "511" => "Moderate Haze"
    case "512" => "Heavy Haze"
    case "513" => "Severe Haze"
    case "514" => "Heavy Fog"
    case "515" => "Extra Heavy Fog"
    case "900" => "Hot"
    case "901" => "Cold"
    case "999" => "Unknown"
    case _ => "Unknown"
  }

  /** The icon codes the two tables list. */
  const ListedIcons: set<string> := {
    "100", "101", "102", "103", "104", "150", "151", "152", "153",
    "300", "301", "302", "303", "304", "305", "306", "307", "308", "309",
    "310", "311", "312", "313", "314", "315", "316", "317", "318", "350", "351", "399",
    "400", "401", "402", "403", "404", "405", "406", "407", "408", "409", "410",
    "456", "457", "499",
    "500", "501", "502", "503", "504", "507", "508", "509", "510",
    "511", "512", "513", "514", "515", "900", "901", "999"}

  /** `getWeatherText(icon, text, lang)`: absent for a missing or empty icon;
      the provider's own text when the language is not English and that
      text is present; the English table otherwise. */
  function WeatherText(icon: Option<string>, text: Option<string>, lang: string): (r: Option<string>)
    ensures r.None? <==> IsNullOrEmpty(icon)
    ensures r.Some? && lang != "en" && !IsNullOrEmpty(text) ==> r == text
    ensures r.Some? && (lang == "en" || IsNullOrEmpty(text)) ==> r == Some(EnglishWeatherText(icon.value))
  {
    if IsNullOrEmpty(icon) then None
    else if lang == "en" || IsNullOrEmpty(text) then Some(EnglishWeatherText(icon.value))
    else text
  }

  /** The weather code of a non-empty icon; CLOUDY for codes not listed. */
  function IconWeatherCode(icon: string): (r: WeatherCode)
    ensures !r.Rain? && !r.Snow? && !r.Thunder?
  {
    match icon
    case "100" => Clear
    case "101" => PartlyCloudy
    case "102" => PartlyCloudy
    case "103" => PartlyCloudy
    case "104" => Cloudy
    case "150" => Clear
    case "151" => PartlyCloudy
    case "152" => PartlyCloudy
    case "153" => PartlyCloudy
    case "300" => ShoweryRain
    case "301" => ShoweryRain
    case "302" => Thunderstorm
    case "303" => Thunderstorm
    case "304" => Hail
    case "305" => LightRain
    case "306" => ModerateRain
    case "307" => HeavyRain
    case "308" => Rainstorm
    case "309" => LightRain
    case "310" => Rainstorm
    case "311" => Rainstorm
    case "312" => Rainstorm
    case "313" => Sleet
    case "314" => ModerateRain
    case "315" => HeavyRain
    case "316" => Rainstorm
    case "317" => Rainstorm
    case "318" => Rainstorm
    case "350" => ShoweryRain
    case "351" => ShoweryRain
    case "399" => ModerateRain
    case "400" => LightSnow
    case "401" => ModerateSnow
    case "402" => HeavySnow
    case "403" => Snowstorm
    case "404" => Sleet
    case "405" => Sleet
    case "406" => Sleet
    case "407" => ShowerySnow
    case "408" => ModerateSnow
    case "409" => HeavySnow
    case "410" => Snowstorm
    case "456" => Sleet
    case "457" => ShowerySnow
    case "499" => ModerateSnow
    case "500" => Fog
    case "501" => Fog
    case "502" => Haze
    case "503" => Wind
    case "504" => Wind
    case "507" => Wind
    case "508" => Wind
    case "509" => Fog
    case "510" => Fog
    case "511" => Haze
    case "512" => Haze
    case "513" => Haze
    case "514" => Fog
    case "515" => Fog
    case "900" => Clear
    case "901" => Cloudy
    case "999" => Cloudy
    case _ => Cloudy
  }

  /** `getWeatherCode(icon)`: absent exactly for a missing or empty icon. */
  function WeatherCodeOfIcon(icon: Option<string>): (r: Option<WeatherCode>)
    ensures r.None? <==> IsNullOrEmpty(icon)
    ensures r.Some? ==> r == Some(IconWeatherCode(icon.value))
  {
    if IsNullOrEmpty(icon) then None else Some(IconWeatherCode(icon.value))
  }

  /** An icon neither table lists reads as "Unknown" and shows as CLOUDY. */
  lemma UnlistedIconFallbacks(icon: string)
    requires icon !in ListedIcons
    ensures EnglishWeatherText(icon) == "Unknown"
    ensures IconWeatherCode(icon) == Cloudy
  {
  }

  // ----- Warnings -----

  /** `getWarningSeverity`. */
  function WarningSeverity(severity: Option<string>): (r: AlertSeverity)
    ensures !IsNullOrEmpty(severity) && severity.value in {"Cancel", "None", "Unknown", "Standard", "Minor"} ==> r == Minor
    ensures !IsNullOrEmpty(severity) && severity.value == "Moderate" ==> r == Moderate
    ensures !IsNullOrEmpty(severity) && severity.value in {"Major", "Severe"} ==> r == Severe
    ensures !IsNullOrEmpty(severity) && severity.value == "Extreme" ==> r == Extreme
    ensures r == Unknown <==>
      IsNullOrEmpty(severity)
      || severity.value !in {"Cancel", "None", "Unknown", "Standard", "Minor", "Moderate", "Major", "Severe", "Extreme"}
  {
    if IsNullOrEmpty(severity) then Unknown
    else match severity.value
      case "Cancel" | "None" | "Unknown" | "Standard" | "Minor" => Minor
      case "Moderate" => Moderate
      case "Major" | "Severe" => Severe
      case "Extreme" => Extreme
      case _ => Unknown
  }

  /** The provider's "Unknown" severity is not the model's UNKNOWN: it maps
      to MINOR. */
  lemma WarningSeverityOfUnknownLiteral()
    ensures WarningSeverity(Some("Unknown")) == Minor
    ensures WarningSeverity(Some("unknown")) == Unknown
  {
  }

  /** `getWarningColor`. */
  function WarningColor(severityColor: Option<string>): (r: Option<Rgb>)
    ensures r.Some? <==>
      !IsNullOrEmpty(severityColor) && severityColor.value in {"White", "Blue", "Yellow", "Orange", "Red", "Black"}
    ensures severityColor == Some("White") ==> r == Some(Rgb(200, 200, 200))
    ensures severityColor == Some("Blue") ==> r == Some(Rgb(66, 151, 231))
    ensures severityColor == Some("Yellow") ==> r == Some(Rgb(255, 242, 184))
    ensures severityColor == Some("Orange") ==> r == Some(Rgb(255, 145, 0))
    ensures severityColor == Some("Red") ==> r == Some(Rgb(255, 86, 86))
    ensures severityColor == Some("Black") ==> r == Some(Rgb(0, 0, 0))
  {
    if IsNullOrEmpty(severityColor) then None
    else match severityColor.value
      case "White" => Some(Rgb(200, 200, 200))
      case "Blue" => Some(Rgb(66, 151, 231))
      case "Yellow" => Some(Rgb(255, 242, 184))
      case "Orange" => Some(Rgb(255, 145, 0))
      case "Red" => Some(Rgb(255, 86, 86))
      case "Black" => Some(Rgb(0, 0, 0))
      case _ => None
  }

  /** The six colours are distinct, so the colour identifies its name. */
  lemma WarningColorInjective(a: string, b: string)
    requires WarningColor(Some(a)).Some? && WarningColor(Some(a)) == WarningColor(Some(b))
    ensures a == b
  {
  }

  /** A warning as the response carries it. */
  datatype Warning = Warning(
    id: Option<string>,
    pubTime: Option<int>,
    title: Option<string>,
    text: Option<string>,
    severity: Option<string>,
    severityColor: Option<string>)

  /** One warning as an alert; `fallbackId` stands for the clock reading
      used when the warning has no id, `unknownColor` for the colour of the
      UNKNOWN severity. */
  function WarningAlert(w: Warning, fallbackId: string, unknownColor: Rgb): (r: Alert)
    ensures r.alertId == w.id.GetOr(fallbackId) && r.startDate == w.pubTime
    ensures r.headline == w.title && r.description == w.text
    ensures r.severity == WarningSeverity(w.severity)
    ensures WarningColor(w.severityColor).Some? ==> r.color == WarningColor(w.severityColor).value
    ensures WarningColor(w.severityColor).None? ==> r.color == unknownColor
  {
    Alert(
      w.id.GetOr(fallbackId), w.pubTime, w.title, w.text,
      WarningSeverity(w.severity), WarningColor(w.severityColor).GetOr(unknownColor))
  }

  function WarningAlerts(ws: seq<Warning>, fallbackId: string, unknownColor: Rgb): (r: seq<Alert>)
    ensures |r| == |ws|
    ensures forall i :: 0 <= i < |ws| ==> r[i] == WarningAlert(ws[i], fallbackId, unknownColor)
  {
    seq(|ws|, i requires 0 <= i < |ws| => WarningAlert(ws[i], fallbackId, unknownColor))
  }

  /** `getWarningList`: empty for a missing or empty list; otherwise the
      alerts of the warnings, one each, in the stable alert order. */
  function WarningList(warnings: Option<seq<Warning>>, fallbackId: string, unknownColor: Rgb): (r: seq<Alert>)
    ensures warnings.None? ==> r == []
    ensures warnings.Some? ==>
      && |r| == |warnings.value|
      && multiset(r) == multiset(WarningAlerts(warnings.value, fallbackId, unknownColor))
      && AlertsSorted(r)
      && forall k :: WithKey(r, k) == WithKey(WarningAlerts(warnings.value, fallbackId, unknownColor), k)
  {
    if warnings.None? || warnings.value == [] then []
    else SortAlerts(WarningAlerts(warnings.value, fallbackId, unknownColor))
  }

  /** Every alert of the list comes from one of the warnings, and every
      warning is represented. */
  lemma WarningListCoversWarnings(ws: seq<Warning>, fallbackId: string, unknownColor: Rgb)
    ensures forall a :: a in WarningList(Some(ws), fallbackId, unknownColor) <==>
      exists i :: 0 <= i < |ws| && a == WarningAlert(ws[i], fallbackId, unknownColor)
  {
    var alerts := WarningAlerts(ws, fallbackId, unknownColor);
    var r := WarningList(Some(ws), fallbackId, unknownColor);
    forall a ensures a in r <==> exists i :: 0 <= i < |ws| && a == WarningAlert(ws[i], fallbackId, unknownColor) {
      assert a in r <==> a in multiset(r);
      assert a in alerts <==> a in multiset(alerts);
      if a in alerts {
        var i :| 0 <= i < |alerts| && alerts[i] == a;
        assert a == WarningAlert(ws[i], fallbackId, unknownColor);
      }
      if exists i :: 0 <= i < |ws| && a == WarningAlert(ws[i], fallbackId, unknownColor) {
        var i :| 0 <= i < |ws| && a == WarningAlert(ws[i], fallbackId, unknownColor);
        assert alerts[i] == a;
      }
    }
  }

  // ----- Summary -----

  /** `rectifySummary`: "precip" is spelt out, then "Rain/Snow" becomes
      "Precipitation"; a missing summary stays missing. */
  function RectifySummary(summary: Option<string>): (r: Option<string>)
    ensures r.None? <==> summary.None?
  {
    if summary.None? then None
    else Some(ReplaceAll(ReplaceAll(summary.value, "precip", "precipitation"), "Rain/Snow", "Precipitation"))
  }

  /** A summary mentioning neither word comes back unchanged. */
  lemma RectifySummaryWithoutKeywords(s: string)
    requires !Contains(s, "precip") && !Contains(s, "Rain/Snow")
    ensures RectifySummary(Some(s)) == Some(s)
  {
    ReplaceAllWithoutOccurrence(s, "precip", "precipitation");
    ReplaceAllWithoutOccurrence(s, "Rain/Snow", "Precipitation");
  }

  /** The abbreviation is spelt out. */
  lemma RectifySummaryOfAbbreviation()
    ensures RectifySummary(Some("precip")) == Some("precipitation")
  {
    var p := "precip";
    assert p + "" == p;
    ReplaceAllLeading(p, "", "precipitation");
    assert ReplaceAll(p, p, "precipitation") == "precipitation";
    NoOccurrenceWithoutFirstChar("precipitation", "Rain/Snow");
    ReplaceAllWithoutOccurrence("precipitation", "Rain/Snow", "Precipitation");
  }

  /** The first replacement expands the "precip" at the head of
      "precipitation" and keeps the rest. */
  lemma ExpandFullWord(p: string, t: string)
    requires p == "precip" && t == "itation"
    ensures ReplaceAll(p + t, p, p + t) == p + t + t
  {
    ReplaceAllLeading(p, t, p + t);
    NoOccurrenceWithoutFirstChar(t, p);
    ReplaceAllWithoutOccurrence(t, p, p + t);
  }

  /** The replacement does not skip words already spelt out: "precip" is
      found at the head of "precipitation", which is expanded again. */
  lemma RectifySummaryOfFullWord()
    ensures RectifySummary(Some("precipitation")) == Some("precipitationitation")
  {
    var p, t := "precip", "itation";
    assert "precipitation" == p + t;
    assert "precipitationitation" == p + t + t;
    ExpandFullWord(p, t);
    var w := p + t + t;
    NoOccurrenceWithoutFirstChar(w, "Rain/Snow");
    ReplaceAllWithoutOccurrence(w, "Rain/Snow", "Precipitation");
  }

  /** The combined "Rain/Snow" becomes the single word "Precipitation". */
  lemma RectifySummaryOfRainSnow()
    ensures RectifySummary(Some("Rain/Snow")) == Some("Precipitation")
  {
    NoOccurrenceWithoutFirstChar("Rain/Snow", "precip");
    ReplaceAllWithoutOccurrence("Rain/Snow", "precip", "precipitation");
    var p := "Rain/Snow";
    assert p + "" == p;
    ReplaceAllLeading(p, "", "Precipitation");
    assert ReplaceAll(p, p, "Precipitation") == "Precipitation";
  }

  // ----- Reverse index -----

  /** The PM2.5 breakpoints and the index values they correspond to (the
      24-hour PM2.5 rows of Table 1 of HJ 633-2012). */
  const Pm25Thresholds: seq<real> := [0.0, 35.0, 75.0, 115.0, 150.0, 250.0, 350.0, 500.0]
  const AqiThresholds: seq<real> := [0.0, 50.0, 100.0, 150.0, 200.0, 300.0, 400.0, 500.0]

  lemma ReverseTablesAscending()
    ensures StrictlyAscending(Pm25Thresholds) && StrictlyAscending(AqiThresholds)
  {
  }

  /** The five-argument `reverseIndex`: the line through (inLo, bpLo) and
      (inHi, bpHi), evaluated at `aqi`. */
  function ReverseInterpolate(aqi: real, bpLo: real, bpHi: real, inLo: real, inHi: real): real
    requires inLo < inHi
  {
    (aqi - inLo) * (bpHi - bpLo) / (inHi - inLo) + bpLo
  }

  /** The concentration of a positive index: interpolation inside the
      table, proportion to the last pair of values above it. */
  function PositiveReverseIndex(aqi: int): (r: real)
    requires aqi > 0
  {
    var x := aqi as real;
    assert AqiThresholds[0] < x;
    var level := IndexOfLastBelow(AqiThresholds, x);
    if level < |AqiThresholds| - 1 then
      ReverseInterpolate(x, Pm25Thresholds[level], Pm25Thresholds[level + 1], AqiThresholds[level], AqiThresholds[level + 1])
    else
      x * Pm25Thresholds[|Pm25Thresholds| - 1] / AqiThresholds[|AqiThresholds| - 1]
  }

  /** The public `reverseIndex(aqi)`: absent exactly for a missing or
      non-positive index, positive otherwise. */
  function ReverseIndex(aqi: Option<int>): (r: Option<real>)
    ensures r.None? <==> aqi.None? || aqi.value <= 0
    ensures r.Some? ==> r == Some(PositiveReverseIndex(aqi.value)) && r.value > 0.0
  {
    if aqi.None? || aqi.value <= 0 then None
    else
      ReverseIndexInBand(aqi.value);
      Some(PositiveReverseIndex(aqi.value))
  }

  lemma ProductPositive(x: real, y: real)
    requires x > 0.0 && y > 0.0
    ensures x * y > 0.0
  {
  }

  /** On a band the reverse interpolation is strictly increasing and meets
      the band's two concentrations at its ends. */
  lemma ReverseInterpolateIncreasing(a: real, b: real, bpLo: real, bpHi: real, inLo: real, inHi: real)
    requires inLo < inHi && bpLo < bpHi && a < b
    ensures ReverseInterpolate(a, bpLo, bpHi, inLo, inHi) < ReverseInterpolate(b, bpLo, bpHi, inLo, inHi)
    ensures ReverseInterpolate(inLo, bpLo, bpHi, inLo, inHi) == bpLo
    ensures ReverseInterpolate(inHi, bpLo, bpHi, inLo, inHi) == bpHi
  {
    var w := (bpHi - bpLo) / (inHi - inLo);
    assert w > 0.0;
    assert ReverseInterpolate(a, bpLo, bpHi, inLo, inHi) == (a - inLo) * w + bpLo;
    assert ReverseInterpolate(b, bpLo, bpHi, inLo, inHi) == (b - inLo) * w + bpLo;
    ProductPositive(b - a, w);
    assert (b - inLo) * w - (a - inLo) * w == (b - a) * w;
    assert (inHi - inLo) * (bpHi - bpLo) / (inHi - inLo) == bpHi - bpLo;
  }

  /** Inside the table an index in band k gives a concentration in
      (pm25[k], pm25[k+1]]; above the table the concentration is the index
      itself. */
  lemma {:induction false} ReverseIndexInBand(aqi: int)
    requires aqi > 0
    ensures var k := IndexOfLastBelow(AqiThresholds, aqi as real);
      && 0 <= k < |AqiThresholds|
      && (k < |AqiThresholds| - 1 ==> Pm25Thresholds[k] < PositiveReverseIndex(aqi) <= Pm25Thresholds[k + 1])
      && (k == |AqiThresholds| - 1 ==> PositiveReverseIndex(aqi) == aqi as real > Pm25Thresholds[k])
  {
    var x := aqi as real;
    var k := IndexOfLastBelow(AqiThresholds, x);
    assert AqiThresholds[0] < x;
    if k < |AqiThresholds| - 1 {
      var lo, hi := AqiThresholds[k], AqiThresholds[k + 1];
      var plo, phi := Pm25Thresholds[k], Pm25Thresholds[k + 1];
      assert lo < x <= hi;
      ReverseInterpolateIncreasing(lo, x, plo, phi, lo, hi);
      if x < hi {
        ReverseInterpolateIncreasing(x, hi, plo, phi, lo, hi);
      }
    }
  }

  /** `reverseIndex(aqiThresholds[k]) == pm25Thresholds[k]` for k = 1..7. */
  lemma ReverseIndexAtBreakpoint(k: nat, aqi: int)
    requires 1 <= k < |AqiThresholds| && aqi as real == AqiThresholds[k]
    ensures ReverseIndex(Some(aqi)) == Some(Pm25Thresholds[k])
  {
    var x := AqiThresholds[k];
    ReverseTablesAscending();
    IndexOfLastBelowAtEntry(AqiThresholds, k);
    ReverseInterpolateIncreasing(AqiThresholds[k - 1], x, Pm25Thresholds[k - 1], Pm25Thresholds[k], AqiThresholds[k - 1], x);
  }

  /** From 500 on the concentration equals the index. */
  lemma ReverseIndexAboveTable(aqi: int)
    requires aqi >= 500
    ensures ReverseIndex(Some(aqi)) == Some(aqi as real)
  {
    if aqi == 500 {
      ReverseIndexAtBreakpoint(7, aqi);
    } else {
      ReverseIndexInBand(aqi);
    }
  }

  /** `reverseIndex` is strictly increasing on positive indices. */
  lemma ReverseIndexIncreasing(a: int, b: int)
    requires 0 < a < b
    ensures ReverseIndex(Some(a)).value < ReverseIndex(Some(b)).value
  {
    var t := AqiThresholds;
    var i := IndexOfLastBelow(t, a as real);
    var j := IndexOfLastBelow(t, b as real);
    ReverseIndexInBand(a);
    ReverseIndexInBand(b);
    if i == j {
      if i < |t| - 1 {
        ReverseInterpolateIncreasing(a as real, b as real, Pm25Thresholds[i], Pm25Thresholds[i + 1], t[i], t[i + 1]);
      }
    } else {
      assert i < j;
      assert Pm25Thresholds[i + 1] <= Pm25Thresholds[j];
    }
  }

  /** Worked values: 50 gives 35, 100 gives 75, 500 gives 500, and 600
      gives 600. */
  lemma ReverseIndexExamples()
    ensures ReverseIndex(Some(50)) == Some(35.0)
    ensures ReverseIndex(Some(100)) == Some(75.0)
    ensures ReverseIndex(Some(500)) == Some(500.0)
    ensures ReverseIndex(Some(600)) == Some(600.0)
    ensures ReverseIndex(Some(0)) == None
  {
    ReverseIndexAtBreakpoint(1, 50);
    ReverseIndexAtBreakpoint(2, 100);
    ReverseIndexAboveTable(500);
    ReverseIndexAboveTable(600);
  }

  // ----- Day and night precipitation windows -----

  /** One hourly forecast: its time and its probability of precipitation
      in percent. */
  datatype Hourly = Hourly(fxTime: int, pop: Option<real>)

  const HourMillis: int := 3600000

  /** The window of hours a half day covers: day is [date+8h, date+20h),
      night is [date+20h, date+32h). */
  predicate InWindow(h: Hourly, start: int, end: int) {
    start <= h.fxTime < end
  }

  /** The fraction an hourly entry contributes; a missing value counts
      as 0. */
  function PopFraction(h: Hourly): real {
    if h.pop.Some? then h.pop.value / 100.0 else 0.0
  }

  /** `filter { in window }.map { fraction }.maxOrNull()`: absent when no
      hour falls in the window, otherwise the largest fraction among them. */
  function WindowMax(hourly: seq<Hourly>, start: int, end: int): (r: Option<real>)
    ensures r.None? <==> forall i :: 0 <= i < |hourly| ==> !InWindow(hourly[i], start, end)
    ensures r.Some? ==> forall i :: 0 <= i < |hourly| && InWindow(hourly[i], start, end) ==> PopFraction(hourly[i]) <= r.value
    ensures r.Some? ==> exists i :: 0 <= i < |hourly| && InWindow(hourly[i], start, end) && PopFraction(hourly[i]) == r.value
  {
    if hourly == [] then None
    else
      var rest := WindowMax(hourly[1..], start, end);
      var h := hourly[0];
      assert forall i :: 1 <= i < |hourly| ==> hourly[i] == hourly[1..][i - 1];
      if !InWindow(h, start, end) then
        assert rest.Some? ==> exists i :: 1 <= i < |hourly| && InWindow(hourly[i], start, end) && PopFraction(hourly[i]) == rest.value by {
          if rest.Some? {
            var i :| 0 <= i < |hourly[1..]| && InWindow(hourly[1..][i], start, end) && PopFraction(hourly[1..][i]) == rest.value;
            assert hourly[i + 1] == hourly[1..][i];
          }
        }
        rest
      else if rest.None? || PopFraction(h) >= rest.value then
        Some(PopFraction(h))
      else
        assert exists i :: 1 <= i < |hourly| && InWindow(hourly[i], start, end) && PopFraction(hourly[i]) == rest.value by {
          var i :| 0 <= i < |hourly[1..]| && InWindow(hourly[1..][i], start, end) && PopFraction(hourly[1..][i]) == rest.value;
          assert hourly[i + 1] == hourly[1..][i];
        }
        rest
  }

  /** The half-day probability in percent: the window's maximum scaled back
      to percent, and 0 when the hourly list is missing or no hour falls in
      the window. */
  function WindowProbability(hourly: Option<seq<Hourly>>, start: int, end: int): (r: real)
    ensures hourly.Some? ==>
      forall i :: 0 <= i < |hourly.value| && InWindow(hourly.value[i], start, end) ==> hourly.value[i].pop.GetOr(0.0) <= r
    ensures r == 0.0 || (hourly.Some? && exists i :: 0 <= i < |hourly.value| && InWindow(hourly.value[i], start, end) && hourly.value[i].pop.GetOr(0.0) == r)
    ensures hourly.None? ==> r == 0.0
  {
    if hourly.None? then 0.0
    else
      var m := WindowMax(hourly.value, start, end);
      if m.None? then 0.0
      else
        assert forall h :: PopFraction(h) * 100.0 == h.pop.GetOr(0.0);
        m.value * 100.0
  }

  /** An hour counts for the day or for the night of a date, never both,
      and every hour in [date+8h, date+32h) counts for one of them. */
  lemma DayAndNightWindowsPartition(h: Hourly, date: int)
    ensures !(InWindow(h, date + 8 * HourMillis, date + 20 * HourMillis) && InWindow(h, date + 20 * HourMillis, date + 32 * HourMillis))
    ensures date + 8 * HourMillis <= h.fxTime < date + 32 * HourMillis ==>
      InWindow(h, date + 8 * HourMillis, date + 20 * HourMillis) || InWindow(h, date + 20 * HourMillis, date + 32 * HourMillis)
  {
  }

  // ----- Daily list -----

  /** One day of the daily forecast: its date string, the instant that
      string parses to in the location's time zone, and the icons and texts
      of both halves. */
  datatype DailyForecast = DailyForecast(
    fxDate: string,
    date: int,
    iconDay: Option<string>,
    textDay: Option<string>,
    iconNight: Option<string>,
    textNight: Option<string>)

  /** One day of the daily air-quality forecast. */
  datatype AirDaily = AirDaily(fxDate: string, aqi: int)

  /** The `dailyAirMap` the loop over the air forecast builds: each date
      maps to the aqi of the last entry carrying it. */
  function AirMap(air: seq<AirDaily>): (m: map<string, int>)
    ensures forall d :: d in m <==> exists i :: 0 <= i < |air| && air[i].fxDate == d
  {
    if air == [] then map[]
    else
      var prefix := air[..|air| - 1];
      var m := AirMap(prefix)[air[|air| - 1].fxDate := air[|air| - 1].aqi];
      assert forall i :: 0 <= i < |prefix| ==> prefix[i] == air[i];
      m
  }

  /** The map keeps the last value written for each date. */
  lemma {:induction false} AirMapLastWins(air: seq<AirDaily>, i: nat)
    requires i < |air| && forall j :: i < j < |air| ==> air[j].fxDate != air[i].fxDate
    ensures AirMap(air)[air[i].fxDate] == air[i].aqi
  {
    var last := |air| - 1;
    if i < last {
      var prefix := air[..last];
      assert prefix[i] == air[i];
      AirMapLastWins(prefix, i);
    }
  }

  /** Builds the air map as the source does, writing the entries in order. */
  method BuildAirMap(air: Option<seq<AirDaily>>) returns (m: map<string, int>)
    ensures air.None? ==> m == map[]
    ensures air.Some? ==> m == AirMap(air.value)
  {
    m := map[];
    if air.None? {
      return;
    }
    var entries := air.value;
    var n := 0;
    while n < |entries|
      invariant 0 <= n <= |entries|
      invariant m == AirMap(entries[..n])
    {
      assert entries[..n + 1][..n] == entries[..n];
      m := m[entries[n].fxDate := entries[n].aqi];
      n := n + 1;
    }
    assert entries[..n] == entries;
  }

  /** One daily entry: both halves' text, code and precipitation
      probability (day window for the day, night window for the night), and
      the reverse-indexed air quality when the air map has the date. */
  function DailyOf(d: DailyForecast, hourly: Option<seq<Hourly>>, air: map<string, int>, lang: string): (r: Daily)
    ensures r.date == d.date
    ensures r.day.weatherText == WeatherText(d.iconDay, d.textDay, lang)
    ensures r.day.weatherCode == WeatherCodeOfIcon(d.iconDay)
    ensures r.day.precipitationProbability == Some(WindowProbability(hourly, d.date + 8 * HourMillis, d.date + 20 * HourMillis))
    ensures r.night.weatherText == WeatherText(d.iconNight, d.textNight, lang)
    ensures r.night.weatherCode == WeatherCodeOfIcon(d.iconNight)
    ensures r.night.precipitationProbability == Some(WindowProbability(hourly, d.date + 20 * HourMillis, d.date + 32 * HourMillis))
    ensures r.airQuality.Some? <==> d.fxDate in air
    ensures r.airQuality.Some? ==> r.airQuality.value.pm25 == ReverseIndex(Some(air[d.fxDate]))
  {
    Daily(
      d.date,
      HalfDay(WeatherText(d.iconDay, d.textDay, lang), WeatherCodeOfIcon(d.iconDay),
              Some(WindowProbability(hourly, d.date + 8 * HourMillis, d.date + 20 * HourMillis))),
      HalfDay(WeatherText(d.iconNight, d.textNight, lang), WeatherCodeOfIcon(d.iconNight),
              Some(WindowProbability(hourly, d.date + 20 * HourMillis, d.date + 32 * HourMillis))),
      if d.fxDate in air then Some(AirQuality(ReverseIndex(Some(air[d.fxDate])))) else None)
  }

  /** `getDailyList`: one entry per day of the forecast, none when the
      forecast is missing or empty. */
  function DailyList(daily: Option<seq<DailyForecast>>, hourly: Option<seq<Hourly>>, air: Option<seq<AirDaily>>, lang: string): (r: seq<Daily>)
    ensures daily.None? ==> r == []
    ensures daily.Some? ==> |r| == |daily.value|
    ensures daily.Some? ==> forall i :: 0 <= i < |r| ==>
      r[i] == DailyOf(daily.value[i], hourly, if air.Some? then AirMap(air.value) else map[], lang)
  {
    if daily.None? || daily.value == [] then []
    else
      var m := if air.Some? then AirMap(air.value) else map[];
      seq(|daily.value|, i requires 0 <= i < |daily.value| => DailyOf(daily.value[i], hourly, m, lang))
  }

  /** Builds the daily list as the source does: the air map first, then
      one entry appended per day. */
  method BuildDailyList(daily: Option<seq<DailyForecast>>, hourly: Option<seq<Hourly>>, air: Option<seq<AirDaily>>, lang: string)
    returns (r: seq<Daily>)
    ensures r == DailyList(daily, hourly, air, lang)
  {
    if daily.None? || daily.value == [] {
      return [];
    }
    var m := BuildAirMap(air);
    var days := daily.value;
    r := [];
    var n := 0;
    while n < |days|
      invariant 0 <= n <= |days|
      invariant |r| == n
      invariant forall i :: 0 <= i < n ==> r[i] == DailyOf(days[i], hourly, m, lang)
    {
      r := r + [DailyOf(days[n], hourly, m, lang)];
      n := n + 1;
    }
  }

  // ----- Minutely list -----

  /** One five-minute precipitation forecast, in mm per minute. */
  datatype MinutelyForecast = MinutelyForecast(fxTime: int, precip: Option<real>)

  /** `getMinutelyList`: empty for a missing or empty list; otherwise one
      entry per forecast, five minutes long, with the intensity converted
      from mm/min to mm/h. */
  function MinutelyList(minutely: Option<seq<MinutelyForecast>>): (r: seq<Minutely>)
    ensures minutely.None? ==> r == []
    ensures minutely.Some? ==> |r| == |minutely.value|
    ensures minutely.Some? ==> forall i :: 0 <= i < |r| ==>
      && r[i].date == minutely.value[i].fxTime
      && r[i].minuteInterval == 5
      && (minutely.value[i].precip.None? ==> r[i].precipitationIntensity.None?)
      && (minutely.value[i].precip.Some? ==> r[i].precipitationIntensity == Some(minutely.value[i].precip.value * 12.0))
  {
    if minutely.None? then []
    else seq(|minutely.value|, i requires 0 <= i < |minutely.value| => MinutelyOf(minutely.value[i]))
  }

  function MinutelyOf(m: MinutelyForecast): Minutely {
    Minutely(m.fxTime, 5, if m.precip.Some? then Some(m.precip.value * 12.0) else None)
  }

  /** Builds the minutely list as the source does, one append per entry. */
  method BuildMinutelyList(minutely: Option<seq<MinutelyForecast>>) returns (r: seq<Minutely>)
    ensures r == MinutelyList(minutely)
  {
    r := [];
    if minutely.None? || minutely.value == [] {
      return;
    }
    var ms := minutely.value;
    var n := 0;
    while n < |ms|
      invariant 0 <= n <= |ms|
      invariant r == MinutelyList(Some(ms[..n]))
    {
      r := r + [MinutelyOf(ms[n])];
      n := n + 1;
      assert ms[..n][..n - 1] == ms[..n - 1];
    }
    assert ms[..n] == ms;
  }

  // ----- Status guards -----

  /** A response status is acceptable when it is missing or "200". */
  predicate StatusOk(code: Option<string>) {
    code.None? || code.value == "200"
  }

  /** The responses `convert` and `convertSecondary` read. */
  datatype Responses = Responses(
    dailyCode: Option<string>,
    hourlyCode: Option<string>,
    nowCode: Option<string>,
    airCode: Option<string>,
    warningCode: Option<string>,
    minutelyCode: Option<string>,
    daily: Option<seq<DailyForecast>>,
    hourly: Option<seq<Hourly>>,
    airDaily: Option<seq<AirDaily>>,
    nowIcon: Option<string>,
    nowText: Option<string>,
    warnings: Option<seq<Warning>>,
    minutely: Option<seq<MinutelyForecast>>,
    summary: Option<string>)

  datatype ConvertError = InvalidOrIncompleteData | SecondaryWeatherFailure

  /** The converted weather: the current summary, text and code, the
      alerts, the minutely and the daily forecasts. */
  datatype Weather = Weather(
    summary: Option<string>,
    weatherText: Option<string>,
    weatherCode: Option<WeatherCode>,
    alerts: seq<Alert>,
    minutely: seq<Minutely>,
    daily: seq<Daily>)

  /** `convert`: rejects the responses when the daily, hourly or current
      status is present and not "200"; otherwise converts every part. */
  method Convert(resp: Responses, lang: string, fallbackId: string, unknownColor: Rgb)
    returns (r: Result<Weather, ConvertError>)
    ensures r.Failure? <==> !(StatusOk(resp.dailyCode) && StatusOk(resp.hourlyCode) && StatusOk(resp.nowCode))
    ensures r.Failure? ==> r.error == InvalidOrIncompleteData
    ensures r.Success? ==> r.value == Weather(
      RectifySummary(resp.summary),
      WeatherText(resp.nowIcon, resp.nowText, lang),
      WeatherCodeOfIcon(resp.nowIcon),
      WarningList(resp.warnings, fallbackId, unknownColor),
      MinutelyList(resp.minutely),
      DailyList(resp.daily, resp.hourly, resp.airDaily, lang))
  {
    if !StatusOk(resp.dailyCode) || !StatusOk(resp.hourlyCode) || !StatusOk(resp.nowCode) {
      return Failure(InvalidOrIncompleteData);
    }
    var minutely := BuildMinutelyList(resp.minutely);
    var daily := BuildDailyList(resp.daily, resp.hourly, resp.airDaily, lang);
    r := Success(Weather(
      RectifySummary(resp.summary),
      WeatherText(resp.nowIcon, resp.nowText, lang),
      WeatherCodeOfIcon(resp.nowIcon),
      WarningList(resp.warnings, fallbackId, unknownColor),
      minutely,
      daily));
  }

  /** The converted secondary weather: the current summary, text and code,
      the precipitation summary, the alerts and the minutely forecast. */
  datatype SecondaryWeather = SecondaryWeather(
    summary: Option<string>,
    weatherText: Option<string>,
    weatherCode: Option<WeatherCode>,
    precipitation: Option<string>,
    alerts: seq<Alert>,
    minutely: seq<Minutely>)

  /** `convertSecondary`: rejects the responses when the current, air,
      warning or minutely status is present and not "200". */
  method ConvertSecondary(resp: Responses, lang: string, fallbackId: string, unknownColor: Rgb)
    returns (r: Result<SecondaryWeather, ConvertError>)
    ensures r.Failure? <==>
      !(StatusOk(resp.nowCode) && StatusOk(resp.airCode) && StatusOk(resp.warningCode) && StatusOk(resp.minutelyCode))
    ensures r.Failure? ==> r.error == SecondaryWeatherFailure
    ensures r.Success? ==> r.value == SecondaryWeather(
      RectifySummary(resp.summary),
      WeatherText(resp.nowIcon, resp.nowText, lang),
      WeatherCodeOfIcon(resp.nowIcon),
      RectifySummary(resp.summary),
      WarningList(resp.warnings, fallbackId, unknownColor),
      MinutelyList(resp.minutely))
  {
    if !StatusOk(resp.nowCode) || !StatusOk(resp.airCode) || !StatusOk(resp.warningCode) || !StatusOk(resp.minutelyCode) {
      return Failure(SecondaryWeatherFailure);
    }
    var minutely := BuildMinutelyList(resp.minutely);
    r := Success(SecondaryWeather(
      RectifySummary(resp.summary),
      WeatherText(resp.nowIcon, resp.nowText, lang),
      WeatherCodeOfIcon(resp.nowIcon),
      RectifySummary(resp.summary),
      WarningList(resp.warnings, fallbackId, unknownColor),
      minutely));
  }
}
