# Breezy Weather core, modelled in Dafny

This project models the computational core of the Breezy Weather Android app. The model covers:

- the air-quality index arithmetic of `PollutantIndex`;
- the two provider converters (QWeather, and China's weather.com.cn feed), which turn provider records into the shared weather model;
- the `WeatherCode` enumeration and the name tables built on it;
- a few pieces of view and service state: location daylight, the sun-and-moon card's animation slots, the moon-phase widget, and the QWeather API-key and language settings.

Each source file has its own module:

- `Wrappers` (`wrappers.dfy`): `Option`, `Result`
- `Numeric` (`numeric.dfy`): Kotlin's `roundToInt` as `Floor(x + 1/2)`, `toLong` truncation, `indexOfLast { x > it }`
- `Text` (`text.dfy`): Kotlin's `String.replace` (left to right, non-overlapping), ASCII case folding
- `WeatherCodes` (`weather_code.dfy`): the 22 codes, their ids, `getInstance`
- `Constants` (`resource_names.dfy`): `getResourcesName`, `getShortcutsName`
- `PollutantIndex` (`pollutant_index.dfy`): breakpoint tables, `getIndex`, `getLevel`, the `getAqiTo*` companions
- `Domain` (`domain.dfy`): alert severity, the alert/daily/minutely records, the stable alert sort both converters use
- `QWeatherConverter` (`qweather_converter.dfy`): icons, warnings, `rectifySummary`, `reverseIndex`, the day/night windows, the daily and minutely builders, the status guards
- `ChinaConverter` (`china_converter.dfy`): city id, icons, alerts, `reverseIndex`, precipitation probability, the wind map, the daily and minutely builders, the presence guards
- `Locations` (`location.dfy`): `isDaylight`, `getPlace`
- `WeatherViewController` (`weather_view_controller.dfy`): weather kinds, day/night override, kind names
- `AstroViewHolders` (`astro_view_holder.dfy`): the card's time arrays, animator slots and durations
- `MoonPhaseViews` (`moon_phase_view.dfy`): the widget's colours, angle and drawing choice
- `QWeatherServices` (`qweather_service.dfy`): stored key, effective key, language, request guards

How the source's constructs become Dafny:

- Doubles and floats are unbounded reals. Instants are integer milliseconds.
- Android resource arrays, the clock, locale codes and the `Alert.colorFromSeverity(UNKNOWN)` colour are parameters.
- Code that updates fields is modelled as classes: `AstroViewHolder`, `MoonPhaseView` and `QWeatherService`.
- The list builders are loops proved equal to the functions that specify them: `BuildAirMap`, `BuildDailyList` and `BuildMinutelyList`.
- `rectifySummary` replaces "precip" even at the head of a word that is already spelt out. A summary that reads "precipitation" therefore becomes "precipitationitation" (`QWeatherConverter.RectifySummaryOfFullWord`).

## Model

Paths are relative to the repository root.

| member | source | states |
|---|---|---|
| `Numeric.RoundToInt` | app/src/main/java/org/breezyweather/domain/weather/index/PollutantIndex.kt:77 | `roundToInt` returns the integer within one half of x; ties go up |
| `Numeric.RoundToIntMonotone` | app/src/main/java/org/breezyweather/domain/weather/index/PollutantIndex.kt:77 | `roundToInt` is monotone |
| `Numeric.RoundToIntOfInt` | app/src/main/java/org/breezyweather/domain/weather/index/PollutantIndex.kt:77 | `roundToInt` keeps whole numbers |
| `Numeric.IndexOfLastBelow` | app/src/main/java/org/breezyweather/domain/weather/index/PollutantIndex.kt:97 | `indexOfLast { x > it }`: -1 or an index below x, with every later entry at least x |
| `Numeric.IndexOfLastBelowAtEntry` | app/src/main/java/org/breezyweather/domain/weather/index/PollutantIndex.kt:97 | on an ascending table, the search at entry k gives k-1 |
| `Numeric.TruncateNonNegative` | app/src/main/java/org/breezyweather/main/adapters/main/holder/AstroViewHolder.kt:352 | `toLong` of a non-negative double is its floor |
| `WeatherCodes.IdDecodes` | domain/src/main/java/breezyweather/domain/weather/model/WeatherCode.kt:21-42 | every id decodes back to its entry under an independent decoder |
| `WeatherCodes.Id` | domain/src/main/java/breezyweather/domain/weather/model/WeatherCode.kt:21-42 | the id of each code; its lemmas prove that every id decodes back to its code (`IdDecodes`), that ids are distinct (`IdInjective`) and lower case (`IdIsLowerCase`) |
| `WeatherCodes.IdInjective` | domain/src/main/java/breezyweather/domain/weather/model/WeatherCode.kt:21-42 | the 22 ids are pairwise distinct |
| `WeatherCodes.IdIsLowerCase` | domain/src/main/java/breezyweather/domain/weather/model/WeatherCode.kt:21-42 | every id is its own lower-cased form |
| `WeatherCodes.FirstMatching` | domain/src/main/java/breezyweather/domain/weather/model/WeatherCode.kt:47-49 | `firstOrNull`: None iff no entry matches ignoring case; otherwise a matching entry with no match before it |
| `WeatherCodes.GetInstance` | domain/src/main/java/breezyweather/domain/weather/model/WeatherCode.kt:45-49 | a null value finds nothing |
| `WeatherCodes.MatchesIffLowerIsId` | domain/src/main/java/breezyweather/domain/weather/model/WeatherCode.kt:48 | an entry matches a value ignoring case iff its id equals the lower-cased value |
| `WeatherCodes.GetInstanceIsDecode` | domain/src/main/java/breezyweather/domain/weather/model/WeatherCode.kt:45-49 | `getInstance(v)` equals decoding the lower-cased v |
| `WeatherCodes.GetInstanceOfId` | domain/src/main/java/breezyweather/domain/weather/model/WeatherCode.kt:45-49 | `getInstance(c.id) == c` for every entry |
| `WeatherCodes.GetInstanceOfUpperId` | domain/src/main/java/breezyweather/domain/weather/model/WeatherCode.kt:48 | the upper-cased id finds the same entry |
| `WeatherCodes.GetInstanceOfUnknown` | domain/src/main/java/breezyweather/domain/weather/model/WeatherCode.kt:47-49 | a value that matches no id, ignoring case, finds nothing |
| `Text.EqualsIgnoreCaseIsLowerEquality` | domain/src/main/java/breezyweather/domain/weather/model/WeatherCode.kt:48 | `equals(ignoreCase = true)` is equality of the lower-cased strings |
| `Text.EqualsIgnoreCase` | domain/src/main/java/breezyweather/domain/weather/model/WeatherCode.kt:48 | `equals(ignoreCase = true)`; `EqualsIgnoreCaseIsLowerEquality` proves it is equality after lower-casing |
| `Text.ReplaceAllWithoutOccurrence` | app/src/src_nonfreenet/org/breezyweather/sources/qweather/QWeatherResultConverter.kt:506-510 | `replace` leaves a string without the pattern unchanged |
| `Text.ReplaceAll` | app/src/src_nonfreenet/org/breezyweather/sources/qweather/QWeatherResultConverter.kt:506-510 | `String.replace`, left to right without overlap; its lemmas prove it leaves a string without the pattern unchanged, replaces a leading occurrence (`ReplaceAllLeading`) and does not lengthen a string when the replacement is no longer than the pattern (`ChinaConverter.ReplaceAllShrinks`) |
| `Text.ReplaceAllLeading` | app/src/src_nonfreenet/org/breezyweather/sources/qweather/QWeatherResultConverter.kt:506-510 | `replace` rewrites a leading occurrence, then resumes right after it |
| `Constants.ResourcesNameIsPrefixedId` | app/src/main/java/org/breezyweather/theme/resource/utils/Constants.kt:106-130 | `getResourcesName(c) == "weather_" + c.id`; null gives "weather_cloudy" |
| `Constants.ResourcesName` | app/src/main/java/org/breezyweather/theme/resource/utils/Constants.kt:106-130 | `getResourcesName`; `ResourcesNameIsPrefixedId` proves it is "weather_" + id, with null as cloudy, and `ResourcesNameInjective` that distinct codes get distinct names |
| `Constants.ShortcutsNameIsPrefixedId` | app/src/main/java/org/breezyweather/theme/resource/utils/Constants.kt:132-156 | `getShortcutsName(c) == "shortcuts_" + c.id`; null gives "shortcuts_cloudy" |
| `Constants.ShortcutsName` | app/src/main/java/org/breezyweather/theme/resource/utils/Constants.kt:132-156 | `getShortcutsName`; `ShortcutsNameIsPrefixedId` proves it is "shortcuts_" + id, with null as cloudy, and `ShortcutsNameInjective` that distinct codes get distinct names |
| `Constants.ResourcesNameInjective` | app/src/main/java/org/breezyweather/theme/resource/utils/Constants.kt:106-130 | distinct codes get distinct resource names |
| `Constants.ShortcutsNameInjective` | app/src/main/java/org/breezyweather/theme/resource/utils/Constants.kt:132-156 | distinct codes get distinct shortcut names |
| `PollutantIndex.TablesWellFormed` | app/src/main/java/org/breezyweather/domain/weather/index/PollutantIndex.kt:29-45 | every table starts at 0 and is strictly ascending; fresh air is 50, high pollution 150, excessive pollution 300 |
| `PollutantIndex.ExcessivePollution` | app/src/main/java/org/breezyweather/domain/weather/index/PollutantIndex.kt:107 | `excessivePollution` is the last breakpoint of the table; it is positive and at least every entry |
| `PollutantIndex.LevelOf` | app/src/main/java/org/breezyweather/domain/weather/index/PollutantIndex.kt:97 | the level of cp >= 0 is 0 at zero; otherwise it is the band k with `t[k] < cp <= t[k+1]` (5 above the table) |
| `PollutantIndex.GetIndex` | app/src/main/java/org/breezyweather/domain/weather/index/PollutantIndex.kt:95-99 | `getIndex(cp)` is null iff cp is null or negative; otherwise it is non-negative |
| `PollutantIndex.GetLevel` | app/src/main/java/org/breezyweather/domain/weather/index/PollutantIndex.kt:101-105 | `getLevel` is null iff cp is null or negative; it is 0 at zero, in 0..5, and for cp > 0 the band holding cp |
| `PollutantIndex.InterpolateAtEnds` | app/src/main/java/org/breezyweather/domain/weather/index/PollutantIndex.kt:75-78 | interpolation maps bpLo to inLo and bpHi to inHi |
| `PollutantIndex.Interpolate` | app/src/main/java/org/breezyweather/domain/weather/index/PollutantIndex.kt:75-78 | the band's linear interpolation; `InterpolateAtEnds` and `InterpolateMonotone` prove it meets both end points and is non-decreasing between them |
| `PollutantIndex.InterpolateMonotone` | app/src/main/java/org/breezyweather/domain/weather/index/PollutantIndex.kt:75-78 | within a band, interpolation is non-decreasing and stays in [inLo, inHi] |
| `PollutantIndex.LinearIndexBounds` | app/src/main/java/org/breezyweather/domain/weather/index/PollutantIndex.kt:80-93 | the unrounded index of band k lies in [aqi[k], aqi[k+1]]; above the table it is at least 300 |
| `PollutantIndex.LinearIndex` | app/src/main/java/org/breezyweather/domain/weather/index/PollutantIndex.kt:80-93 | the unrounded index of a level, proportional above the table; `LinearIndexBounds` proves it lies in its band |
| `PollutantIndex.LevelMonotone` | app/src/main/java/org/breezyweather/domain/weather/index/PollutantIndex.kt:97 | a larger concentration is at the same or a higher level |
| `PollutantIndex.LinearIndexMonotone` | app/src/main/java/org/breezyweather/domain/weather/index/PollutantIndex.kt:80-97 | the unrounded index is non-decreasing in cp |
| `PollutantIndex.GetIndexOfZero` | app/src/main/java/org/breezyweather/domain/weather/index/PollutantIndex.kt:75-99 | `getIndex(0) == 0` for every pollutant |
| `PollutantIndex.LevelWithinBand` | app/src/main/java/org/breezyweather/domain/weather/index/PollutantIndex.kt:97 | a cp with `t[k] < cp <= t[k+1]` is at level k |
| `PollutantIndex.LinearIndexAtBandTop` | app/src/main/java/org/breezyweather/domain/weather/index/PollutantIndex.kt:80-88 | band k-1 interpolates `t[k]` to exactly `aqi[k]` |
| `PollutantIndex.GetIndexAtBreakpoint` | app/src/main/java/org/breezyweather/domain/weather/index/PollutantIndex.kt:75-99 | at breakpoint `t[k]` (k = 1..5) the index is exactly `aqi[k]` |
| `PollutantIndex.GetIndexWithinBand` | app/src/main/java/org/breezyweather/domain/weather/index/PollutantIndex.kt:80-88 | for `t[k] < cp <= t[k+1]` the index lies in [aqi[k], aqi[k+1]] |
| `PollutantIndex.GetIndexAboveTable` | app/src/main/java/org/breezyweather/domain/weather/index/PollutantIndex.kt:89-92 | above the table the index is `round(cp * 300 / t[5])`, which is at least 300 |
| `PollutantIndex.ExtrapolationMeetsTopBand` | app/src/main/java/org/breezyweather/domain/weather/index/PollutantIndex.kt:80-93 | at `t[5]` the top band and the line through the origin both give 300, so the index is continuous there |
| `PollutantIndex.ExtrapolationIsLinear` | app/src/main/java/org/breezyweather/domain/weather/index/PollutantIndex.kt:89-92 | above the table, doubling cp doubles the unrounded index |
| `PollutantIndex.GetIndexMonotone` | app/src/main/java/org/breezyweather/domain/weather/index/PollutantIndex.kt:75-99 | `getIndex` is defined and non-decreasing on cp >= 0 |
| `PollutantIndex.WorkedExamples` | app/src/main/java/org/breezyweather/domain/weather/index/PollutantIndex.kt:95-99 | PM2.5 at 12 gives 50; PM2.5 at 500 gives 599; CO at 0 gives 0; null gives null |
| `PollutantIndex.GetAqiToLevel` | app/src/main/java/org/breezyweather/domain/weather/index/PollutantIndex.kt:47-51 | null iff aqi is null or no entry of the table (the scale when none is given) is below aqi; otherwise the last entry below aqi |
| `PollutantIndex.GetAqiToLevelAbsent` | app/src/main/java/org/breezyweather/domain/weather/index/PollutantIndex.kt:47-51 | with a well-formed table, the level is null iff aqi is null or aqi <= 0 |
| `PollutantIndex.GetAqiToLevelMatchesGetLevel` | app/src/main/java/org/breezyweather/domain/weather/index/PollutantIndex.kt:47-51 | for cp > 0, `getAqiToLevel(cp, thresholds) == getLevel(cp)`; at cp <= 0 it is null, while `getLevel(0) == 0` |
| `PollutantIndex.GetAqiToColor` | app/src/main/java/org/breezyweather/domain/weather/index/PollutantIndex.kt:53-60 | TRANSPARENT for a null aqi, a null level or a level past the colour array; `colors[level]` otherwise |
| `PollutantIndex.LevelEntry` | app/src/main/java/org/breezyweather/domain/weather/index/PollutantIndex.kt:65 | `getOrNull(level)`: present iff the level is present and in range |
| `PollutantIndex.GetAqiToName` | app/src/main/java/org/breezyweather/domain/weather/index/PollutantIndex.kt:62-66 | null for a null aqi; otherwise the name at the level, if there is one |
| `PollutantIndex.GetAqiToDescription` | app/src/main/java/org/breezyweather/domain/weather/index/PollutantIndex.kt:68-72 | null for a null aqi; otherwise the description at the level, if there is one |
| `PollutantIndex.GetColor` | app/src/main/java/org/breezyweather/domain/weather/index/PollutantIndex.kt:113 | for cp > 0 with a level within the colour list, the colour of `getLevel(cp)`; TRANSPARENT for null or cp <= 0, and for a level past the colour list |
| `PollutantIndex.GetName` | app/src/main/java/org/breezyweather/domain/weather/index/PollutantIndex.kt:109 | for cp > 0, the name of `getLevel(cp)`; null for null or cp <= 0 |
| `PollutantIndex.GetDescription` | app/src/main/java/org/breezyweather/domain/weather/index/PollutantIndex.kt:110 | for cp > 0, the description of `getLevel(cp)`; null for null or cp <= 0 |
| `Domain.AlertOrderTotal` | app/src/src_nonfreenet/org/breezyweather/sources/qweather/QWeatherResultConverter.kt:313 | two alerts are ordered one way, the other way, or share the sort key |
| `Domain.AlertBefore` | app/src/src_nonfreenet/org/breezyweather/sources/qweather/QWeatherResultConverter.kt:313 | the `compareByDescending { severity.id }.thenByDescending(startDate)` comparator as a strict order: higher severity first, then later start date; `AlertOrderTotal` proves any two alerts comparable |
| `Domain.DateBefore` | app/src/src_nonfreenet/org/breezyweather/sources/qweather/QWeatherResultConverter.kt:313 | `thenByDescending(startDate)`: a later date first, a null date after every present one |
| `Domain.AlertsSorted` | app/src/src_nonfreenet/org/breezyweather/sources/qweather/QWeatherResultConverter.kt:313 | no alert sorts strictly before one ahead of it; `SortAlerts` proves its result satisfies it |
| `Domain.WithKey` | app/src/src_nonfreenet/org/breezyweather/sources/qweather/QWeatherResultConverter.kt:313 | the alerts with a given comparator key, in order; `SortAlerts` proves these subsequences unchanged, which is stability |
| `Domain.InsertAlert` | app/src/src_nonfreenet/org/breezyweather/sources/qweather/QWeatherResultConverter.kt:313 | insertion adds exactly one alert and keeps a sorted list sorted |
| `Domain.InsertAlertStable` | app/src/src_nonfreenet/org/breezyweather/sources/qweather/QWeatherResultConverter.kt:313 | insertion keeps the order of alerts with equal keys |
| `Domain.SortAlerts` | app/src/src_nonfreenet/org/breezyweather/sources/qweather/QWeatherResultConverter.kt:313 | the sort by severity id, then start date, both descending: a permutation, sorted, and stable among equal keys |
| `Domain.SortAlertsOfSorted` | app/src/src_nonfreenet/org/breezyweather/sources/china/ChinaResultConverter.kt:344 | a list already in order comes back unchanged |
| `QWeatherConverter.WeatherText` | app/src/src_nonfreenet/org/breezyweather/sources/qweather/QWeatherResultConverter.kt:341-409 | null iff the icon is null or empty; the provider text when lang is not "en" and the text is non-empty; the English table otherwise |
| `QWeatherConverter.WeatherCodeOfIcon` | app/src/src_nonfreenet/org/breezyweather/sources/qweather/QWeatherResultConverter.kt:411-479 | null iff the icon is null or empty |
| `QWeatherConverter.IconWeatherCode` | app/src/src_nonfreenet/org/breezyweather/sources/qweather/QWeatherResultConverter.kt:411-479 | the icon table never yields RAIN, SNOW or THUNDER |
| `QWeatherConverter.UnlistedIconFallbacks` | app/src/src_nonfreenet/org/breezyweather/sources/qweather/QWeatherResultConverter.kt:407-477 | an unlisted icon reads "Unknown" and gives CLOUDY |
| `QWeatherConverter.EnglishWeatherText` | app/src/src_nonfreenet/org/breezyweather/sources/qweather/QWeatherResultConverter.kt:341-409 | every icon has a non-empty English name, "Unknown" for unlisted icons (`UnlistedIconFallbacks`) |
| `QWeatherConverter.WarningSeverity` | app/src/src_nonfreenet/org/breezyweather/sources/qweather/QWeatherResultConverter.kt:316-326 | Cancel, None, Unknown, Standard and Minor give MINOR; Moderate gives MODERATE; Major and Severe give SEVERE; Extreme gives EXTREME; UNKNOWN iff the severity is null, empty or unlisted |
| `QWeatherConverter.WarningSeverityOfUnknownLiteral` | app/src/src_nonfreenet/org/breezyweather/sources/qweather/QWeatherResultConverter.kt:319 | the literal "Unknown" maps to MINOR, while "unknown" maps to UNKNOWN |
| `QWeatherConverter.WarningColor` | app/src/src_nonfreenet/org/breezyweather/sources/qweather/QWeatherResultConverter.kt:328-339 | present iff the colour is one of the six listed names: White (200,200,200), Blue (66,151,231), Yellow (255,242,184), Orange (255,145,0), Red (255,86,86), Black (0,0,0) |
| `QWeatherConverter.WarningColorInjective` | app/src/src_nonfreenet/org/breezyweather/sources/qweather/QWeatherResultConverter.kt:328-339 | distinct colour names give distinct colours |
| `QWeatherConverter.WarningAlert` | app/src/src_nonfreenet/org/breezyweather/sources/qweather/QWeatherResultConverter.kt:304-312 | each field of the alert comes from its warning; a missing colour becomes the UNKNOWN-severity colour |
| `QWeatherConverter.WarningList` | app/src/src_nonfreenet/org/breezyweather/sources/qweather/QWeatherResultConverter.kt:302-314 | empty for no warnings; otherwise one alert per warning, sorted and stable |
| `QWeatherConverter.WarningListCoversWarnings` | app/src/src_nonfreenet/org/breezyweather/sources/qweather/QWeatherResultConverter.kt:302-314 | an alert is in the list iff it is the conversion of some warning |
| `QWeatherConverter.RectifySummary` | app/src/src_nonfreenet/org/breezyweather/sources/qweather/QWeatherResultConverter.kt:506-510 | the result is null iff the summary is null |
| `QWeatherConverter.RectifySummaryWithoutKeywords` | app/src/src_nonfreenet/org/breezyweather/sources/qweather/QWeatherResultConverter.kt:506-510 | a summary without "precip" or "Rain/Snow" is unchanged |
| `QWeatherConverter.RectifySummaryOfAbbreviation` | app/src/src_nonfreenet/org/breezyweather/sources/qweather/QWeatherResultConverter.kt:508 | "precip" becomes "precipitation" |
| `QWeatherConverter.RectifySummaryOfFullWord` | app/src/src_nonfreenet/org/breezyweather/sources/qweather/QWeatherResultConverter.kt:508 | "precipitation" becomes "precipitationitation" |
| `QWeatherConverter.RectifySummaryOfRainSnow` | app/src/src_nonfreenet/org/breezyweather/sources/qweather/QWeatherResultConverter.kt:509 | "Rain/Snow" becomes "Precipitation" |
| `QWeatherConverter.ReverseTablesAscending` | app/src/src_nonfreenet/org/breezyweather/sources/qweather/QWeatherResultConverter.kt:482-483 | both reverse tables are strictly ascending |
| `QWeatherConverter.ReverseIndex` | app/src/src_nonfreenet/org/breezyweather/sources/qweather/QWeatherResultConverter.kt:490-504 | null iff aqi is null or <= 0; otherwise positive |
| `QWeatherConverter.ReverseInterpolateIncreasing` | app/src/src_nonfreenet/org/breezyweather/sources/qweather/QWeatherResultConverter.kt:485-487 | the reverse interpolation is strictly increasing and maps inLo to bpLo and inHi to bpHi |
| `QWeatherConverter.ReverseIndexInBand` | app/src/src_nonfreenet/org/breezyweather/sources/qweather/QWeatherResultConverter.kt:490-504 | in AQI band k the result lies in PM2.5 band k; above the table it equals aqi |
| `QWeatherConverter.PositiveReverseIndex` | app/src/src_nonfreenet/org/breezyweather/sources/qweather/QWeatherResultConverter.kt:490-504 | the concentration of a positive index; `ReverseIndexInBand`, `ReverseIndexIncreasing` and `ReverseIndexAtBreakpoint` prove it lies in the matching PM2.5 band, increases with the index and meets the breakpoints |
| `QWeatherConverter.ReverseIndexAtBreakpoint` | app/src/src_nonfreenet/org/breezyweather/sources/qweather/QWeatherResultConverter.kt:482-504 | `reverseIndex(aqi[k]) == pm25[k]` for k = 1..7 |
| `QWeatherConverter.ReverseIndexAboveTable` | app/src/src_nonfreenet/org/breezyweather/sources/qweather/QWeatherResultConverter.kt:501-503 | for aqi >= 500 the result equals aqi |
| `QWeatherConverter.ReverseIndexIncreasing` | app/src/src_nonfreenet/org/breezyweather/sources/qweather/QWeatherResultConverter.kt:490-504 | the result is strictly increasing in aqi |
| `QWeatherConverter.ReverseIndexExamples` | app/src/src_nonfreenet/org/breezyweather/sources/qweather/QWeatherResultConverter.kt:482-504 | 50 gives 35, 100 gives 75, 500 gives 500, 600 gives 600, 0 gives null |
| `QWeatherConverter.WindowMax` | app/src/src_nonfreenet/org/breezyweather/sources/qweather/QWeatherResultConverter.kt:152-156 | `maxOrNull` over a window: null iff the window is empty; otherwise at least every entry and equal to one |
| `QWeatherConverter.WindowProbability` | app/src/src_nonfreenet/org/breezyweather/sources/qweather/QWeatherResultConverter.kt:152-191 | at least every pop in the window, counting a missing pop as 0; equal to 0 or to some pop in the window; 0 without hourly data |
| `QWeatherConverter.InWindow` | app/src/src_nonfreenet/org/breezyweather/sources/qweather/QWeatherResultConverter.kt:152 | the filter of an hourly entry into [start, end) |
| `QWeatherConverter.PopFraction` | app/src/src_nonfreenet/org/breezyweather/sources/qweather/QWeatherResultConverter.kt:153 | the probability as a fraction, 0 for a null value; `WindowMax` takes the largest |
| `QWeatherConverter.DayAndNightWindowsPartition` | app/src/src_nonfreenet/org/breezyweather/sources/qweather/QWeatherResultConverter.kt:146-156 | the day window [+8h, +20h) and the night window [+20h, +32h) are disjoint and together cover [+8h, +32h) |
| `QWeatherConverter.AirMap` | app/src/src_nonfreenet/org/breezyweather/sources/qweather/QWeatherResultConverter.kt:138-141 | a date is a key iff some air entry carries it |
| `QWeatherConverter.AirMapLastWins` | app/src/src_nonfreenet/org/breezyweather/sources/qweather/QWeatherResultConverter.kt:138-141 | a later entry for the same date overwrites an earlier one |
| `QWeatherConverter.BuildAirMap` | app/src/src_nonfreenet/org/breezyweather/sources/qweather/QWeatherResultConverter.kt:137-141 | the `forEach` loop fills exactly `AirMap`; no air data gives an empty map |
| `QWeatherConverter.DailyOf` | app/src/src_nonfreenet/org/breezyweather/sources/qweather/QWeatherResultConverter.kt:146-198 | texts and codes of both halves, each half's window probability, and an air quality iff the date is in the air map, converted by `reverseIndex` |
| `QWeatherConverter.DailyList` | app/src/src_nonfreenet/org/breezyweather/sources/qweather/QWeatherResultConverter.kt:129-200 | empty without daily data; otherwise one day per entry, in order |
| `QWeatherConverter.BuildDailyList` | app/src/src_nonfreenet/org/breezyweather/sources/qweather/QWeatherResultConverter.kt:136-199 | the `forEachIndexed` loop builds exactly `DailyList` |
| `QWeatherConverter.MinutelyList` | app/src/src_nonfreenet/org/breezyweather/sources/qweather/QWeatherResultConverter.kt:284-300 | empty without data; otherwise one entry per value, in order, with interval 5 and intensity precip × 12 |
| `QWeatherConverter.MinutelyOf` | app/src/src_nonfreenet/org/breezyweather/sources/qweather/QWeatherResultConverter.kt:291-296 | one entry: its time, a 5-minute interval and the amount times 12; `MinutelyList` and `BuildMinutelyList` are stated through it |
| `QWeatherConverter.BuildMinutelyList` | app/src/src_nonfreenet/org/breezyweather/sources/qweather/QWeatherResultConverter.kt:288-299 | the loop builds exactly `MinutelyList` |
| `QWeatherConverter.Convert` | app/src/src_nonfreenet/org/breezyweather/sources/qweather/QWeatherResultConverter.kt:74-126 | fails iff a daily, hourly or now code is present and not "200"; otherwise the summary, texts, code, alerts, minutely and daily lists of the specification functions |
| `QWeatherConverter.ConvertSecondary` | app/src/src_nonfreenet/org/breezyweather/sources/qweather/QWeatherResultConverter.kt:233-281 | fails iff a now, air, warning or minutely code is present and not "200"; otherwise the secondary fields of the specification functions |
| `QWeatherConverter.StatusOk` | app/src/src_nonfreenet/org/breezyweather/sources/qweather/QWeatherResultConverter.kt:85-87 | a response code is acceptable iff it is null or "200"; `Convert` and `ConvertSecondary` fail exactly on a present code that is not |
| `ChinaConverter.CityId` | app/src/src_nonfreenet/org/breezyweather/sources/china/ChinaResultConverter.kt:63 | removing "weathercn:" never lengthens the key |
| `ChinaConverter.ReplaceAllShrinks` | app/src/src_nonfreenet/org/breezyweather/sources/china/ChinaResultConverter.kt:63 | replacing a pattern by a shorter one never lengthens a string |
| `ChinaConverter.CityIdStripsPrefix` | app/src/src_nonfreenet/org/breezyweather/sources/china/ChinaResultConverter.kt:63 | "weathercn:" + id gives id, and an id without the prefix is kept |
| `ChinaConverter.WeatherCodeOfIcon` | app/src/src_nonfreenet/org/breezyweather/sources/china/ChinaResultConverter.kt:448-472 | null iff the icon is null or empty |
| `ChinaConverter.UnlistedIconFallbacks` | app/src/src_nonfreenet/org/breezyweather/sources/china/ChinaResultConverter.kt:407-472 | a null, empty or unlisted icon reads "Unknown"; an unlisted icon gives CLOUDY |
| `ChinaConverter.WeatherText` | app/src/src_nonfreenet/org/breezyweather/sources/china/ChinaResultConverter.kt:407-446 | never empty; "Unknown" for a null or empty icon |
| `ChinaConverter.LeadingZeroIgnored` | app/src/src_nonfreenet/org/breezyweather/sources/china/ChinaResultConverter.kt:407-472 | "N" and "0N" give the same text and code for every digit N |
| `ChinaConverter.OvercastAndSevereSandstormAreCloudy` | app/src/src_nonfreenet/org/breezyweather/sources/china/ChinaResultConverter.kt:407-472 | "2", "02" and "31" have a text but give CLOUDY |
| `ChinaConverter.FogCodesWithoutText` | app/src/src_nonfreenet/org/breezyweather/sources/china/ChinaResultConverter.kt:407-472 | "32", "49" and "57" give FOG but read "Unknown" |
| `ChinaConverter.IconWeatherCode` | app/src/src_nonfreenet/org/breezyweather/sources/china/ChinaResultConverter.kt:448-472 | the icon table never yields RAIN, SNOW or THUNDER |
| `ChinaConverter.AlertSeverity` | app/src/src_nonfreenet/org/breezyweather/sources/china/ChinaResultConverter.kt:474-484 | blue, yellow, orange and red names give MINOR, MODERATE, SEVERE and EXTREME; UNKNOWN iff null, empty or unlisted |
| `ChinaConverter.AlertColor` | app/src/src_nonfreenet/org/breezyweather/sources/china/ChinaResultConverter.kt:486-495 | a colour iff the level is one of the listed blue, yellow, orange or red names; `AlertColorFollowsSeverity` proves it is the colour of the level's severity |
| `ChinaConverter.AlertColorFollowsSeverity` | app/src/src_nonfreenet/org/breezyweather/sources/china/ChinaResultConverter.kt:474-495 | the colour is a function of the severity, and present iff the severity is not UNKNOWN |
| `ChinaConverter.SeverityColor` | app/src/src_nonfreenet/org/breezyweather/sources/china/ChinaResultConverter.kt:486-495 | the colour of each known severity; `AlertColorFollowsSeverity` proves `getAlertColor` factors through it |
| `ChinaConverter.AlertColorsMatchQWeather` | app/src/src_nonfreenet/org/breezyweather/sources/china/ChinaResultConverter.kt:486-495 | the four colours are those QWeather gives to Blue, Yellow, Orange and Red |
| `ChinaConverter.HeadLine` | app/src/src_nonfreenet/org/breezyweather/sources/china/ChinaResultConverter.kt:347-375 | the title when the description is null or nothing matches; the match otherwise |
| `ChinaConverter.ChinaAlertOf` | app/src/src_nonfreenet/org/breezyweather/sources/china/ChinaResultConverter.kt:334-343 | each field of the alert comes from the provider alert; a missing colour becomes the UNKNOWN-severity colour |
| `ChinaConverter.AlertList` | app/src/src_nonfreenet/org/breezyweather/sources/china/ChinaResultConverter.kt:331-345 | empty for no alerts; otherwise one alert per provider alert, sorted and stable |
| `ChinaConverter.ReverseIndexAgrees` | app/src/src_nonfreenet/org/breezyweather/sources/china/ChinaResultConverter.kt:215-237 | equal to the QWeather `reverseIndex` on every input |
| `ChinaConverter.ReverseIndex` | app/src/src_nonfreenet/org/breezyweather/sources/china/ChinaResultConverter.kt:215-237 | absent iff the index is null or <= 0; `ReverseIndexAgrees` proves it equal to the QWeather copy |
| `ChinaConverter.PrecipitationProbability` | app/src/src_nonfreenet/org/breezyweather/sources/china/ChinaResultConverter.kt:205-213 | present iff the list is present and non-empty, the index is in range and the entry parsed; then that entry |
| `ChinaConverter.HourlyWindMap` | app/src/src_nonfreenet/org/breezyweather/sources/china/ChinaResultConverter.kt:257-270 | empty without data; a time is a key iff some entry carries it |
| `ChinaConverter.FirstByTime` | app/src/src_nonfreenet/org/breezyweather/sources/china/ChinaResultConverter.kt:262-268 | the keys are exactly the non-null datetimes |
| `ChinaConverter.FirstByTimeKeepsFirst` | app/src/src_nonfreenet/org/breezyweather/sources/china/ChinaResultConverter.kt:262-268 | each datetime maps to the first entry carrying it |
| `ChinaConverter.MinutelyList` | app/src/src_nonfreenet/org/breezyweather/sources/china/ChinaResultConverter.kt:309-329 | empty without values or pubTime; otherwise one entry per value at minute offset i from pubTime truncated to the minute, interval 1, intensity value × 60 |
| `ChinaConverter.MinuteOf` | app/src/src_nonfreenet/org/breezyweather/sources/china/ChinaResultConverter.kt:318-326 | one entry: the publication minute plus the index in minutes, a 1-minute interval and the amount times 60; `MinutelyListSpacing` proves the spacing |
| `ChinaConverter.MinutelyListSpacing` | app/src/src_nonfreenet/org/breezyweather/sources/china/ChinaResultConverter.kt:318-325 | entries are one minute apart, and the first falls in the minute of pubTime |
| `ChinaConverter.BuildMinutelyList` | app/src/src_nonfreenet/org/breezyweather/sources/china/ChinaResultConverter.kt:316-328 | the loop builds exactly `MinutelyList` |
| `ChinaConverter.DailyOf` | app/src/src_nonfreenet/org/breezyweather/sources/china/ChinaResultConverter.kt:155-201 | day i starts i days after the first; both halves get their text and code and the same probability; an air quality iff there is an aqi at i |
| `ChinaConverter.DailyList` | app/src/src_nonfreenet/org/breezyweather/sources/china/ChinaResultConverter.kt:149-203 | empty without weather values; otherwise one day per value, in order |
| `ChinaConverter.BuildDailyList` | app/src/src_nonfreenet/org/breezyweather/sources/china/ChinaResultConverter.kt:155-201 | the loop builds exactly `DailyList` |
| `ChinaConverter.Convert` | app/src/src_nonfreenet/org/breezyweather/sources/china/ChinaResultConverter.kt:74-100 | fails iff current, daily or hourly data is missing; otherwise the daily, minutely and alert lists of the specification functions |
| `ChinaConverter.ConvertSecondary` | app/src/src_nonfreenet/org/breezyweather/sources/china/ChinaResultConverter.kt:378-405 | the same presence guard; otherwise the minutely and alert lists, with no daily list |
| `Locations.IsDaylight` | app/src/main/java/org/breezyweather/domain/location/model/Location.kt:19-36 | daylight iff now lies in [rise, set) or [risePre, setPre); a pair with a missing time counts for nothing |
| `Locations.NoSunNoDaylight` | app/src/main/java/org/breezyweather/domain/location/model/Location.kt:21-33 | without sun data it is never daylight |
| `Locations.GetPlace` | app/src/main/java/org/breezyweather/domain/location/model/Location.kt:7-17 | the label for a current position shown in priority or without a name; the name otherwise |
| `WeatherViewController.WeatherCodeOfKind` | app/src/main/java/org/breezyweather/theme/weatherView/WeatherViewController.kt:28-43 | unlisted kinds give CLEAR |
| `WeatherViewController.WeatherKindOfCode` | app/src/main/java/org/breezyweather/theme/weatherView/WeatherViewController.kt:60-82 | a null code gives the CLEAR kind |
| `WeatherViewController.KindRoundTrip` | app/src/main/java/org/breezyweather/theme/weatherView/WeatherViewController.kt:28-82 | the 11 listed kinds survive kind → code → kind; every other kind becomes CLEAR |
| `WeatherViewController.WeatherKindOfCodeMerges` | app/src/main/java/org/breezyweather/theme/weatherView/WeatherViewController.kt:66-71 | two codes share a kind only for showery/moderate rain or showery/moderate snow |
| `WeatherViewController.WeatherKindOfLocation` | app/src/main/java/org/breezyweather/theme/weatherView/WeatherViewController.kt:46-51 | no location gives CLEAR; a null or "auto" override uses the current code |
| `WeatherViewController.WeatherKindOfOverride` | app/src/main/java/org/breezyweather/theme/weatherView/WeatherViewController.kt:46-51 | an override naming a code's id selects that code's kind |
| `WeatherViewController.WeatherKindOfUnknownOverride` | app/src/main/java/org/breezyweather/theme/weatherView/WeatherViewController.kt:46-51 | an override that names no code, ignoring case, selects CLEAR |
| `WeatherViewController.IsDaylight` | app/src/main/java/org/breezyweather/theme/weatherView/WeatherViewController.kt:53-57 | "day" gives true and "night" false; otherwise the location decides, and no location gives true |
| `WeatherViewController.WeatherTextIndex` | app/src/main/java/org/breezyweather/theme/weatherView/WeatherViewController.kt:86-108 | the index is in 0..19 |
| `WeatherViewController.WeatherText` | app/src/main/java/org/breezyweather/theme/weatherView/WeatherViewController.kt:84-111 | present iff the array is long enough for the code's index + 1, and always for a full 21-entry array; when present it is the name at the code's index + 1; the name always comes from positions 1..20, never from position 0 ("automatic") |
| `WeatherViewController.WeatherTextIndexMerges` | app/src/main/java/org/breezyweather/theme/weatherView/WeatherViewController.kt:90-95 | two codes share an index only for rain/showery rain or snow/showery snow |
| `WeatherViewController.WeatherTextIndexOnto` | app/src/main/java/org/breezyweather/theme/weatherView/WeatherViewController.kt:86-108 | every index 0..19 is some code's |
| `AstroViewHolders.SlotEndsAfterNow` | app/src/main/java/org/breezyweather/main/adapters/main/holder/AstroViewHolder.kt:328-335 | after clamping, no slot ends before now |
| `AstroViewHolders.SlotWithoutTimes` | app/src/main/java/org/breezyweather/main/adapters/main/holder/AstroViewHolder.kt:310-327 | a missing rise or set gives (now+1, now+1) |
| `AstroViewHolders.SlotChoice` | app/src/main/java/org/breezyweather/main/adapters/main/holder/AstroViewHolder.kt:302-335 | with today's times present, the previous day's pair is used iff both pre times exist and now < setPre; otherwise today's pair, or (now+1, now+1) once it has ended |
| `AstroViewHolders.PickTimes` | app/src/main/java/org/breezyweather/main/adapters/main/holder/AstroViewHolder.kt:302-327 | the branches for one body pick the pair `ChosenTimes` describes |
| `AstroViewHolders.AstroViewHolder.EnsureTime` | app/src/main/java/org/breezyweather/main/adapters/main/holder/AstroViewHolder.kt:294-337 | fresh arrays; current times [now, now] with a separate copy; each slot's interval as `SlotTimes` gives it; current <= end in both slots |
| `AstroViewHolders.AstroViewHolder.EnsurePhaseAngle` | app/src/main/java/org/breezyweather/main/adapters/main/holder/AstroViewHolder.kt:339-344 | the angle is the phase plus 180; the time arrays are kept |
| `AstroViewHolders.PathDuration` | app/src/main/java/org/breezyweather/main/adapters/main/holder/AstroViewHolder.kt:346-354 | the path duration is in [0, 4000] for every input, empty slots included |
| `AstroViewHolders.PathDurationWithinSlot` | app/src/main/java/org/breezyweather/main/adapters/main/holder/AstroViewHolder.kt:346-354 | inside a non-empty slot the duration is in [1000, 4000]: 1000 at the start and 4000 at the end |
| `AstroViewHolders.AstroViewHolder.PathAnimatorDuration` | app/src/main/java/org/breezyweather/main/adapters/main/holder/AstroViewHolder.kt:346-354 | a slot's path duration is in [0, 4000] |
| `AstroViewHolders.PhaseDuration` | app/src/main/java/org/breezyweather/main/adapters/main/holder/AstroViewHolder.kt:356-360 | the phase duration is in [0, 2000] |
| `AstroViewHolders.PhaseDurationOfPhase` | app/src/main/java/org/breezyweather/main/adapters/main/holder/AstroViewHolder.kt:343-360 | for an angle in [0, 360] the duration is in [1000, 2000] |
| `AstroViewHolders.AstroViewHolder.PhaseAnimatorDuration` | app/src/main/java/org/breezyweather/main/adapters/main/holder/AstroViewHolder.kt:356-360 | the stored angle's duration is in [0, 2000] |
| `AstroViewHolders.AstroViewHolder.constructor` | app/src/main/java/org/breezyweather/main/adapters/main/holder/AstroViewHolder.kt:71-96 | two-slot time arrays of zeros, angle 0, three empty animator slots |
| `AstroViewHolders.AstroViewHolder.OnRecycleView` | app/src/main/java/org/breezyweather/main/adapters/main/holder/AstroViewHolder.kt:282-292 | every animator slot is empty afterwards, and every animator that was attached is no longer running |
| `AstroViewHolders.AnimatorSet.Cancel` | app/src/main/java/org/breezyweather/main/adapters/main/holder/AstroViewHolder.kt:287 | a cancelled animator is not running |
| `MoonPhaseViews.NormalizeAngle` | app/src/main/java/org/breezyweather/common/ui/widgets/astro/MoonPhaseView.kt:67-73 | an angle below 360 is kept; one of 360 or more becomes its remainder, in [0, 360) and a whole number of turns below it |
| `MoonPhaseViews.NormalizeAngleIdempotent` | app/src/main/java/org/breezyweather/common/ui/widgets/astro/MoonPhaseView.kt:67-73 | storing the stored angle again changes nothing |
| `MoonPhaseViews.NormalizeAnglePeriodic` | app/src/main/java/org/breezyweather/common/ui/widgets/astro/MoonPhaseView.kt:67-73 | one more full turn does not change a non-negative angle's stored value |
| `MoonPhaseViews.PhaseCaseOf` | app/src/main/java/org/breezyweather/common/ui/widgets/astro/MoonPhaseView.kt:89-149 | exactly one of the eight cases, each with its interval; negative angles take the "< 90" case |
| `MoonPhaseViews.StartsLitIff` | app/src/main/java/org/breezyweather/common/ui/widgets/astro/MoonPhaseView.kt:89-149 | the drawing starts from a lit disc iff the angle is in (0, 90), is 180, or is above 270 |
| `MoonPhaseViews.StartsLit` | app/src/main/java/org/breezyweather/common/ui/widgets/astro/MoonPhaseView.kt:89-149 | the branches of `onDraw` that begin with `drawLightCircle`; `StartsLitIff` characterises them by angle |
| `MoonPhaseViews.MoonPhaseView.constructor` | app/src/main/java/org/breezyweather/common/ui/widgets/astro/MoonPhaseView.kt:52-56 | white, black and gray colours, angle 0, new-moon drawing |
| `MoonPhaseViews.MoonPhaseView.SetColor` | app/src/main/java/org/breezyweather/common/ui/widgets/astro/MoonPhaseView.kt:58-65 | the three colours are stored and the angle is kept |
| `MoonPhaseViews.MoonPhaseView.SetSurfaceAngle` | app/src/main/java/org/breezyweather/common/ui/widgets/astro/MoonPhaseView.kt:67-73 | the stored angle is the reduced one, below 360 and non-negative for non-negative input; the colours are kept |
| `MoonPhaseViews.MoonPhaseView.DrawCase` | app/src/main/java/org/breezyweather/common/ui/widgets/astro/MoonPhaseView.kt:89-149 | the `onDraw` branch for the stored angle, as `PhaseCaseOf` gives it |
| `QWeatherServices.Language` | app/src/src_nonfreenet/org/breezyweather/sources/qweather/QWeatherService.kt:132-140 | always a supported language, chosen in order: locale with country, bare locale, "zh-hant" for "zh-tw", "en" |
| `QWeatherServices.LanguageOfSupported` | app/src/src_nonfreenet/org/breezyweather/sources/qweather/QWeatherService.kt:132-140 | a supported locale is used as is |
| `QWeatherServices.LanguageOfTaiwan` | app/src/src_nonfreenet/org/breezyweather/sources/qweather/QWeatherService.kt:137-138 | "zh-tw" gives "zh-hant" |
| `QWeatherServices.QWeatherService.ApiKey` | app/src/src_nonfreenet/org/breezyweather/sources/qweather/QWeatherService.kt:103 | the stored key, or "" when none is stored |
| `QWeatherServices.QWeatherService.SetApiKey` | app/src/src_nonfreenet/org/breezyweather/sources/qweather/QWeatherService.kt:100-102 | the value is stored and read back; after a non-empty value the effective key is that value and the source is unrestricted |
| `QWeatherServices.QWeatherService.ApiKeyOrDefault` | app/src/src_nonfreenet/org/breezyweather/sources/qweather/QWeatherService.kt:105-107 | the user's key when non-empty, the built-in key otherwise; empty iff both are |
| `QWeatherServices.QWeatherService.IsConfigured` | app/src/src_nonfreenet/org/breezyweather/sources/qweather/QWeatherService.kt:109-110 | configured iff the effective key is non-empty, that is iff one of the two keys is |
| `QWeatherServices.QWeatherService.IsRestricted` | app/src/src_nonfreenet/org/breezyweather/sources/qweather/QWeatherService.kt:112-113 | restricted iff the user's key is empty, and a restricted but configured source uses the built-in key |
| `QWeatherServices.QWeatherService.PrepareRequest` | app/src/src_nonfreenet/org/breezyweather/sources/qweather/QWeatherService.kt:143-150 | ApiKeyMissing iff not configured; otherwise InvalidLocation iff the city id is null or empty; otherwise the effective key and the language |
| `QWeatherServices.StoredKeyIsUsed` | app/src/src_nonfreenet/org/breezyweather/sources/qweather/QWeatherService.kt:99-113 | with a non-empty stored key the source is configured and unrestricted, and requests use that key |

## Left out

- Networking is not modelled: `requestWeather`, `requestSecondaryWeather`, location search, the Retrofit interface and the RxJava plumbing. Only the guards before a request are modelled.
- Drawing and animation are not modelled: the canvas arcs of `MoonPhaseView.onDraw` (only the branch choice is), `onBindView`/`onEnterScreen`, and the sun and moon drawables.
- The hourly lists of both converters (`getHourlyList`), China's `getHourlyValueMap` and `getCurrent`, and the copying of temperatures, wind, humidity, pressure, visibility, UV and pollutant strings into the model. These are field copies and number parsing, with nothing to state beyond the copy.
- `ChinaConverter.HeadLine`: the five `java.util.regex` patterns are one function parameter, `matcher`. Only the title fallback around it is modelled.
- `ChinaConverter.CityId` takes the location key as a non-null string. The NullPointerException that `locationKey!!` throws for a missing key (ChinaResultConverter.kt line 63) is not modelled.
- Alert ids (`System.currentTimeMillis`, `Objects.hash`) are parameters.
- `QWeatherConverter.WarningList` takes one `fallbackId` for every warning without an id; the source reads the clock once per such warning.
- Time zones and daylight saving time are not modelled. Parsed dates, `startOfDay` and China's first day start are integer milliseconds given as parameters, and `plusHours`/`plusDays`/`plusMinutes` add fixed amounts.
- `MoonIllumination` is a parameter of `EnsurePhaseAngle`. The current time is a parameter of `EnsureTime` and `IsDaylight`.
- Floats and doubles are reals. The Float breakpoint tables are taken at their decimal values. NaN is not modelled, except that `max` and `toLong` turn 0/0 into 0 in `PathDuration`. Int and Long overflow is not modelled.
- QWeather's `aqi!!.toInt()` and `fxDate!!`: the air map holds integers, and a malformed or missing string (which would throw) is not modelled.
- `QWeatherConverter.WindowProbability` and `QWeatherConverter.DailyOf` take hourly entries as parsed values. The source's `fxTime!!` (a NullPointerException for a missing time) and `pop.toDouble()` (a NumberFormatException for a malformed probability), QWeatherResultConverter.kt lines 152 and 155, are not modelled.
- `QWeatherConverter.MinutelyList` takes minutely entries as parsed values. The NumberFormatException of `precip?.toDouble()` on a malformed amount (line 295) is not modelled.
- `QWeatherConverter.Convert` and `QWeatherConverter.ConvertSecondary` therefore return Success where the source would throw on those malformed fields; only the response-code failures are modelled.
- Case folding is ASCII only. `getInstance` ids are ASCII.
- `AlertSeverity` ids and the `WEATHER_KIND_*` integers are not part of this model. Severity ids are UNKNOWN 0 through EXTREME 4, in declaration order, and the weather kinds are a datatype.
- `AstroViewHolders.AstroViewHolder.EnsureTime` computes each slot into locals and creates the arrays from them. The source writes slots of freshly allocated arrays. The final state is the same.
- `Domain.SortAlerts` is the alert sort as an insertion sort. It states what `sortedWith` guarantees: a stable, sorted permutation.
