/** Derived properties of a saved location
    (app/src/main/java/org/breezyweather/domain/location/model/Location.kt).
    The clock and the localized "current location" label are parameters. */
module Locations {
  import opened Wrappers
  import opened WeatherCodes

  /** Today's sun times and the previous day's, as instants in ms. */
  datatype Astro = Astro(riseDate: Option<int>, setDate: Option<int>, riseDatePre: Option<int>, setDatePre: Option<int>)

  /** The location fields the model reads: whether it follows the device,
      its display name, today's sun, the user's background overrides and
      the current weather code. */
  datatype Location = Location(
    isCurrentPosition: bool,
    cityAndDistrict: string,
    sun: Option<Astro>,
    backgroundWeatherKind: Option<string>,
    backgroundDayNightType: Option<string>,
    currentWeatherCode: Option<WeatherCode>)

  /** `now` lies in the half-open interval of a rise/set pair, when both
      times of the pair are known. */
  predicate InPair(rise: Option<int>, down: Option<int>, now: int) {
    rise.Some? && down.Some? && rise.value <= now < down.value
  }

  /** `now` lies in today's or the previous day's daylight interval. */
  predicate InEitherPair(astro: Astro, now: int) {
    InPair(astro.riseDate, astro.setDate, now) || InPair(astro.riseDatePre, astro.setDatePre, now)
  }

  /** `isDaylight`: a pair with a missing time is replaced by [-1, -1), and
      `now` must fall in today's or the previous day's interval. */
  function IsDaylight(location: Location, now: int): (r: bool)
    ensures r <==> location.sun.Some? && InEitherPair(location.sun.value, now)
  {
    var astro := location.sun;
    var riseTime := if astro.Some? then astro.value.riseDate else None;
    var setTime := if astro.Some? then astro.value.setDate else None;
    var riseTimePre := if astro.Some? then astro.value.riseDatePre else None;
    var setTimePre := if astro.Some? then astro.value.setDatePre else None;
    var (rise, down) := if riseTime.None? || setTime.None? then (-1, -1) else (riseTime.value, setTime.value);
    var (risePre, downPre) := if riseTimePre.None? || setTimePre.None? then (-1, -1) else (riseTimePre.value, setTimePre.value);
    (now >= rise && now < down) || (now >= risePre && now < downPre)
  }

  /** Without sun data it is never daylight. */
  lemma NoSunNoDaylight(location: Location, now: int)
    requires location.sun.None? || location.sun.value == Astro(None, None, None, None)
    ensures !IsDaylight(location, now)
  {
  }

  /** `getPlace`: the label for a current position shown in priority or
      with no name of its own; the name otherwise. */
  function GetPlace(location: Location, showCurrentPositionInPriority: bool, currentLabel: string): (r: string)
    ensures showCurrentPositionInPriority && location.isCurrentPosition ==> r == currentLabel
    ensures location.isCurrentPosition && location.cityAndDistrict == "" ==> r == currentLabel
    ensures !location.isCurrentPosition ==> r == location.cityAndDistrict
    ensures location.isCurrentPosition && !showCurrentPositionInPriority && location.cityAndDistrict != "" ==>
      r == location.cityAndDistrict
  {
    if showCurrentPositionInPriority && location.isCurrentPosition then currentLabel
    else if location.cityAndDistrict == "" && location.isCurrentPosition then currentLabel
    else location.cityAndDistrict
  }
}
