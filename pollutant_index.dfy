/** Air-quality index arithmetic
    (app/.../domain/weather/index/PollutantIndex.kt).

    Each pollutant carries six ascending concentration breakpoints; a
    concentration is turned into an index on the shared scale
    0, 50, 100, 150, 200, 300 by linear interpolation inside its band
    (the piecewise-linear formula of Equation 1 of the US EPA Technical
    Assistance Document for the Reporting of Daily Air Quality,
    EPA-454/B-18-007) and by a line through the origin above the last
    breakpoint. Kotlin `Float`/`Double` values are modelled as reals. */
module PollutantIndex {
  import opened Wrappers
  import opened Numeric

  datatype Pollutant = O3 | NO2 | PM10 | PM25 | SO2 | CO

  /** The concentration breakpoints of each pollutant. */
  function Thresholds(p: Pollutant): seq<real> {
    match p
    case O3 => [0.0, 106.01227, 137.42331, 166.87117, 206.13496, 392.63803]
    case NO2 => [0.0, 99.73538, 188.17996, 677.4479, 1221.288, 2350.3677]
    case PM10 => [0.0, 54.0, 154.0, 254.0, 354.0, 424.0]
    case PM25 => [0.0, 12.0, 35.4, 55.4, 150.4, 250.4]
    case SO2 => [0.0, 91.71575, 196.53374, 484.78323, 796.61676, 1582.7517]
    case CO => [0.0, 5.040654, 10.768671, 14.205481, 17.64229, 34.82634]
  }

  /** The shared index scale ("Plume 2023"). */
  const AqiThresholds: seq<real> := [0.0, 50.0, 100.0, 150.0, 200.0, 300.0]

  /** `indexFreshAir`, `indexHighPollution` and `indexExcessivePollution`. */
  const IndexFreshAir: real := AqiThresholds[1]
  const IndexHighPollution: real := AqiThresholds[3]
  const IndexExcessivePollution: real := AqiThresholds[|AqiThresholds| - 1]

  /** The index of the last entry of a table. */
  const LastIndex: nat := 5

  /** A breakpoint table fit for the lookups below: six ascending entries
      starting at zero. */
  predicate WellFormedTable(s: seq<real>) {
    |s| == LastIndex + 1 && s[0] == 0.0 && StrictlyAscending(s)
  }

  /** Every table of the enumeration, and the index scale, is well formed. */
  lemma TablesWellFormed(p: Pollutant)
    ensures WellFormedTable(Thresholds(p))
    ensures WellFormedTable(AqiThresholds)
    ensures IndexFreshAir == 50.0 && IndexHighPollution == 150.0 && IndexExcessivePollution == 300.0
  {
  }

  /** `excessivePollution`: the last concentration breakpoint. */
  function ExcessivePollution(p: Pollutant): (r: real)
    ensures r == Thresholds(p)[|Thresholds(p)| - 1]
    ensures r > 0.0
    ensures forall i :: 0 <= i < |Thresholds(p)| ==> Thresholds(p)[i] <= r
  {
    TablesWellFormed(p);
    Thresholds(p)[LastIndex]
  }

  /** The unrounded value of the five-argument `getIndex`: the line through
      (bpLo, inLo) and (bpHi, inHi), evaluated at `cp`. */
  function Interpolate(cp: real, bpLo: real, bpHi: real, inLo: real, inHi: real): real
    requires bpLo < bpHi
  {
    (inHi - inLo) / (bpHi - bpLo) * (cp - bpLo) + inLo
  }

  /** The unrounded value of the two-argument `getIndex(cp, level)`: inside
      the table, interpolation in band `level`; on the last level, the line
      through the origin and the last pair of breakpoints. */
  function LinearIndex(p: Pollutant, cp: real, level: nat): real
    requires level <= LastIndex
  {
    TablesWellFormed(p);
    var t := Thresholds(p);
    if level < LastIndex then
      Interpolate(cp, t[level], t[level + 1], AqiThresholds[level], AqiThresholds[level + 1])
    else
      cp * AqiThresholds[LastIndex] / t[LastIndex]
  }

  /** `getIndex(cp, level)`: the rounded value. */
  function IndexAtLevel(p: Pollutant, cp: real, level: nat): int
    requires level <= LastIndex
  {
    RoundToInt(LinearIndex(p, cp, level))
  }

  /** The level `getIndex` and `getLevel` compute for a non-negative
      concentration: 0 for zero, the last breakpoint below `cp` otherwise. */
  function LevelOf(p: Pollutant, cp: real): (r: nat)
    requires cp >= 0.0
    ensures r <= LastIndex
    ensures cp == 0.0 ==> r == 0
    ensures cp > 0.0 ==> Thresholds(p)[r] < cp && (r == LastIndex || cp <= Thresholds(p)[r + 1])
  {
    TablesWellFormed(p);
    if cp > 0.0 then IndexOfLastBelow(Thresholds(p), cp) else 0
  }

  /** The public `getIndex(cp)`: absent for a missing or negative
      concentration, a non-negative index otherwise. */
  function GetIndex(p: Pollutant, cp: Option<real>): (r: Option<int>)
    ensures r.None? <==> cp.None? || cp.value < 0.0
    ensures r.Some? ==> r.value >= 0
  {
    if cp.None? || cp.value < 0.0 then None
    else
      var level := LevelOf(p, cp.value);
      assert LinearIndex(p, cp.value, level) >= 0.0 by { LinearIndexBounds(p, cp.value); }
      Some(IndexAtLevel(p, cp.value, level))
  }

  /** `getLevel(cp)`: absent for a missing or negative concentration, 0 at
      zero, otherwise the band whose upper breakpoint is the first one not
      below `cp` (the last level above the table). */
  function GetLevel(p: Pollutant, cp: Option<real>): (r: Option<nat>)
    ensures r.None? <==> cp.None? || cp.value < 0.0
    ensures r.Some? ==> r.value <= LastIndex
    ensures cp == Some(0.0) ==> r == Some(0)
    ensures r.Some? && cp.value > 0.0 ==>
      var t := Thresholds(p);
      t[r.value] < cp.value && (r.value == LastIndex || cp.value <= t[r.value + 1])
  {
    if cp.None? || cp.value < 0.0 then None else Some(LevelOf(p, cp.value))
  }

  // ----- Properties of the interpolation -----

  lemma MulMonotone(s: real, x: real, y: real)
    requires s >= 0.0 && x <= y
    ensures s * x <= s * y
  {
  }

  /** The interpolation line passes through both end points of its band. */
  lemma InterpolateAtEnds(bpLo: real, bpHi: real, inLo: real, inHi: real)
    requires bpLo < bpHi
    ensures Interpolate(bpLo, bpLo, bpHi, inLo, inHi) == inLo
    ensures Interpolate(bpHi, bpLo, bpHi, inLo, inHi) == inHi
  {
    var d := bpHi - bpLo;
    assert (inHi - inLo) / d * d == inHi - inLo;
  }

  /** On a rising band the interpolation is non-decreasing and stays between
      the band's two index values. */
  lemma InterpolateMonotone(a: real, b: real, bpLo: real, bpHi: real, inLo: real, inHi: real)
    requires bpLo < bpHi && inLo <= inHi && bpLo <= a <= b <= bpHi
    ensures inLo <= Interpolate(a, bpLo, bpHi, inLo, inHi)
    ensures Interpolate(a, bpLo, bpHi, inLo, inHi) <= Interpolate(b, bpLo, bpHi, inLo, inHi)
    ensures Interpolate(b, bpLo, bpHi, inLo, inHi) <= inHi
  {
    var s := (inHi - inLo) / (bpHi - bpLo);
    assert s >= 0.0;
    MulMonotone(s, 0.0, a - bpLo);
    MulMonotone(s, a - bpLo, b - bpLo);
    MulMonotone(s, b - bpLo, bpHi - bpLo);
    InterpolateAtEnds(bpLo, bpHi, inLo, inHi);
    assert Interpolate(a, bpLo, bpHi, inLo, inHi) == s * (a - bpLo) + inLo;
    assert Interpolate(b, bpLo, bpHi, inLo, inHi) == s * (b - bpLo) + inLo;
    assert s * (bpHi - bpLo) + inLo == inHi;
  }

  /** Within band k the unrounded index lies between the band's two index
      values; on the last level it is at least the top of the scale. */
  lemma {:induction false} LinearIndexBounds(p: Pollutant, cp: real)
    requires cp >= 0.0
    ensures var k := LevelOf(p, cp);
      && (k < LastIndex ==> AqiThresholds[k] <= LinearIndex(p, cp, k) <= AqiThresholds[k + 1])
      && (k == LastIndex ==> LinearIndex(p, cp, k) >= AqiThresholds[LastIndex])
      && LinearIndex(p, cp, k) >= 0.0
  {
    TablesWellFormed(p);
    var k := LevelOf(p, cp);
    var t := Thresholds(p);
    if k < LastIndex {
      InterpolateMonotone(cp, cp, t[k], t[k + 1], AqiThresholds[k], AqiThresholds[k + 1]);
    } else {
      var top := t[LastIndex];
      assert cp >= top;
      assert cp * 300.0 >= top * 300.0;
      assert cp * 300.0 / top >= 300.0;
    }
  }

  /** A larger concentration is at the same or a higher level. */
  lemma LevelMonotone(p: Pollutant, a: real, b: real)
    requires 0.0 <= a <= b
    ensures LevelOf(p, a) <= LevelOf(p, b)
  {
    TablesWellFormed(p);
    if LevelOf(p, a) > LevelOf(p, b) {
      assert false;
    }
  }

  /** On one level the unrounded index is non-decreasing. */
  lemma SameLevelMonotone(p: Pollutant, a: real, b: real)
    requires 0.0 <= a <= b && LevelOf(p, a) == LevelOf(p, b)
    ensures LinearIndex(p, a, LevelOf(p, a)) <= LinearIndex(p, b, LevelOf(p, b))
  {
    TablesWellFormed(p);
    var t := Thresholds(p);
    var i := LevelOf(p, a);
    if i < LastIndex {
      assert a == 0.0 || t[i] < a;
      InterpolateMonotone(a, b, t[i], t[i + 1], AqiThresholds[i], AqiThresholds[i + 1]);
    } else {
      assert a * 300.0 <= b * 300.0;
      assert a * 300.0 / t[LastIndex] <= b * 300.0 / t[LastIndex];
    }
  }

  /** The unrounded index is non-decreasing in the concentration. */
  lemma LinearIndexMonotone(p: Pollutant, a: real, b: real)
    requires 0.0 <= a <= b
    ensures LinearIndex(p, a, LevelOf(p, a)) <= LinearIndex(p, b, LevelOf(p, b))
  {
    var i, j := LevelOf(p, a), LevelOf(p, b);
    LevelMonotone(p, a, b);
    if i == j {
      SameLevelMonotone(p, a, b);
    } else {
      LinearIndexBounds(p, a);
      LinearIndexBounds(p, b);
      assert AqiThresholds[i + 1] <= AqiThresholds[j];
    }
  }

  // ----- Properties of the public getIndex -----

  /** `getIndex(0) == 0` for every pollutant. */
  lemma GetIndexOfZero(p: Pollutant)
    ensures GetIndex(p, Some(0.0)) == Some(0)
  {
    TablesWellFormed(p);
    var t := Thresholds(p);
    InterpolateAtEnds(t[0], t[1], AqiThresholds[0], AqiThresholds[1]);
    RoundToIntOfInt(0);
  }

  /** A concentration inside band k of the table is at level k. */
  lemma LevelWithinBand(p: Pollutant, k: nat, cp: real)
    requires k < LastIndex && Thresholds(p)[k] < cp <= Thresholds(p)[k + 1]
    ensures cp > 0.0 && LevelOf(p, cp) == k
  {
    TablesWellFormed(p);
  }

  /** For a non-negative concentration, `getIndex` rounds the linear
      value of the concentration's own level. */
  lemma GetIndexOfNonNegative(p: Pollutant, cp: real)
    requires cp >= 0.0
    ensures GetIndex(p, Some(cp)) == Some(IndexAtLevel(p, cp, LevelOf(p, cp)))
  {
  }

  /** Band k-1 interpolates its upper breakpoint to the k-th value of the
      scale. */
  lemma LinearIndexAtBandTop(p: Pollutant, k: nat)
    requires 1 <= k <= LastIndex
    ensures LinearIndex(p, Thresholds(p)[k], k - 1) == AqiThresholds[k]
  {
    TablesWellFormed(p);
    var t := Thresholds(p);
    InterpolateAtEnds(t[k - 1], t[k], AqiThresholds[k - 1], AqiThresholds[k]);
  }

  /** Every value of the scale is a whole number. */
  lemma AqiThresholdWhole(k: nat)
    requires k <= LastIndex
    ensures AqiThresholds[k].Floor as real == AqiThresholds[k]
  {
  }

  /** At each breakpoint k = 1..5 the index is exactly the k-th value of the
      scale: `cp` falls in band k-1 and interpolates to its upper end. */
  lemma GetIndexAtBreakpoint(p: Pollutant, k: nat)
    requires 1 <= k <= LastIndex
    ensures GetIndex(p, Some(Thresholds(p)[k])).Some?
    ensures GetIndex(p, Some(Thresholds(p)[k])).value as real == AqiThresholds[k]
  {
    var cp := Thresholds(p)[k];
    LevelWithinBand(p, k - 1, cp);
    GetIndexOfNonNegative(p, cp);
    LinearIndexAtBandTop(p, k);
    AqiThresholdWhole(k);
    RoundToIntOfInt(AqiThresholds[k].Floor);
  }

  /** Inside the table, an index in band k lies between the band's two
      index values. */
  lemma GetIndexWithinBand(p: Pollutant, k: nat, cp: real)
    requires k < LastIndex && Thresholds(p)[k] < cp <= Thresholds(p)[k + 1]
    ensures GetIndex(p, Some(cp)).Some?
    ensures AqiThresholds[k] <= GetIndex(p, Some(cp)).value as real <= AqiThresholds[k + 1]
  {
    LevelWithinBand(p, k, cp);
    GetIndexOfNonNegative(p, cp);
    LinearIndexBounds(p, cp);
    var lo, hi := AqiThresholds[k], AqiThresholds[k + 1];
    RoundToIntMonotone(lo, LinearIndex(p, cp, k));
    RoundToIntMonotone(LinearIndex(p, cp, k), hi);
    AqiThresholdWhole(k);
    AqiThresholdWhole(k + 1);
    RoundToIntOfInt(lo.Floor);
    RoundToIntOfInt(hi.Floor);
  }

  /** Above the last breakpoint the index continues on the line through the
      origin, and is at least the top of the scale. */
  lemma GetIndexAboveTable(p: Pollutant, cp: real)
    requires cp > Thresholds(p)[LastIndex]
    ensures GetIndex(p, Some(cp)) == Some(RoundToInt(cp * 300.0 / Thresholds(p)[LastIndex]))
    ensures GetIndex(p, Some(cp)).value >= 300
  {
    TablesWellFormed(p);
    assert LevelOf(p, cp) == LastIndex;
    LinearIndexBounds(p, cp);
    RoundToIntMonotone(300.0, LinearIndex(p, cp, LastIndex));
    RoundToIntOfInt(300);
  }

  /** The two formulas meet at the last breakpoint: the top band
      interpolates to 300 there, as does the line through the origin, so the
      index is continuous where the extrapolation takes over. */
  lemma ExtrapolationMeetsTopBand(p: Pollutant)
    ensures LinearIndex(p, Thresholds(p)[LastIndex], LastIndex - 1) == AqiThresholds[LastIndex]
    ensures LinearIndex(p, Thresholds(p)[LastIndex], LastIndex) == AqiThresholds[LastIndex]
  {
    TablesWellFormed(p);
    var t := Thresholds(p);
    InterpolateAtEnds(t[LastIndex - 1], t[LastIndex], AqiThresholds[LastIndex - 1], AqiThresholds[LastIndex]);
  }

  /** Above the table the unrounded index is proportional to the
      concentration: doubling one doubles the other. */
  lemma ExtrapolationIsLinear(p: Pollutant, cp: real)
    requires cp > Thresholds(p)[LastIndex]
    ensures LinearIndex(p, 2.0 * cp, LevelOf(p, 2.0 * cp)) == 2.0 * LinearIndex(p, cp, LevelOf(p, cp))
  {
    TablesWellFormed(p);
    assert LevelOf(p, cp) == LastIndex;
    assert LevelOf(p, 2.0 * cp) == LastIndex;
  }

  /** `getIndex` is non-decreasing in the concentration. */
  lemma GetIndexMonotone(p: Pollutant, a: real, b: real)
    requires 0.0 <= a <= b
    ensures GetIndex(p, Some(a)).Some? && GetIndex(p, Some(b)).Some?
    ensures GetIndex(p, Some(a)).value <= GetIndex(p, Some(b)).value
  {
    LinearIndexMonotone(p, a, b);
    RoundToIntMonotone(LinearIndex(p, a, LevelOf(p, a)), LinearIndex(p, b, LevelOf(p, b)));
  }

  /** PM2.5 at 12 gives 50, and at 500 gives 599 (500 * 300 / 250.4 rounded);
      CO at 0 gives 0 and a missing CO value gives no index. */
  lemma WorkedExamples()
    ensures GetIndex(PM25, Some(12.0)) == Some(50)
    ensures GetIndex(PM25, Some(500.0)) == Some(599)
    ensures GetIndex(CO, Some(0.0)) == Some(0)
    ensures GetIndex(CO, None) == None
  {
    GetIndexAtBreakpoint(PM25, 1);
    GetIndexAboveTable(PM25, 500.0);
    assert 500.0 * 300.0 / 250.4 + 1.0 / 2.0 == 150000.0 / 250.4 + 0.5;
    GetIndexOfZero(CO);
  }

  // ----- Level, name, description and colour lookups -----

  /** `Color.TRANSPARENT`. */
  const Transparent: int := 0

  /** `getAqiToLevel(aqi, thresholds)`: the last breakpoint below `aqi` in
      the given table, or in the index scale when none is given; absent when
      `aqi` is missing or no breakpoint lies below it. */
  function GetAqiToLevel(aqi: Option<real>, thresholds: Option<seq<real>>): (r: Option<nat>)
    ensures var t := thresholds.GetOr(AqiThresholds);
      && (r.None? <==> aqi.None? || forall i :: 0 <= i < |t| ==> aqi.value <= t[i])
      && (r.Some? ==> r.value < |t| && t[r.value] < aqi.value
                      && forall j :: r.value < j < |t| ==> aqi.value <= t[j])
  {
    if aqi.None? then None
    else
      var level := IndexOfLastBelow(thresholds.GetOr(AqiThresholds), aqi.value);
      if level >= 0 then Some(level) else None
  }

  /** With a table that starts at zero, the level is absent exactly for a
      missing or non-positive value; in particular `getAqiToLevel(0)` is
      absent although `getLevel(0)` is 0. */
  lemma GetAqiToLevelAbsent(aqi: Option<real>, thresholds: Option<seq<real>>)
    requires thresholds.Some? ==> WellFormedTable(thresholds.value)
    ensures GetAqiToLevel(aqi, thresholds).None? <==> aqi.None? || aqi.value <= 0.0
  {
    var t := thresholds.GetOr(AqiThresholds);
    assert WellFormedTable(t);
    if aqi.Some? && aqi.value <= 0.0 {
      forall i | 0 <= i < |t| ensures aqi.value <= t[i] {
        assert t[0] <= t[i] by { if i > 0 { assert t[0] < t[i]; } }
      }
    }
  }

  /** For a positive concentration, the level looked up through the
      pollutant's own table is `getLevel`; at zero, or for a missing or
      negative value, it is absent, while `getLevel(0)` is 0. */
  lemma GetAqiToLevelMatchesGetLevel(p: Pollutant, cp: Option<real>)
    ensures cp.Some? && cp.value > 0.0 ==> GetAqiToLevel(cp, Some(Thresholds(p))) == GetLevel(p, cp)
    ensures cp.None? || cp.value <= 0.0 ==> GetAqiToLevel(cp, Some(Thresholds(p))).None?
  {
    TablesWellFormed(p);
    GetAqiToLevelAbsent(cp, Some(Thresholds(p)));
  }

  /** `getAqiToColor`: the colour of the level, or transparent when the
      value is missing, has no level, or the level is past the colour array. */
  function GetAqiToColor(aqi: Option<real>, thresholds: Option<seq<real>>, colors: seq<int>): (r: int)
    ensures var level := GetAqiToLevel(aqi, thresholds);
      r == if level.Some? && level.value < |colors| then colors[level.value] else Transparent
  {
    if aqi.None? then Transparent
    else
      var level := GetAqiToLevel(aqi, thresholds);
      if level.Some? && level.value < |colors| then colors[level.value] else Transparent
  }

  /** `getOrNull(level)` on a resource array. */
  function LevelEntry(level: Option<nat>, entries: seq<string>): (r: Option<string>)
    ensures r.Some? <==> level.Some? && level.value < |entries|
    ensures r.Some? ==> r.value == entries[level.value]
  {
    if level.Some? && level.value < |entries| then Some(entries[level.value]) else None
  }

  /** `getAqiToName`: the name of the level, absent when there is none. */
  function GetAqiToName(aqi: Option<real>, thresholds: Option<seq<real>>, names: seq<string>): (r: Option<string>)
    ensures aqi.None? ==> r.None?
    ensures r == LevelEntry(GetAqiToLevel(aqi, thresholds), names)
  {
    if aqi.None? then None else LevelEntry(GetAqiToLevel(aqi, thresholds), names)
  }

  /** `getAqiToDescription`: the description of the level, absent when there
      is none. */
  function GetAqiToDescription(aqi: Option<real>, thresholds: Option<seq<real>>, descriptions: seq<string>): (r: Option<string>)
    ensures aqi.None? ==> r.None?
    ensures r == LevelEntry(GetAqiToLevel(aqi, thresholds), descriptions)
  {
    if aqi.None? then None else LevelEntry(GetAqiToLevel(aqi, thresholds), descriptions)
  }

  /** `getColor(cp)`: the colour array entry of `getLevel` for a positive
      concentration, but transparent at zero, since the lookup goes through
      `getAqiToColor` with the pollutant's own table. */
  function GetColor(p: Pollutant, cp: Option<real>, colors: seq<int>): (r: int)
    ensures cp.Some? && cp.value > 0.0 && GetLevel(p, cp).value < |colors| ==> r == colors[GetLevel(p, cp).value]
    ensures cp.Some? && cp.value > 0.0 && GetLevel(p, cp).value >= |colors| ==> r == Transparent
    ensures cp.None? || cp.value <= 0.0 ==> r == Transparent
  {
    GetAqiToLevelMatchesGetLevel(p, cp);
    GetAqiToColor(cp, Some(Thresholds(p)), colors)
  }

  /** `getName(cp)`: the name of `getLevel` for a positive concentration,
      absent at zero. */
  function GetName(p: Pollutant, cp: Option<real>, names: seq<string>): (r: Option<string>)
    ensures cp.Some? && cp.value > 0.0 ==> r == LevelEntry(GetLevel(p, cp), names)
    ensures cp.None? || cp.value <= 0.0 ==> r.None?
  {
    GetAqiToLevelMatchesGetLevel(p, cp);
    GetAqiToName(cp, Some(Thresholds(p)), names)
  }

  /** `getDescription(cp)`: the description of `getLevel` for a positive
      concentration, absent at zero. */
  function GetDescription(p: Pollutant, cp: Option<real>, descriptions: seq<string>): (r: Option<string>)
    ensures cp.Some? && cp.value > 0.0 ==> r == LevelEntry(GetLevel(p, cp), descriptions)
    ensures cp.None? || cp.value <= 0.0 ==> r.None?
  {
    GetAqiToLevelMatchesGetLevel(p, cp);
    GetAqiToDescription(cp, Some(Thresholds(p)), descriptions)
  }
}
