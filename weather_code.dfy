/** The shared weather condition enumeration of the domain model and its
    name-based lookup (domain/.../weather/model/WeatherCode.kt). */
module WeatherCodes {
  import opened Wrappers
  import opened Text

  /** The 22 weather codes, in declaration order. */
  datatype WeatherCode =
    | Clear | PartlyCloudy | Cloudy
    | Rain | ShoweryRain | LightRain | ModerateRain | HeavyRain | Rainstorm
    | Snow | ShowerySnow | LightSnow | ModerateSnow | HeavySnow | Snowstorm
    | Wind | Fog | Haze | Sleet | Hail | Thunder | Thunderstorm

  /** The `id` each entry carries. */
  function Id(c: WeatherCode): string {
    match c
    case Clear => "clear"
    case PartlyCloudy => "partly_cloudy"
    case Cloudy => "cloudy"
    case Rain => "rain"
    case ShoweryRain => "showery_rain"
    case LightRain => "light_rain"
    case ModerateRain => "moderate_rain"
    case HeavyRain => "heavy_rain"
    case Rainstorm => "rainstorm"
    case Snow => "snow"
    case ShowerySnow => "showery_snow"
    case LightSnow => "light_snow"
    case ModerateSnow => "moderate_snow"
    case HeavySnow => "heavy_snow"
    case Snowstorm => "snowstorm"
    case Wind => "wind"
    case Fog => "fog"
    case Haze => "haze"
    case Sleet => "sleet"
    case Hail => "hail"
    case Thunder => "thunder"
    case Thunderstorm => "thunderstorm"
  }

  /** `WeatherCode.entries`, in declaration order. */
  const Entries: seq<WeatherCode> := [
    Clear, PartlyCloudy, Cloudy,
    Rain, ShoweryRain, LightRain, ModerateRain, HeavyRain, Rainstorm,
    Snow, ShowerySnow, LightSnow, ModerateSnow, HeavySnow, Snowstorm,
    Wind, Fog, Haze, Sleet, Hail, Thunder, Thunderstorm
  ]

  /** An independent decoder from an exact (lower-case) id back to its entry;
      it is the reference against which the search below is proved. */
  function CodeOfId(s: string): (r: Option<WeatherCode>) {
    match s
    case "clear" => Some(Clear)
    case "partly_cloudy" => Some(PartlyCloudy)
    case "cloudy" => Some(Cloudy)
    case "rain" => Some(Rain)
    case "showery_rain" => Some(ShoweryRain)
    case "light_rain" => Some(LightRain)
    case "moderate_rain" => Some(ModerateRain)
    case "heavy_rain" => Some(HeavyRain)
    case "rainstorm" => Some(Rainstorm)
    case "snow" => Some(Snow)
    case "showery_snow" => Some(ShowerySnow)
    case "light_snow" => Some(LightSnow)
    case "moderate_snow" => Some(ModerateSnow)
    case "heavy_snow" => Some(HeavySnow)
    case "snowstorm" => Some(Snowstorm)
    case "wind" => Some(Wind)
    case "fog" => Some(Fog)
    case "haze" => Some(Haze)
    case "sleet" => Some(Sleet)
    case "hail" => Some(Hail)
    case "thunder" => Some(Thunder)
    case "thunderstorm" => Some(Thunderstorm)
    case _ => None
  }

  /** Every entry is listed in `Entries`. */
  lemma EntryListed(c: WeatherCode)
    ensures c in Entries
  {
  }

  /** Every id decodes back to its entry. */
  lemma IdDecodes(c: WeatherCode)
    ensures CodeOfId(Id(c)) == Some(c)
  {
  }

  /** Ids are written in lower case. */
  lemma IdIsLowerCase(c: WeatherCode)
    ensures Lower(Id(c)) == Id(c)
  {
    if c.Rain? || c.ShoweryRain? || c.LightRain? || c.ModerateRain? || c.HeavyRain? || c.Rainstorm? {
      RainIdIsLowerCase(c);
    } else if c.Snow? || c.ShowerySnow? || c.LightSnow? || c.ModerateSnow? || c.HeavySnow? || c.Snowstorm? {
      SnowIdIsLowerCase(c);
    } else {
      OtherIdIsLowerCase(c);
    }
  }

  lemma RainIdIsLowerCase(c: WeatherCode)
    requires c.Rain? || c.ShoweryRain? || c.LightRain? || c.ModerateRain? || c.HeavyRain? || c.Rainstorm?
    ensures Lower(Id(c)) == Id(c)
  {
    LowerOfNoCapitals(Id(c));
  }

  lemma SnowIdIsLowerCase(c: WeatherCode)
    requires c.Snow? || c.ShowerySnow? || c.LightSnow? || c.ModerateSnow? || c.HeavySnow? || c.Snowstorm?
    ensures Lower(Id(c)) == Id(c)
  {
    LowerOfNoCapitals(Id(c));
  }

  lemma OtherIdIsLowerCase(c: WeatherCode)
    requires !(c.Rain? || c.ShoweryRain? || c.LightRain? || c.ModerateRain? || c.HeavyRain? || c.Rainstorm?)
    requires !(c.Snow? || c.ShowerySnow? || c.LightSnow? || c.ModerateSnow? || c.HeavySnow? || c.Snowstorm?)
    ensures Lower(Id(c)) == Id(c)
  {
    LowerOfNoCapitals(Id(c));
  }

  /** The 22 ids are pairwise distinct. */
  lemma IdInjective(a: WeatherCode, b: WeatherCode)
    ensures Id(a) == Id(b) ==> a == b
  {
    IdDecodes(a);
    IdDecodes(b);
  }

  /** `entries.firstOrNull { it.id.equals(value, ignoreCase = true) }` over
      a suffix of the entries. */
  function FirstMatching(cs: seq<WeatherCode>, value: string): (r: Option<WeatherCode>)
    ensures r.Some? ==> r.value in cs && EqualsIgnoreCase(Id(r.value), value)
    ensures r.None? <==> forall i :: 0 <= i < |cs| ==> !EqualsIgnoreCase(Id(cs[i]), value)
    ensures r.Some? ==> exists k :: 0 <= k < |cs| && cs[k] == r.value &&
                                   forall j :: 0 <= j < k ==> !EqualsIgnoreCase(Id(cs[j]), value)
  {
    if cs == [] then None
    else if EqualsIgnoreCase(Id(cs[0]), value) then Some(cs[0])
    else
      var r := FirstMatching(cs[1..], value);
      assert r.Some? ==> exists k :: 1 <= k < |cs| && cs[k] == r.value &&
                                    forall j :: 1 <= j < k ==> !EqualsIgnoreCase(Id(cs[j]), value) by {
        if r.Some? {
          var k :| 0 <= k < |cs[1..]| && cs[1..][k] == r.value &&
            forall j :: 0 <= j < k ==> !EqualsIgnoreCase(Id(cs[1..][j]), value);
          assert cs[k + 1] == r.value;
          forall j | 1 <= j < k + 1 ensures !EqualsIgnoreCase(Id(cs[j]), value) {
            assert cs[j] == cs[1..][j - 1];
          }
        }
      }
      r
  }

  /** `WeatherCode.getInstance(value)`: a null value matches nothing. */
  function GetInstance(value: Option<string>): (r: Option<WeatherCode>)
    ensures value.None? ==> r.None?
  {
    match value
    case None => None
    case Some(v) => FirstMatching(Entries, v)
  }

  /** An entry matches a value, ignoring case, exactly when its id is the
      lower-cased value. */
  lemma MatchesIffLowerIsId(c: WeatherCode, v: string)
    ensures EqualsIgnoreCase(Id(c), v) <==> Id(c) == Lower(v)
  {
    IdIsLowerCase(c);
    EqualsIgnoreCaseIsLowerEquality(Id(c), v);
  }

  /** The search agrees with the decoder applied to the lower-cased value:
      the first match ignoring case is the one entry whose id is that value. */
  lemma GetInstanceIsDecode(v: string)
    ensures GetInstance(Some(v)) == CodeOfId(Lower(v))
  {
    var r := FirstMatching(Entries, v);
    if r.Some? {
      MatchesIffLowerIsId(r.value, v);
      IdDecodes(r.value);
    } else {
      var d := CodeOfId(Lower(v));
      if d.Some? {
        DecodedHasId(Lower(v));
        EntryListed(d.value);
        MatchesIffLowerIsId(d.value, v);
        assert false;
      }
    }
  }

  /** What the decoder returns carries exactly the decoded string as id. */
  lemma DecodedHasId(s: string)
    ensures CodeOfId(s).Some? ==> Id(CodeOfId(s).value) == s
  {
  }

  /** `getInstance(c.id) == c` for every entry. */
  lemma GetInstanceOfId(c: WeatherCode)
    ensures GetInstance(Some(Id(c))) == Some(c)
  {
    GetInstanceIsDecode(Id(c));
    IdIsLowerCase(c);
    IdDecodes(c);
  }

  /** Case is ignored: the upper-cased id finds the same entry. */
  lemma GetInstanceOfUpperId(c: WeatherCode)
    ensures GetInstance(Some(Upper(Id(c)))) == Some(c)
  {
    GetInstanceIsDecode(Upper(Id(c)));
    LowerOfUpper(Id(c));
    IdIsLowerCase(c);
    IdDecodes(c);
  }

  /** A value that is no id up to case finds nothing. */
  lemma GetInstanceOfUnknown(v: string)
    requires forall c: WeatherCode :: !EqualsIgnoreCase(Id(c), v)
    ensures GetInstance(Some(v)) == None
  {
  }
}
