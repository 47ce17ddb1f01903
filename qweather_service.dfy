/** The QWeather source's configuration and request guards
    (app/src/src_nonfreenet/org/breezyweather/sources/qweather/QWeatherService.kt):
    the stored API key and its built-in fallback, the language sent to
    the service, and the checks made before any request. The requests
    themselves are not modelled. */
module QWeatherServices {
  import opened Wrappers
  import opened Text

  /** The languages the service accepts. */
  const SupportedLanguages: set<string> := {
    "zh-hans", "zh", "zh-hant", "en", "de", "es", "fr", "it", "ja", "ko", "ru",
    "hi", "th", "ar", "pt", "bn", "ms", "nl", "el", "la", "sv", "id", "pl",
    "tr", "cs", "et", "vi", "fil", "fi", "he", "is", "nb"
  }

  /** `getLanguage`: the locale with its country when supported, else the
      bare language when supported, else traditional Chinese for "zh-tw",
      else English. */
  function Language(codeWithCountry: string, code: string): (r: string)
    ensures r in SupportedLanguages
    ensures codeWithCountry in SupportedLanguages ==> r == codeWithCountry
    ensures codeWithCountry !in SupportedLanguages && code in SupportedLanguages ==> r == code
    ensures codeWithCountry !in SupportedLanguages && code !in SupportedLanguages ==>
      r == (if code == "zh-tw" then "zh-hant" else "en")
  {
    if codeWithCountry in SupportedLanguages then codeWithCountry
    else if code in SupportedLanguages then code
    else if code == "zh-tw" then "zh-hant"
    else "en"
  }

  /** The result never differs from a supported locale the user chose. */
  lemma LanguageOfSupported(lang: string)
    requires lang in SupportedLanguages
    ensures Language(lang, lang) == lang
  {
  }

  /** "zh-tw" itself is not supported, so it is the only locale that falls
      back to traditional Chinese. */
  lemma LanguageOfTaiwan()
    ensures Language("zh-tw", "zh-tw") == "zh-hant"
  {
  }

  /** Why a request is refused before it is sent. */
  datatype RequestError = ApiKeyMissing | InvalidLocation

  class QWeatherService {
    /** The "apikey" entry of the source's configuration store; None when it
      was never written. */
    var storedKey: Option<string>
    /** The key built into the app (`BuildConfig.QWEATHER_KEY`). */
    const defaultKey: string

    constructor(stored: Option<string>, builtIn: string)
      ensures storedKey == stored && defaultKey == builtIn
    {
      storedKey := stored;
      defaultKey := builtIn;
    }

    /** The `apikey` property as read: the stored value, "" when absent. */
    function ApiKey(): (r: string)
      reads this
      ensures storedKey.None? ==> r == ""
      ensures storedKey.Some? ==> r == storedKey.value
    {
      storedKey.GetOr("")
    }

    /** The `apikey` property as written: the value is stored, and reads
      give it back. */
    method SetApiKey(value: string)
      modifies this
      ensures storedKey == Some(value)
      ensures ApiKey() == value
      ensures value != "" ==> ApiKeyOrDefault() == value && !IsRestricted()
    {
      storedKey := Some(value);
    }

    /** `getApiKeyOrDefault`: the user's key, or the built-in one when the
      user's is empty. */
    function ApiKeyOrDefault(): (r: string)
      reads this
      ensures ApiKey() != "" ==> r == ApiKey()
      ensures ApiKey() == "" ==> r == defaultKey
      ensures r == "" <==> ApiKey() == "" && defaultKey == ""
    {
      if ApiKey() == "" then defaultKey else ApiKey()
    }

    /** `isConfigured`: some key, the user's or the built-in one, is
      available. */
    function IsConfigured(): (r: bool)
      reads this
      ensures r <==> ApiKeyOrDefault() != ""
      ensures r <==> (ApiKey() != "" || defaultKey != "")
    {
      ApiKeyOrDefault() != ""
    }

    /** `isRestricted`: the user has not given a key of their own. */
    function IsRestricted(): (r: bool)
      reads this
      ensures r <==> ApiKey() == ""
      ensures r && IsConfigured() ==> ApiKeyOrDefault() == defaultKey
    {
      ApiKey() == ""
    }

    /** The guards `requestWeather` and `requestSecondaryWeather` run before
      any request: a missing key first, then a missing or empty city id;
      otherwise the key and the language the request is sent with. */
    function PrepareRequest(cityId: Option<string>, codeWithCountry: string, code: string)
      : (r: Result<(string, string), RequestError>)
      reads this
      ensures r == Failure(ApiKeyMissing) <==> !IsConfigured()
      ensures r == Failure(InvalidLocation) <==> IsConfigured() && IsNullOrEmpty(cityId)
      ensures r.Success? ==> r.value.0 == ApiKeyOrDefault() && r.value.0 != ""
      ensures r.Success? ==> r.value.1 == Language(codeWithCountry, code)
    {
      if !IsConfigured() then Failure(ApiKeyMissing)
      else if IsNullOrEmpty(cityId) then Failure(InvalidLocation)
      else Success((ApiKeyOrDefault(), Language(codeWithCountry, code)))
    }
  }

  /** Once a non-empty key of the user's is stored, the source is
      configured and unrestricted, and requests for a known city use that
      key rather than the built-in one. */
  lemma StoredKeyIsUsed(svc: QWeatherService, cityId: string, codeWithCountry: string, code: string)
    requires svc.storedKey.Some? && svc.storedKey.value != "" && cityId != ""
    ensures svc.IsConfigured() && !svc.IsRestricted()
    ensures svc.PrepareRequest(Some(cityId), codeWithCountry, code)
      == Success((svc.storedKey.value, Language(codeWithCountry, code)))
  {
  }
}
