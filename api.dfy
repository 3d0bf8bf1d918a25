/** The HTTP client's authorization header (`lib/api.ts`): the two values
    read from local storage are parameters, `null` being `None`. */
module Api {
  import opened JsStrings

  /** What `getAuthBearer` returns: a header string, or `{}`. */
  datatype Authorization = Bearer(text: string) | EmptyObject

  /** `getAuthBearer`: the access token wins over the API key; a value
      that is absent or empty is skipped. */
  function GetAuthBearer(accessToken: Option<string>, apiKey: Option<string>): (a: Authorization)
    ensures TruthyText(accessToken) ==> a == Bearer("Bearer " + accessToken.value)
    ensures !TruthyText(accessToken) && TruthyText(apiKey) ==> a == Bearer("Bearer " + apiKey.value)
    ensures a.EmptyObject? <==> !TruthyText(accessToken) && !TruthyText(apiKey)
  {
    if TruthyText(accessToken) then Bearer("Bearer " + accessToken.value)
    else if TruthyText(apiKey) then Bearer("Bearer " + apiKey.value)
    else EmptyObject
  }

  /** The API key matters only when there is no usable access token: with
      one, any key gives the same header; without one, the header carries
      the key. */
  lemma ApiKeyOnlyAsFallback(accessToken: Option<string>, k1: Option<string>, k2: Option<string>)
    ensures TruthyText(accessToken) ==> GetAuthBearer(accessToken, k1) == GetAuthBearer(accessToken, k2)
    ensures GetAuthBearer(None, k1) == GetAuthBearer(Some(""), k1)
    ensures GetAuthBearer(None, k1) == (if TruthyText(k1) then Bearer("Bearer " + k1.value) else EmptyObject)
  {
  }

  /** A header string always carries the "Bearer " prefix and a non-empty
      credential. */
  lemma BearerHasCredential(accessToken: Option<string>, apiKey: Option<string>)
    ensures GetAuthBearer(accessToken, apiKey).Bearer? ==>
      |GetAuthBearer(accessToken, apiKey).text| > 7
      && GetAuthBearer(accessToken, apiKey).text[..7] == "Bearer "
  {
  }
}
