/**
 * Process configuration read once at start-up: the OAuth client id and
 * secret are required (absent or empty is fatal), the API base URL defaults
 * to the public Equinix API, and the token and refresh endpoints hang off it.
 * The environment lookups themselves are the parameters.
 */
module Config {
  import opened Wrappers

  const DefaultBaseUrl := "https://api.equinix.com"
  const TokenPath := "/oauth2/v1/token"
  const RefreshPath := "/oauth2/v1/refreshaccesstoken"
  const MissingCredentials :=
    "EQUINIX_CLIENT_ID and EQUINIX_CLIENT_SECRET environment variables are required. "
    + "Obtain these from Equinix Customer Portal: Developer Settings > Apps"

  datatype Settings = Settings(
    clientId: string,
    clientSecret: string,
    baseUrl: string,
    tokenEndpoint: string,
    refreshEndpoint: string)

  /**
   * Start-up configuration from the values of EQUINIX_CLIENT_ID,
   * EQUINIX_CLIENT_SECRET and EQUINIX_API_URL (None when unset). An unset
   * EQUINIX_API_URL takes the default; one set to "" stays "".
   */
  function Load(clientId: Option<string>, clientSecret: Option<string>, apiUrl: Option<string>)
    : (r: Result<Settings, string>)
    ensures r.Success? <==> Truthy(clientId) && Truthy(clientSecret)
    ensures r.Failure? ==> r.error == MissingCredentials
    ensures r.Success? ==>
      && r.value.clientId == clientId.value && r.value.clientSecret == clientSecret.value
      && r.value.clientId != "" && r.value.clientSecret != ""
      && (apiUrl.Some? ==> r.value.baseUrl == apiUrl.value)
      && (apiUrl.None? ==> r.value.baseUrl == DefaultBaseUrl)
      && r.value.tokenEndpoint == r.value.baseUrl + TokenPath
      && r.value.refreshEndpoint == r.value.baseUrl + RefreshPath
  {
    var baseUrl := if apiUrl.Some? then apiUrl.value else DefaultBaseUrl;
    if !Truthy(clientId) || !Truthy(clientSecret) then Failure(MissingCredentials)
    else Success(Settings(clientId.value, clientSecret.value, baseUrl, baseUrl + TokenPath, baseUrl + RefreshPath))
  }
}
