/**
 * The client's API base URL: the first defined of two environment
 * variables, else a relative path in production, else the local server.
 * An environment variable is `None` when undefined; a defined one may be
 * the empty string, which still wins.
 */
module ClientConfig {
  import opened Wrappers

  const ProductionUrl := "/api"
  const DevelopmentUrl := "http://localhost:8080"

  /** `getApiUrl` over `REACT_APP_API_URL`, `REACT_APP_API_BASE_URL` and `NODE_ENV`. */
  function GetApiUrl(apiUrl: Option<string>, apiBaseUrl: Option<string>, nodeEnv: Option<string>): (url: string)
    ensures apiUrl.Some? ==> url == apiUrl.value
    ensures apiUrl.None? && apiBaseUrl.Some? ==> url == apiBaseUrl.value
    ensures apiUrl.None? && apiBaseUrl.None? && nodeEnv == Some("production") ==> url == ProductionUrl
    ensures apiUrl.None? && apiBaseUrl.None? && nodeEnv != Some("production") ==> url == DevelopmentUrl
  {
    if apiUrl.Some? then apiUrl.value
    else if apiBaseUrl.Some? then apiBaseUrl.value
    else if nodeEnv == Some("production") then ProductionUrl
    else DevelopmentUrl
  }

  /** `NODE_ENV` is consulted only when neither URL variable is defined. */
  lemma NodeEnvOnlyAsFallback(apiUrl: Option<string>, apiBaseUrl: Option<string>, env1: Option<string>, env2: Option<string>)
    requires apiUrl.Some? || apiBaseUrl.Some?
    ensures GetApiUrl(apiUrl, apiBaseUrl, env1) == GetApiUrl(apiUrl, apiBaseUrl, env2)
  {
  }

  /** A defined but empty `REACT_APP_API_URL` yields the empty (relative) base URL, whatever else is set. */
  lemma EmptyApiUrlWins(apiBaseUrl: Option<string>, nodeEnv: Option<string>)
    ensures GetApiUrl(Some(""), apiBaseUrl, nodeEnv) == ""
  {
  }

  /** The result is a defined variable's value or one of the two fixed URLs. */
  lemma ResultSources(apiUrl: Option<string>, apiBaseUrl: Option<string>, nodeEnv: Option<string>)
    ensures var url := GetApiUrl(apiUrl, apiBaseUrl, nodeEnv);
      apiUrl == Some(url) || apiBaseUrl == Some(url) || url == ProductionUrl || url == DevelopmentUrl
  {
  }
}
