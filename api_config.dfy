/**
  `getApiBaseUrl`: where the frontend sends its backend requests. The
  environment variable and the browser's location are parameters; `None`
  stands for an unset variable and for running outside a browser.
*/
module ApiConfig {
  import opened Text
  import opened Wrappers

  /** The environment value counts when it is set and not blank. */
  predicate Usable(envBase: Option<string>) {
    envBase.Some? && Trim(envBase.value) != ""
  }

  /** The base URL: a usable environment value as it is, else the browser's host on port 8000, else localhost. */
  function GetApiBaseUrl(envBase: Option<string>, browserHostname: Option<string>): (url: string)
    ensures Usable(envBase) ==> url == envBase.value
    ensures !Usable(envBase) && browserHostname.Some? ==> url == "http://" + browserHostname.value + ":8000"
    ensures !Usable(envBase) && browserHostname.None? ==> url == "http://localhost:8000"
  {
    if Usable(envBase) then envBase.value
    else if browserHostname.Some? then "http://" + browserHostname.value + ":8000"
    else "http://localhost:8000"
  }

  /** A usable environment value is returned untrimmed, whatever the browser's host. */
  lemma EnvironmentWins(envBase: string, host1: Option<string>, host2: Option<string>)
    requires Trim(envBase) != ""
    ensures GetApiBaseUrl(Some(envBase), host1) == GetApiBaseUrl(Some(envBase), host2) == envBase
  {
  }

  /** A value of only spaces, tabs and line breaks is ignored, as if it were unset. */
  lemma BlankEnvironmentIgnored(envBase: string, host: Option<string>)
    requires forall i :: 0 <= i < |envBase| ==> IsWhitespace(envBase[i])
    ensures GetApiBaseUrl(Some(envBase), host) == GetApiBaseUrl(None, host)
  {
    TrimEmptyIffBlank(envBase);
  }

  /** A value with a visible character is used, surrounding whitespace included. */
  lemma VisibleEnvironmentUsed(envBase: string, host: Option<string>, k: int)
    requires 0 <= k < |envBase| && !IsWhitespace(envBase[k])
    ensures GetApiBaseUrl(Some(envBase), host) == envBase
  {
    TrimEmptyIffBlank(envBase);
  }

  /** Without a usable environment value, in a browser the URL is the page's host on port 8000. */
  lemma BrowserHostUrl(host: string)
    ensures var url := GetApiBaseUrl(None, Some(host));
      StartsWith(url, "http://") && EndsWith(url, ":8000") && url[7..|url| - 5] == host
  {
    var url := GetApiBaseUrl(None, Some(host));
    assert url[7..|url| - 5] == host;
  }
}
