/** Selection of the server's base URL from the build environment, and the joining of
    endpoint paths onto it. */
module Config {
  import opened Wrappers
  import opened Text

  const LocalUrl: string := "http://192.168.1.5:5000"
  const DevelopmentUrl: string := "https://stockit-i82e.onrender.com"
  const ProductionUrl: string := "https://stockit-i82e.onrender.com"

  /** The global __DEV__ as the bundler provides it: possibly not defined at all. */
  datatype DevFlag = Undefined | Defined(value: bool)

  /** typeof __DEV__ !== 'undefined' && __DEV__ */
  predicate IsDevBuild(flag: DevFlag) {
    flag.Defined? && flag.value
  }

  /** The table of named environments. */
  function EnvironmentUrl(name: string): Option<string> {
    if name == "local" then Some(LocalUrl)
    else if name == "development" then Some(DevelopmentUrl)
    else if name == "production" then Some(ProductionUrl)
    else None
  }

  /** getCurrentEnvironment: the name of the environment the build runs in. */
  function CurrentEnvironment(flag: DevFlag): (name: string)
    ensures name == "development" || name == "production"
    ensures name == "development" <==> IsDevBuild(flag)
  {
    if IsDevBuild(flag) then "development" else "production"
  }

  /** config.API_URL: the development server in a development build, production otherwise. */
  function ApiUrl(flag: DevFlag): string {
    if IsDevBuild(flag) then DevelopmentUrl else ProductionUrl
  }

  /** The base URL is the URL of the environment getCurrentEnvironment reports. */
  lemma ApiUrlMatchesEnvironment(flag: DevFlag)
    ensures EnvironmentUrl(CurrentEnvironment(flag)) == Some(ApiUrl(flag))
  {
  }

  /** getApiUrl: the endpoint after the base URL, separated by exactly the endpoint's own
      leading '/' or, when it has none, by one inserted '/'. */
  function JoinUrl(base: string, endpoint: string): (url: string)
    ensures StartsWith(url, base)
    ensures |url| > |base| && url[|base|] == '/'
    ensures StartsWith(endpoint, "/") ==> url == base + endpoint
    ensures !StartsWith(endpoint, "/") ==> url == base + "/" + endpoint
  {
    base + (if StartsWith(endpoint, "/") then "" else "/") + endpoint
  }

  /** getApiUrl with the configured base URL: every URL the app builds starts with it. */
  function GetApiUrl(flag: DevFlag, endpoint: string): (url: string)
    ensures StartsWith(url, ApiUrl(flag))
  {
    JoinUrl(ApiUrl(flag), endpoint)
  }

  /** A path with and without its leading '/' yields the same URL. */
  lemma JoinUrlLeadingSlash(base: string, path: string)
    requires !StartsWith(path, "/")
    ensures JoinUrl(base, "/" + path) == JoinUrl(base, path)
  {
    assert ("/" + path)[..1] == "/";
  }
}
