/** The two URL helpers of the application configuration: a base string joined
    with a path so that exactly one `/` separates them in the usual case. The base
    strings come from the environment; here they are parameters, with the
    configuration's fallbacks as constants. */
module UrlConfig {
  import opened Common
  import opened Text

  const DefaultBaseUrl: string := "http://localhost:3001"
  const DefaultApiUrl: string := "/api"

  /** `process.env.X || fallback`: an unset or empty variable gives the fallback. */
  function Configured(env: Option<string>, fallback: string): (v: string)
    ensures Present(env) ==> v == env.value
    ensures !Present(env) ==> v == fallback
  {
    if Present(env) then env.value else fallback
  }

  predicate EndsWithSlash(s: string) { |s| > 0 && s[|s| - 1] == '/' }
  predicate StartsWithSlash(s: string) { |s| > 0 && s[0] == '/' }

  /** The base with one trailing `/` removed, if it has one. */
  function StripTrailingSlash(base: string): (b: string)
    ensures EndsWithSlash(base) ==> b + "/" == base
    ensures !EndsWithSlash(base) ==> b == base
  {
    if EndsWithSlash(base) then base[..|base| - 1] else base
  }

  /** The path, with a `/` put in front unless it already starts with one. */
  function CleanPath(path: string): (p: string)
    ensures StartsWithSlash(p)
    ensures StartsWithSlash(path) ==> p == path
    ensures !StartsWithSlash(path) ==> p == "/" + path
  {
    if StartsWithSlash(path) then path else "/" + path
  }

  /** The join both helpers perform: the stripped base, then the cleaned path. */
  function Join(base: string, path: string): string {
    StripTrailingSlash(base) + CleanPath(path)
  }

  /** The laws of a join: the result starts with the base less at most one
      trailing `/`, the path that follows starts with `/`, and the lengths add up. */
  predicate JoinLaws(base: string, path: string, url: string) {
    && IsPrefix(StripTrailingSlash(base), url)
    && StartsWithSlash(url[|StripTrailingSlash(base)|..])
    && |url| == |base| - (if EndsWithSlash(base) then 1 else 0)
                + |path| + (if StartsWithSlash(path) then 0 else 1)
  }

  lemma JoinObeysLaws(base: string, path: string)
    ensures JoinLaws(base, path, Join(base, path))
  {
    var b := StripTrailingSlash(base);
    var url := Join(base, path);
    assert url[..|b|] == b;
    assert url[|b|..] == CleanPath(path);
  }

  /** `getFullUrl(path)` over the configured base URL. */
  function GetFullUrl(baseUrl: string, path: string): (url: string)
    ensures JoinLaws(baseUrl, path, url)
    ensures url[|StripTrailingSlash(baseUrl)|..] == CleanPath(path)
  {
    JoinObeysLaws(baseUrl, path);
    Join(baseUrl, path)
  }

  /** `getApiUrl(endpoint)` over the configured API base. */
  function GetApiUrl(apiUrl: string, endpoint: string): (url: string)
    ensures JoinLaws(apiUrl, endpoint, url)
    ensures url[|StripTrailingSlash(apiUrl)|..] == CleanPath(endpoint)
  {
    JoinObeysLaws(apiUrl, endpoint);
    Join(apiUrl, endpoint)
  }

  /** The base is kept whole when it does not end in `/`, and a path that starts
      with `/` is kept unchanged. */
  lemma JoinKeepsSlashedPath(base: string, path: string)
    requires !EndsWithSlash(base) && StartsWithSlash(path)
    ensures GetFullUrl(base, path) == base + path
  {
  }

  /** Only one trailing slash is removed: `a//` joined with `x` gives `a//x`. */
  lemma OnlyOneSlashStripped()
    ensures GetFullUrl("a//", "x") == "a//x"
  {
    assert StripTrailingSlash("a//") == "a/";
    assert CleanPath("x") == "/x";
    assert "a/" + "/x" == "a//x";
  }

  /** The default empty path gives the stripped base followed by `/`. */
  lemma EmptyPathGivesSlash(base: string)
    ensures GetFullUrl(base, "") == StripTrailingSlash(base) + "/"
  {
  }

  /** With no API base configured, `getApiUrl("packages")` is `/api/packages`. */
  lemma DefaultApiUrlExample()
    ensures GetApiUrl(Configured(None, DefaultApiUrl), "packages") == "/api/packages"
  {
    assert StripTrailingSlash("/api") == "/api";
    assert CleanPath("packages") == "/packages";
    assert "/api" + "/packages" == "/api/packages";
  }
}
