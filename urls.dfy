/** `buildUrl`: joining the configured base URL and an endpoint path. */
module Urls {

  predicate EndsWithSlash(s: string) { s != [] && s[|s| - 1] == '/' }

  predicate StartsWithSlash(s: string) { s != [] && s[0] == '/' }

  /** The base with one trailing '/' removed, if it has one. */
  function WithoutTrailingSlash(baseUrl: string): (r: string)
    ensures EndsWithSlash(baseUrl) ==> r + "/" == baseUrl
    ensures !EndsWithSlash(baseUrl) ==> r == baseUrl
  {
    if EndsWithSlash(baseUrl) then baseUrl[..|baseUrl| - 1] else baseUrl
  }

  /** The path with a '/' in front unless it already starts with one. */
  function WithLeadingSlash(path: string): (r: string)
    ensures StartsWithSlash(r)
    ensures StartsWithSlash(path) ==> r == path
    ensures !StartsWithSlash(path) ==> r == "/" + path
  {
    if StartsWithSlash(path) then path else "/" + path
  }

  /** An empty base gives the path as it is; otherwise base and path meet at a '/'. */
  function BuildUrl(baseUrl: string, path: string): (r: string)
    ensures baseUrl == [] ==> r == path
    ensures baseUrl != [] ==>
              |r| > |WithoutTrailingSlash(baseUrl)|
              && r[..|WithoutTrailingSlash(baseUrl)|] == WithoutTrailingSlash(baseUrl)
              && r[|WithoutTrailingSlash(baseUrl)|] == '/'
              && r[|WithoutTrailingSlash(baseUrl)|..] == WithLeadingSlash(path)
  {
    if baseUrl == [] then path
    else
      var b := WithoutTrailingSlash(baseUrl);
      assert (b + WithLeadingSlash(path))[..|b|] == b;
      b + WithLeadingSlash(path)
  }

  /**
   * With a non-empty base `b` that does not end in '/' and a path `p` that
   * does not start with one, all four ways of writing the slash give `b/p`.
   */
  lemma {:induction false} BuildUrlSlashPlacement(b: string, p: string)
    requires b != [] && !EndsWithSlash(b) && !StartsWithSlash(p)
    ensures BuildUrl(b, p) == b + "/" + p
    ensures BuildUrl(b + "/", p) == b + "/" + p
    ensures BuildUrl(b, "/" + p) == b + "/" + p
    ensures BuildUrl(b + "/", "/" + p) == b + "/" + p
  {
    assert (b + "/")[..|b + "/"| - 1] == b;
  }

  /** Only one trailing '/' is removed and a leading '/' is never doubled. */
  lemma BuildUrlExamples()
    ensures BuildUrl("", "/solar/overview") == "/solar/overview"
    ensures BuildUrl("", "solar") == "solar"
    ensures BuildUrl("https://api.example", "solar/energy") == "https://api.example/solar/energy"
    ensures BuildUrl("https://api.example/", "/solar/energy") == "https://api.example/solar/energy"
    ensures BuildUrl("https://api.example//", "/x") == "https://api.example//x"
  {
    BuildUrlSlashPlacement("https://api.example", "solar/energy");
    assert WithoutTrailingSlash("https://api.example//") == "https://api.example/";
  }
}
