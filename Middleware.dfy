/**
 * `CountryLanguageMiddleware` (o18n/middleware.py).
 *
 * Request phase: activate the resolved country (or the default one) and the
 * language code, and record the resolved triple on the request.
 * Response phase: on a 404, either redirect to the path with the country
 * inserted after the script prefix (branch A), or redirect a bare
 * `/<country>` to `/<country>/` (branch B); otherwise patch the `Vary` and
 * `Content-Language` headers of the response in place.
 *
 * Everything the middleware learns from collaborators outside this model
 * (`util.get_country_language`, `get_country_from_path`,
 * `get_language_from_path`, `get_default_country`, `get_script_prefix`,
 * `settings.APPEND_SLASH`, `is_valid_path` for the request's urlconf and the
 * top-level `url_patterns` of that urlconf) is a parameter.
 */
module Middleware {
  import opened Wrappers
  import opened Text
  import Urls

  /** `util.get_country_language(request)`: country, language and language code. */
  datatype Resolved = Resolved(country: Option<string>, language: Option<string>, languageCode: string)

  /** What the response phase learns from its collaborators. */
  datatype Collaborators = Collaborators(
    resolved: Resolved,                // util.get_country_language(request)
    languageFromPath: Option<string>,  // translation.get_language_from_path(request.path_info)
    countryFromPath: Option<string>,   // util.get_country_from_path(request.path_info)
    defaultCountry: string,            // util.get_default_country()
    scriptPrefix: string,              // get_script_prefix()
    appendSlash: bool)                 // settings.APPEND_SLASH

  /**
   * The parts of the request URL the middleware reads: `path` is the full
   * path (script prefix included), `pathInfo` the part below the script
   * prefix, `queryString` the raw query.
   */
  datatype RequestUrl = RequestUrl(path: string, pathInfo: string, queryString: string)

  class Request {
    const url: RequestUrl
    /** `request.COUNTRY`, `request.LANGUAGE`, `request.LANGUAGE_CODE`; absent until the request phase. */
    var locale: Option<Resolved>

    constructor (url: RequestUrl)
      ensures this.url == url && locale == None
    {
      this.url := url;
      locale := None;
    }
  }

  /** The per-request active locale behind `country.activate` and `translation.activate`. */
  class ActiveLocale {
    var country: string
    var languageCode: string

    constructor (country: string, languageCode: string)
      ensures this.country == country && this.languageCode == languageCode
    {
      this.country := country;
      this.languageCode := languageCode;
    }
  }

  /**
   * A response: its status, its headers other than `Vary`, and the field
   * names listed by its `Vary` header.
   */
  class HttpResponse {
    var statusCode: int
    var headers: map<string, string>
    var vary: seq<string>

    /** `Vary` lives in `vary` only, so a response carries one `Vary` header, as Django's do. */
    ghost predicate Valid()
      reads this
    {
      "Vary" !in headers
    }

    constructor (statusCode: int, headers: map<string, string>, vary: seq<string>)
      requires "Vary" !in headers
      ensures Valid()
      ensures this.statusCode == statusCode && this.headers == headers && this.vary == vary
    {
      this.statusCode := statusCode;
      this.headers := headers;
      this.vary := vary;
    }

    /** `HttpResponseRedirect(location)`: a 302 carrying `Location`. */
    constructor Redirect(location: string)
      ensures Valid()
      ensures statusCode == 302 && headers == map["Location" := location] && vary == []
    {
      statusCode := 302;
      headers := map["Location" := location];
      vary := [];
    }
  }

  /** The country `process_request` activates: the default one exactly when none was resolved (`is None`). */
  function ActivatedCountry(country: Option<string>, defaultCountry: string): string
  {
    if country.None? then defaultCountry else country.value
  }

  /** `process_request` */
  method ProcessRequest(request: Request, active: ActiveLocale, resolved: Resolved, defaultCountry: string)
    modifies request, active
    ensures active.country == ActivatedCountry(resolved.country, defaultCountry)
    ensures active.languageCode == resolved.languageCode
    ensures request.locale == Some(resolved)
  {
    if resolved.country.None? {
      active.country := defaultCountry;
    } else {
      active.country := resolved.country.value;
    }
    active.languageCode := resolved.languageCode;
    request.locale := Some(resolved);
  }

  /**
   * The request phase activates the resolved country whenever one was
   * resolved, even the empty code; the redirect of the response phase
   * (`country or default`) falls back to the default for the empty code too.
   * The two choices differ only on the empty code.
   */
  lemma ActivatedCountryVersusRedirectCountry(country: Option<string>, defaultCountry: string)
    ensures country.None? ==> ActivatedCountry(country, defaultCountry) == defaultCountry
    ensures country.Some? ==> ActivatedCountry(country, defaultCountry) == country.value
    ensures ActivatedCountry(country, defaultCountry) != Or(country, defaultCountry) <==>
      country == Some("") && defaultCountry != ""
  {
  }

  /**
   * `request.get_full_path(force_append_slash)` as Django defines it: the
   * path, a slash when forced and missing, then `?` and the query if any.
   */
  function FullPath(url: RequestUrl, forceAppendSlash: bool): (fullPath: string)
    ensures url.path <= fullPath
    ensures forceAppendSlash && url.queryString == "" ==> EndsWithSlash(fullPath)
    ensures !forceAppendSlash && url.queryString == "" ==> fullPath == url.path
  {
    url.path
    + (if forceAppendSlash && !EndsWithSlash(url.path) then "/" else "")
    + (if url.queryString == "" then "" else "?" + url.queryString)
  }

  /** `country_path`: the path below the script prefix with the country (or the default one) in front. */
  function CountryPath(url: RequestUrl, env: Collaborators): string
  {
    "/" + Or(env.resolved.country, env.defaultCountry) + url.pathInfo
  }

  /**
   * `path_needs_slash`: the country path itself is not valid, but with a
   * slash appended (under `APPEND_SLASH`, when it lacks one) it is.
   */
  function PathNeedsSlash(url: RequestUrl, env: Collaborators, isValidPath: string -> bool): (needsSlash: bool)
    ensures needsSlash ==> !isValidPath(CountryPath(url, env))
    ensures needsSlash ==> isValidPath(CountryPath(url, env) + "/")
    ensures needsSlash ==> env.appendSlash && !EndsWithSlash(CountryPath(url, env))
  {
    var countryPath := CountryPath(url, env);
    !isValidPath(countryPath)
    && (env.appendSlash && !EndsWithSlash(countryPath) && isValidPath(countryPath + "/"))
  }

  /** Branch A is entered: a 404 with no country in the path while prefixed country patterns are in use. */
  predicate AddsCountry(status: int, env: Collaborators, patternsUsed: bool, prefixedDefaultCountry: bool)
  {
    status == 404 && !Truthy(env.countryFromPath) && patternsUsed && prefixedDefaultCountry
  }

  /** Branch B applies: a 404 for exactly `/<country>`, the country being the one in the path. */
  predicate BareCountryPath(url: RequestUrl, status: int, env: Collaborators)
  {
    status == 404 && Truthy(env.countryFromPath) && url.pathInfo == "/" + env.countryFromPath.value
  }

  /** What `process_response` does with the response. */
  datatype Decision = RedirectTo(location: string) | PatchHeaders

  /**
   * The redirect decision of `process_response`. As written, branch A
   * redirects whatever `is_valid_path` says (`path_valid = True` overrides
   * the check), and only the appended slash depends on validity.
   */
  function Decide(url: RequestUrl, env: Collaborators, isValidPath: string -> bool, status: int,
                  patternsUsed: bool, prefixedDefaultCountry: bool): (d: Decision)
    ensures status != 404 ==> d == PatchHeaders
    ensures AddsCountry(status, env, patternsUsed, prefixedDefaultCountry) ==>
      d.RedirectTo? &&
      d.location == ReplaceFirst(FullPath(url, PathNeedsSlash(url, env, isValidPath)), env.scriptPrefix,
                                 env.scriptPrefix + Or(env.resolved.country, env.defaultCountry) + "/")
    ensures BareCountryPath(url, status, env) ==> d == RedirectTo(url.pathInfo + "/")
    ensures d.RedirectTo? <==>
      AddsCountry(status, env, patternsUsed, prefixedDefaultCountry) || BareCountryPath(url, status, env)
  {
    if AddsCountry(status, env, patternsUsed, prefixedDefaultCountry) then
      var pathNeedsSlash := PathNeedsSlash(url, env, isValidPath);
      // the validity computed for `path_needs_slash` is then overwritten by `path_valid = True`
      var pathValid := true;
      if pathValid || pathNeedsSlash then
        var scriptPrefix := env.scriptPrefix;
        RedirectTo(ReplaceFirst(FullPath(url, pathNeedsSlash), scriptPrefix,
                                scriptPrefix + Or(env.resolved.country, env.defaultCountry) + "/"))
      else
        PatchHeaders
    else if status == 404 && Truthy(env.countryFromPath) then
      if url.pathInfo == "/" + env.countryFromPath.value then
        RedirectTo("/" + env.countryFromPath.value + "/")
      else
        PatchHeaders
    else
      PatchHeaders
  }

  /**
   * When the full path starts with the script prefix, branch A's target is
   * the script prefix, the country, a slash, and the rest of the full path.
   */
  lemma CountryFollowsScriptPrefix(url: RequestUrl, env: Collaborators, isValidPath: string -> bool,
                                   patternsUsed: bool, prefixedDefaultCountry: bool)
    requires AddsCountry(404, env, patternsUsed, prefixedDefaultCountry)
    requires env.scriptPrefix <= url.path
    ensures
      var fullPath := FullPath(url, PathNeedsSlash(url, env, isValidPath));
      Decide(url, env, isValidPath, 404, patternsUsed, prefixedDefaultCountry) ==
        RedirectTo(env.scriptPrefix + Or(env.resolved.country, env.defaultCountry) + "/" + fullPath[|env.scriptPrefix|..])
  {
    var fullPath := FullPath(url, PathNeedsSlash(url, env, isValidPath));
    var inserted := env.scriptPrefix + Or(env.resolved.country, env.defaultCountry) + "/";
    assert env.scriptPrefix <= fullPath;
    ReplaceFirstAtStart(fullPath, env.scriptPrefix, inserted);
  }

  /** As written, branch A redirects even when neither candidate path is valid. */
  lemma BranchAIgnoresValidity(url: RequestUrl, env: Collaborators, patternsUsed: bool, prefixedDefaultCountry: bool)
    requires AddsCountry(404, env, patternsUsed, prefixedDefaultCountry)
    ensures Decide(url, env, _ => false, 404, patternsUsed, prefixedDefaultCountry) ==
      RedirectTo(ReplaceFirst(FullPath(url, false), env.scriptPrefix,
                              env.scriptPrefix + Or(env.resolved.country, env.defaultCountry) + "/"))
  {
  }

  /** A valid country path is redirected to without a forced slash. */
  lemma ValidCountryPathGetsNoSlash(url: RequestUrl, env: Collaborators, isValidPath: string -> bool,
                                    patternsUsed: bool, prefixedDefaultCountry: bool)
    requires AddsCountry(404, env, patternsUsed, prefixedDefaultCountry)
    requires isValidPath(CountryPath(url, env))
    ensures Decide(url, env, isValidPath, 404, patternsUsed, prefixedDefaultCountry) ==
      RedirectTo(ReplaceFirst(FullPath(url, false), env.scriptPrefix,
                              env.scriptPrefix + Or(env.resolved.country, env.defaultCountry) + "/"))
  {
  }

  /** `Vary: Accept-Language` is added unless country patterns are used and the path names a language. */
  predicate VaryOnLanguage(env: Collaborators, patternsUsed: bool)
  {
    !(patternsUsed && Truthy(env.languageFromPath))
  }

  /** `patch_vary_headers(response, (field,))` on the list of `Vary` field names: append when missing. */
  function AddVary(vary: seq<string>, field: string): (r: seq<string>)
    ensures field in r
    ensures vary <= r && |r| <= |vary| + 1
    ensures field in vary ==> r == vary
    ensures forall f :: f in r ==> f in vary || f == field
  {
    if field in vary then vary else vary + [field]
  }

  /** `if key not in response: response[key] = value`: set a header only when absent. */
  function SetIfAbsent(headers: map<string, string>, key: string, value: string): (r: map<string, string>)
    ensures r.Keys == headers.Keys + {key}
    ensures key in headers ==> r == headers
    ensures key !in headers ==> r[key] == value
    ensures forall k :: k in headers ==> r[k] == headers[k]
  {
    if key in headers then headers else headers[key := value]
  }

  /** Patching twice gives what patching once gives. */
  lemma HeaderPatchingIsIdempotent(headers: map<string, string>, vary: seq<string>, language: string, other: string)
    ensures AddVary(AddVary(vary, "Accept-Language"), "Accept-Language") == AddVary(vary, "Accept-Language")
    ensures SetIfAbsent(SetIfAbsent(headers, "Content-Language", language), "Content-Language", other) ==
      SetIfAbsent(headers, "Content-Language", language)
  {
  }

  /**
   * `process_response`: redirects are new responses returned early, leaving
   * the given response untouched; otherwise the given response comes back
   * with `Vary` and `Content-Language` patched in place.
   */
  method ProcessResponse(request: Request, response: HttpResponse, env: Collaborators,
                         urlPatterns: seq<Urls.UrlEntry>, isValidPath: string -> bool)
    returns (out: HttpResponse)
    requires response.Valid()
    modifies response
    ensures out.Valid()
    ensures
      var (used, prefixed) := Urls.CountryPatternsUsed(urlPatterns);
      var d := Decide(request.url, env, isValidPath, old(response.statusCode), used, prefixed);
      && (d.RedirectTo? ==>
            fresh(out) && out.statusCode == 302 && out.headers == map["Location" := d.location] &&
            out.vary == [] && unchanged(response))
      && (d.PatchHeaders? ==>
            out == response && response.statusCode == old(response.statusCode) &&
            response.vary == (if VaryOnLanguage(env, used) then AddVary(old(response.vary), "Accept-Language")
                              else old(response.vary)) &&
            response.headers == SetIfAbsent(old(response.headers), "Content-Language", Render(env.resolved.language)))
  {
    var used, prefixed := Urls.IsCountryPrefixPatternsUsed(urlPatterns);
    var decision := Decide(request.url, env, isValidPath, response.statusCode, used, prefixed);
    if decision.RedirectTo? {
      out := new HttpResponse.Redirect(decision.location);
      return;
    }
    if VaryOnLanguage(env, used) {
      response.vary := AddVary(response.vary, "Accept-Language");
    }
    if "Content-Language" !in response.headers {
      response.headers := response.headers["Content-Language" := Render(env.resolved.language)];
    }
    out := response;
  }

  /**
   * A urlconf whose `url_patterns` come from `o18n_patterns` (and plain
   * routes) is not detected, so branch A never fires and `Vary` is always
   * patched on a non-redirect response.
   */
  lemma O18nTablesNeverAddCountry(urls: seq<Urls.UrlEntry>, prefixDefaultCountry: Option<bool>,
                                  rest: seq<Urls.UrlEntry>, status: int, env: Collaborators)
    requires forall i :: 0 <= i < |rest| ==> !rest[i].CountryLanguage?
    ensures
      var (used, prefixed) := Urls.CountryPatternsUsed(Urls.O18nPatterns(urls, prefixDefaultCountry) + rest);
      !AddsCountry(status, env, used, prefixed) && VaryOnLanguage(env, used)
  {
    Urls.O18nPatternsAreNotDetected(urls, prefixDefaultCountry, rest);
  }

  /**
   * An application at the root, a request without a resolved country or a
   * query, whose path lacks the country: the redirect goes to the default
   * country followed by the path, with the slash appended only when just the
   * slash-appended form is valid.
   */
  lemma DefaultCountryRedirect(url: RequestUrl, env: Collaborators, isValidPath: string -> bool,
                               patternsUsed: bool, prefixedDefaultCountry: bool)
    requires AddsCountry(404, env, patternsUsed, prefixedDefaultCountry)
    requires env.scriptPrefix == "/" && !Truthy(env.resolved.country)
    requires url.path == url.pathInfo && url.queryString == "" && "/" <= url.pathInfo
    ensures isValidPath("/" + env.defaultCountry + url.pathInfo) ==>
      Decide(url, env, isValidPath, 404, patternsUsed, prefixedDefaultCountry) ==
        RedirectTo("/" + env.defaultCountry + url.pathInfo)
    ensures PathNeedsSlash(url, env, isValidPath) ==>
      Decide(url, env, isValidPath, 404, patternsUsed, prefixedDefaultCountry) ==
        RedirectTo("/" + env.defaultCountry + url.pathInfo + "/")
  {
    var needsSlash := PathNeedsSlash(url, env, isValidPath);
    var fullPath := FullPath(url, needsSlash);
    CountryFollowsScriptPrefix(url, env, isValidPath, patternsUsed, prefixedDefaultCountry);
    if needsSlash {
      assert fullPath == url.pathInfo + "/";
      InsertAfterRoot(env.defaultCountry, url.pathInfo + "/");
    } else {
      assert fullPath == url.pathInfo;
      InsertAfterRoot(env.defaultCountry, url.pathInfo);
    }
  }

  /** Putting `/<country>` in front of a path that starts at the root. */
  lemma InsertAfterRoot(country: string, path: string)
    requires "/" <= path
    ensures "/" + country + "/" + path[1..] == "/" + country + path
  {
    assert path == "/" + path[1..];
  }

  /** A 404 for exactly `/fr` with `fr` in the path redirects to `/fr/`. */
  lemma BareCountryScenario(patternsUsed: bool, prefixedDefaultCountry: bool, isValidPath: string -> bool)
    ensures
      var env := Collaborators(Resolved(Some("fr"), Some("fr"), "fr-fr"), None, Some("fr"), "us", "/", true);
      Decide(RequestUrl("/fr", "/fr", ""), env, isValidPath, 404, patternsUsed, prefixedDefaultCountry) ==
        RedirectTo("/fr/")
  {
  }
}
