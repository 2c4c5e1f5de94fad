/**
 * The country prefix of o18n URL patterns (o18n/urls.py).
 *
 * A URL subtree wrapped by `o18n_patterns` only matches paths that start with
 * the active country code followed by `/`. The active country code comes from
 * the locale context of the request in flight (`get_country_language_prefix`);
 * here it is the parameter `countryCode`. A compiled regular expression
 * `'^X/'` is modelled by its literal anchored prefix `X/`, country codes being
 * free of regular-expression metacharacters.
 */
module Urls {
  import opened Wrappers
  import opened Text

  /** `CountryLocalePrefixPattern`: its only state is fixed at construction. */
  datatype CountryLocalePrefixPattern = CountryLocalePrefixPattern(prefixDefaultCountry: bool)

  /** What `match` returns on success: the rest of the path, positional and keyword captures. */
  datatype PatternMatch = PatternMatch(route: string, args: seq<string>, kwargs: map<string, string>)

  /** The entry pattern of a `URLResolver`. */
  datatype RoutePattern =
    | CountryLocalePrefix(prefixPattern: CountryLocalePrefixPattern)
    | RegexPattern(regex: string)

  /** One element of a route table (`urlpatterns`). */
  datatype UrlEntry =
    | CountryLanguage(resolver: CountryLanguageURLResolver)   // a legacy `CountryLanguageURLResolver`
    | Resolver(pattern: RoutePattern, urlPatterns: seq<UrlEntry>)  // a plain `URLResolver`
    | Route(regex: string, name: Option<string>)               // a `url(...)` leading to a view

  /**
   * `CountryLocalePrefixPattern.country_prefix`: empty when no country is
   * active and the default country is not prefixed; otherwise the code and a
   * slash, where a missing code renders as "None".
   */
  function CountryPrefix(pattern: CountryLocalePrefixPattern, countryCode: Option<string>): (prefix: string)
    ensures prefix == "" <==> countryCode.None? && !pattern.prefixDefaultCountry
    ensures prefix != "" ==> prefix == Render(countryCode) + "/"
  {
    if countryCode.None? && !pattern.prefixDefaultCountry then ""
    else Render(countryCode) + "/"
  }

  /**
   * `CountryLocalePrefixPattern.match`: succeeds exactly on the paths that
   * start with the country prefix, and strips it.
   */
  function Match(pattern: CountryLocalePrefixPattern, countryCode: Option<string>, path: string): (m: Option<PatternMatch>)
    ensures m.Some? <==> CountryPrefix(pattern, countryCode) <= path
    ensures m.Some? ==> CountryPrefix(pattern, countryCode) + m.value.route == path
    ensures m.Some? ==> m.value.args == [] && m.value.kwargs == map[]
  {
    var prefix := CountryPrefix(pattern, countryCode);
    if prefix <= path then Some(PatternMatch(path[|prefix|..], [], map[])) else None
  }

  /** Matching a prefixed path gives back exactly what followed the prefix. */
  lemma MatchRoundTrip(pattern: CountryLocalePrefixPattern, countryCode: Option<string>, rest: string)
    ensures Match(pattern, countryCode, CountryPrefix(pattern, countryCode) + rest) == Some(PatternMatch(rest, [], map[]))
  {
    var prefix := CountryPrefix(pattern, countryCode);
    assert (prefix + rest)[|prefix|..] == rest;
  }

  /**
   * With no active country and no default-country prefix, the empty prefix
   * lets `match` accept every path unchanged.
   */
  lemma EmptyPrefixMatchesEveryPath(pattern: CountryLocalePrefixPattern, path: string)
    requires !pattern.prefixDefaultCountry
    ensures Match(pattern, None, path) == Some(PatternMatch(path, [], map[]))
  {
    assert CountryPrefix(pattern, None) == "";
    assert path[0..] == path;
  }

  /**
   * With the default country prefixed and no active country, the prefix is
   * the literal text "None/": no default country is substituted.
   */
  lemma MissingCountryRendersAsNone(pattern: CountryLocalePrefixPattern, path: string)
    requires pattern.prefixDefaultCountry
    ensures CountryPrefix(pattern, None) == "None/"
    ensures Match(pattern, None, path).Some? <==> "None/" <= path
  {
  }

  /** A compiled regular expression `'^X/'`, kept as its literal anchored prefix `X/` ('' for the empty regex). */
  class CompiledRegex {
    const anchoredPrefix: string

    constructor (anchoredPrefix: string)
      ensures this.anchoredPrefix == anchoredPrefix
    {
      this.anchoredPrefix := anchoredPrefix;
    }
  }

  /**
   * The legacy `CountryLanguageURLResolver`: it compiles one anchored
   * regular expression per country code it is asked about and keeps them in
   * `_regex_dict`, which only grows.
   */
  class CountryLanguageURLResolver {
    const urlconfName: seq<UrlEntry>
    const defaultKwargs: map<string, string>
    const appName: Option<string>
    const namespace: Option<string>
    const prefixDefaultCountry: bool
    /** `_regex_dict`, assumed created empty by the base class `RegexURLResolver` (o18n/urls.py:7). */
    var regexDict: map<Option<string>, CompiledRegex>

    /** Every cached regex is anchored at the prefix the newer pattern class computes for that code. */
    ghost predicate Valid()
      reads this
    {
      forall code :: code in regexDict ==>
        regexDict[code].anchoredPrefix == CountryPrefix(CountryLocalePrefixPattern(prefixDefaultCountry), code)
    }

    /**
     * `CountryLanguageURLResolver(urlconf_name, default_kwargs=None,
     * app_name=None, namespace=None, prefix_default_country=True)`: a `None`
     * argument stands for one left out. The base class `RegexURLResolver`,
     * imported from django-extensions' `show_urls` (o18n/urls.py:7), is
     * assumed to store a missing `default_kwargs` as `{}`.
     */
    constructor (urlconfName: seq<UrlEntry>, defaultKwargs: Option<map<string, string>>,
                 appName: Option<string>, namespace: Option<string>, prefixDefaultCountry: Option<bool>)
      ensures Valid()
      ensures this.urlconfName == urlconfName
      ensures this.defaultKwargs == defaultKwargs.GetOr(map[])
      ensures this.appName == appName && this.namespace == namespace
      ensures this.prefixDefaultCountry == prefixDefaultCountry.GetOr(true)
      ensures regexDict == map[]
    {
      this.urlconfName := urlconfName;
      this.defaultKwargs := defaultKwargs.GetOr(map[]);
      this.appName := appName;
      this.namespace := namespace;
      this.prefixDefaultCountry := prefixDefaultCountry.GetOr(true);
      regexDict := map[];
    }

    /**
     * The `regex` property for the active `countryCode`: compiled and cached
     * on first use, returned from the cache afterwards.
     */
    method Regex(countryCode: Option<string>) returns (regex: CompiledRegex)
      requires Valid()
      modifies this
      ensures Valid()
      ensures countryCode in regexDict && regex == regexDict[countryCode]
      ensures regex.anchoredPrefix == CountryPrefix(CountryLocalePrefixPattern(prefixDefaultCountry), countryCode)
      ensures countryCode in old(regexDict) ==> regexDict == old(regexDict)
      ensures countryCode !in old(regexDict) ==> fresh(regex) && regexDict == old(regexDict)[countryCode := regex]
    {
      if countryCode !in regexDict {
        var regexString;
        if countryCode.None? && !prefixDefaultCountry {
          regexString := "";
        } else {
          regexString := Render(countryCode) + "/";
        }
        var compiled := new CompiledRegex(regexString);
        regexDict := regexDict[countryCode := compiled];
      }
      regex := regexDict[countryCode];
    }

    /** Two requests with the same active country code get the identical cached regex object. */
    method RegexIsCached(countryCode: Option<string>) returns (first: CompiledRegex, second: CompiledRegex)
      requires Valid()
      modifies this
      ensures Valid()
      ensures first == second
      ensures old(regexDict).Keys <= regexDict.Keys
      ensures forall code :: code in old(regexDict) ==> regexDict[code] == old(regexDict)[code]
    {
      first := Regex(countryCode);
      second := Regex(countryCode);
    }
  }

  /**
   * The answer of `is_country_prefix_patterns_used` for a route table: the
   * first `CountryLanguageURLResolver` in list order decides, and
   * `(false, false)` stands for "none".
   */
  function CountryPatternsUsed(urlPatterns: seq<UrlEntry>): (r: (bool, bool))
    ensures r.0 <==> exists i :: 0 <= i < |urlPatterns| && urlPatterns[i].CountryLanguage?
    ensures !r.0 ==> !r.1
    ensures r.0 ==>
      exists i :: 0 <= i < |urlPatterns| && urlPatterns[i].CountryLanguage? &&
        (forall j :: 0 <= j < i ==> !urlPatterns[j].CountryLanguage?) &&
        r.1 == urlPatterns[i].resolver.prefixDefaultCountry
  {
    if urlPatterns == [] then (false, false)
    else if urlPatterns[0].CountryLanguage? then (true, urlPatterns[0].resolver.prefixDefaultCountry)
    else
      var r := CountryPatternsUsed(urlPatterns[1..]);
      assert forall i :: 0 < i < |urlPatterns| ==> urlPatterns[i] == urlPatterns[1..][i - 1];
      r
  }

  /**
   * `is_country_prefix_patterns_used`, given the top-level `url_patterns`
   * of the resolver for the urlconf: it scans them in order and returns at
   * the first `CountryLanguageURLResolver`.
   */
  method IsCountryPrefixPatternsUsed(urlPatterns: seq<UrlEntry>) returns (used: bool, prefixDefaultCountry: bool)
    ensures (used, prefixDefaultCountry) == CountryPatternsUsed(urlPatterns)
  {
    var i := 0;
    while i < |urlPatterns|
      invariant 0 <= i <= |urlPatterns|
      invariant CountryPatternsUsed(urlPatterns[i..]) == CountryPatternsUsed(urlPatterns)
    {
      if urlPatterns[i].CountryLanguage? {
        return true, urlPatterns[i].resolver.prefixDefaultCountry;
      }
      assert urlPatterns[i..][1..] == urlPatterns[i + 1..];
      i := i + 1;
    }
    return false, false;
  }

  /**
   * `o18n_patterns(*urls, prefix_default_country=...)`: one plain
   * `URLResolver` whose entry pattern is a country prefix pattern and whose
   * children are the given urls, in order. Leaving the flag out means true.
   */
  function O18nPatterns(urls: seq<UrlEntry>, prefixDefaultCountry: Option<bool>): (patterns: seq<UrlEntry>)
    ensures |patterns| == 1 && patterns[0].Resolver? && patterns[0].urlPatterns == urls
    ensures patterns[0].pattern.CountryLocalePrefix?
    ensures patterns[0].pattern.prefixPattern.prefixDefaultCountry == prefixDefaultCountry.GetOr(true)
    ensures !patterns[0].CountryLanguage?
  {
    [Resolver(CountryLocalePrefix(CountryLocalePrefixPattern(prefixDefaultCountry.GetOr(true))), urls)]
  }

  /**
   * The detection looks for legacy `CountryLanguageURLResolver` instances
   * only, so a route table made of `o18n_patterns(...)` followed by plain
   * routes reads as "country patterns not used".
   */
  lemma O18nPatternsAreNotDetected(urls: seq<UrlEntry>, prefixDefaultCountry: Option<bool>, rest: seq<UrlEntry>)
    requires forall i :: 0 <= i < |rest| ==> !rest[i].CountryLanguage?
    ensures CountryPatternsUsed(O18nPatterns(urls, prefixDefaultCountry) + rest) == (false, false)
  {
    var table := O18nPatterns(urls, prefixDefaultCountry) + rest;
    assert table[1..] == rest;
  }

  /** The route table of o18n/test_urls.py is not detected as using country patterns. */
  lemma TestUrlPatternsAreNotDetected()
    ensures CountryPatternsUsed(
      O18nPatterns([Route("^$", Some("default")), Route("^subpath/$", Some("subpath"))], None)
      + [Route("^xx/$", None), Route("^yy/zz/$", None)]) == (false, false)
  {
    O18nPatternsAreNotDetected([Route("^$", Some("default")), Route("^subpath/$", Some("subpath"))], None,
      [Route("^xx/$", None), Route("^yy/zz/$", None)]);
  }
}
