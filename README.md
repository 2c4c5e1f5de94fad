# django-o18n country prefixes, modelled in Dafny

django-o18n puts a country segment in front of Django URLs (`/<country>/...`).
This project models the two pieces that decide, from plain values, how such a URL is handled:

- **Country prefix pattern** (`o18n/urls.py`), in module `Urls`:
  - `CountryLocalePrefixPattern` computes the literal prefix for the active country code and matches or strips it.
  - The legacy `CountryLanguageURLResolver` caches one anchored regex per country code in `_regex_dict`.
  - `is_country_prefix_patterns_used` looks for that resolver in a route table.
  - `o18n_patterns` wraps routes in a prefixed `URLResolver`.
- **Locale middleware** (`o18n/middleware.py`), in module `Middleware`:
  - `process_request` activates a country and a language and annotates the request.
  - `process_response` decides between two repair redirects and header patching, and patches `Vary` and `Content-Language` in place.

Module `Text` writes out the Python string operations the code relies on:
`'%s' % None`, truthiness, `x or y`, `endswith`, and `replace(old, new, 1)` (with the search for the first occurrence it relies on).
Module `Wrappers` holds `Option`.

Modelling choices:

- The active country code (`get_country_language_prefix`) is a parameter of type `Option<string>`.
  `None` renders as the text `"None"`, exactly as `'%s/' % None` does.
- A compiled regex `'^X/'` is the class `CompiledRegex`, which holds the literal anchored prefix `X/`.
  The empty regex holds `""`.
  It is a class so that the identity of a cached object can be stated.
- The resolver's invariant `Valid()` says that every cached prefix equals `CountryPrefix` for the same flag.
  So the legacy resolver and the newer pattern class agree.
- A route table is a `seq<UrlEntry>`.
  An entry is a legacy resolver object, a plain `URLResolver` with its entry pattern and children, or a route.
- The middleware gets the results of its collaborators as parameters (`Collaborators`).
  `is_valid_path` for the request's urlconf is a function parameter.
  The urlconf's top-level `url_patterns` is a sequence parameter.
- `process_response` is modelled as written.
  `path_valid = True` at o18n/middleware.py:55 makes branch A always redirect.
  `path_needs_slash` is still computed from the real validity check, so only the forced slash depends on validity.
  Lemma `BranchAIgnoresValidity` states this.
- `request.get_full_path(force_append_slash)` follows Django's definition: the path, then a slash when forced and missing, then `?query` when there is a query.
- The `Vary` header is kept as its list of field names, apart from the other headers; `HttpResponse.Valid()` says no `"Vary"` key sits among them.
  Patching it appends `Accept-Language` when it is missing.
- The `Content-Language` value is the `'%s'` rendering of the resolved language, so a missing language is stored as `"None"`.
  This matches how Django converts header values to text.

Where the source's own comment or structure suggests otherwise, the model follows the code:

- The empty prefix is described as one that "cannot be matched" (comment at o18n/urls.py:56).
  In the code it matches every path (`EmptyPrefixMatchesEveryPath`).
- `path_valid = True` at o18n/middleware.py:55 is modelled (`BranchAIgnoresValidity`).
- `o18n_patterns` builds a plain `URLResolver`, while `is_country_prefix_patterns_used` only detects `CountryLanguageURLResolver`.
  So tables built with `o18n_patterns` are never detected.
  See `O18nPatternsAreNotDetected`, `TestUrlPatternsAreNotDetected` and `O18nTablesNeverAddCountry`.

## Model

| member | source | states |
|---|---|---|
| `Urls.CountryPrefix` | o18n/urls.py:76-82 | the prefix is empty exactly when no country code is active and the default country is not prefixed; otherwise it is the rendered code (`"None"` for a missing one) followed by one `/` |
| `Urls.Match` | o18n/urls.py:84-88 | `match` succeeds exactly when the path starts with the country prefix; on success the prefix followed by the returned route is the path, and args and kwargs are empty |
| `Urls.MatchRoundTrip` | o18n/urls.py:84-88 | matching the country prefix followed by any remainder returns exactly that remainder |
| `Urls.EmptyPrefixMatchesEveryPath` | o18n/urls.py:77-88 | with no active country and `prefix_default_country` false, every path matches and comes back unchanged |
| `Urls.MissingCountryRendersAsNone` | o18n/urls.py:78-82 | with `prefix_default_country` true and no active country, the prefix is the literal `"None/"` and only paths starting with it match |
| `Urls.CountryLanguageURLResolver.constructor` | o18n/urls.py:45-50 | a new resolver keeps its route list, `app_name` and `namespace`; `default_kwargs` defaults to `{}` and `prefix_default_country` to true; its regex cache `_regex_dict` starts empty (an assumption about the base class, see "Left out") |
| `Urls.CountryLanguageURLResolver.Regex` | o18n/urls.py:52-61 | after a read the cache holds the active code; an existing entry is returned and the cache is unchanged; a missing entry is a fresh regex added for that key only; the regex is anchored at the country prefix |
| `Urls.CountryLanguageURLResolver.RegexIsCached` | o18n/urls.py:54-61 | two reads for the same country code return the identical regex object, and no earlier entry changes |
| `Urls.CountryPatternsUsed` | o18n/urls.py:27-38 | the first component is true exactly when the table has a `CountryLanguageURLResolver`; then the flag is that of the first one in list order; otherwise the answer is `(false, false)` |
| `Urls.IsCountryPrefixPatternsUsed` | o18n/urls.py:35-38 | the loop with early return computes `CountryPatternsUsed` of the table |
| `Urls.O18nPatterns` | o18n/urls.py:12-24 | one plain resolver, not a `CountryLanguageURLResolver`, wrapping the given urls in order; the flag defaults to true |
| `Urls.O18nPatternsAreNotDetected` | o18n/urls.py:18-38 | a table made of `o18n_patterns(...)` followed by entries that are not `CountryLanguageURLResolver` is reported as `(false, false)` |
| `Urls.TestUrlPatternsAreNotDetected` | o18n/test_urls.py:8-14 | the test route table is reported as `(false, false)` |
| `Text.ReplaceFirst` | o18n/middleware.py:60-64 | `replace(old, new, 1)`: without an occurrence the string is unchanged; otherwise the first occurrence, and only it, is replaced |
| `Text.ReplaceFirstAtStart` | o18n/middleware.py:60-64 | when the string starts with `old`, the result is `new` followed by the rest |
| `Text.FindFrom` | o18n/middleware.py:60-64 | the index returned is an occurrence with none before it; no index is returned only when there is no occurrence |
| `Middleware.ProcessRequest` | o18n/middleware.py:23-34 | the default country is activated exactly when the resolved country is `None`, else the resolved one; the language code is always activated; the request carries the resolved triple, with `None` kept as `None` |
| `Middleware.ActivatedCountryVersusRedirectCountry` | o18n/middleware.py:25-47 | the request phase (`is None`) and the redirect target (`or`) choose different countries exactly when the resolved code is the empty string and the default is not empty |
| `Middleware.FullPath` | o18n/middleware.py:60 | the full path starts with the path; a forced slash without a query makes it end in `/`; unforced and without a query it is the path |
| `Middleware.PathNeedsSlash` | o18n/middleware.py:47-54 | a slash is forced only when the country path is invalid, `APPEND_SLASH` is on, the country path lacks a trailing slash, and the slash-appended path is valid |
| `Middleware.Decide` | o18n/middleware.py:43-68 | non-404 responses never redirect; branch A (404, no country in the path, patterns used, default prefixed) always redirects to the full path with the script prefix replaced by script prefix + country + `/`; branch B redirects `/<c>` to `/<c>/`; there is a redirect exactly when one of the two applies |
| `Middleware.CountryFollowsScriptPrefix` | o18n/middleware.py:57-65 | when the full path starts with the script prefix, branch A's target is script prefix + country + `/` + the rest of the full path |
| `Middleware.BranchAIgnoresValidity` | o18n/middleware.py:48-56 | as written, branch A redirects even when no candidate path is valid, to the unforced full path |
| `Middleware.ValidCountryPathGetsNoSlash` | o18n/middleware.py:48-60 | when the country path is valid, the target is built without a forced slash |
| `Middleware.AddVary` | o18n/middleware.py:70-71 | afterwards `Accept-Language` is listed, earlier entries keep their order, at most one entry is added, and nothing is added when it was already listed |
| `Middleware.SetIfAbsent` | o18n/middleware.py:72-73 | `Content-Language` is present afterwards; an existing value is never overwritten; other headers are unchanged |
| `Middleware.HeaderPatchingIsIdempotent` | o18n/middleware.py:70-73 | patching `Vary` and `Content-Language` a second time changes nothing |
| `Middleware.ProcessResponse` | o18n/middleware.py:36-74 | keeps a single `Vary` header (`Valid()`); a redirect is a fresh 302 with `Location` set to the decided target, and the given response is untouched; otherwise the same response object is returned with `Vary` patched unless patterns are used and the path names a language, and `Content-Language` set only if absent |
| `Middleware.O18nTablesNeverAddCountry` | o18n/middleware.py:41-71 | with a route table built by `o18n_patterns`, branch A is never entered and `Vary: Accept-Language` is always patched |
| `Middleware.DefaultCountryRedirect` | o18n/middleware.py:43-65 | for an application at the root and a request with no resolved country and no query, branch A redirects to `/` + default country + path when that path is valid, and to the same with a slash appended when `path_needs_slash` holds: the country path is invalid, `APPEND_SLASH` is on, it lacks a trailing slash, and the slash-appended path is valid |
| `Middleware.BareCountryScenario` | o18n/middleware.py:66-68 | a 404 for exactly `/fr` with `fr` in the path redirects to `/fr/`, whatever the route table says |

## Left out

- `monkey.patch()` (o18n/urls.py:47, 67): it patches Django internals at run time; the `monkey` module is not part of this model.
- Regular-expression semantics: a pattern is its literal anchored prefix, and country codes are assumed to have no metacharacters.
- `CountryLocalePrefixPattern.regex`, `check`, `describe` and `__str__` (o18n/urls.py:71-74, 90-97): they serve reversing URLs, Django's system-check hook, and display.
- The `lru_cache` on `is_country_prefix_patterns_used` (o18n/urls.py:27): it memoises a pure function, and the function itself is modelled.
- `get_resolver(urlconf)`: the top-level `url_patterns` of the urlconf is a parameter.
- The collaborators `util`, `country`, `translation`, `is_valid_path`, `get_script_prefix` and `settings`: their code is not part of this model. Their results are parameters, and `is_valid_path` is a function parameter.
- The thread-local storage of the active locale, and any concurrency between requests. The active locale is an explicit `ActiveLocale` object.
- `Middleware.FullPath`: URI escaping of the path and IRI-to-URI conversion of the query, done by Django's `get_full_path`, are not modelled.
- `Middleware.AddVary`: Django's `patch_vary_headers` compares field names case-insensitively and parses and rebuilds the header text. The model compares names exactly, on a list of names.
- `Middleware.SetIfAbsent`: Django looks up header names case-insensitively; the model uses exact keys.
- `Middleware.ProcessResponse`: `HttpResponseRedirect` sets headers besides `Location`, such as `Content-Type`. The model records only status 302 and `Location`.
- `Urls.CountryLanguageURLResolver.constructor`: the base class is `RegexURLResolver` as imported from `django_extensions.management.commands.show_urls` (o18n/urls.py:7), which is not part of this model. The model assumes its `__init__` creates an empty `_regex_dict` and stores `default_kwargs or {}`. It does not model the case where that name is a placeholder class without such an `__init__` (as some django-extensions releases for Django 2.0 and later may provide). In that case the `super().__init__(None, urlconf_name, ...)` call at o18n/urls.py:48-49 would fail.
- The view callables of routes in o18n/test_urls.py: a route keeps only its regex and name.
