# The Postiz frontend request gate, in Dafny

The Postiz frontend runs every page request through one Next.js middleware,
`middleware` in `apps/frontend/src/middleware.ts`. It inspects the URL, the
`auth` credential and a handful of query parameters, and answers with exactly
one directive. The directive either lets the request continue, possibly with
the negotiated language as a header, or redirects it, possibly setting or
expiring a cookie. Its rules are tried in a fixed order and the first one that
matches wins:

1. an anonymous request for a `/modal/` page goes to `/auth/login-required`;
2. `/uploads/`, `/p/` and `/icons/` pass through;
3. any URL mentioning `/auth/logout` goes to `/auth/login` and expires the `auth` cookie;
4. an anonymous request outside the auth pages goes to `/auth`. It keeps its
   query string and gets a `provider=` hint when the URL mentions `google` or `settings`;
5. a signed-in request for an auth page goes to `/` with its query string;
6. an anonymous request for an auth page either stores an `org` invitation in a
   cookie and goes to `/`, or passes through;
7. a signed-in request with `switchOrg` has that parameter stripped. It goes to
   its path, with `/` replaced by the landing page, and the organisation is
   remembered in a one-year `showorg` cookie;
8. a signed-in request with `org` joins that organisation through the backend.
   On success it goes to `/?added=true`; on failure it goes to `/auth/logout`;
9. a signed-in request for `/` goes to `/launches` or `/analytics`;
10. everything else passes through.

The model is a pure function `Middleware.Gate(req, cfg, join, now)`. It is built
in three parts:

- `Decide` is the chain of `if` statements in `middleware`, and it returns the rule
  that fires;
- `Respond` says what each rule answers;
- `Classify` is an independent reference definition: first-match-wins over the
  rule table `RuleOrder`, where each rule's `Guard` is written on its own.
  `GateProperties.DecideIsFirstMatch` proves that the two agree on every request.

The remaining lemmas state each rule's answer and the properties that hold
across requests. These cover the login redirect not looping, an organisation
switch not repeating, and a failed join ending the session. They also show
that the join outcome matters only in the join rule, and the clock only where
an expiring cookie is set.

Modules:

- `Wrappers` holds `Option`.
- `Text` models JavaScript `indexOf`, the `indexOf(..) > -1` test and ASCII
  `toUpperCase`.
- `Query` models the query string as `URLSearchParams` sees it: an ordered list
  of pairs with `get`, `delete` and the rendered `search` string.
- `Middleware` holds the request, configuration, cookie and directive
  datatypes, the rules and the gate.
- `GateProperties` holds one lemma per rule and the cross-request properties.
- `GateExamples` holds concrete requests and their answers.

Inputs that the gate obtains from outside are parameters:

- the negotiated language is `Request.language`;
- the outcome of the join call is a `JoinOutcome`;
- `Date.now()` is `now`;
- the environment flags `NOT_SECURED`, `IS_GENERAL` and `POSTIZ_GENERIC_OAUTH`
  are the booleans of `Config`;
- the cookie domain derived from `FRONTEND_URL` is `Config.cookieDomain`.

Four behaviours of the code are easy to misread:

- the provider hint for a URL mentioning `google` is `GOOGLE`;
- the `/auth`, `/auth/logout`, `google` and `settings` tests look at the whole
  `href`, origin and query included, and not just at the path;
- only pass-through answers carry the language header, because the redirects
  are fresh responses that do not copy it;
- the hardened cookie attributes include `sameSite: false`.

## Model

| member | source | states |
|---|---|---|
| Middleware.Gate | apps/frontend/src/middleware.ts:15-178 | only a pass-through answer carries a header, it carries one exactly when a non-empty language was negotiated, and that header is the language cookie's name paired with the language |
| Middleware.Decide | apps/frontend/src/middleware.ts:34-173 | the rule that the chain of `if` statements reaches satisfies that rule's own guard |
| Middleware.Classify | apps/frontend/src/middleware.ts:34-173 | the first-match-wins reading of the rule table yields a rule whose guard holds |
| Middleware.FirstMatch | apps/frontend/src/middleware.ts:34-173 | the position found is the first one, from the start point on, whose guard holds: it holds there and fails at every earlier position |
| GateProperties.EarlierGuardsFail | apps/frontend/src/middleware.ts:34-173 | every rule ranked before the one the chain reaches fails its guard on that request |
| GateProperties.DecideIsFirstMatch | apps/frontend/src/middleware.ts:34-173 | the `if` chain and first-match-wins over the rule table pick the same rule for every request and configuration |
| GateProperties.AnonymousModalNeedsLogin | apps/frontend/src/middleware.ts:34-36 | an anonymous request for a `/modal/` path is redirected to `/auth/login-required` with no cookie |
| GateProperties.SignedInModalNotCaught | apps/frontend/src/middleware.ts:17-36 | an authenticated request for a `/modal/` path is never answered by the modal rule |
| GateProperties.PublicAssetsPassThrough | apps/frontend/src/middleware.ts:38-44 | any request under `/uploads/`, `/p/` or `/icons/` passes through with just the language header, whatever its credentials |
| GateProperties.LogoutExpiresAuthCookie | apps/frontend/src/middleware.ts:46-63 | once past the first two rules, a URL mentioning `/auth/logout` goes to `/auth/login` with exactly one cookie. That cookie is `auth` = "", has max-age -1, path `/` and the configured domain, and is hardened exactly when `NOT_SECURED` is unset |
| GateProperties.LogoutRuleApplies | apps/frontend/src/middleware.ts:46 | the logout rule fires for such a URL, signed in or not |
| GateProperties.ProviderSuffixChoice | apps/frontend/src/middleware.ts:67-78 | the provider hint is empty exactly when the URL mentions neither `google` nor `settings`, and `google` wins when both appear. `google` gives `provider=GOOGLE`; `settings` gives `GENERIC` or `GITHUB` by `POSTIZ_GENERIC_OAUTH`. The separator is `&` exactly when the query is non-empty, else `?` |
| GateProperties.ProviderFoundInOrder | apps/frontend/src/middleware.ts:68-69 | the provider search returns `google` if the URL mentions it, else `settings` if mentioned, else nothing |
| GateProperties.ProviderSuffixAppendsPair | apps/frontend/src/middleware.ts:72-80 | the query string followed by the provider hint is the query string of the same pairs with one `provider` pair appended |
| GateProperties.AnonymousGoesToLogin | apps/frontend/src/middleware.ts:67-82 | an anonymous request past the first two rules whose URL lacks `/auth` is redirected to `/auth` plus its own query string plus the provider hint, with no cookie |
| GateProperties.LoginRedirectDoesNotLoop | apps/frontend/src/middleware.ts:67-81 | the follow-up to the login redirect is signed in exactly when its new query has a non-empty `loggedAuth`. Anonymous, it meets logout, the invitation rule or the auth-page pass-through; signed in, it meets logout or the leave-auth-pages rule. It never meets the login redirect or the modal rule again |
| GateProperties.SignedInLeavesAuthPages | apps/frontend/src/middleware.ts:84-87 | an authenticated request whose URL mentions `/auth` but not `/auth/logout` is redirected to `/` plus its own query string |
| GateProperties.AnonymousInviteKeepsOrg | apps/frontend/src/middleware.ts:88-104 | an anonymous auth-page request with a non-empty `org` goes to `/` and sets one `org` cookie holding that value, expiring 900000 ms after `now` with no max-age. When `NOT_SECURED` is unset its path is `/`, its domain is the configured one and it is hardened; when set it has no path, no domain and no hardening |
| GateProperties.AnonymousAuthPagePassesThrough | apps/frontend/src/middleware.ts:88-105 | an anonymous auth-page request without `org` passes through with the language header |
| GateProperties.SwitchOrgRedirects | apps/frontend/src/middleware.ts:110-133 | a signed-in request with a non-empty `switchOrg` goes to its own path, or the landing page for `/` chosen by `IS_GENERAL`. The query string keeps every other pair and drops `switchOrg`. One `showorg` cookie holds the value and expires 31536000000 ms after `now`, with no max-age. It has path `/`, the configured domain and hardening when `NOT_SECURED` is unset, and none of them when it is set. The join outcome plays no part, so this rule overrides the join rule |
| GateProperties.SwitchOrgIdempotent | apps/frontend/src/middleware.ts:113-119 | the switch redirect's target is the stripped URL, and a request for it stays authenticated and is not switched again |
| GateProperties.JoinOrgOutcome | apps/frontend/src/middleware.ts:135-177 | a signed-in request with `org` and no `switchOrg`: a failed join goes to `/auth/logout` with no cookie. A successful join goes to `/?added=true` with a `showorg` cookie exactly when the returned id is non-empty; that cookie holds the id and expires 900000 ms after `now`, with no max-age. It has path `/`, the configured domain and hardening when `NOT_SECURED` is unset, and none of them when it is set |
| GateProperties.FailedJoinEndsSession | apps/frontend/src/middleware.ts:174-177 | the fail-safe target `/auth/logout`, when requested, meets the logout rule and expires the `auth` cookie |
| GateProperties.LogoutPageMeetsLogout | apps/frontend/src/middleware.ts:34-46 | any request whose path is `/auth/logout` is answered by the logout rule |
| GateProperties.SignedInRootLands | apps/frontend/src/middleware.ts:164-171 | a signed-in request for `/` with neither `switchOrg` nor `org` goes to `/launches` when `IS_GENERAL` is set, else `/analytics` |
| GateProperties.SignedInPassesThrough | apps/frontend/src/middleware.ts:164-173 | any other signed-in request outside the public paths passes through with the language header |
| GateProperties.JoinOnlyMattersForJoinOrg | apps/frontend/src/middleware.ts:135-163 | the join outcome changes the answer only when the join rule fires |
| GateProperties.ClockOnlyMattersForExpiry | apps/frontend/src/middleware.ts:88-163 | the clock changes the answer only for the three rules that set an expiring cookie |
| GateExamples.SettingsAsksForProvider | apps/frontend/src/middleware.ts:67-81 | an anonymous `/settings?x=1` goes to `/auth?x=1&provider=GENERIC`, or to `...GITHUB` when `POSTIZ_GENERIC_OAUTH` is unset |
| GateExamples.SignedInAuthPageGoesHome | apps/frontend/src/middleware.ts:85-87 | a signed-in `/auth?foo=bar` goes to `/?foo=bar` |
| GateExamples.SwitchOrgToLaunches | apps/frontend/src/middleware.ts:110-133 | a signed-in `/?switchOrg=42` in general mode goes to `/launches` with a year-long `showorg` = `42` cookie |
| GateExamples.FailedJoinLogsOut | apps/frontend/src/middleware.ts:135-177 | a signed-in `/?org=55` whose join fails goes to `/auth/logout` |
| GateExamples.RootLandsOnAnalytics | apps/frontend/src/middleware.ts:164-171 | a signed-in `/` outside general mode goes to `/analytics` |
| GateExamples.QueryMentioningAuthPassesThrough | apps/frontend/src/middleware.ts:88-105 | an anonymous `/launches?next=/auth` counts as an auth page, because the test is on the whole URL, and so it passes through |
| GateExamples.AuthHostPassesThrough | apps/frontend/src/middleware.ts:88-105 | on a host whose origin mentions `/auth`, such as `https://auth.app.test`, an anonymous `/launches` counts as an auth page and passes through |
| GateExamples.EmptyCredentials | apps/frontend/src/middleware.ts:17-20 | an `auth` cookie authenticates even when its value is empty; an empty `auth` header does not |
| Text.IndexOf | apps/frontend/src/middleware.ts:46 | `indexOf` returns -1 or a position within the string |
| Text.IndexOfFindsFirst | apps/frontend/src/middleware.ts:46 | `indexOf` returns the first position where the needle occurs, and -1 exactly when it occurs nowhere |
| Text.ContainsPrefixOfNeedle | apps/frontend/src/middleware.ts:46 | a string containing `t + u` contains `t`, e.g. every logout URL mentions `/auth` |
| Text.ContainsExtend | apps/frontend/src/middleware.ts:88 | a string that contains `t` still contains it after text is appended, e.g. an origin mentioning `/auth` makes the whole URL mention it |
| Text.ToUpper | apps/frontend/src/middleware.ts:73-78 | `toUpperCase` keeps the length and leaves no ASCII lower-case letter. Each lower-case letter becomes the capital at the same alphabet position, and every other character is unchanged |
| Text.ToUpperIdempotent | apps/frontend/src/middleware.ts:73-78 | upper-casing an already upper-cased string changes nothing |
| Query.Get | apps/frontend/src/middleware.ts:110 | `get` finds nothing exactly when no pair has the name; otherwise it returns the value of the first pair with that name |
| Query.Delete | apps/frontend/src/middleware.ts:114 | `delete` leaves no pair with the name and keeps every other pair, in order, as a subsequence; the length drops by the number of pairs removed |
| Query.DeletedKeyIsAbsent | apps/frontend/src/middleware.ts:114 | after `delete(name)`, `get(name)` finds nothing |
| Query.DeleteKeepsOtherKeys | apps/frontend/src/middleware.ts:114 | `delete(name)` does not change what `get` returns for any other name |
| Query.DeleteIdempotent | apps/frontend/src/middleware.ts:114 | deleting a name twice is the same as deleting it once |
| Query.Search | apps/frontend/src/middleware.ts:66 | `search` is empty exactly when there are no pairs, and otherwise starts with `?` |
| Query.SearchHasMarkIffNonEmpty | apps/frontend/src/middleware.ts:72 | the query string holds a `?` exactly when it is non-empty |
| Query.SearchAppend | apps/frontend/src/middleware.ts:72-80 | appending a pair to the query appends `?name=value` to an empty query string and `&name=value` to a non-empty one |
| Middleware.FindProvider | apps/frontend/src/middleware.ts:69 | `find` returns nothing exactly when no candidate occurs in the URL, and otherwise the first candidate that does |

## Left out

- Language negotiation (lines 12, 21-26) uses the `accept-language` library,
  which is not part of this model. The negotiated language is an input,
  `Request.language`.
- `getCookieUrlFromDomain` (line 3) is not part of this model. The domain it
  derives from `FRONTEND_URL` is the configuration field `cookieDomain`.
- The join call, `internalFetch` with its JSON parsing (lines 137-144), is
  network I/O. Its result is the input `JoinOutcome`, where `JoinFailed` covers
  every exception caught at line 174. A truthy `id` that is not a string is
  not modelled.
- `Date.now()` is the input `now`. Cookie expiry is the absolute time
  `now + offset` in milliseconds, not a `Date` object.
- `NextResponse` and `URL` mechanics are framework code. Targets are the path
  and query string passed to `new URL(.., href)`, and resolving them against
  the origin is not modelled. The request URL is a pre-parsed record whose
  `href` is origin, path and query string joined.
- The query string is rendered from its pairs as `name=value` joined by `&`.
  Percent-encoding and the raw `search` text, e.g. a bare `?` or repeated
  `&`, are not modelled.
- An exception thrown by anything other than the join call inside the `try`
  block is not modelled; the only failure is `JoinFailed`.
- `console.log` in the `catch` block (line 175) is logging only.
- The `config.matcher` route filter (lines 181-183) is applied by the framework
  before the gate runs.
- Text.ToUpper: upper-cases ASCII letters only. That is enough for the
  provider names it is applied to, but it is not the full Unicode `toUpperCase`.
