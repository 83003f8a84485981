/** The request gate of the Postiz frontend (`middleware` in
    apps/frontend/src/middleware.ts): for every request it either lets the
    request through, possibly with a language header, or redirects it,
    possibly setting or clearing a cookie. The first rule that matches wins. */
module Middleware {
  import opened Wrappers
  import Text
  import Query

  /** Lifetime of the `org` invitation cookie and of the `showorg` cookie set
      after joining an organisation, in milliseconds. */
  const FifteenMinutesMs: int := 15 * 60 * 1000

  /** Lifetime of the `showorg` cookie set by an organisation switch, in milliseconds. */
  const OneYearMs: int := 1000 * 60 * 60 * 24 * 365

  /** The process environment as the gate reads it. A flag is set when its
      variable is a non-empty string. `cookieDomain` is the domain that
      `getCookieUrlFromDomain` derives from `FRONTEND_URL`; `languageCookie` is
      the name of the language-preference cookie in the i18n configuration. */
  datatype Config = Config(
    notSecured: bool,
    isGeneral: bool,
    genericOAuth: bool,
    cookieDomain: string,
    languageCookie: string)

  /** A parsed request URL; `href` is rebuilt from the three parts. */
  datatype Url = Url(origin: string, pathname: string, query: seq<Query.Pair>)

  function Href(u: Url): string {
    u.origin + u.pathname + Query.Search(u.query)
  }

  /** What the gate reads from a request. `authCookie` is the `auth` cookie if
      the request has one (its value does not matter: the cookie object itself
      is truthy); `authHeader` is the `auth` header; `language` is what the
      language negotiation returned for the request. */
  datatype Request = Request(
    url: Url,
    authCookie: Option<string>,
    authHeader: Option<string>,
    language: Option<string>)

  /** What the organisation-join call produced: a failure (network error,
      unparseable body, a `null` body) or the returned `id`, where "" stands
      for a missing or falsy id, as from a `{}` body. */
  datatype JoinOutcome = JoinFailed | Joined(id: string)

  /** A cookie to set on the response. `hardened` stands for the bundle
      `secure: true, httpOnly: true, sameSite: false`. `expiresAt` is an
      absolute time in milliseconds since the epoch. */
  datatype Cookie = Cookie(
    name: string,
    value: string,
    path: Option<string>,
    hardened: bool,
    domain: Option<string>,
    maxAge: Option<int>,
    expiresAt: Option<int>)

  /** The gate's answer: continue to the page with extra headers, or redirect
      to a path-and-query target while setting cookies. */
  datatype Directive =
    | Next(headers: seq<(string, string)>)
    | Redirect(target: string, cookies: seq<Cookie>)

  /** JavaScript truthiness of a possibly missing string. */
  predicate Truthy(o: Option<string>) {
    o.Some? && o.value != ""
  }

  /** `searchParams.get(name)`, with a missing parameter read as "" since the
      gate only ever tests it for truthiness. */
  function Param(u: Url, name: string): string {
    Query.Get(u.query, name).GetOr("")
  }

  /** The request carries an `auth` cookie, a non-empty `auth` header or a
      non-empty `loggedAuth` query parameter. */
  predicate Authenticated(req: Request) {
    req.authCookie.Some? || Truthy(req.authHeader) || Param(req.url, "loggedAuth") != ""
  }

  /** Paths of static and public pages that are never gated. */
  predicate PublicPath(path: string) {
    "/uploads/" <= path || "/p/" <= path || "/icons/" <= path
  }

  /** The headers of a pass-through response: the negotiated language under
      the language cookie's name, when there is one. */
  function LanguageHeaders(req: Request, cfg: Config): seq<(string, string)> {
    if Truthy(req.language) then [(cfg.languageCookie, req.language.value)] else []
  }

  /** The landing page that replaces `/`. */
  function Landing(cfg: Config): string {
    if cfg.isGeneral then "/launches" else "/analytics"
  }

  /** The login providers looked for in the URL, in the order they are tried. */
  const Providers: seq<string> := ["google", "settings"]

  /** `candidates.find(p => href.indexOf(p) > -1)`. */
  function FindProvider(href: string, candidates: seq<string>): (r: Option<string>)
    ensures r.None? <==> forall i :: 0 <= i < |candidates| ==> !Text.Contains(href, candidates[i])
    ensures r.Some? ==> exists i :: 0 <= i < |candidates| && candidates[i] == r.value
                                    && Text.Contains(href, r.value)
                                    && forall j :: 0 <= j < i ==> !Text.Contains(href, candidates[j])
  {
    if |candidates| == 0 then None
    else if Text.Contains(href, candidates[0]) then Some(candidates[0])
    else
      var r := FindProvider(href, candidates[1..]);
      assert r.Some? ==> exists i :: 1 <= i < |candidates| && candidates[i] == r.value
                                     && Text.Contains(href, r.value)
                                     && forall j :: 0 <= j < i ==> !Text.Contains(href, candidates[j]) by {
        if r.Some? {
          var i :| 0 <= i < |candidates[1..]| && candidates[1..][i] == r.value
                   && Text.Contains(href, r.value)
                   && forall j :: 0 <= j < i ==> !Text.Contains(href, candidates[1..][j]);
          assert candidates[i + 1] == r.value;
          forall j | 0 <= j < i + 1 ensures !Text.Contains(href, candidates[j]) {
            if j > 0 { assert candidates[j] == candidates[1..][j - 1]; }
          }
        }
      }
      r
  }

  /** The `provider=` addition to the login redirect: empty unless the URL
      names a provider; `?` or `&` depending on whether `search` already holds
      a query. */
  function ProviderSuffix(href: string, search: string, cfg: Config): string {
    match FindProvider(href, Providers)
    case None => ""
    case Some(p) =>
      (if Text.Contains(search, "?") then "&" else "?") + "provider=" + ProviderTag(p, cfg)
  }

  /** The upper-cased provider name sent to the login page; `settings` stands
      for the generic OAuth provider when `POSTIZ_GENERIC_OAUTH` is set, else GitHub. */
  function ProviderTag(p: string, cfg: Config): string {
    Text.ToUpper(if p == "settings" then (if cfg.genericOAuth then "generic" else "github") else p)
  }

  /** The `auth` cookie that the logout rule writes to end the session: always
      on path `/` and the frontend's domain, expired at once. */
  function ExpiredAuthCookie(cfg: Config): Cookie {
    Cookie("auth", "", Some("/"), !cfg.notSecured, Some(cfg.cookieDomain), Some(-1), None)
  }

  /** A cookie carrying organisation context until `expiresAt`; its path,
      domain and hardening are present only when `NOT_SECURED` is unset. */
  function ContextCookie(cfg: Config, name: string, value: string, expiresAt: int): Cookie {
    var secured := !cfg.notSecured;
    Cookie(name, value,
           if secured then Some("/") else None,
           secured,
           if secured then Some(cfg.cookieDomain) else None,
           None,
           Some(expiresAt))
  }

  /** The path an organisation switch lands on: `/` is replaced by the landing page. */
  function SwitchPath(u: Url, cfg: Config): string {
    if u.pathname == "/" then Landing(cfg) else u.pathname
  }

  /** The rules of the gate, in the order `middleware` tries them. */
  datatype Rule =
    | ModalLoginRequired
    | PublicAsset
    | Logout
    | AnonymousToLogin
    | SignedInLeavesAuth
    | AnonymousInvite
    | AnonymousAuthPage
    | SwitchOrg
    | JoinOrg
    | RootLanding
    | PassThrough

  const RuleOrder: seq<Rule> := [
    ModalLoginRequired, PublicAsset, Logout, AnonymousToLogin, SignedInLeavesAuth,
    AnonymousInvite, AnonymousAuthPage, SwitchOrg, JoinOrg, RootLanding, PassThrough]

  /** The position of a rule in `RuleOrder`. */
  function Rank(rule: Rule): (i: nat)
    ensures i < |RuleOrder| && RuleOrder[i] == rule
  {
    match rule
    case ModalLoginRequired => 0
    case PublicAsset => 1
    case Logout => 2
    case AnonymousToLogin => 3
    case SignedInLeavesAuth => 4
    case AnonymousInvite => 5
    case AnonymousAuthPage => 6
    case SwitchOrg => 7
    case JoinOrg => 8
    case RootLanding => 9
    case PassThrough => 10
  }

  /** The condition each rule tests, on its own, without the rules before it. */
  predicate Guard(rule: Rule, req: Request, cfg: Config) {
    var u := req.url;
    var href := Href(u);
    var authed := Authenticated(req);
    match rule
    case ModalLoginRequired => "/modal/" <= u.pathname && !authed
    case PublicAsset => PublicPath(u.pathname)
    case Logout => Text.Contains(href, "/auth/logout")
    case AnonymousToLogin => !Text.Contains(href, "/auth") && !authed
    case SignedInLeavesAuth => Text.Contains(href, "/auth") && authed
    case AnonymousInvite => Text.Contains(href, "/auth") && !authed && Param(u, "org") != ""
    case AnonymousAuthPage => Text.Contains(href, "/auth") && !authed && Param(u, "org") == ""
    case SwitchOrg => Param(u, "switchOrg") != "" && authed
    case JoinOrg => Param(u, "org") != ""
    case RootLanding => u.pathname == "/"
    case PassThrough => true
  }

  /** The position of the first rule from `from` on whose guard holds. */
  function FirstMatch(rules: seq<Rule>, req: Request, cfg: Config, from: nat): (i: nat)
    requires exists k :: from <= k < |rules| && Guard(rules[k], req, cfg)
    decreases |rules| - from
    ensures from <= i < |rules| && Guard(rules[i], req, cfg)
    ensures forall j :: from <= j < i ==> !Guard(rules[j], req, cfg)
  {
    if Guard(rules[from], req, cfg) then from else FirstMatch(rules, req, cfg, from + 1)
  }

  /** The rule that answers the request under first-match-wins over `RuleOrder`. */
  function Classify(req: Request, cfg: Config): (rule: Rule)
    ensures Guard(rule, req, cfg)
  {
    assert Guard(RuleOrder[10], req, cfg);
    RuleOrder[FirstMatch(RuleOrder, req, cfg, 0)]
  }

  /** The rule that the chain of `if` statements in `middleware` (lines 34-173) reaches. */
  function Decide(req: Request, cfg: Config): (rule: Rule)
    ensures Guard(rule, req, cfg)
  {
    var u := req.url;
    var href := Href(u);
    var authed := Authenticated(req);
    if "/modal/" <= u.pathname && !authed then ModalLoginRequired
    else if PublicPath(u.pathname) then PublicAsset
    else if Text.IndexOf(href, "/auth/logout") > -1 then Logout
    else if Text.IndexOf(href, "/auth") == -1 && !authed then AnonymousToLogin
    else if Text.IndexOf(href, "/auth") > -1 && authed then SignedInLeavesAuth
    else if Text.IndexOf(href, "/auth") > -1 && !authed then
      (if Param(u, "org") != "" then AnonymousInvite else AnonymousAuthPage)
    else if Param(u, "switchOrg") != "" && authed then SwitchOrg
    else if Param(u, "org") != "" then JoinOrg
    else if u.pathname == "/" then RootLanding
    else PassThrough
  }

  /** What each rule answers. `join` is consulted only by `JoinOrg`, `now` only
      by the rules that set an expiring cookie. */
  function Respond(rule: Rule, req: Request, cfg: Config, join: JoinOutcome, now: int): Directive {
    var u := req.url;
    var search := Query.Search(u.query);
    match rule
    case ModalLoginRequired => Redirect("/auth/login-required", [])
    case PublicAsset => Next(LanguageHeaders(req, cfg))
    case Logout => Redirect("/auth/login", [ExpiredAuthCookie(cfg)])
    case AnonymousToLogin => Redirect("/auth" + search + ProviderSuffix(Href(u), search, cfg), [])
    case SignedInLeavesAuth => Redirect("/" + search, [])
    case AnonymousInvite =>
      Redirect("/", [ContextCookie(cfg, "org", Param(u, "org"), now + FifteenMinutesMs)])
    case AnonymousAuthPage => Next(LanguageHeaders(req, cfg))
    case SwitchOrg =>
      Redirect(SwitchPath(u, cfg) + Query.Search(Query.Delete(u.query, "switchOrg")),
               [ContextCookie(cfg, "showorg", Param(u, "switchOrg"), now + OneYearMs)])
    case JoinOrg =>
      (match join
       case JoinFailed => Redirect("/auth/logout", [])
       case Joined(id) =>
         Redirect("/?added=true",
                  if id != "" then [ContextCookie(cfg, "showorg", id, now + FifteenMinutesMs)] else []))
    case RootLanding => Redirect(Landing(cfg), [])
    case PassThrough => Next(LanguageHeaders(req, cfg))
  }

  /** The gate: one directive per request. Only a pass-through carries a
      header, and it is the negotiated language exactly when there is one. */
  function Gate(req: Request, cfg: Config, join: JoinOutcome, now: int): (d: Directive)
    ensures d.Next? ==> (|d.headers| > 0 <==> Truthy(req.language))
    ensures d.Next? ==> forall h :: h in d.headers ==> h == (cfg.languageCookie, req.language.value)
  {
    Respond(Decide(req, cfg), req, cfg, join, now)
  }
}
