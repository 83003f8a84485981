/** What the gate promises, rule by rule, and how its rules relate. */
module GateProperties {
  import opened Wrappers
  import Text
  import Query
  import opened Middleware

  /** A path whose second character is none of `m`, `u`, `p`, `i` is neither a
      modal page nor a public asset. */
  lemma {:induction false} UngatedInitial(p: string)
    requires |p| > 1 && p[1] != 'm' && p[1] != 'u' && p[1] != 'p' && p[1] != 'i'
    ensures !("/modal/" <= p) && !PublicPath(p)
  {
    assert "/modal/"[1] == 'm' && "/uploads/"[1] == 'u' && "/p/"[1] == 'p' && "/icons/"[1] == 'i';
  }

  /** The attributes of a cookie carrying organisation context: on path `/`
      of the frontend's domain and hardened when `NOT_SECURED` is unset,
      without path, domain or hardening when it is set, and never a max-age. */
  predicate ContextAttributes(c: Cookie, cfg: Config) {
    && c.path == (if cfg.notSecured then None else Some("/"))
    && c.domain == (if cfg.notSecured then None else Some(cfg.cookieDomain))
    && (c.hardened <==> !cfg.notSecured)
    && c.maxAge.None?
  }

  /** A URL that mentions `/auth/logout` mentions `/auth`. */
  lemma LogoutMentionsAuth(href: string)
    requires Text.Contains(href, "/auth/logout")
    ensures Text.Contains(href, "/auth")
  {
    assert "/auth/logout" == "/auth" + "/logout";
    Text.ContainsPrefixOfNeedle(href, "/auth", "/logout");
  }

  /** Every rule that comes before the one the chain of `if` statements
      reaches fails its guard. */
  lemma EarlierGuardsFail(req: Request, cfg: Config)
    ensures var n := Rank(Decide(req, cfg));
            && (n > 0 ==> !Guard(ModalLoginRequired, req, cfg))
            && (n > 1 ==> !Guard(PublicAsset, req, cfg))
            && (n > 2 ==> !Guard(Logout, req, cfg))
            && (n > 3 ==> !Guard(AnonymousToLogin, req, cfg))
            && (n > 4 ==> !Guard(SignedInLeavesAuth, req, cfg))
            && (n > 5 ==> !Guard(AnonymousInvite, req, cfg))
            && (n > 6 ==> !Guard(AnonymousAuthPage, req, cfg))
            && (n > 7 ==> !Guard(SwitchOrg, req, cfg))
            && (n > 8 ==> !Guard(JoinOrg, req, cfg))
            && (n > 9 ==> !Guard(RootLanding, req, cfg))
  {
    var href := Href(req.url);
    if Text.Contains(href, "/auth/logout") {
      LogoutMentionsAuth(href);
    }
  }

  /** The chain of `if` statements picks exactly the rule that first-match-wins
      over the rule table picks. */
  lemma {:induction false} DecideIsFirstMatch(req: Request, cfg: Config)
    ensures Decide(req, cfg) == Classify(req, cfg)
  {
    EarlierGuardsFail(req, cfg);
    assert Guard(RuleOrder[10], req, cfg);
  }

  // ---- Rules 1 and 2: modal pages and public assets (lines 34-44) ----

  /** An anonymous request for a modal page is sent to `/auth/login-required`. */
  lemma AnonymousModalNeedsLogin(req: Request, cfg: Config, join: JoinOutcome, now: int)
    requires "/modal/" <= req.url.pathname && !Authenticated(req)
    ensures Gate(req, cfg, join, now) == Redirect("/auth/login-required", [])
  {
  }

  /** An authenticated request for a modal page is not caught by the modal rule. */
  lemma SignedInModalNotCaught(req: Request, cfg: Config)
    requires "/modal/" <= req.url.pathname && Authenticated(req)
    ensures Decide(req, cfg) != ModalLoginRequired
  {
  }

  /** Uploads, public pages and icons pass through whatever the auth state,
      with nothing but the language header. */
  lemma {:induction false} PublicAssetsPassThrough(req: Request, cfg: Config, join: JoinOutcome, now: int)
    requires PublicPath(req.url.pathname)
    ensures Gate(req, cfg, join, now) == Next(LanguageHeaders(req, cfg))
  {
    var p := req.url.pathname;
    assert |p| > 1 && p[1] != 'm';
    assert "/modal/"[1] == 'm';
    assert !("/modal/" <= p);
  }

  // ---- Rule 3: logout (lines 46-63) ----

  /** Any URL that mentions `/auth/logout` and got past the first two rules goes
      to `/auth/login`, signed in or not, and expires the `auth` cookie on path
      `/` of the frontend's domain; the cookie is hardened iff `NOT_SECURED` is unset. */
  lemma LogoutExpiresAuthCookie(req: Request, cfg: Config, join: JoinOutcome, now: int)
    requires !("/modal/" <= req.url.pathname && !Authenticated(req))
    requires !PublicPath(req.url.pathname)
    requires Text.Contains(Href(req.url), "/auth/logout")
    ensures var d := Gate(req, cfg, join, now);
            && d.Redirect? && d.target == "/auth/login" && |d.cookies| == 1
            && d.cookies[0].name == "auth" && d.cookies[0].value == ""
            && d.cookies[0].maxAge == Some(-1) && d.cookies[0].expiresAt.None?
            && d.cookies[0].path == Some("/") && d.cookies[0].domain == Some(cfg.cookieDomain)
            && (d.cookies[0].hardened <==> !cfg.notSecured)
  {
  }

  /** A request that got past the first two rules and mentions `/auth/logout`
      is answered by the logout rule. */
  lemma LogoutRuleApplies(req: Request, cfg: Config)
    requires !("/modal/" <= req.url.pathname && !Authenticated(req))
    requires !PublicPath(req.url.pathname)
    requires Text.Contains(Href(req.url), "/auth/logout")
    ensures Decide(req, cfg) == Logout
  {
  }

  // ---- Rule 4: anonymous requests outside the auth pages (lines 65-82) ----

  /** The provider addition: empty unless the URL mentions `google` or
      `settings`, with `google` tried first; GOOGLE for `google`, GENERIC or
      GITHUB for `settings` according to `POSTIZ_GENERIC_OAUTH`; joined with
      `&` exactly when the query string is non-empty. */
  lemma {:induction false} ProviderSuffixChoice(href: string, q: seq<Query.Pair>, cfg: Config)
    ensures var suffix := ProviderSuffix(href, Query.Search(q), cfg);
            var sep := if |q| > 0 then "&" else "?";
            && (suffix == "" <==> !Text.Contains(href, "google") && !Text.Contains(href, "settings"))
            && (Text.Contains(href, "google") ==> suffix == sep + "provider=" + "GOOGLE")
            && (!Text.Contains(href, "google") && Text.Contains(href, "settings") ==>
                  suffix == sep + "provider=" + (if cfg.genericOAuth then "GENERIC" else "GITHUB"))
  {
    Query.SearchHasMarkIffNonEmpty(q);
    ProviderFoundInOrder(href);
    GoogleTag(cfg);
    SettingsTag(cfg);
  }

  /** `google` is looked for before `settings`. */
  lemma ProviderFoundInOrder(href: string)
    ensures FindProvider(href, Providers)
              == if Text.Contains(href, "google") then Some("google")
                 else if Text.Contains(href, "settings") then Some("settings")
                 else None
  {
    assert Providers[1..] == ["settings"];
    assert Providers[1..][1..] == [];
  }

  /** The provider names as they reach the login page. */
  lemma GoogleTag(cfg: Config)
    ensures ProviderTag("google", cfg) == "GOOGLE"
  {
    assert Text.ToUpper("google") == "GOOGLE";
  }

  lemma SettingsTag(cfg: Config)
    ensures ProviderTag("settings", cfg) == if cfg.genericOAuth then "GENERIC" else "GITHUB"
  {
    if cfg.genericOAuth {
      assert Text.ToUpper("generic") == "GENERIC";
    } else {
      assert Text.ToUpper("github") == "GITHUB";
    }
  }

  /** When a provider is found, the addition is the separator, `provider=`
      and the provider's tag. */
  lemma ProviderSuffixShape(href: string, q: seq<Query.Pair>, cfg: Config)
    requires FindProvider(href, Providers).Some?
    ensures var tag := ProviderTag(FindProvider(href, Providers).value, cfg);
            ProviderSuffix(href, Query.Search(q), cfg) == (if |q| > 0 then "&" else "?") + "provider=" + tag
  {
    Query.SearchHasMarkIffNonEmpty(q);
  }

  /** The provider addition is exactly one more `provider` pair on the query. */
  lemma ProviderSuffixAppendsPair(href: string, q: seq<Query.Pair>, cfg: Config)
    requires FindProvider(href, Providers).Some?
    ensures var tag := ProviderTag(FindProvider(href, Providers).value, cfg);
            Query.Search(q) + ProviderSuffix(href, Query.Search(q), cfg)
              == Query.Search(q + [("provider", tag)])
  {
    var tag := ProviderTag(FindProvider(href, Providers).value, cfg);
    ProviderSuffixShape(href, q, cfg);
    ProviderPairAppended(q, tag);
  }

  /** Appending a `provider` pair renders as the separator, `provider=` and the tag. */
  lemma ProviderPairAppended(q: seq<Query.Pair>, tag: string)
    ensures Query.Search(q + [("provider", tag)])
              == Query.Search(q) + ((if |q| > 0 then "&" else "?") + "provider=" + tag)
  {
    var search, sep := Query.Search(q), if |q| > 0 then "&" else "?";
    Query.SearchAppend(q, ("provider", tag));
    Text.Regroup(search, sep, "provider", "=", tag);
    assert "provider" + "=" == "provider=";
  }

  /** An anonymous request whose URL does not mention `/auth` is sent to
      `/auth` with its own query string and the provider addition. */
  lemma AnonymousGoesToLogin(req: Request, cfg: Config, join: JoinOutcome, now: int)
    requires !Authenticated(req) && !("/modal/" <= req.url.pathname)
    requires !PublicPath(req.url.pathname)
    requires !Text.Contains(Href(req.url), "/auth")
    ensures var search := Query.Search(req.url.query);
            Gate(req, cfg, join, now)
              == Redirect("/auth" + search + ProviderSuffix(Href(req.url), search, cfg), [])
  {
    if Text.Contains(Href(req.url), "/auth/logout") {
      LogoutMentionsAuth(Href(req.url));
    }
  }

  /** Following the login redirect does not meet the login redirect again: the
      new URL mentions `/auth`. The follow-up carries the same cookie and
      header, so it is signed in only through a `loggedAuth` parameter of the
      new query; anonymous, it reaches logout or one of the auth-page rules. */
  lemma {:induction false} LoginRedirectDoesNotLoop(req: Request, cfg: Config, join: JoinOutcome, now: int,
                                                    q': seq<Query.Pair>)
    requires Decide(req, cfg) == AnonymousToLogin
    requires Gate(req, cfg, join, now).target == "/auth" + Query.Search(q')
    ensures var next := req.(url := Url(req.url.origin, "/auth", q'));
            && (Authenticated(next) <==> Param(next.url, "loggedAuth") != "")
            && (!Authenticated(next) ==> Decide(next, cfg) in {Logout, AnonymousInvite, AnonymousAuthPage})
            && (Authenticated(next) ==> Decide(next, cfg) in {Logout, SignedInLeavesAuth})
  {
    var next := req.(url := Url(req.url.origin, "/auth", q'));
    assert Href(next.url) == req.url.origin + "/auth" + Query.Search(q');
    Text.ContainsInfix(req.url.origin, "/auth", Query.Search(q'));
    UngatedInitial(next.url.pathname);
  }

  // ---- Rules 5 and 6: the auth pages (lines 84-106) ----

  /** A signed-in request for an auth page (other than logout) goes to `/`
      with its own query string. */
  lemma SignedInLeavesAuthPages(req: Request, cfg: Config, join: JoinOutcome, now: int)
    requires Authenticated(req) && !PublicPath(req.url.pathname)
    requires Text.Contains(Href(req.url), "/auth") && !Text.Contains(Href(req.url), "/auth/logout")
    ensures Gate(req, cfg, join, now) == Redirect("/" + Query.Search(req.url.query), [])
  {
  }

  /** An anonymous request for an auth page with an `org` invitation goes to
      `/` and keeps the invitation in an `org` cookie for fifteen minutes; path
      and domain are set only when `NOT_SECURED` is unset. */
  lemma AnonymousInviteKeepsOrg(req: Request, cfg: Config, join: JoinOutcome, now: int)
    requires !Authenticated(req) && !("/modal/" <= req.url.pathname) && !PublicPath(req.url.pathname)
    requires Text.Contains(Href(req.url), "/auth") && !Text.Contains(Href(req.url), "/auth/logout")
    requires Param(req.url, "org") != ""
    ensures var d := Gate(req, cfg, join, now);
            && d.Redirect? && d.target == "/" && |d.cookies| == 1
            && d.cookies[0].name == "org" && d.cookies[0].value == Param(req.url, "org")
            && d.cookies[0].expiresAt == Some(now + 900000)
            && ContextAttributes(d.cookies[0], cfg)
  {
  }

  /** An anonymous request for an auth page without an invitation passes through. */
  lemma AnonymousAuthPagePassesThrough(req: Request, cfg: Config, join: JoinOutcome, now: int)
    requires !Authenticated(req) && !("/modal/" <= req.url.pathname) && !PublicPath(req.url.pathname)
    requires Text.Contains(Href(req.url), "/auth") && !Text.Contains(Href(req.url), "/auth/logout")
    requires Param(req.url, "org") == ""
    ensures Gate(req, cfg, join, now) == Next(LanguageHeaders(req, cfg))
  {
  }

  // ---- Rule 7: organisation switch (lines 108-133) ----

  /** A signed-in request with `switchOrg` is redirected to its own path (`/`
      replaced by the landing page) with every `switchOrg` pair dropped from the
      query and the others kept in order, and remembers the organisation in a
      one-year `showorg` cookie. The `org` parameter and the join call play no part. */
  lemma SwitchOrgRedirects(req: Request, cfg: Config, join: JoinOutcome, join': JoinOutcome, now: int)
    requires Authenticated(req) && !PublicPath(req.url.pathname)
    requires !Text.Contains(Href(req.url), "/auth")
    requires Param(req.url, "switchOrg") != ""
    ensures var d := Gate(req, cfg, join, now);
            var path := if req.url.pathname == "/" then (if cfg.isGeneral then "/launches" else "/analytics")
                        else req.url.pathname;
            && d == Gate(req, cfg, join', now)
            && d.Redirect? && d.target == path + Query.Search(Query.Delete(req.url.query, "switchOrg"))
            && |d.cookies| == 1
            && d.cookies[0].name == "showorg" && d.cookies[0].value == Param(req.url, "switchOrg")
            && d.cookies[0].expiresAt == Some(now + 31536000000)
            && ContextAttributes(d.cookies[0], cfg)
  {
    if Text.Contains(Href(req.url), "/auth/logout") {
      LogoutMentionsAuth(Href(req.url));
    }
  }

  /** Following the switch redirect does not switch again: the new URL has no
      `switchOrg`, and the request stays signed in. */
  lemma {:induction false} SwitchOrgIdempotent(req: Request, cfg: Config, join: JoinOutcome, now: int)
    requires Decide(req, cfg) == SwitchOrg
    ensures var next := req.(url := Url(req.url.origin, SwitchPath(req.url, cfg),
                                        Query.Delete(req.url.query, "switchOrg")));
            && Gate(req, cfg, join, now).target == next.url.pathname + Query.Search(next.url.query)
            && Authenticated(next)
            && Decide(next, cfg) != SwitchOrg
  {
    var q' := Query.Delete(req.url.query, "switchOrg");
    Query.DeletedKeyIsAbsent(req.url.query, "switchOrg");
    Query.DeleteKeepsOtherKeys(req.url.query, "switchOrg", "loggedAuth");
  }

  // ---- Rule 8: signed-in requests (lines 135-177) ----

  /** A signed-in request with an `org` invitation and no switch joins the
      organisation: on success it goes to `/?added=true` and sets a fifteen-minute
      `showorg` cookie iff the returned id is non-empty; on failure it goes to
      `/auth/logout` with no cookie. */
  lemma JoinOrgOutcome(req: Request, cfg: Config, join: JoinOutcome, now: int)
    requires Authenticated(req) && !PublicPath(req.url.pathname)
    requires !Text.Contains(Href(req.url), "/auth")
    requires Param(req.url, "switchOrg") == "" && Param(req.url, "org") != ""
    ensures var d := Gate(req, cfg, join, now);
            && (join.JoinFailed? ==> d == Redirect("/auth/logout", []))
            && (join.Joined? ==>
                  && d.Redirect? && d.target == "/?added=true"
                  && (|d.cookies| == 1 <==> join.id != "") && |d.cookies| <= 1
                  && (join.id != "" ==> d.cookies[0].name == "showorg" && d.cookies[0].value == join.id
                                        && d.cookies[0].expiresAt == Some(now + 900000)
                                        && ContextAttributes(d.cookies[0], cfg)))
  {
    if Text.Contains(Href(req.url), "/auth/logout") {
      LogoutMentionsAuth(Href(req.url));
    }
  }

  /** The fail-safe redirect of a failed join ends the session: following it
      meets the logout rule, which expires the `auth` cookie. */
  lemma {:induction false} FailedJoinEndsSession(req: Request, cfg: Config, join: JoinOutcome, now: int)
    requires Decide(req, cfg) == JoinOrg
    ensures var next := req.(url := Url(req.url.origin, "/auth/logout", []));
            && Gate(req, cfg, JoinFailed, now).target == next.url.pathname + Query.Search(next.url.query)
            && Decide(next, cfg) == Logout
            && Gate(next, cfg, join, now) == Redirect("/auth/login", [ExpiredAuthCookie(cfg)])
  {
    var next := req.(url := Url(req.url.origin, "/auth/logout", []));
    LogoutPageMeetsLogout(next, cfg);
  }

  /** Any request for `/auth/logout` is answered by the logout rule. */
  lemma {:induction false} LogoutPageMeetsLogout(req: Request, cfg: Config)
    requires req.url.pathname == "/auth/logout"
    ensures Decide(req, cfg) == Logout
  {
    LogoutPathInHref(req.url);
    UngatedInitial(req.url.pathname);
    LogoutRuleApplies(req, cfg);
  }

  /** A URL whose path is `/auth/logout` mentions `/auth/logout`. */
  lemma {:induction false} LogoutPathInHref(u: Url)
    requires u.pathname == "/auth/logout"
    ensures Text.Contains(Href(u), "/auth/logout")
  {
    assert Href(u) == u.origin + "/auth/logout" + Query.Search(u.query);
    Text.ContainsInfix(u.origin, "/auth/logout", Query.Search(u.query));
  }

  /** A signed-in request for `/` with nothing else to do goes to the landing page. */
  lemma SignedInRootLands(req: Request, cfg: Config, join: JoinOutcome, now: int)
    requires Authenticated(req) && req.url.pathname == "/"
    requires !Text.Contains(Href(req.url), "/auth")
    requires Param(req.url, "switchOrg") == "" && Param(req.url, "org") == ""
    ensures Gate(req, cfg, join, now)
              == Redirect(if cfg.isGeneral then "/launches" else "/analytics", [])
  {
    if Text.Contains(Href(req.url), "/auth/logout") {
      LogoutMentionsAuth(Href(req.url));
    }
  }

  /** Any other signed-in request passes through with the language header. */
  lemma SignedInPassesThrough(req: Request, cfg: Config, join: JoinOutcome, now: int)
    requires Authenticated(req) && req.url.pathname != "/" && !PublicPath(req.url.pathname)
    requires !Text.Contains(Href(req.url), "/auth")
    requires Param(req.url, "switchOrg") == "" && Param(req.url, "org") == ""
    ensures Gate(req, cfg, join, now) == Next(LanguageHeaders(req, cfg))
  {
    if Text.Contains(Href(req.url), "/auth/logout") {
      LogoutMentionsAuth(Href(req.url));
    }
  }

  /** The join call decides the answer only in the join rule. */
  lemma JoinOnlyMattersForJoinOrg(req: Request, cfg: Config, join: JoinOutcome, join': JoinOutcome, now: int)
    requires Decide(req, cfg) != JoinOrg
    ensures Gate(req, cfg, join, now) == Gate(req, cfg, join', now)
  {
  }

  /** The clock matters only to the rules that set an expiring cookie. */
  lemma ClockOnlyMattersForExpiry(req: Request, cfg: Config, join: JoinOutcome, now: int, now': int)
    requires Decide(req, cfg) !in {AnonymousInvite, SwitchOrg, JoinOrg}
    ensures Gate(req, cfg, join, now) == Gate(req, cfg, join, now')
  {
  }
}
