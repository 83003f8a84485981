/** Concrete requests and what the gate answers them. The origin is any host
    whose name has no `u` and no `l`, such as `https://app.test`, so that it
    cannot itself mention `/auth`, `/auth/logout` or `google`. A signed-in
    request is one with an `auth` cookie; an anonymous one has no credential. */
module GateExamples {
  import opened Wrappers
  import Text
  import Query
  import opened Middleware
  import opened GateProperties

  predicate PlainOrigin(origin: string) {
    'u' !in origin && 'l' !in origin
  }

  predicate IsAnonymous(req: Request) {
    req.authCookie.None? && req.authHeader.None? && Query.Get(req.url.query, "loggedAuth").None?
  }

  /** An anonymous visit to `/settings?x=1` is sent to the login page with the
      generic provider when `POSTIZ_GENERIC_OAUTH` is set, GitHub otherwise. */
  lemma {:induction false} SettingsAsksForProvider(req: Request, cfg: Config, join: JoinOutcome, now: int)
    requires PlainOrigin(req.url.origin) && IsAnonymous(req)
    requires req.url.pathname == "/settings" && req.url.query == [("x", "1")]
    ensures var d := Gate(req, cfg, join, now);
            && d.Redirect?
            && d.target == "/auth" + "?x=1" + "&provider=" + (if cfg.genericOAuth then "GENERIC" else "GITHUB")
  {
    SettingsRedirect(req, cfg, join, now);
    SettingsSuffix(req.url, cfg);
    SettingsUrl(req.url);
  }

  /** The settings visit falls to the login redirect, which carries the query
      string and the provider suffix. */
  lemma {:induction false} SettingsRedirect(req: Request, cfg: Config, join: JoinOutcome, now: int)
    requires PlainOrigin(req.url.origin) && IsAnonymous(req)
    requires req.url.pathname == "/settings" && req.url.query == [("x", "1")]
    ensures var search := Query.Search(req.url.query);
            Gate(req, cfg, join, now) == Redirect("/auth" + search + ProviderSuffix(Href(req.url), search, cfg), [])
  {
    SettingsUrl(req.url);
    UngatedInitial(req.url.pathname);
    AnonymousGoesToLogin(req, cfg, join, now);
  }

  /** The settings visit names the configured OAuth provider after an `&`. */
  lemma {:induction false} SettingsSuffix(u: Url, cfg: Config)
    requires PlainOrigin(u.origin)
    requires u.pathname == "/settings" && u.query == [("x", "1")]
    ensures ProviderSuffix(Href(u), Query.Search(u.query), cfg)
            == "&provider=" + (if cfg.genericOAuth then "GENERIC" else "GITHUB")
  {
    SettingsUrl(u);
    ProviderFoundInOrder(Href(u));
    ProviderSuffixShape(Href(u), u.query, cfg);
    SettingsTag(cfg);
    AmpersandProvider();
  }

  /** The separator and the parameter name, as one piece of text. Kept apart
      from the lemma above, where the same literal step is far costlier. */
  lemma AmpersandProvider()
    ensures "&" + "provider=" == "&provider="
  {
  }

  /** What the URL of `/settings?x=1` mentions. */
  lemma {:induction false} SettingsUrl(u: Url)
    requires PlainOrigin(u.origin)
    requires u.pathname == "/settings" && u.query == [("x", "1")]
    ensures Query.Search(u.query) == "?x=1"
    ensures !Text.Contains(Href(u), "/auth") && !Text.Contains(Href(u), "google")
    ensures Text.Contains(Href(u), "settings")
  {
    var s := u.origin + "/" + "settings" + "?x=1";
    assert Query.Search(u.query) == "?x=1" && Href(u) == s by {
      Query.SearchSingle(u.query);
      assert "?" + "x" + "=" + "1" == "?x=1";
      assert "/settings" == "/" + "settings";
    }
    assert !Text.Contains(s, "/auth") by {
      Text.MissingCharNotContained(s, "/auth", 'u');
    }
    assert !Text.Contains(s, "google") by {
      Text.MissingCharNotContained(s, "google", 'l');
    }
    Text.ContainsInfix(u.origin + "/", "settings", "?x=1");
  }

  /** A signed-in visit to `/auth?foo=bar` is sent to `/?foo=bar`. */
  lemma {:induction false} SignedInAuthPageGoesHome(req: Request, cfg: Config, join: JoinOutcome, now: int)
    requires PlainOrigin(req.url.origin) && req.authCookie.Some?
    requires req.url.pathname == "/auth" && req.url.query == [("foo", "bar")]
    ensures Gate(req, cfg, join, now) == Redirect("/?foo=bar", [])
  {
    AuthPageUrl(req.url);
    UngatedInitial(req.url.pathname);
    SignedInLeavesAuthPages(req, cfg, join, now);
  }

  /** What the URL of `/auth?foo=bar` mentions. */
  lemma {:induction false} AuthPageUrl(u: Url)
    requires PlainOrigin(u.origin)
    requires u.pathname == "/auth" && u.query == [("foo", "bar")]
    ensures Query.Search(u.query) == "?foo=bar"
    ensures Text.Contains(Href(u), "/auth") && !Text.Contains(Href(u), "/auth/logout")
  {
    var s := u.origin + "/auth" + "?foo=bar";
    assert Query.Search(u.query) == "?foo=bar" && Href(u) == s by {
      Query.SearchSingle(u.query);
      assert "?" + "foo" + "=" + "bar" == "?foo=bar";
    }
    Text.ContainsInfix(u.origin, "/auth", "?foo=bar");
    Text.MissingCharNotContained(s, "/auth/logout", 'l');
  }

  /** A signed-in visit to `/?switchOrg=42` in general mode lands on
      `/launches` and remembers organisation 42 for a year. */
  lemma {:induction false} SwitchOrgToLaunches(req: Request, cfg: Config, join: JoinOutcome, now: int)
    requires PlainOrigin(req.url.origin) && req.authCookie.Some? && cfg.isGeneral
    requires req.url.pathname == "/" && req.url.query == [("switchOrg", "42")]
    ensures var d := Gate(req, cfg, join, now);
            && d.Redirect? && d.target == "/launches" && |d.cookies| == 1
            && d.cookies[0].name == "showorg" && d.cookies[0].value == "42"
            && d.cookies[0].expiresAt == Some(now + OneYearMs)
  {
    var q := req.url.query;
    var href := Href(req.url);
    assert Query.Search(q) == "?switchOrg=42";
    assert href == req.url.origin + "/" + "?switchOrg=42";
    Text.MissingCharNotContained(href, "/auth", 'u');
    assert Query.Delete(q, "switchOrg") == [];
    assert Param(req.url, "switchOrg") == "42";
    SwitchOrgRedirects(req, cfg, join, join, now);
  }

  /** A signed-in visit to `/?org=55` whose join call fails is sent to `/auth/logout`. */
  lemma {:induction false} FailedJoinLogsOut(req: Request, cfg: Config, now: int)
    requires PlainOrigin(req.url.origin) && req.authCookie.Some?
    requires req.url.pathname == "/" && req.url.query == [("org", "55")]
    ensures Gate(req, cfg, JoinFailed, now) == Redirect("/auth/logout", [])
  {
    var q := req.url.query;
    var href := Href(req.url);
    assert Query.Search(q) == "?org=55";
    assert href == req.url.origin + "/" + "?org=55";
    Text.MissingCharNotContained(href, "/auth", 'u');
    assert Param(req.url, "org") == "55";
    assert Param(req.url, "switchOrg") == "";
    JoinOrgOutcome(req, cfg, JoinFailed, now);
  }

  /** A signed-in visit to `/` outside general mode lands on `/analytics`. */
  lemma {:induction false} RootLandsOnAnalytics(req: Request, cfg: Config, join: JoinOutcome, now: int)
    requires PlainOrigin(req.url.origin) && req.authCookie.Some? && !cfg.isGeneral
    requires req.url.pathname == "/" && req.url.query == []
    ensures Gate(req, cfg, join, now) == Redirect("/analytics", [])
  {
    assert Href(req.url) == req.url.origin + "/" + "";
    Text.MissingCharNotContained(Href(req.url), "/auth", 'u');
    SignedInRootLands(req, cfg, join, now);
  }

  /** Because the auth-page tests look at the whole URL, an anonymous visit to
      `/launches?next=/auth` is taken for an auth page and passes through. */
  lemma {:induction false} QueryMentioningAuthPassesThrough(req: Request, cfg: Config, join: JoinOutcome, now: int)
    requires PlainOrigin(req.url.origin) && 'g' !in req.url.origin && IsAnonymous(req)
    requires req.url.pathname == "/launches" && req.url.query == [("next", "/auth")]
    ensures Gate(req, cfg, join, now) == Next(LanguageHeaders(req, cfg))
  {
    LaunchesUrl(req.url);
    UngatedInitial(req.url.pathname);
    AnonymousAuthPagePassesThrough(req, cfg, join, now);
  }

  /** What the URL of `/launches?next=/auth` mentions. */
  lemma {:induction false} LaunchesUrl(u: Url)
    requires 'g' !in u.origin
    requires u.pathname == "/launches" && u.query == [("next", "/auth")]
    ensures Text.Contains(Href(u), "/auth") && !Text.Contains(Href(u), "/auth/logout")
    ensures Param(u, "org") == ""
  {
    var s := u.origin + "/launches" + "?next=" + "/auth";
    assert Href(u) == s by {
      Query.SearchSingle(u.query);
      assert "?" + "next" + "=" == "?next=";
    }
    assert Text.Contains(s, "/auth") by {
      Text.ContainsInfix(u.origin + "/launches" + "?next=", "/auth", "");
      assert s + "" == s;
    }
    assert !Text.Contains(s, "/auth/logout") by {
      Text.MissingCharNotContained(s, "/auth/logout", 'g');
    }
    assert Param(u, "org") == "" by {
      assert u.query[0].0 != "org";
    }
  }

  /** The origin is part of the URL the auth-page tests look at: on a host
      whose origin mentions `/auth`, such as `https://auth.app.test`, an
      anonymous visit to `/launches` is taken for an auth page and passes through. */
  lemma {:induction false} AuthHostPassesThrough(req: Request, cfg: Config, join: JoinOutcome, now: int)
    requires Text.Contains(req.url.origin, "/auth") && 'g' !in req.url.origin && IsAnonymous(req)
    requires req.url.pathname == "/launches" && req.url.query == []
    ensures Gate(req, cfg, join, now) == Next(LanguageHeaders(req, cfg))
  {
    AuthHostUrl(req.url);
    UngatedInitial(req.url.pathname);
    AnonymousAuthPagePassesThrough(req, cfg, join, now);
  }

  /** What the URL of `/launches` on such a host mentions. */
  lemma {:induction false} AuthHostUrl(u: Url)
    requires Text.Contains(u.origin, "/auth") && 'g' !in u.origin
    requires u.pathname == "/launches" && u.query == []
    ensures Text.Contains(Href(u), "/auth") && !Text.Contains(Href(u), "/auth/logout")
    ensures Param(u, "org") == ""
  {
    var s := u.origin + "/launches";
    assert Href(u) == s;
    Text.ContainsExtend(u.origin, "/auth", "/launches");
    assert !Text.Contains(s, "/auth/logout") by {
      Text.MissingCharNotContained(s, "/auth/logout", 'g');
    }
  }

  /** An `auth` cookie counts even when empty; an empty `auth` header does not. */
  lemma EmptyCredentials(u: Url)
    requires Query.Get(u.query, "loggedAuth").None?
    ensures Authenticated(Request(u, Some(""), None, None))
    ensures !Authenticated(Request(u, None, Some(""), None))
  {
  }
}
