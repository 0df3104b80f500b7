/**
 * What the request hooks of `Change_MyLogin` decide, as functions of the
 * host, the option store, the request and the per-request state
 * (`$_SERVER['REQUEST_URI']`, the global `$pagenow` and the plugin's
 * `wp_login_php` flag). The class methods in module Plugin are proved
 * against these functions; the lemmas here follow one request from the
 * inbound classifier (`plugins_loaded`) to its end (`wp_loaded`).
 */
module Routing {
  import opened Wrappers
  import opened PhpStrings
  import opened WordPress
  import opened LoginAlias

  /** The request state the hooks read and write. */
  datatype RequestState = RequestState(uri: string, pagenow: string, wpLoginPhp: bool)

  /** How `plugins_loaded` classifies a request. */
  datatype Inbound = SignupDisabled | TargetsOriginal | TargetsAlias | Neither

  /** The URI `plugins_loaded` substitutes for a request to the protected path. */
  function SentinelUri(store: OptionStore): string {
    UserTrailingslashit(store, "/" + Repeat("-/", 10))
  }

  /** The URI `wp_template_loader` compares `REQUEST_URI` against. */
  function TemplateLoaderUri(store: OptionStore): string {
    UserTrailingslashit(store, Repeat("-/", 10))
  }

  /** `untrailingslashit($request['path'])`, an absent path read as "". */
  function UntrailedPath(host: Host, uri: string): string {
    Untrailingslashit(host.parseUrlPath(uri).GetOr(""))
  }

  /** The request names the protected path: the token anywhere in the URI, or the path of `site_url('wp-login')`. */
  predicate NamesOriginal(host: Host, uri: string) {
    Contains(uri, LoginToken) || UntrailedPath(host, uri) == host.siteUrl("wp-login", Some("relative"))
  }

  /** The request names the alias: its path, or (without permalinks) an alias query key with an empty value. */
  predicate NamesAlias(host: Host, store: OptionStore, req: Request, uri: string) {
    var slug := NewLoginSlug(host, store);
    || UntrailedPath(host, uri) == host.homeUrl(slug, Some("relative"))
    || (!Truthy(PermalinkStructure(store)) && slug in req.get && !Truthy(req.get[slug]))
  }

  /** `plugins_loaded`'s decision, in the order the plugin tests it. */
  function ClassifyInbound(host: Host, store: OptionStore, req: Request, uri: string): (c: Inbound)
    ensures c == SignupDisabled <==> !host.isMultisite && (Contains(uri, "wp-signup") || Contains(uri, "wp-activate"))
    ensures c == TargetsOriginal ==> NamesOriginal(host, uri) && !req.isAdmin
    ensures c == TargetsAlias ==> NamesAlias(host, store, req, uri) && (req.isAdmin || !NamesOriginal(host, uri))
    ensures c == Neither ==> !NamesAlias(host, store, req, uri) && (req.isAdmin || !NamesOriginal(host, uri))
  {
    if !host.isMultisite && (Contains(uri, "wp-signup") || Contains(uri, "wp-activate")) then SignupDisabled
    else if NamesOriginal(host, uri) && !req.isAdmin then TargetsOriginal
    else if NamesAlias(host, store, req, uri) then TargetsAlias
    else Neither
  }

  /** The request state `plugins_loaded` leaves behind for a classification. */
  function AfterInbound(store: OptionStore, c: Inbound, st: RequestState): (r: RequestState)
    ensures c == TargetsOriginal ==> r.wpLoginPhp && r.pagenow == "index.php" && r.uri == SentinelUri(store)
    ensures c == TargetsAlias ==> r == st.(pagenow := "wp-login.php")
    ensures c == Neither || c == SignupDisabled ==> r == st
  {
    match c
    case TargetsOriginal => RequestState(SentinelUri(store), "index.php", true)
    case TargetsAlias => st.(pagenow := "wp-login.php")
    case _ => st
  }

  /** The 403 guard of `wp_loaded`: an anonymous, non-AJAX admin request. */
  predicate AdminGuard(req: Request) {
    req.isAdmin && !req.isLoggedIn && !req.doingAjax
  }

  /** The path of the URI is missing or differs from its trailing-slash canonical form. */
  predicate PathNotCanonical(host: Host, store: OptionStore, uri: string) {
    match host.parseUrlPath(uri)
    case None => true
    case Some(p) => p != UserTrailingslashit(store, p)
  }

  /** The test of the canonical trailing-slash redirect of `wp_loaded`: a login page whose path is not canonical, under a permalink structure. */
  predicate CanonicalRedirect(host: Host, store: OptionStore, st: RequestState) {
    st.pagenow == "wp-login.php" && PathNotCanonical(host, store, st.uri) && Truthy(PermalinkStructure(store))
  }

  /** The `?QUERY_STRING` suffix appended to a redirect, empty for an empty (falsy) query. */
  function QuerySuffix(req: Request): string {
    if Truthy(req.queryString) then "?" + req.queryString else ""
  }

  /**
   * The key `wp_loaded` passes to `wpmu_activate_signup`: present when the
   * referer names `wp-activate.php` and carries a query whose `key`
   * argument is truthy.
   */
  function ActivationKey(host: Host, req: Request): (k: Option<string>)
    ensures k.Some? ==> Truthy(k.value) && req.referer.Some? && Contains(req.referer.value, "wp-activate.php")
  {
    match req.referer
    case None => None
    case Some(referer) =>
      if !Truthy(referer) || !Contains(referer, "wp-activate.php") then None
      else match host.parseUrlQuery(referer)
        case None => None
        case Some(query) =>
          var args := host.parseStr(query);
          if Truthy(query) && "key" in args && Truthy(args["key"]) then Some(args["key"]) else None
  }

  /**
   * The activation-retry test of `wp_loaded`: activating the referer's key
   * fails with `already_active` or `blog_taken`. The call exists only on
   * multisite.
   */
  predicate ActivationRetry(host: Host, req: Request) {
    && host.isMultisite
    && ActivationKey(host, req).Some?
    && var result := host.activateSignup(ActivationKey(host, req).value);
       result.ActivationError? && (result.code == "already_active" || result.code == "blog_taken")
  }

  /** On a single site the call to `wpmu_activate_signup` is a fatal error. */
  predicate ActivationFatal(host: Host, req: Request) {
    !host.isMultisite && ActivationKey(host, req).Some?
  }

  /** How `wp_loaded` ends a request for the protected path. */
  function ProtectedPathOutcome(host: Host, store: OptionStore, req: Request): Outcome {
    if ActivationFatal(host, req) then FatalError(UndefinedActivationMessage)
    else if ActivationRetry(host, req) then Redirect(NewLoginUrl(host, store, None) + QuerySuffix(req))
    else NotFoundLoader
  }

  /** How `wp_loaded` ends the request, tested in the plugin's order. */
  function EnforceOutcome(host: Host, store: OptionStore, req: Request, st: RequestState): (o: Outcome)
    ensures o.Forbidden? <==> AdminGuard(req)
    ensures !AdminGuard(req) && CanonicalRedirect(host, store, st) ==>
              o == Redirect(UserTrailingslashit(store, NewLoginUrl(host, store, None)) + QuerySuffix(req))
    ensures o.FatalError? <==>
              !AdminGuard(req) && !CanonicalRedirect(host, store, st) && st.wpLoginPhp && ActivationFatal(host, req)
    ensures !AdminGuard(req) && !CanonicalRedirect(host, store, st) && st.wpLoginPhp
            && !ActivationFatal(host, req) && ActivationRetry(host, req) ==>
              o == Redirect(NewLoginUrl(host, store, None) + QuerySuffix(req))
    ensures o == NotFoundLoader <==>
              !AdminGuard(req) && !CanonicalRedirect(host, store, st) && st.wpLoginPhp
              && !ActivationFatal(host, req) && !ActivationRetry(host, req)
    ensures o == ServeLogin <==>
              !AdminGuard(req) && !CanonicalRedirect(host, store, st) && !st.wpLoginPhp && st.pagenow == "wp-login.php"
    ensures o == PassThrough <==> !AdminGuard(req) && !st.wpLoginPhp && st.pagenow != "wp-login.php"
  {
    if AdminGuard(req) then Forbidden(AdminLoginMessage)
    else if CanonicalRedirect(host, store, st) then
      Redirect(UserTrailingslashit(store, NewLoginUrl(host, store, None)) + QuerySuffix(req))
    else if st.wpLoginPhp then ProtectedPathOutcome(host, store, req)
    else if st.pagenow == "wp-login.php" then ServeLogin
    else PassThrough
  }

  /** The request state `wp_template_loader` leaves behind. */
  function TemplateLoaderState(store: OptionStore, st: RequestState): (r: RequestState)
    ensures r.pagenow == "index.php" && r.wpLoginPhp == st.wpLoginPhp
    ensures st.uri != TemplateLoaderUri(store) ==> r.uri == st.uri
    ensures st.uri == TemplateLoaderUri(store) ==> r.uri == UserTrailingslashit(store, "/wp-login-php/")
  {
    var uri := if st.uri == TemplateLoaderUri(store) then UserTrailingslashit(store, "/wp-login-php/") else st.uri;
    RequestState(uri, "index.php", st.wpLoginPhp)
  }

  /** The request state after `wp_loaded`: only the template loader changes it. */
  function EnforceState(host: Host, store: OptionStore, req: Request, st: RequestState): RequestState {
    if EnforceOutcome(host, store, req, st) == NotFoundLoader then TemplateLoaderState(store, st) else st
  }

  // ---------------------------------------------------------------------
  // Properties of one request

  /**
   * The sentinel written by `plugins_loaded` starts with `/`, the URI the
   * template loader compares against starts with `-`: under either
   * trailing-slash policy they differ, so the loader's second rewrite
   * never fires for the sentinel.
   */
  lemma {:induction false} SentinelIsNotRewritten(store: OptionStore)
    ensures SentinelUri(store) != TemplateLoaderUri(store)
  {
    var body := Repeat("-/", 10);
    assert body == "-/" + Repeat("-/", 9);
    var sentinel := "/" + body;
    assert sentinel[1] == '-' && body[0] == '-';
    var u1 := Untrailingslashit(sentinel);
    var u2 := Untrailingslashit(body);
    assert |u1| > 1 && u1[0] == '/';
    assert |u2| > 0 && u2[0] == '-';
    var a := SentinelUri(store);
    var b := TemplateLoaderUri(store);
    assert a[0] == '/' && b[0] == '-';
  }

  /** Under any policy, the template loader leaves the sentinel URI in place. */
  lemma TemplateLoaderKeepsSentinel(store: OptionStore, st: RequestState)
    requires st.uri == SentinelUri(store)
    ensures TemplateLoaderState(store, st).uri == SentinelUri(store)
  {
    SentinelIsNotRewritten(store);
  }

  /** A URI naming the protected path is never classified as the alias, unless the request is an admin one. */
  lemma OriginalPrecedesAlias(host: Host, store: OptionStore, req: Request, uri: string)
    requires !req.isAdmin && Contains(uri, LoginToken)
    ensures ClassifyInbound(host, store, req, uri) in {SignupDisabled, TargetsOriginal}
  {
  }

  /**
   * A request classified as targeting the protected path never serves the
   * login form: it ends in the not-found template loader, with the sentinel
   * URI kept, or, after a failed re-activation named by the referer, in a
   * redirect to the alias URL. On a single site a referer with an
   * activation key makes `wp_loaded` call a function WordPress defines only
   * on multisite, a fatal error.
   */
  lemma {:induction false} DirectLoginRequestIsHidden(host: Host, store: OptionStore, req: Request, st: RequestState)
    requires ClassifyInbound(host, store, req, st.uri) == TargetsOriginal
    ensures var st1 := AfterInbound(store, TargetsOriginal, st);
            && EnforceOutcome(host, store, req, st1)
                 == (if ActivationFatal(host, req) then FatalError(UndefinedActivationMessage)
                     else if ActivationRetry(host, req) then Redirect(NewLoginUrl(host, store, None) + QuerySuffix(req))
                     else NotFoundLoader)
            && EnforceState(host, store, req, st1).uri == SentinelUri(store)
  {
    var st1 := AfterInbound(store, TargetsOriginal, st);
    if !ActivationFatal(host, req) && !ActivationRetry(host, req) {
      TemplateLoaderKeepsSentinel(store, st1);
    }
  }

  /**
   * A request classified as targeting the alias (and not stopped by the
   * admin guard) is served the login form, or, under a permalink structure
   * when its path is not canonical, redirected to the alias URL itself with
   * its query string kept.
   */
  lemma {:induction false} AliasRequestServesLogin(host: Host, store: OptionStore, req: Request, st: RequestState)
    requires ClassifyInbound(host, store, req, st.uri) == TargetsAlias
    requires !st.wpLoginPhp && !AdminGuard(req)
    ensures var st1 := AfterInbound(store, TargetsAlias, st);
            EnforceOutcome(host, store, req, st1)
              == if Truthy(PermalinkStructure(store)) && PathNotCanonical(host, store, st.uri)
                 then Redirect(NewLoginUrl(host, store, None) + QuerySuffix(req))
                 else ServeLogin
  {
    if Truthy(PermalinkStructure(store)) {
      AliasUrlIsCanonical(host, store, None);
    }
  }

  /** A path already in canonical form is not redirected again, so the canonical redirect cannot loop. */
  lemma {:induction false} CanonicalPathIsStable(host: Host, store: OptionStore, uri: string, p: string)
    requires host.parseUrlPath(uri) == Some(UserTrailingslashit(store, p))
    ensures !PathNotCanonical(host, store, uri)
  {
    UserTrailingslashitIdempotent(store, p);
  }

  /** The admin guard comes before every other decision of `wp_loaded`. */
  lemma AdminGuardComesFirst(host: Host, store: OptionStore, req: Request, st: RequestState)
    requires AdminGuard(req)
    ensures EnforceOutcome(host, store, req, st) == Forbidden(AdminLoginMessage)
  {
  }

  // ---------------------------------------------------------------------
  // Worked requests

  /** Clean permalinks: a request for `/<slug>/` is recognised as the alias. */
  lemma {:induction false} CleanAliasPathIsRecognised(host: Host, store: OptionStore, req: Request, uri: string)
    requires var slug := NewLoginSlug(host, store);
             && !IsSlash(slug[|slug| - 1])
             && host.parseUrlPath(uri) == Some("/" + slug + "/")
             && host.homeUrl(slug, Some("relative")) == "/" + slug
    requires !Contains(uri, "wp-signup") && !Contains(uri, "wp-activate") && !Contains(uri, LoginToken)
    requires host.siteUrl("wp-login", Some("relative")) != "/" + NewLoginSlug(host, store)
    ensures ClassifyInbound(host, store, req, uri) == TargetsAlias
  {
    var slug := NewLoginSlug(host, store);
    var p := "/" + slug + "/";
    assert p[..|p| - 1] == "/" + slug;
    UntrailedFixpoint("/" + slug);
    assert UntrailedPath(host, uri) == "/" + slug;
  }

  /** Query-string mode: `/?<slug>` (the slug as a key with an empty value) is recognised as the alias. */
  lemma QueryAliasIsRecognised(host: Host, store: OptionStore, req: Request, uri: string)
    requires !Truthy(PermalinkStructure(store))
    requires req.get == map[NewLoginSlug(host, store) := ""]
    requires !Contains(uri, "wp-signup") && !Contains(uri, "wp-activate") && !Contains(uri, LoginToken)
    requires UntrailedPath(host, uri) != host.siteUrl("wp-login", Some("relative"))
    ensures ClassifyInbound(host, store, req, uri) == TargetsAlias
  {
  }

  /** The option store of the worked examples: permalink structure `/%postname%/`, no slug set. */
  const PostnameStore := OptionStore(map[PermalinkOption := "/%postname%/"], map[])

  lemma PostnameStoreFacts()
    ensures PermalinkStructure(PostnameStore) == "/%postname%/"
    ensures UseTrailingSlashes(PostnameStore) && Truthy(PermalinkStructure(PostnameStore))
    ensures GetOption(PostnameStore, SlugOption) == None
  {
  }

  /** With that store on a single site whose home is `https://host/`, the alias URL is `https://host/login/`. */
  lemma {:induction false} PostnameAliasUrl(host: Host)
    requires !host.isMultisite && host.homeUrl("/", None) == "https://host/"
    ensures NewLoginUrl(host, PostnameStore, None) == "https://host/login/"
    ensures UserTrailingslashit(PostnameStore, NewLoginUrl(host, PostnameStore, None)) == "https://host/login/"
  {
    PostnameStoreFacts();
    assert NewLoginSlug(host, PostnameStore) == "login";
    UntrailedFixpoint("https://host/login");
    assert NewLoginUrl(host, PostnameStore, None) == Trailingslashit("https://host/" + "login");
    AliasUrlIsCanonical(host, PostnameStore, None);
  }

  /** With that store, the path `/login` is not canonical. */
  lemma {:induction false} PostnamePathNotCanonical(host: Host, uri: string)
    requires host.parseUrlPath(uri) == Some("/login")
    ensures PathNotCanonical(host, PostnameStore, uri)
  {
    PostnameStoreFacts();
    assert EndsWithSlash(UserTrailingslashit(PostnameStore, "/login"));
  }

  /**
   * Clean permalinks with a trailing slash, slug "login": an alias request
   * for `/login?foo=bar` is redirected to `https://host/login/?foo=bar`.
   */
  lemma {:induction false} TrailingSlashRedirectExample(host: Host, req: Request)
    requires !host.isMultisite
    requires host.homeUrl("/", None) == "https://host/"
    requires host.parseUrlPath("/login?foo=bar") == Some("/login")
    requires req.queryString == "foo=bar" && !AdminGuard(req)
    ensures var st := RequestState("/login?foo=bar", "wp-login.php", false);
            EnforceOutcome(host, PostnameStore, req, st) == Redirect("https://host/login/?foo=bar")
  {
    var st := RequestState("/login?foo=bar", "wp-login.php", false);
    PostnameStoreFacts();
    PostnameAliasUrl(host);
    PostnamePathNotCanonical(host, st.uri);
    assert CanonicalRedirect(host, PostnameStore, st);
    assert QuerySuffix(req) == "?foo=bar";
    assert "https://host/login/" + "?foo=bar" == "https://host/login/?foo=bar";
  }

  /** The URI `/wp-login.php` names the protected path and neither signup script. */
  lemma LoginScriptUriFacts()
    ensures Contains("/wp-login.php", LoginToken)
    ensures !Contains("/wp-login.php", "wp-signup") && !Contains("/wp-login.php", "wp-activate")
  {
    var uri := "/wp-login.php";
    assert uri[1..] == LoginToken;
    assert Contains(uri[1..], LoginToken);
    MissingCharExcludes(uri, "wp-signup", 'u');
    MissingCharExcludes(uri, "wp-activate", 'a');
  }

  /**
   * Without an activation referer, a request for `/wp-login.php` ends in
   * the not-found template loader.
   */
  lemma {:induction false} DirectLoginNotFoundExample(host: Host, store: OptionStore, req: Request, st: RequestState)
    requires st.uri == "/wp-login.php" && !req.isAdmin && req.referer == None
    ensures var c := ClassifyInbound(host, store, req, st.uri);
            && c == TargetsOriginal
            && EnforceOutcome(host, store, req, AfterInbound(store, c, st)) == NotFoundLoader
  {
    LoginScriptUriFacts();
    DirectLoginRequestIsHidden(host, store, req, st);
  }
}
