/**
 * The plugin object `Change_MyLogin` and the `all_plugins` filter
 * `cml_plugins_network`. The object's state is the option store it writes
 * through WordPress, its `wp_login_php` flag, and the two request globals
 * its hooks rewrite: `$_SERVER['REQUEST_URI']` and `$pagenow`.
 */
module Plugin {
  import opened Wrappers
  import opened PhpStrings
  import opened WordPress
  import opened LoginAlias
  import opened Routing

  /** Where `admin_init` sends the administrator right after activation. */
  function SettingsRedirect(host: Host, req: Request): string {
    if host.isMultisite && req.isSuperAdmin && host.networkActive then host.networkAdminUrl("settings.php#cml-page-input")
    else host.adminUrl("options-permalink.php#cml-page-input")
  }

  /** The option store after the slug part of `admin_init`. */
  function AfterSiteSubmission(host: Host, store: OptionStore, pagenow: string, posted: Option<string>): OptionStore {
    if posted.Some? && pagenow == "options-permalink.php" then SubmitSiteSlug(host, store, posted.value) else store
  }

  class ChangeMyLogin {
    const host: Host
    /** The options of the current site and of the network. */
    var options: OptionStore
    /** Set when the current request named the protected path. */
    var wpLoginPhp: bool
    /** `$_SERVER['REQUEST_URI']` */
    var requestUri: string
    /** The global `$pagenow` */
    var pagenow: string

    /** The per-request part of the state, as the Routing functions see it. */
    function State(): RequestState
      reads this
    {
      RequestState(requestUri, pagenow, wpLoginPhp)
    }

    /** The object as created for a request, before any hook has run. */
    constructor (host: Host, options: OptionStore, requestUri: string, pagenow: string)
      ensures this.host == host && this.options == options
      ensures State() == RequestState(requestUri, pagenow, false)
    {
      this.host := host;
      this.options := options;
      this.wpLoginPhp := false;
      this.requestUri := requestUri;
      this.pagenow := pagenow;
    }

    /**
     * `plugins_loaded`: stops signup and activation requests on a single
     * site with a 403; marks a request for the protected path and swaps its
     * URI for the sentinel; marks an alias request as a login request.
     */
    method PluginsLoaded(req: Request) returns (o: Outcome)
      modifies this
      ensures options == old(options)
      ensures var c := ClassifyInbound(host, old(options), req, old(requestUri));
              && o == (if c == SignupDisabled then Forbidden(SignupDisabledMessage) else PassThrough)
              && State() == AfterInbound(options, c, old(State()))
    {
      if !host.isMultisite && (Contains(requestUri, "wp-signup") || Contains(requestUri, "wp-activate")) {
        return Forbidden(SignupDisabledMessage);
      }
      var path := UntrailedPath(host, requestUri);
      var slug := NewLoginSlug(host, options);
      if (Contains(requestUri, LoginToken) || path == host.siteUrl("wp-login", Some("relative"))) && !req.isAdmin {
        wpLoginPhp := true;
        requestUri := UserTrailingslashit(options, "/" + Repeat("-/", 10));
        pagenow := "index.php";
      } else if path == host.homeUrl(slug, Some("relative"))
             || (!Truthy(PermalinkStructure(options)) && slug in req.get && !Truthy(req.get[slug])) {
        pagenow := "wp-login.php";
      }
      o := PassThrough;
    }

    /**
     * `wp_template_loader`: resets `$pagenow`, rewrites the URI when it is
     * the loader's own marker, and ends in the host's template loader.
     */
    method WpTemplateLoader() returns (o: Outcome)
      modifies this
      ensures options == old(options)
      ensures o == NotFoundLoader
      ensures State() == TemplateLoaderState(options, old(State()))
    {
      pagenow := "index.php";
      if requestUri == UserTrailingslashit(options, Repeat("-/", 10)) {
        requestUri := UserTrailingslashit(options, "/wp-login-php/");
      }
      o := NotFoundLoader;
    }

    /**
     * `wp_loaded`: the admin 403 guard, then the canonical trailing-slash
     * redirect of a login request, then for a request to the protected path
     * the activation-retry redirect or the not-found loader, then serving
     * the login form.
     */
    method WpLoaded(req: Request) returns (o: Outcome)
      modifies this
      ensures options == old(options)
      ensures o == EnforceOutcome(host, options, req, old(State()))
      ensures State() == EnforceState(host, options, req, old(State()))
    {
      if req.isAdmin && !req.isLoggedIn && !req.doingAjax {
        return Forbidden(AdminLoginMessage);
      }
      var path := host.parseUrlPath(requestUri);
      assert PathNotCanonical(host, options, requestUri) == (path.None? || path.value != UserTrailingslashit(options, path.value));
      if pagenow == "wp-login.php"
         && (path.None? || path.value != UserTrailingslashit(options, path.value))
         && Truthy(PermalinkStructure(options)) {
        o := Redirect(UserTrailingslashit(options, NewLoginUrl(host, options, None)) + QuerySuffix(req));
      } else if wpLoginPhp {
        o := ProtectedPath(req);
      } else if pagenow == "wp-login.php" {
        o := ServeLogin;
      } else {
        o := PassThrough;
      }
    }

    /**
     * The protected-path branch of `wp_loaded`: a referer naming an
     * activation key re-runs the activation (a fatal error on a single
     * site, where WordPress does not define the function), and a failure
     * because the account or site is already active redirects to the
     * alias; anything else ends in the template loader.
     */
    method ProtectedPath(req: Request) returns (o: Outcome)
      modifies this
      ensures options == old(options)
      ensures o == ProtectedPathOutcome(host, options, req)
      ensures State() == if o == NotFoundLoader then TemplateLoaderState(options, old(State())) else old(State())
    {
      // The referer test, up to the key `wpmu_activate_signup` would be given.
      var key: Option<string> := None;
      var referer := req.referer;
      if referer.Some? && Truthy(referer.value) && Contains(referer.value, "wp-activate.php") {
        var query := host.parseUrlQuery(referer.value);
        if query.Some? && Truthy(query.value) {
          var args := host.parseStr(query.value);
          if "key" in args && Truthy(args["key"]) {
            key := Some(args["key"]);
          }
        }
      }
      assert key == ActivationKey(host, req);
      if key.Some? {
        if !host.isMultisite {
          return FatalError(UndefinedActivationMessage);
        }
        var result := host.activateSignup(key.value);
        if result.ActivationError? && (result.code == "already_active" || result.code == "blog_taken") {
          return Redirect(NewLoginUrl(host, options, None) + QuerySuffix(req));
        }
      }
      o := WpTemplateLoader();
    }

    /**
     * The slug part of `admin_init`: a slug posted from the permalink
     * settings page is validated and stored (or, on multisite, dropped in
     * favour of an equal network default); then a pending post-activation
     * flag is cleared and the administrator redirected to the settings.
     */
    method AdminInit(req: Request, posted: Option<string>) returns (o: Outcome)
      modifies this
      ensures State() == old(State())
      ensures var submitted := AfterSiteSubmission(host, old(options), old(pagenow), posted);
              if Truthy(GetOption(submitted, RedirectOption).GetOr("")) then
                options == DeleteOption(submitted, RedirectOption) && o == Redirect(SettingsRedirect(host, req))
              else
                options == submitted && o == PassThrough
    {
      if posted.Some? && pagenow == "options-permalink.php" {
        var slug := host.sanitizeTitle(posted.value);
        if Truthy(slug) && !Contains(slug, "wp-login") && slug !in ForbiddenSlugs(host) {
          if host.isMultisite && slug == GetSiteOption(options, SlugOption, DefaultSlug) {
            options := DeleteOption(options, SlugOption);
          } else {
            options := UpdateOption(options, SlugOption, slug);
          }
        }
      }
      var pending := GetOption(options, RedirectOption);
      if pending.Some? && Truthy(pending.value) {
        options := DeleteOption(options, RedirectOption);
        var target;
        if host.isMultisite && req.isSuperAdmin && host.networkActive {
          target := host.networkAdminUrl("settings.php#cml-page-input");
        } else {
          target := host.adminUrl("options-permalink.php#cml-page-input");
        }
        return Redirect(target);
      }
      o := PassThrough;
    }

    /**
     * `update_wpmu_options`: a validated network-wide default slug is
     * stored; an unset field is read as the empty string.
     */
    method UpdateWpmuOptions(posted: Option<string>)
      modifies this
      ensures State() == old(State())
      ensures options == SubmitNetworkSlug(host, old(options), posted.GetOr(""))
    {
      var slug := host.sanitizeTitle(posted.GetOr(""));
      if Truthy(slug) && !Contains(slug, "wp-login") && slug !in ForbiddenSlugs(host) {
        options := UpdateSiteOption(options, SlugOption, slug);
      }
    }
  }

  /** The plugin's own entry in the list of installed plugins. */
  const PluginFile := "change-mylogin/change-mylogin.php"

  /**
   * `cml_plugins_network`: the plugin list without the plugin's own entry,
   * the other entries kept in order.
   */
  function PluginsNetwork<V(==)>(plugins: seq<(string, V)>): (r: seq<(string, V)>)
    ensures forall i :: 0 <= i < |r| ==> r[i] in plugins && r[i].0 != PluginFile
    ensures forall i :: 0 <= i < |plugins| && plugins[i].0 != PluginFile ==> plugins[i] in r
    ensures |r| <= |plugins|
  {
    if plugins == [] then []
    else if plugins[0].0 == PluginFile then PluginsNetwork(plugins[1..])
    else [plugins[0]] + PluginsNetwork(plugins[1..])
  }

  /** A list without the plugin's entry is returned unchanged. */
  lemma {:induction false} PluginsNetworkKeepsOthers<V>(plugins: seq<(string, V)>)
    requires forall i :: 0 <= i < |plugins| ==> plugins[i].0 != PluginFile
    ensures PluginsNetwork(plugins) == plugins
  {
    if plugins != [] {
      PluginsNetworkKeepsOthers(plugins[1..]);
      assert [plugins[0]] + plugins[1..] == plugins;
    }
  }

  /** The filter works entry by entry, so it keeps the order of what it keeps. */
  lemma {:induction false} PluginsNetworkAppend<V>(a: seq<(string, V)>, b: seq<(string, V)>)
    ensures PluginsNetwork(a + b) == PluginsNetwork(a) + PluginsNetwork(b)
  {
    if a == [] {
      assert a + b == b;
    } else {
      assert (a + b)[0] == a[0] && (a + b)[1..] == a[1..] + b;
      PluginsNetworkAppend(a[1..], b);
      assert [a[0]] + (PluginsNetwork(a[1..]) + PluginsNetwork(b)) == ([a[0]] + PluginsNetwork(a[1..])) + PluginsNetwork(b);
    }
  }

  /**
   * `unset` of the plugin's one entry: the entries before it and after it
   * are kept, in order, and nothing else is removed.
   */
  lemma {:induction false} PluginsNetworkRemovesEntry<V>(plugins: seq<(string, V)>, j: nat)
    requires j < |plugins| && plugins[j].0 == PluginFile
    requires forall i :: 0 <= i < |plugins| && i != j ==> plugins[i].0 != PluginFile
    ensures PluginsNetwork(plugins) == plugins[..j] + plugins[j + 1..]
  {
    assert plugins == plugins[..j] + ([plugins[j]] + plugins[j + 1..]);
    PluginsNetworkAppend(plugins[..j], [plugins[j]] + plugins[j + 1..]);
    PluginsNetworkKeepsOthers(plugins[..j]);
    PluginsNetworkKeepsOthers(plugins[j + 1..]);
    assert ([plugins[j]] + plugins[j + 1..])[1..] == plugins[j + 1..];
  }

  /** Filtering twice is the same as filtering once. */
  lemma PluginsNetworkIdempotent<V>(plugins: seq<(string, V)>)
    ensures PluginsNetwork(PluginsNetwork(plugins)) == PluginsNetwork(plugins)
  {
    PluginsNetworkKeepsOthers(PluginsNetwork(plugins));
  }

  /**
   * One whole request through the object: `plugins_loaded`, then (unless it
   * stopped the request) `wp_loaded`. A request that names the protected
   * path from outside the admin area is never served the login form.
   */
  method HandleRequest(p: ChangeMyLogin, req: Request) returns (o: Outcome)
    requires !p.wpLoginPhp
    modifies p
    ensures p.options == old(p.options)
    ensures !req.isAdmin && Contains(old(p.requestUri), LoginToken) ==> o != ServeLogin
    ensures ClassifyInbound(p.host, p.options, req, old(p.requestUri)) == TargetsAlias && !AdminGuard(req)
            ==> o == ServeLogin || o == Redirect(NewLoginUrl(p.host, p.options, None) + QuerySuffix(req))
  {
    ghost var st0 := p.State();
    o := p.PluginsLoaded(req);
    if o == PassThrough {
      ghost var c := ClassifyInbound(p.host, p.options, req, st0.uri);
      if c == TargetsOriginal {
        DirectLoginRequestIsHidden(p.host, p.options, req, st0);
      } else if c == TargetsAlias && !AdminGuard(req) {
        AliasRequestServesLogin(p.host, p.options, req, st0);
      }
      o := p.WpLoaded(req);
    }
  }
}
