/**
 * The pure members of `Change_MyLogin`: the trailing-slash policy, the
 * choice of login slug, the alias URL, slug validation on a settings
 * submission, the outbound URL filter and the welcome-email substitution.
 * Each reads the option store and the host but changes nothing.
 */
module LoginAlias {
  import opened Wrappers
  import opened PhpStrings
  import opened WordPress

  /** The protected path the plugin hides. */
  const LoginToken := "wp-login.php"
  /** The literal fallback slug. */
  const DefaultSlug := "login"

  // ---------------------------------------------------------------------
  // Trailing-slash policy

  /** `use_trailing_slashes`: the permalink structure ends in `/`. */
  predicate UseTrailingSlashes(store: OptionStore) {
    EndsWithSlash(PermalinkStructure(store))
  }

  /**
   * `user_trailingslashit`: the string with its trailing slashes replaced
   * by exactly one `/` or by none, following the permalink structure.
   */
  function UserTrailingslashit(store: OptionStore, s: string): (r: string)
    ensures EndsWithSlash(r) <==> UseTrailingSlashes(store)
    ensures Untrailingslashit(r) == Untrailingslashit(s)
    ensures |r| == |Untrailingslashit(s)| + (if UseTrailingSlashes(store) then 1 else 0)
  {
    UntrailTrailed(s);
    UntrailingslashitIdempotent(s);
    if UseTrailingSlashes(store) then Trailingslashit(s) else Untrailingslashit(s)
  }

  /** Applying the policy twice is the same as applying it once. */
  lemma {:induction false} UserTrailingslashitIdempotent(store: OptionStore, s: string)
    ensures UserTrailingslashit(store, UserTrailingslashit(store, s)) == UserTrailingslashit(store, s)
  {
    if UseTrailingSlashes(store) {
      TrailingslashitIdempotent(s);
    } else {
      UntrailingslashitIdempotent(s);
    }
  }

  // ---------------------------------------------------------------------
  // Slug and alias URL

  /**
   * `new_login_slug`: the site's own slug when it is set and truthy; else,
   * on a multisite install where the plugin is network-activated, the
   * network default (itself defaulting to "login") when truthy; else "login".
   */
  function NewLoginSlug(host: Host, store: OptionStore): (r: string)
    ensures Truthy(r)
    ensures r == DefaultSlug
         || (SlugOption in store.site && r == store.site[SlugOption])
         || (host.isMultisite && host.networkActive && SlugOption in store.network && r == store.network[SlugOption])
  {
    var site := GetOption(store, SlugOption);
    if site.Some? && Truthy(site.value) then site.value
    else if host.isMultisite && host.networkActive && Truthy(GetSiteOption(store, SlugOption, DefaultSlug)) then
      GetSiteOption(store, SlugOption, DefaultSlug)
    else DefaultSlug
  }

  /** A truthy per-site slug always wins. */
  lemma SiteSlugWins(host: Host, store: OptionStore)
    requires SlugOption in store.site && Truthy(store.site[SlugOption])
    ensures NewLoginSlug(host, store) == store.site[SlugOption]
  {
  }

  /** The network default is consulted only for a network-activated plugin on a multisite install. */
  lemma NetworkSlugNeedsNetworkActivation(host: Host, store: OptionStore)
    requires !(host.isMultisite && host.networkActive)
    ensures NewLoginSlug(host, store) == (
      if SlugOption in store.site && Truthy(store.site[SlugOption]) then store.site[SlugOption] else DefaultSlug)
  {
  }

  /**
   * On a multisite install where the plugin is network-activated and the
   * site has no truthy slug of its own, the network default is the slug
   * when it is truthy (a missing one reads as "login"), and "login" otherwise.
   */
  lemma NetworkSlugWhenNetworkActive(host: Host, store: OptionStore)
    requires host.isMultisite && host.networkActive
    requires !(SlugOption in store.site && Truthy(store.site[SlugOption]))
    ensures var network := GetSiteOption(store, SlugOption, DefaultSlug);
            NewLoginSlug(host, store) == if Truthy(network) then network else DefaultSlug
  {
  }

  /**
   * `new_login_url($scheme)`: with a permalink structure, `home/slug` under
   * the trailing-slash policy; without one, `home/?slug`.
   */
  function NewLoginUrl(host: Host, store: OptionStore, scheme: Option<string>): (r: string)
    ensures Truthy(PermalinkStructure(store)) ==>
              (EndsWithSlash(r) <==> UseTrailingSlashes(store))
              && Untrailingslashit(r) == Untrailingslashit(host.homeUrl("/", scheme) + NewLoginSlug(host, store))
    ensures Truthy(PermalinkStructure(store)) ==>
              |r| == |Untrailingslashit(host.homeUrl("/", scheme) + NewLoginSlug(host, store))|
                     + (if UseTrailingSlashes(store) then 1 else 0)
    ensures !Truthy(PermalinkStructure(store)) ==>
              r == host.homeUrl("/", scheme) + "?" + NewLoginSlug(host, store)
  {
    if Truthy(PermalinkStructure(store)) then
      UserTrailingslashit(store, host.homeUrl("/", scheme) + NewLoginSlug(host, store))
    else
      host.homeUrl("/", scheme) + "?" + NewLoginSlug(host, store)
  }

  /**
   * In clean permalink mode the alias URL is already in its trailing-slash
   * canonical form, so the canonical redirect of `wp_loaded` targets the
   * alias URL itself.
   */
  lemma {:induction false} AliasUrlIsCanonical(host: Host, store: OptionStore, scheme: Option<string>)
    requires Truthy(PermalinkStructure(store))
    ensures UserTrailingslashit(store, NewLoginUrl(host, store, scheme)) == NewLoginUrl(host, store, scheme)
  {
    UserTrailingslashitIdempotent(store, host.homeUrl("/", scheme) + NewLoginSlug(host, store));
  }

  // ---------------------------------------------------------------------
  // Slug validation on a settings submission

  /** `forbidden_slugs`: the host's public and private query variables, in that order. */
  function ForbiddenSlugs(host: Host): (r: seq<string>)
    ensures |r| == |host.publicQueryVars| + |host.privateQueryVars|
    ensures forall v :: v in r <==> v in host.publicQueryVars || v in host.privateQueryVars
  {
    host.publicQueryVars + host.privateQueryVars
  }

  /** A slug that may be stored: no `wp-login` in it and not a query variable. */
  predicate SafeSlug(host: Host, v: string) {
    !Contains(v, "wp-login") && v !in ForbiddenSlugs(host)
  }

  /** The test `admin_init` and `update_wpmu_options` apply to a sanitised submission. */
  predicate AcceptableSlug(host: Host, v: string) {
    Truthy(v) && SafeSlug(host, v)
  }

  /**
   * The option-store effect of a per-site submission in `admin_init`: an
   * acceptable value is stored, except that on multisite a value equal to
   * the network default deletes the site's own slug instead.
   */
  function SubmitSiteSlug(host: Host, store: OptionStore, posted: string): (r: OptionStore)
    ensures r.network == store.network
    ensures forall k :: k != SlugOption ==> GetOption(r, k) == GetOption(store, k)
    ensures !AcceptableSlug(host, host.sanitizeTitle(posted)) ==> r == store
    ensures AcceptableSlug(host, host.sanitizeTitle(posted))
            && host.isMultisite && host.sanitizeTitle(posted) == GetSiteOption(store, SlugOption, DefaultSlug)
            ==> GetOption(r, SlugOption) == None
    ensures AcceptableSlug(host, host.sanitizeTitle(posted))
            && !(host.isMultisite && host.sanitizeTitle(posted) == GetSiteOption(store, SlugOption, DefaultSlug))
            ==> GetOption(r, SlugOption) == Some(host.sanitizeTitle(posted))
  {
    var v := host.sanitizeTitle(posted);
    if AcceptableSlug(host, v) then
      if host.isMultisite && v == GetSiteOption(store, SlugOption, DefaultSlug) then
        DeleteOption(store, SlugOption)
      else
        UpdateOption(store, SlugOption, v)
    else
      store
  }

  /** The option-store effect of `update_wpmu_options`: an acceptable value becomes the network default. */
  function SubmitNetworkSlug(host: Host, store: OptionStore, posted: string): (r: OptionStore)
    ensures r.site == store.site
    ensures forall k, d :: k != SlugOption ==> GetSiteOption(r, k, d) == GetSiteOption(store, k, d)
    ensures AcceptableSlug(host, host.sanitizeTitle(posted)) ==> GetSiteOption(r, SlugOption, DefaultSlug) == host.sanitizeTitle(posted)
    ensures !AcceptableSlug(host, host.sanitizeTitle(posted)) ==> r == store
  {
    var v := host.sanitizeTitle(posted);
    if AcceptableSlug(host, v) then UpdateSiteOption(store, SlugOption, v) else store
  }

  /** Every slug stored in either scope is safe. */
  predicate StoredSlugsSafe(host: Host, store: OptionStore) {
    && (SlugOption in store.site ==> SafeSlug(host, store.site[SlugOption]))
    && (SlugOption in store.network ==> SafeSlug(host, store.network[SlugOption]))
  }

  /** Neither kind of submission can store an unsafe slug. */
  lemma SubmissionsKeepSlugsSafe(host: Host, store: OptionStore, posted: string)
    requires StoredSlugsSafe(host, store)
    ensures StoredSlugsSafe(host, SubmitSiteSlug(host, store, posted))
    ensures StoredSlugsSafe(host, SubmitNetworkSlug(host, store, posted))
  {
  }

  /** With safe stored slugs (and a safe fallback), the slug in use is safe. */
  lemma LoginSlugIsSafe(host: Host, store: OptionStore)
    requires StoredSlugsSafe(host, store)
    requires DefaultSlug !in ForbiddenSlugs(host)
    ensures SafeSlug(host, NewLoginSlug(host, store))
  {
  }

  /**
   * An accepted per-site submission becomes the login slug, except in one
   * case: on a multisite install where the plugin is not network-activated,
   * a value equal to a stored network default other than "login" deletes
   * the site's slug, and the fallback "login" takes over.
   */
  lemma SubmittedSlugTakesEffect(host: Host, store: OptionStore, posted: string)
    requires AcceptableSlug(host, host.sanitizeTitle(posted))
    requires !host.isMultisite || host.networkActive || host.sanitizeTitle(posted) == DefaultSlug
             || host.sanitizeTitle(posted) != GetSiteOption(store, SlugOption, DefaultSlug)
    ensures NewLoginSlug(host, SubmitSiteSlug(host, store, posted)) == host.sanitizeTitle(posted)
  {
  }

  /** The exception to `SubmittedSlugTakesEffect`, stated on its own. */
  lemma DeletedOverrideFallsBackToDefault(host: Host, store: OptionStore, posted: string)
    requires AcceptableSlug(host, host.sanitizeTitle(posted))
    requires host.isMultisite && !host.networkActive
    requires host.sanitizeTitle(posted) == GetSiteOption(store, SlugOption, DefaultSlug)
    ensures NewLoginSlug(host, SubmitSiteSlug(host, store, posted)) == DefaultSlug
  {
  }

  // ---------------------------------------------------------------------
  // Outbound rewriting

  /** The scheme `filter_wp_login_php` builds the alias URL with: https on an SSL request. */
  function AliasScheme(isSsl: bool, scheme: Option<string>): Option<string> {
    if isSsl then Some("https") else scheme
  }

  /**
   * `filter_wp_login_php($url, $scheme)`: a URL naming `wp-login.php`
   * becomes the alias URL, with the arguments of its query part (the text
   * between the first and the second `?`) merged onto it; any other URL is
   * returned as it is.
   */
  function FilterWpLoginPhp(host: Host, store: OptionStore, isSsl: bool, url: string, scheme: Option<string>): (r: string)
    ensures !Contains(url, LoginToken) ==> r == url
    ensures Contains(url, LoginToken) && '?' !in url ==> r == NewLoginUrl(host, store, AliasScheme(isSsl, scheme))
    ensures Contains(url, LoginToken) && '?' in url ==>
              r == host.addQueryArg(host.parseStr(SecondPiece(url, '?').value), NewLoginUrl(host, store, AliasScheme(isSsl, scheme)))
  {
    if Contains(url, LoginToken) then
      var alias := NewLoginUrl(host, store, AliasScheme(isSsl, scheme));
      match SecondPiece(url, '?')
      case Some(query) => host.addQueryArg(host.parseStr(query), alias)
      case None => alias
    else
      url
  }

  /** The `site_url` filter: the URL and scheme go through `filter_wp_login_php`; path and blog id are ignored. */
  function SiteUrl(host: Host, store: OptionStore, req: Request, url: string, path: string, scheme: Option<string>, blogId: int): (r: string)
    ensures !Contains(url, LoginToken) ==> r == url
    ensures Contains(url, LoginToken) && '?' !in url ==>
              r == NewLoginUrl(host, store, if req.isSsl then Some("https") else scheme)
    ensures Contains(url, LoginToken) && '?' in url ==>
              r == host.addQueryArg(host.parseStr(SecondPiece(url, '?').value),
                                    NewLoginUrl(host, store, if req.isSsl then Some("https") else scheme))
  {
    FilterWpLoginPhp(host, store, req.isSsl, url, scheme)
  }

  /** The `network_site_url` filter: as `site_url`, without a blog id. */
  function NetworkSiteUrl(host: Host, store: OptionStore, req: Request, url: string, path: string, scheme: Option<string>): (r: string)
    ensures !Contains(url, LoginToken) ==> r == url
    ensures Contains(url, LoginToken) && '?' !in url ==>
              r == NewLoginUrl(host, store, if req.isSsl then Some("https") else scheme)
    ensures Contains(url, LoginToken) && '?' in url ==>
              r == host.addQueryArg(host.parseStr(SecondPiece(url, '?').value),
                                    NewLoginUrl(host, store, if req.isSsl then Some("https") else scheme))
  {
    FilterWpLoginPhp(host, store, req.isSsl, url, scheme)
  }

  /** The `wp_redirect` filter: the location is filtered with a null scheme; the status is ignored. */
  function WpRedirect(host: Host, store: OptionStore, req: Request, location: string, status: int): (r: string)
    ensures !Contains(location, LoginToken) ==> r == location
    ensures Contains(location, LoginToken) && '?' !in location ==>
              r == NewLoginUrl(host, store, if req.isSsl then Some("https") else None)
    ensures Contains(location, LoginToken) && '?' in location ==>
              r == host.addQueryArg(host.parseStr(SecondPiece(location, '?').value),
                                    NewLoginUrl(host, store, if req.isSsl then Some("https") else None))
  {
    FilterWpLoginPhp(host, store, req.isSsl, location, None)
  }

  /**
   * The alias URL never names `wp-login.php` when the home root is a
   * `/`-terminated URL without it and the slug is safe: `/` and `?` cannot
   * be part of `wp-login.php`, so no occurrence can straddle the joins.
   */
  lemma {:induction false} AliasUrlAvoidsToken(host: Host, store: OptionStore, scheme: Option<string>)
    requires EndsWithSlash(host.homeUrl("/", scheme)) && !Contains(host.homeUrl("/", scheme), LoginToken)
    requires !Contains(NewLoginSlug(host, store), "wp-login")
    ensures !Contains(NewLoginUrl(host, store, scheme), LoginToken)
  {
    var home := host.homeUrl("/", scheme);
    var slug := NewLoginSlug(host, store);
    assert LoginToken == "wp-login" + ".php";
    NoLongerNeedle(slug, "wp-login", ".php");
    if Truthy(PermalinkStructure(store)) {
      var root := home[..|home| - 1];
      NoOccurrenceInPrefix(home, |home| - 1, LoginToken);
      NoOccurrenceAcrossSeparator(root, '/', slug, LoginToken);
      var joined := home + slug;
      assert joined == root + ['/'] + slug;
      var stripped := Untrailingslashit(joined);
      NoOccurrenceInPrefix(joined, |stripped|, LoginToken);
      assert joined[..|stripped|] == stripped;
      if UseTrailingSlashes(store) {
        NothingInEmpty(LoginToken);
        NoOccurrenceAcrossSeparator(stripped, '/', "", LoginToken);
        assert Trailingslashit(joined) == stripped + ['/'] + "";
      }
    } else {
      NoOccurrenceAcrossSeparator(home, '?', slug, LoginToken);
      assert home + "?" + slug == home + ['?'] + slug;
    }
  }

  /**
   * The filter does what it is for: once the alias URL avoids `wp-login.php`
   * and, for a URL with a query part, the host's merge of that query onto
   * the alias avoids it too, no filtered URL names `wp-login.php`.
   */
  lemma {:induction false} FilterRemovesToken(host: Host, store: OptionStore, isSsl: bool, url: string, scheme: Option<string>)
    requires EndsWithSlash(host.homeUrl("/", AliasScheme(isSsl, scheme)))
    requires !Contains(host.homeUrl("/", AliasScheme(isSsl, scheme)), LoginToken)
    requires !Contains(NewLoginSlug(host, store), "wp-login")
    requires SecondPiece(url, '?').Some? ==>
               !Contains(host.addQueryArg(host.parseStr(SecondPiece(url, '?').value),
                                          NewLoginUrl(host, store, AliasScheme(isSsl, scheme))), LoginToken)
    ensures !Contains(FilterWpLoginPhp(host, store, isSsl, url, scheme), LoginToken)
  {
    AliasUrlAvoidsToken(host, store, AliasScheme(isSsl, scheme));
  }

  /**
   * Rewriting is idempotent once the alias URL avoids `wp-login.php` and,
   * for a URL with a query part, the host's merge of that query onto the
   * alias avoids it too: a second pass leaves the result alone.
   */
  lemma {:induction false} FilterIdempotent(host: Host, store: OptionStore, isSsl: bool, url: string, scheme: Option<string>)
    requires EndsWithSlash(host.homeUrl("/", AliasScheme(isSsl, scheme)))
    requires !Contains(host.homeUrl("/", AliasScheme(isSsl, scheme)), LoginToken)
    requires !Contains(NewLoginSlug(host, store), "wp-login")
    requires SecondPiece(url, '?').Some? ==>
               !Contains(host.addQueryArg(host.parseStr(SecondPiece(url, '?').value),
                                          NewLoginUrl(host, store, AliasScheme(isSsl, scheme))), LoginToken)
    ensures var once := FilterWpLoginPhp(host, store, isSsl, url, scheme);
            FilterWpLoginPhp(host, store, isSsl, once, scheme) == once
  {
    FilterRemovesToken(host, store, isSsl, url, scheme);
  }

  // ---------------------------------------------------------------------
  // Welcome email

  /**
   * `welcome_email`: every `wp-login.php` in the network's welcome text
   * becomes the network slug with one trailing `/`; the rest is kept.
   */
  function WelcomeEmail(store: OptionStore, value: string): (r: string)
    ensures !Contains(value, LoginToken) ==> r == value
    ensures |r| == |value| + Occurrences(value, LoginToken)
                    * (|Trailingslashit(GetSiteOption(store, SlugOption, DefaultSlug))| - |LoginToken|)
  {
    var replacement := Trailingslashit(GetSiteOption(store, SlugOption, DefaultSlug));
    ReplaceAllLength(value, LoginToken, replacement);
    if Contains(value, LoginToken) then
      ReplaceAll(value, LoginToken, replacement)
    else
      ReplaceAllWithoutOccurrence(value, LoginToken, replacement);
      ReplaceAll(value, LoginToken, replacement)
  }

  /**
   * The replacement, occurrence by occurrence: text before the first
   * `wp-login.php` is kept, that occurrence becomes the trailing-slashed
   * network slug, and the rest of the text is treated the same way.
   * With the no-occurrence case of `WelcomeEmail` this fixes every result.
   */
  lemma {:induction false} WelcomeEmailReplacesFirst(store: OptionStore, a: string, b: string)
    requires !Contains(a + LoginToken[..|LoginToken| - 1], LoginToken)
    ensures WelcomeEmail(store, a + LoginToken + b)
            == a + Trailingslashit(GetSiteOption(store, SlugOption, DefaultSlug)) + WelcomeEmail(store, b)
  {
    ReplaceAllAtFirst(a, LoginToken, b, Trailingslashit(GetSiteOption(store, SlugOption, DefaultSlug)));
  }

  /** The first `wp-login.php` of `wp-login.wp-login.php` starts after `wp-login.`. */
  lemma {:induction false} DoubledTokenFacts()
    ensures !Contains("wp-login." + LoginToken[..|LoginToken| - 1], LoginToken)
    ensures "wp-login." + LoginToken + "" == "wp-login.wp-login.php"
  {
    var x := "wp-login." + LoginToken[..|LoginToken| - 1];
    assert x == "wp-login.wp-login.ph";
    assert '.' !in x[9..17];
    forall k: nat | k + |LoginToken| <= |x|
      ensures Window(x, k, |LoginToken|) != LoginToken
    {
      if k == 0 {
        assert Window(x, k, |LoginToken|)[9] != LoginToken[9];
      } else {
        assert x[k + 8] in x[9..17];
        assert Window(x, k, |LoginToken|)[8] != LoginToken[8];
      }
    }
    NoWindowMatches(x, LoginToken);
  }

  /**
   * A replacement can itself complete a `wp-login.php`: with the network
   * slug "php", the text `wp-login.wp-login.php` becomes `wp-login.php/`.
   * So even a slug without `wp-login` does not rule the token out of the
   * substituted text.
   */
  lemma {:induction false} WelcomeEmailCanLeaveToken(store: OptionStore)
    requires GetSiteOption(store, SlugOption, DefaultSlug) == "php"
    ensures WelcomeEmail(store, "wp-login.wp-login.php") == "wp-login.php/"
    ensures Contains(WelcomeEmail(store, "wp-login.wp-login.php"), LoginToken)
  {
    DoubledTokenFacts();
    PhpSlugFacts(store);
    WelcomeEmailReplacesFirst(store, "wp-login.", "");
    TokenStartsSlashedAlias();
  }

  /** The network slug "php" is replaced as `php/`; empty text stays empty. */
  lemma PhpSlugFacts(store: OptionStore)
    requires GetSiteOption(store, SlugOption, DefaultSlug) == "php"
    ensures Trailingslashit(GetSiteOption(store, SlugOption, DefaultSlug)) == "php/"
    ensures WelcomeEmail(store, "") == ""
  {
    UntrailedFixpoint("php");
  }

  /** `wp-login.` followed by `php/` is `wp-login.php/`, which starts with the token. */
  lemma TokenStartsSlashedAlias()
    ensures "wp-login." + "php/" + "" == "wp-login.php/"
    ensures Contains("wp-login.php/", LoginToken)
  {
    var r := "wp-login.php/";
    assert r[..|LoginToken|] == LoginToken;
  }
}
