# Change My Login — a Dafny model

Change My Login is a WordPress plugin that hides `wp-login.php` behind a
configurable slug (the alias, `login` by default). A request for the
protected path is made to look like any unknown page (the host's not-found
template). The alias serves the login form. Every URL WordPress generates
for `wp-login.php` is rewritten to the alias.

This project models the plugin's single class `Change_MyLogin` and its
`all_plugins` filter, and proves properties of the model:

- `wrappers.dfy` — `Option`, for PHP's `false`/`null` results.
- `php_strings.dfy` (module `PhpStrings`) — the string primitives the plugin
  is built from:
  - PHP string truthiness (only `""` and `"0"` are false);
  - `strpos(...) !== false` as `Contains`;
  - WordPress's `untrailingslashit`/`trailingslashit`;
  - `str_repeat`, `str_replace`, and the second piece of `explode('?', ...)`;
  - substring lemmas used by the proofs.
- `wordpress.dfy` (module `WordPress`) — the host as the plugin sees it:
  - the option store (site options and network options);
  - the request (`$_GET`, `QUERY_STRING`, admin, login, AJAX, super-admin
    and SSL flags, referer);
  - the host functions, as function-valued fields of a `Host` value;
  - the terminal outcomes of a request: `Forbidden`, `Redirect`,
    `ServeLogin`, `NotFoundLoader`, `FatalError`, or `PassThrough` when the
    hook lets the host carry on.
- `login_alias.dfy` (module `LoginAlias`) — the pure members of the class:
  - the trailing-slash policy;
  - the choice of slug and the alias URL;
  - slug validation on a settings submission;
  - the outbound URL filter and its three wrappers;
  - the welcome-email substitution.
- `routing.dfy` (module `Routing`) — what the request hooks decide, as
  functions:
  - the inbound classifier (`plugins_loaded`);
  - the enforcer (`wp_loaded`);
  - `wp_template_loader`'s state change;
  - lemmas that follow one request from the classifier to its end.
- `plugin.dfy` (module `Plugin`) — class `ChangeMyLogin`, whose fields are
  the option store, the `wp_login_php` flag, `$_SERVER['REQUEST_URI']` and
  `$pagenow`. Its hook methods change those fields in place. Each one is
  proved against the functions of `Routing` and `LoginAlias`. The module
  also holds `cml_plugins_network` and `HandleRequest`, which runs the two
  request hooks in the order WordPress calls them.

Two behaviours are modelled exactly as written:

- **The sentinel URI.** For a request to the protected path,
  `plugins_loaded` writes `'/' . str_repeat('-/', 10)` (trailing-slash
  policy applied) into `REQUEST_URI` (change-mylogin.php:281).
  `wp_template_loader` compares `REQUEST_URI` with
  `str_repeat('-/', 10)`, which has no leading `/` (change-mylogin.php:43).
  So its rewrite to `/wp-login-php/` never fires for that sentinel.
  `Routing.SentinelIsNotRewritten` proves this.
- **Submitting a slug equal to the network default (multisite).** A per-site
  submission equal to the stored network default deletes the site's own
  slug. When the plugin is not network-activated, the network default is
  never consulted afterwards, so the slug falls back to `login`.
  `LoginAlias.DeletedOverrideFallsBackToDefault` states this case.
  `LoginAlias.SubmittedSlugTakesEffect` states every other case.

Where a general account of the plugin and its code differ, the model
follows the code:

- The classifier looks for `wp-login.php` anywhere in `REQUEST_URI`, query
  included. It also compares the untrailed path with
  `site_url('wp-login', 'relative')`.
- The protected-path branch is skipped for admin requests. Such a request
  can then still match the alias.
- The canonical redirect of `wp_loaded` fires on `$pagenow === 'wp-login.php'`,
  not on a separate "alias" decision. It also fires when the URI has no
  path at all.
- Validation rejects any slug containing `wp-login`, which is stricter than
  rejecting `wp-login.php`. Validation also rejects the falsy slug `"0"`.
- The outbound rewrite is idempotent only under conditions on the host.
  `LoginAlias.FilterIdempotent` gives those conditions.
- `wp_loaded` calls `wpmu_activate_signup` for an activation key in the
  referer without checking for multisite. WordPress defines that function
  only on multisite installs, so on a single site such a request ends in a
  PHP fatal error. The model has an outcome for this: `FatalError`.
- The welcome-email substitution does not guarantee that `wp-login.php` is
  gone afterwards: a replacement can complete a new occurrence with the
  text before it. `LoginAlias.WelcomeEmailCanLeaveToken` shows one case.

## Model

| member | source | states |
|---|---|---|
| `LoginAlias.UserTrailingslashit` | change-mylogin.php:24-30 | the result is the input without its trailing slashes, followed by exactly one `/` when the permalink structure ends in `/` and by nothing otherwise |
| `LoginAlias.UserTrailingslashitIdempotent` | change-mylogin.php:28-30 | applying the trailing-slash policy twice gives the same as applying it once |
| `LoginAlias.NewLoginSlug` | change-mylogin.php:52-63 | the slug is never falsy (never `""` or `"0"`); it is `login`, the site's slug, or the network slug, and the network slug only on a multisite install with the plugin network-activated |
| `LoginAlias.SiteSlugWins` | change-mylogin.php:53-54 | a truthy per-site slug is always the slug in use |
| `LoginAlias.NetworkSlugNeedsNetworkActivation` | change-mylogin.php:53-59 | unless multisite and network-activated, the slug is the truthy site slug or else `login` |
| `LoginAlias.NetworkSlugWhenNetworkActive` | change-mylogin.php:55-59 | on a network-activated multisite install with no truthy site slug, the slug is the network option (missing reads as `login`) when truthy, and `login` otherwise |
| `LoginAlias.NewLoginUrl` | change-mylogin.php:65-71 | with a truthy permalink structure, the alias URL is home + slug without its trailing slashes, followed by exactly one `/` when the structure ends in `/` and by nothing otherwise; without one it is `home/?slug` |
| `LoginAlias.AliasUrlIsCanonical` | change-mylogin.php:65-71 | in clean permalink mode the alias URL is its own trailing-slash canonical form |
| `LoginAlias.ForbiddenSlugs` | change-mylogin.php:375-378 | a value is forbidden exactly when it is a public or a private query variable of the host |
| `LoginAlias.SubmitSiteSlug` | change-mylogin.php:180-192 | an unacceptable sanitised value leaves the store unchanged; on multisite a value equal to the network default (missing reads as `login`) deletes the site slug; any other acceptable value is stored as the site slug; other site options and all network options never change |
| `LoginAlias.SubmitNetworkSlug` | change-mylogin.php:152-160 | an acceptable sanitised value becomes the network default, anything else leaves the store unchanged; site options and other network options never change |
| `LoginAlias.SubmissionsKeepSlugsSafe` | change-mylogin.php:152-192 | no submission can store a slug that contains `wp-login` or is a query variable |
| `LoginAlias.LoginSlugIsSafe` | change-mylogin.php:52-63 | when stored slugs are safe and `login` is not a query variable, the slug in use is safe |
| `LoginAlias.SubmittedSlugTakesEffect` | change-mylogin.php:180-192 | an accepted per-site value becomes the slug in use, outside the one multisite case below |
| `LoginAlias.DeletedOverrideFallsBackToDefault` | change-mylogin.php:186-187 | on multisite without network activation, submitting the stored network default makes the slug `login` |
| `LoginAlias.FilterWpLoginPhp` | change-mylogin.php:352-369 | a URL without `wp-login.php` is returned unchanged; one with it becomes the alias URL for `https` under SSL and the given scheme otherwise, with, when the URL has a `?`, the arguments of the text between its first and second `?` merged on by `add_query_arg` |
| `LoginAlias.SiteUrl` | change-mylogin.php:340-342 | the `site_url` filter returns a URL without `wp-login.php` unchanged, and turns one with it into the alias URL built with `https` under SSL and the passed scheme otherwise, merging its query arguments when it has a `?`; path and blog id play no part |
| `LoginAlias.NetworkSiteUrl` | change-mylogin.php:344-346 | the `network_site_url` filter returns a URL without `wp-login.php` unchanged, and turns one with it into the alias URL built with `https` under SSL and the passed scheme otherwise, merging its query arguments when it has a `?`; the path plays no part |
| `LoginAlias.WpRedirect` | change-mylogin.php:348-350 | the `wp_redirect` filter returns a URL without `wp-login.php` unchanged, and turns one with it into the alias URL built with `https` under SSL and a null scheme otherwise, merging its query arguments when it has a `?`; the status plays no part |
| `LoginAlias.AliasUrlAvoidsToken` | change-mylogin.php:65-71 | with a `/`-terminated home root free of `wp-login.php` and a slug free of `wp-login`, the alias URL never contains `wp-login.php` |
| `LoginAlias.FilterRemovesToken` | change-mylogin.php:352-369 | under those conditions, and when the host's query merge does not reintroduce it, no filtered URL contains `wp-login.php` |
| `LoginAlias.FilterIdempotent` | change-mylogin.php:352-369 | under those conditions, and when the host's query merge does not reintroduce the token, rewriting a rewritten URL changes nothing |
| `LoginAlias.WelcomeEmail` | change-mylogin.php:371-373 | text without `wp-login.php` is unchanged; the length changes by exactly the length difference of slug and token per occurrence |
| `LoginAlias.WelcomeEmailReplacesFirst` | change-mylogin.php:372 | the text before the first `wp-login.php` is kept, that occurrence becomes the network slug (missing reads as `login`) with one trailing `/`, and the rest of the text is substituted the same way |
| `LoginAlias.WelcomeEmailCanLeaveToken` | change-mylogin.php:372 | a replacement can complete a new `wp-login.php`: with network slug `php`, `wp-login.wp-login.php` becomes `wp-login.php/` |
| `PhpStrings.ReplaceAllWithoutOccurrence` | change-mylogin.php:372 | `str_replace` leaves text without the search string unchanged |
| `PhpStrings.ReplaceAllLength` | change-mylogin.php:372 | the length of the `str_replace` result is the input length plus, per replaced occurrence, the difference of the two lengths |
| `PhpStrings.OccurrencesIffContains` | change-mylogin.php:372 | the scan replaces at least one occurrence exactly when the search string occurs |
| `Routing.ClassifyInbound` | change-mylogin.php:263-290 | 403 exactly on a single site whose URI names `wp-signup` or `wp-activate`; the protected-path class only for non-admin requests that name it; the alias class only when the alias is named and the protected path is not (or the request is an admin one) |
| `Routing.AfterInbound` | change-mylogin.php:274-290 | a protected-path request gets the flag, the sentinel URI and `$pagenow = index.php`; an alias request only `$pagenow = wp-login.php`; otherwise nothing changes |
| `Routing.EnforceOutcome` | change-mylogin.php:296-337 | in the branch order of lines 296-337: 403 exactly for anonymous non-AJAX admin requests; then a login page with a non-canonical path under permalinks is redirected to the trailing-slashed alias URL plus query string; then a flagged request ends in a fatal error exactly when a single site reaches `wpmu_activate_signup`, in a redirect to the alias URL plus query string on an activation retry, and in the not-found loader exactly otherwise; then the login form exactly for the login page; pass-through exactly when neither flag nor login page is set |
| `Routing.TemplateLoaderState` | change-mylogin.php:32-50 | the loader sets `$pagenow = index.php`, keeps the flag, rewrites its own marker `user_trailingslashit(str_repeat('-/', 10))` to `user_trailingslashit('/wp-login-php/')`, and keeps any other URI |
| `Routing.SentinelIsNotRewritten` | change-mylogin.php:43-44 | the sentinel written at line 281 never equals the URI compared at line 43, under either trailing-slash policy |
| `Routing.TemplateLoaderKeepsSentinel` | change-mylogin.php:43-44 | the template loader leaves the sentinel URI in place |
| `Routing.OriginalPrecedesAlias` | change-mylogin.php:274-290 | a non-admin URI naming `wp-login.php` is classified as forbidden signup or protected path, never as the alias |
| `Routing.DirectLoginRequestIsHidden` | change-mylogin.php:309-330 | after the protected-path classification, `wp_loaded` ends in a fatal error when a single site would call `wpmu_activate_signup` for the referer's key, else redirects to the alias URL with the query string exactly when the activation retry holds, and otherwise ends in the not-found loader; the sentinel URI is kept |
| `Routing.AliasRequestServesLogin` | change-mylogin.php:302-337 | after the alias classification, a request is redirected to the alias URL itself with its query string exactly when permalinks are on and its path is not canonical, and is otherwise served the login form |
| `Routing.CanonicalPathIsStable` | change-mylogin.php:302-308 | a path already in canonical form is not redirected again |
| `Routing.AdminGuardComesFirst` | change-mylogin.php:296-298 | an anonymous non-AJAX admin request gets the 403 whatever the request state |
| `Routing.CleanAliasPathIsRecognised` | change-mylogin.php:283-290 | with clean permalinks, a request for `/<slug>/` is classified as the alias |
| `Routing.QueryAliasIsRecognised` | change-mylogin.php:283-290 | without permalinks, `?<slug>` with an empty value is classified as the alias |
| `Routing.TrailingSlashRedirectExample` | change-mylogin.php:302-308 | `/login?foo=bar` under `/%postname%/` redirects to `https://host/login/?foo=bar` |
| `Routing.DirectLoginNotFoundExample` | change-mylogin.php:272-330 | `/wp-login.php` without an activation referer is classified as the protected path and ends in the not-found loader |
| `Plugin.ChangeMyLogin.constructor` | change-mylogin.php:13-14 | a fresh object has the given option store and request globals, and the flag unset |
| `Plugin.ChangeMyLogin.PluginsLoaded` | change-mylogin.php:258-291 | returns the 403 or pass-through and leaves exactly the request state `Routing.AfterInbound` gives for `Routing.ClassifyInbound`'s decision; options unchanged |
| `Plugin.ChangeMyLogin.WpTemplateLoader` | change-mylogin.php:32-50 | ends in the not-found loader, leaving the state `Routing.TemplateLoaderState` gives |
| `Plugin.ChangeMyLogin.WpLoaded` | change-mylogin.php:293-338 | returns `Routing.EnforceOutcome` of the state it found and leaves `Routing.EnforceState`; options unchanged |
| `Plugin.ChangeMyLogin.ProtectedPath` | change-mylogin.php:309-330 | returns `Routing.ProtectedPathOutcome` for the request: a fatal error when a single site reaches `wpmu_activate_signup` for the referer's key, the alias redirect on an activation retry, and otherwise the not-found loader, whose state change alone it makes; options unchanged |
| `Plugin.ChangeMyLogin.AdminInit` | change-mylogin.php:162-207 | applies `SubmitSiteSlug` to a slug posted from the permalink page; then, when the post-activation flag is truthy, deletes it and redirects to the network settings page for a super admin of a network-activated multisite install and to the site's permalink settings otherwise; the request state is unchanged |
| `Plugin.ChangeMyLogin.UpdateWpmuOptions` | change-mylogin.php:152-160 | the store becomes `SubmitNetworkSlug` of the posted value, an unset field read as `""` |
| `Plugin.PluginsNetwork` | change-mylogin.php:382-387 | the result holds exactly the entries of the input other than the plugin's own |
| `Plugin.PluginsNetworkKeepsOthers` | change-mylogin.php:383-385 | a list without the plugin's entry is returned unchanged, in order |
| `Plugin.PluginsNetworkAppend` | change-mylogin.php:382-387 | filtering a concatenation filters each part and keeps their order |
| `Plugin.PluginsNetworkRemovesEntry` | change-mylogin.php:383-385 | with the plugin's entry at one position only, the result is the list without that position, the others in their order |
| `Plugin.PluginsNetworkIdempotent` | change-mylogin.php:382-387 | filtering twice is the same as filtering once |
| `Plugin.HandleRequest` | change-mylogin.php:94-95 | running `plugins_loaded` then `wp_loaded`: a non-admin URI naming `wp-login.php` is never served the login form, and an alias request ends in the login form or a redirect to the alias URL |

## Left out

- HTML and translation output: `wpmu_options`, `cml_sec_desc`,
  `cml_page_input`, `admin_notices` and `plugin_action_links`. These only
  echo markup. Also left out are `load_plugin_textdomain` and the settings
  registration at the top of `admin_init`.
- Hook registration in the constructor and the `add_filter`/`new` calls at
  the end of the file. `HandleRequest` keeps only the order of the two
  request hooks.
- `activate` and `uninstall`, which are database and host plumbing. The
  `cml_redirect` flag they set is read by `AdminInit` as it is found in the
  store.
- `basename` and `path` (file-system helpers).
- Host functions are uninterpreted fields of `Host`:
  - `home_url`, `site_url`, `admin_url`, `network_admin_url`;
  - `parse_url` (path and query), `parse_str`, `add_query_arg`;
  - `sanitize_title_with_dashes`, `wpmu_activate_signup`;
  - the query-variable lists of `new WP`.
- Side effects and request data that are not modelled:
  - `wpmu_activate_signup` activating an account; only its result is used;
  - `wp_get_referer`'s lookup; the referer is a request field.
- `wp()`, the template loader, `wp-login.php` itself, `wp_die` and `die`.
  They appear only as terminal outcomes. The host allow-list of
  `wp_safe_redirect` is not modelled. Neither is the `wp_redirect` filter
  that WordPress applies to the plugin's own redirects.
- Array values in `$_GET` and in parsed query strings: values are strings
  only.
- `in_array`'s loose comparison in the slug check is modelled as plain
  membership. WordPress query-variable names are never numeric strings.
- PHP array order in `cml_plugins_network` is kept. Duplicate keys cannot
  occur in PHP; the model removes every entry with the plugin's key.
- LoginAlias.FilterIdempotent: idempotence is proved only when the home
  root ends in `/` without `wp-login.php`, the slug has no `wp-login`, and
  the host's `add_query_arg` result has no `wp-login.php`. In general the
  code guarantees none of these.
- LoginAlias.FilterWpLoginPhp: for a URL with a query part, the result is
  stated only in terms of the host's `parse_str` and `add_query_arg`, which
  are not modelled.
