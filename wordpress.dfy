/**
 * The WordPress host as the plugin sees it: the option store, the request
 * being handled, the host functions the plugin calls (taken as given
 * functions, not re-implemented), and the terminal outcomes of a request.
 */
module WordPress {
  import opened Wrappers
  import opened PhpStrings

  /** Option names the plugin reads and writes. */
  const SlugOption := "cml_page"
  const RedirectOption := "cml_redirect"
  const PermalinkOption := "permalink_structure"

  /**
   * The configuration store: the current site's options (`get_option`)
   * and the network-wide options (`get_site_option`).
   */
  datatype OptionStore = OptionStore(site: map<string, string>, network: map<string, string>)

  /** `get_option(name)`: None stands for the `false` WordPress returns for a missing option. */
  function GetOption(store: OptionStore, name: string): Option<string> {
    if name in store.site then Some(store.site[name]) else None
  }

  /** `get_site_option(name, default)`: the default only when the option is missing. */
  function GetSiteOption(store: OptionStore, name: string, default: string): string {
    if name in store.network then store.network[name] else default
  }

  /** `get_option('permalink_structure')`, with a missing option read as "". */
  function PermalinkStructure(store: OptionStore): string {
    GetOption(store, PermalinkOption).GetOr("")
  }

  /** `update_option(name, value)` */
  function UpdateOption(store: OptionStore, name: string, value: string): (r: OptionStore)
    ensures r.network == store.network
    ensures GetOption(r, name) == Some(value)
    ensures forall k :: k != name ==> GetOption(r, k) == GetOption(store, k)
  {
    store.(site := store.site[name := value])
  }

  /** `delete_option(name)` */
  function DeleteOption(store: OptionStore, name: string): (r: OptionStore)
    ensures r.network == store.network
    ensures GetOption(r, name) == None
    ensures forall k :: k != name ==> GetOption(r, k) == GetOption(store, k)
  {
    store.(site := store.site - {name})
  }

  /** `update_site_option(name, value)` */
  function UpdateSiteOption(store: OptionStore, name: string, value: string): (r: OptionStore)
    ensures r.site == store.site
    ensures GetSiteOption(r, name, "") == value
    ensures forall k, d :: k != name ==> GetSiteOption(r, k, d) == GetSiteOption(store, k, d)
  {
    store.(network := store.network[name := value])
  }

  /** What `wpmu_activate_signup` returns: a success array or a `WP_Error` with its code. */
  datatype ActivationResult = Activated | ActivationError(code: string)

  /**
   * The host functions and install facts the plugin depends on. Each
   * function field stands for the WordPress function of the same name;
   * a scheme argument of None is PHP's `null`.
   */
  datatype Host = Host(
    isMultisite: bool,                                // is_multisite()
    networkActive: bool,                              // is_plugin_active_for_network(plugin)
    homeUrl: (string, Option<string>) -> string,      // home_url($path, $scheme)
    siteUrl: (string, Option<string>) -> string,      // site_url($path, $scheme)
    adminUrl: string -> string,                       // admin_url($path)
    networkAdminUrl: string -> string,                // network_admin_url($path)
    parseUrlPath: string -> Option<string>,           // parse_url($url)['path']
    parseUrlQuery: string -> Option<string>,          // parse_url($url)['query']
    parseStr: string -> map<string, string>,          // parse_str($query, $args)
    addQueryArg: (map<string, string>, string) -> string,  // add_query_arg($args, $url)
    sanitizeTitle: string -> string,                  // sanitize_title_with_dashes($title)
    activateSignup: string -> ActivationResult,       // wpmu_activate_signup($key), defined on multisite only
    publicQueryVars: seq<string>,                     // (new WP)->public_query_vars
    privateQueryVars: seq<string>                     // (new WP)->private_query_vars
  )

  /** The parts of the current request the plugin reads. */
  datatype Request = Request(
    queryString: string,            // $_SERVER['QUERY_STRING']
    get: map<string, string>,       // $_GET
    isAdmin: bool,                  // is_admin()
    isLoggedIn: bool,               // is_user_logged_in()
    doingAjax: bool,                // defined('DOING_AJAX')
    isSuperAdmin: bool,             // is_super_admin()
    isSsl: bool,                    // is_ssl()
    referer: Option<string>         // wp_get_referer(), None for false
  )

  /** How a hook ends the request, or PassThrough when it lets the host carry on. */
  datatype Outcome =
    | PassThrough
    | Forbidden(message: string)   // wp_die(..., 403)
    | Redirect(location: string)   // wp_safe_redirect(location); die
    | ServeLogin                   // require wp-login.php; die
    | NotFoundLoader               // wp(); require template-loader.php; die
    | FatalError(message: string)  // PHP fatal error: a call to a function the host never defined

  const SignupDisabledMessage := "This feature is not enabled."
  const AdminLoginMessage := "You must log in to access the admin area."
  /** WordPress defines `wpmu_activate_signup` only on a multisite install. */
  const UndefinedActivationMessage := "Call to undefined function wpmu_activate_signup()"
}
