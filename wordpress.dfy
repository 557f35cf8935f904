/** The WordPress host as the toggle sees it.

    `Env` holds the facts of the current request that the toggle reads and never
    changes; `Registry` holds what it changes: which plugins are active on the site
    and across the network, and the `recently_activated` option at both levels.
    Every host call the toggle makes is a membership test on one of these, or one of
    the primitives below. */
module WordPress {
  import opened PhpArrays

  datatype Env = Env(
    isMultisite: bool,           // is_multisite()
    isNetworkAdmin: bool,        // is_network_admin()
    networkOnly: set<string>,    // plugins for which is_network_only_plugin() holds
    canActivatePlugins: bool,    // current_user_can('activate_plugins')
    canDeactivatePlugins: bool,  // current_user_can('deactivate_plugins')
    mayActivate: set<string>,    // plugins p with current_user_can('activate_plugin', p)
    mayDeactivate: set<string>,  // plugins p with current_user_can('deactivate_plugin', p)
    adminUrl: string,            // self_admin_url(''), the admin base of the current scope
    status: string,              // global $status, as interpolated into a string
    page: string,                // global $page, likewise
    search: string               // global $s, likewise
  )

  datatype Registry = Registry(
    active: set<string>,              // the site's own option `active_plugins`
    networkActive: set<string>,       // plugins for which is_plugin_active_for_network() holds
    recent: map<string, int>,         // get_option('recently_activated'); absent is empty
    networkRecent: map<string, int>   // get_site_option('recently_activated'); absent is empty
  )

  /** The plugins for which `is_plugin_active()` holds on the current site: those
      in its own `active_plugins` option, and every network-active plugin. */
  function PluginActive(reg: Registry): (r: set<string>)
    ensures reg.active <= r && reg.networkActive <= r
    ensures r - reg.networkActive == reg.active - reg.networkActive
  {
    reg.active + reg.networkActive
  }

  /** The `recently_activated` option of the network (`get_site_option`) or of the
      site (`get_option`). */
  function Recent(reg: Registry, networkWide: bool): map<string, int> {
    if networkWide then reg.networkRecent else reg.recent
  }

  /** `update_site_option` or `update_option` of `recently_activated`: that one
      option becomes `m`, and nothing else changes. */
  function WithRecent(reg: Registry, networkWide: bool, m: map<string, int>): (r: Registry)
    ensures Recent(r, networkWide) == m
    ensures Recent(r, !networkWide) == Recent(reg, !networkWide)
    ensures r.active == reg.active && r.networkActive == reg.networkActive
  {
    if networkWide then reg.(networkRecent := m) else reg.(recent := m)
  }

  /** `activate_plugins($plugins, $redirect, $network_wide)`: every plugin in `ps`
      becomes active, across the network or on the site. */
  function Activated(reg: Registry, ps: set<string>, networkWide: bool): (r: Registry)
    ensures r.recent == reg.recent && r.networkRecent == reg.networkRecent
    ensures networkWide ==> r.active == reg.active && r.networkActive == reg.networkActive + ps
    ensures !networkWide ==> r.networkActive == reg.networkActive && r.active == reg.active + ps
  {
    if networkWide then reg.(networkActive := reg.networkActive + ps)
    else reg.(active := reg.active + ps)
  }

  /** `deactivate_plugins($plugins, false, $network_wide)`: every plugin in `ps`
      becomes inactive, across the network or on the site. */
  function Deactivated(reg: Registry, ps: set<string>, networkWide: bool): (r: Registry)
    ensures r.recent == reg.recent && r.networkRecent == reg.networkRecent
    ensures networkWide ==> r.active == reg.active && r.networkActive == reg.networkActive - ps
    ensures !networkWide ==> r.networkActive == reg.networkActive && r.active == reg.active - ps
  {
    if networkWide then reg.(networkActive := reg.networkActive - ps)
    else reg.(active := reg.active - ps)
  }

  /** `self_admin_url($path)`. */
  function SelfAdminUrl(env: Env, path: string): string {
    env.adminUrl + path
  }

  /** The host's mutable state during one request. */
  class Host {
    const env: Env
    var active: set<string>
    var networkActive: set<string>
    var recentlyActivated: map<string, int>
    var networkRecentlyActivated: map<string, int>

    constructor (env: Env, reg: Registry)
      ensures this.env == env && State() == reg
    {
      this.env := env;
      active, networkActive := reg.active, reg.networkActive;
      recentlyActivated, networkRecentlyActivated := reg.recent, reg.networkRecent;
    }

    function State(): Registry
      reads this
    {
      Registry(active, networkActive, recentlyActivated, networkRecentlyActivated)
    }

    /** The host primitive `activate_plugins`. */
    method ActivateAll(plugins: seq<string>, networkWide: bool)
      modifies this
      ensures State() == Activated(old(State()), Elems(plugins), networkWide)
    {
      if networkWide {
        networkActive := networkActive + Elems(plugins);
      } else {
        active := active + Elems(plugins);
      }
    }

    /** The host primitive `deactivate_plugins`. */
    method DeactivateAll(plugins: seq<string>, networkWide: bool)
      modifies this
      ensures State() == Deactivated(old(State()), Elems(plugins), networkWide)
    {
      if networkWide {
        networkActive := networkActive - Elems(plugins);
      } else {
        active := active - Elems(plugins);
      }
    }

    /** `get_site_option` or `get_option` of `recently_activated`. */
    method GetRecentlyActivated(networkWide: bool) returns (m: map<string, int>)
      ensures m == Recent(State(), networkWide)
    {
      m := if networkWide then networkRecentlyActivated else recentlyActivated;
    }

    /** `update_site_option` or `update_option` of `recently_activated`. */
    method UpdateRecentlyActivated(networkWide: bool, m: map<string, int>)
      modifies this
      ensures State() == WithRecent(old(State()), networkWide, m)
    {
      if networkWide {
        networkRecentlyActivated := m;
      } else {
        recentlyActivated := m;
      }
    }
  }
}
