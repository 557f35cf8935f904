/** The "Toggle" bulk action of the plugins list: the static methods of
    `c2c_Bulk_Plugin_Toggle`, over the host of module WordPress.

    Each state-changing method is proved equal to a pure function of the request
    facts and the registry before the call (Activation, Deactivation, BulkToggle);
    what the toggle promises is stated on those functions and proved about them
    here and in module ToggleProperties. */
module BulkPluginToggle {
  import opened PhpArrays
  import opened WordPress

  const ToggleAction := "toggle-selected"
  const ToggleLabel := "Toggle"
  /** The `plugin_status` views in which the menu offers the toggle. */
  const ValidPluginStatuses := ["all", "upgrade"]
  const ActivateDenied := "Sorry, you are not allowed to activate plugins for this site."
  const DeactivateDenied := "Sorry, you are not allowed to deactivate plugins for this site."

  // ---------------------------------------------------------------------------
  // check_user_permissions

  /** The outcome of the permission check: it returns a boolean, or `wp_die` ends
      the request with a message. */
  datatype Check = Returned(permitted: bool) | Aborted(message: string)

  /** `check_user_permissions($die_with_error)`. */
  function CheckUserPermissions(env: Env, dieWithError: bool): (r: Check)
    ensures !dieWithError ==> r == Returned(env.canActivatePlugins && env.canDeactivatePlugins)
    ensures dieWithError ==> (r.Returned? <==> env.canActivatePlugins && env.canDeactivatePlugins)
    ensures r.Returned? && dieWithError ==> r.permitted
    ensures r.Aborted? ==> r.message == (if env.canActivatePlugins then DeactivateDenied else ActivateDenied)
  {
    if !env.canActivatePlugins && dieWithError then Aborted(ActivateDenied)
    else if !env.canDeactivatePlugins && dieWithError then Aborted(DeactivateDenied)
    else Returned(env.canActivatePlugins && env.canDeactivatePlugins)
  }

  // ---------------------------------------------------------------------------
  // add_bulk_toggle

  /** Whether the current `$_GET['plugin_status']` (None when unset) is a view in
      which the toggle is offered. */
  predicate OffersToggle(pluginStatus: Option<string>) {
    pluginStatus.None? || pluginStatus.value in ValidPluginStatuses
  }

  /** `add_bulk_toggle($actions)` with the current `$_GET['plugin_status']`. */
  function AddBulkToggle(actions: KeyedArray, pluginStatus: Option<string>): (r: KeyedArray)
    ensures |actions| <= |r| && r[..|actions|] == actions
    ensures r == actions || r == actions + [(ToggleAction, ToggleLabel)]
    ensures r != actions <==> !HasKey(actions, ToggleAction) && OffersToggle(pluginStatus)
    ensures HasKey(r, ToggleAction) <==> HasKey(actions, ToggleAction) || OffersToggle(pluginStatus)
    ensures UniqueKeys(actions) ==> UniqueKeys(r)
  {
    if !HasKey(actions, ToggleAction) && OffersToggle(pluginStatus) then
      var r := actions + [(ToggleAction, ToggleLabel)];
      assert r[|actions|].0 == ToggleAction;
      r
    else actions
  }

  // ---------------------------------------------------------------------------
  // split_plugins

  datatype Split = Split(toActivate: seq<string>, toDeactivate: seq<string>)

  /** `split_plugins($plugins)`, with the network-admin branch (line 251) reading
      `$network_activate`, the list computed just before it, where the code as
      written reads the never-assigned `$network_active`; SplitPluginsAsWritten
      models that reading. */
  function SplitPlugins(env: Env, reg: Registry, plugins: seq<string>): (r: Split)
    ensures forall x :: x in r.toActivate ==> x !in r.toDeactivate
    ensures forall x :: x in plugins <==> x in r.toActivate || x in r.toDeactivate
  {
    var networkActivate := Filter(plugins, reg.networkActive);
    var toDeactivate :=
      if env.isNetworkAdmin then networkActivate
      else Diff(Filter(plugins, PluginActive(reg)), Elems(networkActivate));
    Split(Diff(plugins, Elems(toDeactivate)), toDeactivate)
  }

  /** `split_plugins($plugins)` as written: in the network admin it assigns the
      never-assigned `$network_active`, modelled as no split at all (None); in a
      single site it is the split above. */
  function SplitPluginsAsWritten(env: Env, reg: Registry, plugins: seq<string>): (r: Option<Split>)
    ensures r.None? <==> env.isNetworkAdmin
    ensures r.Some? ==>
      r.value.toDeactivate == Filter(Filter(plugins, PluginActive(reg)), Elems(plugins) - reg.networkActive)
  {
    if env.isNetworkAdmin then None
    else
      var active := Filter(plugins, PluginActive(reg));
      FilterCongruent(active, Elems(active) - Elems(Filter(plugins, reg.networkActive)),
                      Elems(plugins) - reg.networkActive);
      Some(SplitPlugins(env, reg, plugins))
  }

  // ---------------------------------------------------------------------------
  // activate_plugins

  /** Whether `activate_plugins` keeps plugin `p` in its list. */
  predicate MayActivate(env: Env, reg: Registry, p: string) {
    if env.isNetworkAdmin then p !in reg.networkActive
    else p !in PluginActive(reg) && !(env.isMultisite && p in env.networkOnly) && p in env.mayActivate
  }

  /** The plugins of `plugins` that `activate_plugins` activates. */
  function ActivationSet(env: Env, reg: Registry, plugins: seq<string>): set<string> {
    set p | p in plugins && MayActivate(env, reg, p)
  }

  /** The registry after `activate_plugins($plugins)`, and its return value. */
  function Activation(env: Env, reg: Registry, plugins: seq<string>): (r: (Registry, bool))
    ensures r.1 <==> exists p :: p in plugins && MayActivate(env, reg, p)
    ensures r.1 <==> ActivationSet(env, reg, plugins) != {}
    ensures !r.1 ==> r.0 == reg
    ensures r.1 && !env.isNetworkAdmin ==>
      var e := ActivationSet(env, reg, plugins);
      && r.0.active == reg.active + e
      && r.0.recent == reg.recent - e
      && r.0.networkActive == reg.networkActive
      && r.0.networkRecent == reg.networkRecent
    ensures r.1 && env.isNetworkAdmin ==>
      var e := ActivationSet(env, reg, plugins);
      && r.0.networkActive == reg.networkActive + e
      && r.0.networkRecent == reg.networkRecent - e
      && r.0.active == reg.active
      && r.0.recent == reg.recent
  {
    var e := ActivationSet(env, reg, plugins);
    var targets := Filter(plugins, e);
    assert Elems(targets) == e;
    if targets == [] then (reg, false)
    else
      assert targets[0] in e;
      var networkWide := env.isNetworkAdmin;
      var reg' := Activated(reg, Elems(targets), networkWide);
      (WithRecent(reg', networkWide, Recent(reg', networkWide) - Elems(targets)), true)
  }

  /** The `foreach` of `activate_plugins` that unsets every plugin not to be
      activated: what is left is the list of plugins to activate, in order. */
  method ActivationTargets(env: Env, reg: Registry, plugins: seq<string>) returns (targets: seq<string>)
    ensures targets == Filter(plugins, ActivationSet(env, reg, plugins))
  {
    ghost var e := ActivationSet(env, reg, plugins);
    targets := [];
    for i := 0 to |plugins|
      invariant targets == Filter(plugins[..i], e)
    {
      var plugin := plugins[i];
      FilterSnoc(plugins[..i], plugin, e);
      assert plugins[..i + 1] == plugins[..i] + [plugin];
      if env.isNetworkAdmin {
        if plugin in reg.networkActive {
          continue;
        }
      } else {
        if plugin in PluginActive(reg) || (env.isMultisite && plugin in env.networkOnly) {
          continue;
        }
        if plugin !in env.mayActivate {
          continue;
        }
      }
      targets := targets + [plugin];
    }
    assert plugins[..|plugins|] == plugins;
  }

  /** The `foreach` that unsets `$recent[$plugin]` for every activated plugin. */
  method Forget(recent: map<string, int>, plugins: seq<string>) returns (r: map<string, int>)
    ensures r == recent - Elems(plugins)
  {
    r := recent;
    for i := 0 to |plugins|
      invariant r == recent - Elems(plugins[..i])
    {
      assert plugins[..i + 1] == plugins[..i] + [plugins[i]];
      r := r - {plugins[i]};
    }
    assert plugins[..|plugins|] == plugins;
  }

  /** `activate_plugins($plugins)`: drop the plugins that are not to be activated,
      stop if none is left, activate the rest and remove them from
      `recently_activated`. */
  method ActivatePlugins(host: Host, plugins: seq<string>) returns (did: bool)
    modifies host
    ensures (host.State(), did) == Activation(host.env, old(host.State()), plugins)
  {
    var env := host.env;
    var targets := ActivationTargets(env, host.State(), plugins);
    if targets == [] {
      return false;
    }
    host.ActivateAll(targets, env.isNetworkAdmin);
    var recent := host.GetRecentlyActivated(env.isNetworkAdmin);
    recent := Forget(recent, targets);
    host.UpdateRecentlyActivated(env.isNetworkAdmin, recent);
    return true;
  }

  // ---------------------------------------------------------------------------
  // deactivate_plugins

  /** Whether `deactivate_plugins` keeps plugin `p` in its list. */
  predicate MayDeactivate(env: Env, reg: Registry, p: string) {
    if env.isNetworkAdmin then p in reg.networkActive
    else p in PluginActive(reg) && p !in reg.networkActive && p in env.mayDeactivate
  }

  /** The plugins of `plugins` that `deactivate_plugins` deactivates. */
  function DeactivationSet(env: Env, reg: Registry, plugins: seq<string>): set<string> {
    set p | p in plugins && MayDeactivate(env, reg, p)
  }

  /** `$deactivated`: each plugin of `ps` mapped to the time `now`. */
  function Stamp(ps: set<string>, now: int): (m: map<string, int>)
    ensures m.Keys == ps
    ensures forall p :: p in m ==> m[p] == now
  {
    map p | p in ps :: now
  }

  /** The registry after `deactivate_plugins($plugins)` at time `now`, and its
      return value. */
  function Deactivation(env: Env, reg: Registry, plugins: seq<string>, now: int): (r: (Registry, bool))
    ensures r.1 <==> exists p :: p in plugins && MayDeactivate(env, reg, p)
    ensures r.1 <==> DeactivationSet(env, reg, plugins) != {}
    ensures !r.1 ==> r.0 == reg
    ensures r.1 && !env.isNetworkAdmin ==>
      var e := DeactivationSet(env, reg, plugins);
      && r.0.active == reg.active - e
      && r.0.recent.Keys == reg.recent.Keys + e
      && (forall k :: k in r.0.recent ==> r.0.recent[k] == if k in e then now else reg.recent[k])
      && r.0.networkActive == reg.networkActive
      && r.0.networkRecent == reg.networkRecent
    ensures r.1 && env.isNetworkAdmin ==>
      var e := DeactivationSet(env, reg, plugins);
      && r.0.networkActive == reg.networkActive - e
      && r.0.networkRecent.Keys == reg.networkRecent.Keys + e
      && (forall k :: k in r.0.networkRecent ==> r.0.networkRecent[k] == if k in e then now else reg.networkRecent[k])
      && r.0.active == reg.active
      && r.0.recent == reg.recent
  {
    var e := DeactivationSet(env, reg, plugins);
    var targets := Filter(plugins, e);
    assert Elems(targets) == e;
    if targets == [] then (reg, false)
    else
      assert targets[0] in e;
      var networkWide := env.isNetworkAdmin;
      var reg' := Deactivated(reg, Elems(targets), networkWide);
      (WithRecent(reg', networkWide, Union(Stamp(Elems(targets), now), Recent(reg', networkWide))), true)
  }

  /** In a single site, `deactivate_plugins` keeps the active plugins, removes the
      network-active ones among them (`array_diff`), then the ones the user may not
      deactivate; that is exactly the plugins of the list for which MayDeactivate holds. */
  lemma SiteDeactivationList(env: Env, reg: Registry, plugins: seq<string>)
    requires !env.isNetworkAdmin
    ensures var active := Filter(plugins, PluginActive(reg));
      var notNetwork := Diff(active, Elems(Filter(active, reg.networkActive)));
      Filter(notNetwork, env.mayDeactivate) == Filter(plugins, DeactivationSet(env, reg, plugins))
  {
    var active := Filter(plugins, PluginActive(reg));
    var rest := Elems(active) - Elems(Filter(active, reg.networkActive));
    FilterCompose(plugins, PluginActive(reg), rest);
    FilterCompose(plugins, PluginActive(reg) * rest, env.mayDeactivate);
    FilterCongruent(plugins, PluginActive(reg) * rest * env.mayDeactivate, DeactivationSet(env, reg, plugins));
  }

  /** The `foreach` of `deactivate_plugins` that unsets every plugin the user may
      not deactivate. */
  method KeepDeactivatable(env: Env, plugins: seq<string>) returns (kept: seq<string>)
    ensures kept == Filter(plugins, env.mayDeactivate)
  {
    kept := [];
    for i := 0 to |plugins|
      invariant kept == Filter(plugins[..i], env.mayDeactivate)
    {
      var plugin := plugins[i];
      FilterSnoc(plugins[..i], plugin, env.mayDeactivate);
      assert plugins[..i + 1] == plugins[..i] + [plugin];
      if plugin !in env.mayDeactivate {
        continue;
      }
      kept := kept + [plugin];
    }
    assert plugins[..|plugins|] == plugins;
  }

  /** The `foreach` that builds `$deactivated`, one timestamp per plugin. */
  method StampAll(plugins: seq<string>, now: int) returns (deactivated: map<string, int>)
    ensures deactivated == Stamp(Elems(plugins), now)
  {
    deactivated := map[];
    for i := 0 to |plugins|
      invariant deactivated == Stamp(Elems(plugins[..i]), now)
    {
      assert plugins[..i + 1] == plugins[..i] + [plugins[i]];
      deactivated := deactivated[plugins[i] := now];
    }
    assert plugins[..|plugins|] == plugins;
  }

  /** The plugins `deactivate_plugins` keeps, computed as it does. */
  method DeactivationTargets(env: Env, reg: Registry, plugins: seq<string>) returns (targets: seq<string>)
    ensures targets == Filter(plugins, DeactivationSet(env, reg, plugins))
  {
    if env.isNetworkAdmin {
      targets := Filter(plugins, reg.networkActive);
      FilterCongruent(plugins, reg.networkActive, DeactivationSet(env, reg, plugins));
    } else {
      targets := Filter(plugins, PluginActive(reg));
      targets := Diff(targets, Elems(Filter(targets, reg.networkActive)));
      targets := KeepDeactivatable(env, targets);
      SiteDeactivationList(env, reg, plugins);
    }
  }

  /** `deactivate_plugins($plugins)`: keep the plugins that are to be deactivated,
      stop if none is left, deactivate them and merge their fresh timestamps over
      `recently_activated`. */
  method DeactivatePlugins(host: Host, plugins: seq<string>, now: int) returns (did: bool)
    modifies host
    ensures (host.State(), did) == Deactivation(host.env, old(host.State()), plugins, now)
  {
    var env := host.env;
    var targets := DeactivationTargets(env, host.State(), plugins);
    if targets == [] {
      return false;
    }
    host.DeactivateAll(targets, env.isNetworkAdmin);
    var deactivated := StampAll(targets, now);
    var recent := host.GetRecentlyActivated(env.isNetworkAdmin);
    host.UpdateRecentlyActivated(env.isNetworkAdmin, Union(deactivated, recent));
    return true;
  }

  // ---------------------------------------------------------------------------
  // handle_bulk_toggle

  /** What the handler hands back to the host: a redirect target, or the message
      with which `wp_die` ended the request. */
  datatype Response = Redirect(url: string) | Died(message: string)

  /** The redirect after a toggle that changed something. */
  function SuccessUrl(env: Env): string {
    SelfAdminUrl(env, "plugins.php?toggle-multi=true&plugin_status=" + env.status
                      + "&paged=" + env.page + "&s=" + env.search)
  }

  /** The response of `handle_bulk_toggle($sendback, $action, $plugins)` at time
      `now`, and the registry afterwards, with the split of SplitPlugins: in the
      network admin that reads line 251 as `$network_activate`. As written, a
      permitted network-admin toggle changes nothing, and returns `$sendback`
      (PHP 7) or stops with a TypeError (PHP 8). */
  function BulkToggle(env: Env, reg: Registry, sendback: string, action: string,
                      plugins: seq<string>, now: int): (r: (Response, Registry))
    ensures action != ToggleAction || plugins == [] ==> r == (Redirect(sendback), reg)
    ensures r.0.Died? <==>
      action == ToggleAction && plugins != [] && !(env.canActivatePlugins && env.canDeactivatePlugins)
    ensures r.0.Died? ==> r.1 == reg
    ensures r.0.Died? ==> r.0.message == (if env.canActivatePlugins then DeactivateDenied else ActivateDenied)
    ensures r.0.Redirect? ==> r.0.url == sendback || r.0.url == SuccessUrl(env)
  {
    if action != ToggleAction then (Redirect(sendback), reg)
    else if plugins == [] then (Redirect(sendback), reg)
    else match CheckUserPermissions(env, true)
      case Aborted(message) => (Died(message), reg)
      case Returned(_) =>
        var split := SplitPlugins(env, reg, plugins);
        var (reg1, didActivation) := Activation(env, reg, split.toActivate);
        var (reg2, didDeactivations) := Deactivation(env, reg1, split.toDeactivate, now);
        if !didActivation && !didDeactivations then (Redirect(sendback), reg2)
        else (Redirect(SuccessUrl(env)), reg2)
  }

  /** `handle_bulk_toggle($sendback, $action, $plugins)`: the two no-op exits, the
      enforcing permission check, the split (read as in BulkToggle), activation,
      then deactivation, and the choice of redirect. */
  method HandleBulkToggle(host: Host, sendback: string, action: string,
                          plugins: seq<string>, now: int) returns (r: Response)
    modifies host
    ensures (r, host.State()) == BulkToggle(host.env, old(host.State()), sendback, action, plugins, now)
  {
    if action != ToggleAction {
      return Redirect(sendback);
    }
    if plugins == [] {
      return Redirect(sendback);
    }
    var check := CheckUserPermissions(host.env, true);
    if check.Aborted? {
      return Died(check.message);
    }
    var split := SplitPlugins(host.env, host.State(), plugins);
    var didActivation := ActivatePlugins(host, split.toActivate);
    var didDeactivations := DeactivatePlugins(host, split.toDeactivate, now);
    if !didActivation && !didDeactivations {
      return Redirect(sendback);
    }
    return Redirect(SuccessUrl(host.env));
  }
}
