/** What the toggle promises, proved about the functions of module BulkPluginToggle. */
module ToggleProperties {
  import opened PhpArrays
  import opened WordPress
  import opened BulkPluginToggle

  // ---------------------------------------------------------------------------
  // split_plugins

  /** In a single site the plugins to deactivate are exactly the selected ones that
      are active and not network-active, in selection order; the plugins to
      activate are all the others, in selection order. */
  lemma SplitSiteScope(env: Env, reg: Registry, plugins: seq<string>)
    requires !env.isNetworkAdmin
    ensures SplitPlugins(env, reg, plugins).toDeactivate == Filter(plugins, reg.active - reg.networkActive)
    ensures SplitPlugins(env, reg, plugins).toActivate == Diff(plugins, reg.active - reg.networkActive)
  {
    var active := Filter(plugins, PluginActive(reg));
    var networkActivate := Filter(plugins, reg.networkActive);
    var toDeactivate := Diff(active, Elems(networkActivate));
    FilterCompose(plugins, PluginActive(reg), Elems(active) - Elems(networkActivate));
    FilterCongruent(plugins, PluginActive(reg) * (Elems(active) - Elems(networkActivate)),
                    reg.active - reg.networkActive);
    FilterCongruent(plugins, Elems(plugins) - Elems(toDeactivate),
                    Elems(plugins) - (reg.active - reg.networkActive));
  }

  /** In the network admin (with `$network_activate` read as intended) the plugins
      to deactivate are exactly the selected network-active ones, and the plugins to
      activate all the others, both in selection order. */
  lemma SplitNetworkScope(env: Env, reg: Registry, plugins: seq<string>)
    requires env.isNetworkAdmin
    ensures SplitPlugins(env, reg, plugins).toDeactivate == Filter(plugins, reg.networkActive)
    ensures SplitPlugins(env, reg, plugins).toActivate == Diff(plugins, reg.networkActive)
  {
    var toDeactivate := Filter(plugins, reg.networkActive);
    FilterCongruent(plugins, Elems(plugins) - Elems(toDeactivate), Elems(plugins) - reg.networkActive);
  }

  /** Every selected occurrence goes to exactly one of the two lists. */
  lemma SplitPartition(env: Env, reg: Registry, plugins: seq<string>)
    ensures var split := SplitPlugins(env, reg, plugins);
      multiset(split.toActivate) + multiset(split.toDeactivate) == multiset(plugins)
  {
    var keep := if env.isNetworkAdmin then reg.networkActive else reg.active - reg.networkActive;
    if env.isNetworkAdmin {
      SplitNetworkScope(env, reg, plugins);
    } else {
      SplitSiteScope(env, reg, plugins);
    }
    FilterSplits(plugins, keep, Elems(plugins));
  }

  /** The split as written defines nothing in the network admin, even when a
      selected plugin is network-active and should be deactivated. */
  lemma SplitAsWrittenFailsInNetworkAdmin(env: Env, reg: Registry, p: string)
    requires env.isNetworkAdmin && p in reg.networkActive
    ensures SplitPluginsAsWritten(env, reg, [p]) == None
    ensures SplitPlugins(env, reg, [p]) == Split([], [p])
  {
    SplitNetworkScope(env, reg, [p]);
    FilterSnoc([], p, reg.networkActive);
    FilterSnoc([], p, Elems([p]) - reg.networkActive);
    assert [] + [p] == [p];
  }

  /** Outside the network admin the split as written is the split the handler uses. */
  lemma SplitAsWrittenAgreesInSite(env: Env, reg: Registry, plugins: seq<string>)
    requires !env.isNetworkAdmin
    ensures SplitPluginsAsWritten(env, reg, plugins) == Some(SplitPlugins(env, reg, plugins))
  {
  }

  // ---------------------------------------------------------------------------
  // add_bulk_toggle

  lemma AddBulkToggleIdempotent(actions: KeyedArray, pluginStatus: Option<string>)
    ensures AddBulkToggle(AddBulkToggle(actions, pluginStatus), pluginStatus) == AddBulkToggle(actions, pluginStatus)
  {
  }

  /** The four menus of the test suite. */
  lemma AddBulkToggleExamples()
    ensures AddBulkToggle([("cat", "Cat"), ("all", "All")], None)
         == [("cat", "Cat"), ("all", "All"), (ToggleAction, ToggleLabel)]
    ensures AddBulkToggle([("cat", "Cat"), ("all", "All")], Some("upgrade"))
         == [("cat", "Cat"), ("all", "All"), (ToggleAction, ToggleLabel)]
    ensures AddBulkToggle([("cat", "Cat"), ("dog", "Dog")], Some("draft"))
         == [("cat", "Cat"), ("dog", "Dog")]
    ensures AddBulkToggle([("cat", "Cat"), ("dog", "Dog"), (ToggleAction, ToggleLabel)], Some("all"))
         == [("cat", "Cat"), ("dog", "Dog"), (ToggleAction, ToggleLabel)]
  {
    assert [("cat", "Cat"), ("dog", "Dog"), (ToggleAction, ToggleLabel)][2].0 == ToggleAction;
  }

  // ---------------------------------------------------------------------------
  // handle_bulk_toggle

  /** The permitted handler is the split, then activation, then deactivation on
      the registry activation left. */
  lemma BulkToggleSteps(env: Env, reg: Registry, sendback: string, plugins: seq<string>, now: int)
    requires env.canActivatePlugins && env.canDeactivatePlugins && plugins != []
    ensures var split := SplitPlugins(env, reg, plugins);
      var a := Activation(env, reg, split.toActivate);
      var d := Deactivation(env, a.0, split.toDeactivate, now);
      BulkToggle(env, reg, sendback, ToggleAction, plugins, now)
        == (Redirect(if !a.1 && !d.1 then sendback else SuccessUrl(env)), d.0)
  {
  }

  /** In a single site, activation of the split's first list accepts exactly what
      activation of the whole selection would. */
  lemma SiteActivationOfSplit(env: Env, reg: Registry, plugins: seq<string>)
    requires !env.isNetworkAdmin
    ensures ActivationSet(env, reg, SplitPlugins(env, reg, plugins).toActivate) == ActivationSet(env, reg, plugins)
  {
    SplitSiteScope(env, reg, plugins);
  }

  /** In a single site, deactivation of the split's second list, after activation
      added plugins, accepts exactly what deactivation of the whole selection
      would have accepted before. */
  lemma SiteDeactivationOfSplit(env: Env, reg: Registry, reg1: Registry, plugins: seq<string>)
    requires !env.isNetworkAdmin
    requires reg.active <= reg1.active && reg1.networkActive == reg.networkActive
    ensures DeactivationSet(env, reg1, SplitPlugins(env, reg, plugins).toDeactivate) == DeactivationSet(env, reg, plugins)
  {
    SplitSiteScope(env, reg, plugins);
  }

  /** In a single site, activation of a list followed by deactivation of another,
      when they accept the sets `ea` and `ed` of the selection. */
  lemma SiteSequence(env: Env, reg: Registry, split: Split, plugins: seq<string>, now: int)
    requires !env.isNetworkAdmin
    requires ActivationSet(env, reg, split.toActivate) == ActivationSet(env, reg, plugins)
    requires DeactivationSet(env, Activation(env, reg, split.toActivate).0, split.toDeactivate)
          == DeactivationSet(env, reg, plugins)
    ensures var a := Activation(env, reg, split.toActivate);
      var d := Deactivation(env, a.0, split.toDeactivate, now);
      var ea := ActivationSet(env, reg, plugins);
      var ed := DeactivationSet(env, reg, plugins);
      && d.0.active == reg.active + ea - ed
      && d.0.networkActive == reg.networkActive
      && d.0.networkRecent == reg.networkRecent
      && d.0.recent.Keys == reg.recent.Keys - ea + ed
      && (forall k :: k in d.0.recent ==> d.0.recent[k] == if k in ed then now else reg.recent[k])
      && ((a.1 || d.1) <==> ea != {} || ed != {})
  {
    var a := Activation(env, reg, split.toActivate);
    var ea := ActivationSet(env, reg, plugins);
    assert a.1 <==> ea != {} by {
      if ea != {} {
        var p :| p in ea;
        assert p in ActivationSet(env, reg, split.toActivate);
      }
    }
    var ed := DeactivationSet(env, reg, plugins);
    var d := Deactivation(env, a.0, split.toDeactivate, now);
    assert d.1 <==> ed != {} by {
      if ed != {} {
        var p :| p in ed;
        assert p in DeactivationSet(env, a.0, split.toDeactivate);
      }
    }
  }

  /** A permitted toggle in a single site: every selected plugin that
      `activate_plugins` accepts becomes active and leaves `recently_activated`;
      every selected plugin that `deactivate_plugins` accepts becomes inactive and
      gets the fresh timestamp, which wins over an older entry; other entries keep
      their values; the network state is untouched; and the redirect reports
      success exactly when something changed. */
  lemma ToggleSiteEffect(env: Env, reg: Registry, sendback: string, plugins: seq<string>, now: int)
    requires !env.isNetworkAdmin && env.canActivatePlugins && env.canDeactivatePlugins
    requires plugins != []
    ensures var r := BulkToggle(env, reg, sendback, ToggleAction, plugins, now);
      var ea := ActivationSet(env, reg, plugins);
      var ed := DeactivationSet(env, reg, plugins);
      && r.1.active == reg.active + ea - ed
      && r.1.networkActive == reg.networkActive
      && r.1.networkRecent == reg.networkRecent
      && r.1.recent.Keys == reg.recent.Keys - ea + ed
      && (forall k :: k in r.1.recent ==> r.1.recent[k] == if k in ed then now else reg.recent[k])
      && r.0 == Redirect(if ea == {} && ed == {} then sendback else SuccessUrl(env))
  {
    var split := SplitPlugins(env, reg, plugins);
    var a := Activation(env, reg, split.toActivate);
    BulkToggleSteps(env, reg, sendback, plugins, now);
    SiteActivationOfSplit(env, reg, plugins);
    SiteDeactivationOfSplit(env, reg, a.0, plugins);
    SiteSequence(env, reg, split, plugins, now);
  }

  /** Outside the network admin, a network-active plugin counts as active for the
      split but is kept off the deactivation list, so it goes to the activation
      list, where `activate_plugins` drops it as already active: toggling it alone
      changes nothing and returns the given URL. */
  lemma SiteToggleSkipsNetworkActive(env: Env, reg: Registry, sendback: string, p: string, now: int)
    requires !env.isNetworkAdmin && env.canActivatePlugins && env.canDeactivatePlugins
    requires p in reg.networkActive
    ensures p in PluginActive(reg)
    ensures SplitPlugins(env, reg, [p]) == Split([p], [])
    ensures BulkToggle(env, reg, sendback, ToggleAction, [p], now) == (Redirect(sendback), reg)
  {
    SplitSiteScope(env, reg, [p]);
    FilterSnoc([], p, reg.active - reg.networkActive);
    FilterSnoc([], p, Elems([p]) - (reg.active - reg.networkActive));
    assert [] + [p] == [p];
    BulkToggleSteps(env, reg, sendback, [p], now);
    assert ActivationSet(env, reg, [p]) == {};
  }

  /** In the network admin, with the split as intended, activation takes every
      selected plugin that is not network-active and deactivation every one that is. */
  lemma NetworkSetsOfSplit(env: Env, reg: Registry, reg1: Registry, plugins: seq<string>)
    requires env.isNetworkAdmin
    requires reg.networkActive <= reg1.networkActive
    ensures ActivationSet(env, reg, SplitPlugins(env, reg, plugins).toActivate) == Elems(plugins) - reg.networkActive
    ensures DeactivationSet(env, reg1, SplitPlugins(env, reg, plugins).toDeactivate) == Elems(plugins) * reg.networkActive
  {
    SplitNetworkScope(env, reg, plugins);
  }

  /** In the network admin, activation of the plugins that are not network-active
      followed by deactivation of those that are. */
  lemma NetworkSequence(env: Env, reg: Registry, split: Split, plugins: seq<string>, now: int)
    requires env.isNetworkAdmin && plugins != []
    requires ActivationSet(env, reg, split.toActivate) == Elems(plugins) - reg.networkActive
    requires DeactivationSet(env, Activation(env, reg, split.toActivate).0, split.toDeactivate)
          == Elems(plugins) * reg.networkActive
    ensures var a := Activation(env, reg, split.toActivate);
      var d := Deactivation(env, a.0, split.toDeactivate, now);
      var s := Elems(plugins);
      && d.0.networkActive == (reg.networkActive - s) + (s - reg.networkActive)
      && d.0.active == reg.active
      && d.0.recent == reg.recent
      && d.0.networkRecent.Keys == reg.networkRecent.Keys - (s - reg.networkActive) + s * reg.networkActive
      && (forall k :: k in d.0.networkRecent ==>
            d.0.networkRecent[k] == if k in s * reg.networkActive then now else reg.networkRecent[k])
      && (a.1 || d.1)
  {
    var s := Elems(plugins);
    var a := Activation(env, reg, split.toActivate);
    var d := Deactivation(env, a.0, split.toDeactivate, now);
    assert plugins[0] in s;
    assert a.0.networkActive == reg.networkActive + (s - reg.networkActive);
    assert a.0.networkRecent == reg.networkRecent - (s - reg.networkActive);
    assert d.0.networkActive == a.0.networkActive - s * reg.networkActive;
  }

  /** A permitted toggle in the network admin, with the split as intended: every
      selected plugin's network activation flips, the site state is untouched, the
      newly network-deactivated plugins get the fresh timestamp in the network
      `recently_activated`, and the redirect reports success. */
  lemma ToggleNetworkEffect(env: Env, reg: Registry, sendback: string, plugins: seq<string>, now: int)
    requires env.isNetworkAdmin && env.canActivatePlugins && env.canDeactivatePlugins
    requires plugins != []
    ensures var r := BulkToggle(env, reg, sendback, ToggleAction, plugins, now);
      var s := Elems(plugins);
      && r.1.networkActive == (reg.networkActive - s) + (s - reg.networkActive)
      && r.1.active == reg.active
      && r.1.recent == reg.recent
      && r.1.networkRecent.Keys == reg.networkRecent.Keys - (s - reg.networkActive) + s * reg.networkActive
      && (forall k :: k in r.1.networkRecent ==>
            r.1.networkRecent[k] == if k in s * reg.networkActive then now else reg.networkRecent[k])
      && r.0 == Redirect(SuccessUrl(env))
  {
    var split := SplitPlugins(env, reg, plugins);
    var a := Activation(env, reg, split.toActivate);
    BulkToggleSteps(env, reg, sendback, plugins, now);
    NetworkSetsOfSplit(env, reg, a.0, plugins);
    NetworkSequence(env, reg, split, plugins, now);
  }

  /** The selection is fully toggleable in a single site: the user may activate
      and deactivate each selected plugin, and none is network-active or
      network-only. */
  predicate FullyToggleable(env: Env, reg: Registry, plugins: seq<string>) {
    forall p :: p in plugins ==>
      && p in env.mayActivate && p in env.mayDeactivate
      && p !in reg.networkActive && !(env.isMultisite && p in env.networkOnly)
  }

  /** For a fully toggleable selection, activation accepts exactly the inactive
      selected plugins and deactivation exactly the active ones. */
  lemma FullyToggleableSets(env: Env, reg: Registry, plugins: seq<string>)
    requires !env.isNetworkAdmin && FullyToggleable(env, reg, plugins)
    ensures ActivationSet(env, reg, plugins) == Elems(plugins) - reg.active
    ensures DeactivationSet(env, reg, plugins) == Elems(plugins) * reg.active
  {
  }

  /** When the user may toggle every selected plugin in a single site and none of
      them is network-active or network-only, the toggle flips exactly the
      selected plugins. */
  lemma ToggleFlipsSelection(env: Env, reg: Registry, sendback: string, plugins: seq<string>, now: int)
    requires !env.isNetworkAdmin && env.canActivatePlugins && env.canDeactivatePlugins
    requires FullyToggleable(env, reg, plugins)
    ensures var s := Elems(plugins);
      var r := BulkToggle(env, reg, sendback, ToggleAction, plugins, now);
      r.1.active == (reg.active - s) + (s - reg.active) && r.1.networkActive == reg.networkActive
  {
    if plugins != [] {
      ToggleSiteEffect(env, reg, sendback, plugins, now);
      FullyToggleableSets(env, reg, plugins);
      var s := Elems(plugins);
      assert reg.active + (s - reg.active) - s * reg.active == (reg.active - s) + (s - reg.active);
    }
  }

  /** Flipping the membership of the same elements twice is the identity. */
  lemma FlipTwice(a: set<string>, s: set<string>)
    ensures (((a - s) + (s - a)) - s) + (s - ((a - s) + (s - a))) == a
  {
  }

  /** Under the same conditions, toggling the same selection twice restores the
      set of active plugins. */
  lemma ToggleTwiceRestoresActive(env: Env, reg: Registry, sendback: string, plugins: seq<string>, now: int, later: int)
    requires !env.isNetworkAdmin && env.canActivatePlugins && env.canDeactivatePlugins
    requires FullyToggleable(env, reg, plugins)
    ensures var once := BulkToggle(env, reg, sendback, ToggleAction, plugins, now).1;
      BulkToggle(env, once, sendback, ToggleAction, plugins, later).1.active == reg.active
  {
    var once := BulkToggle(env, reg, sendback, ToggleAction, plugins, now).1;
    ToggleFlipsSelection(env, reg, sendback, plugins, now);
    assert once.networkActive == reg.networkActive;
    assert FullyToggleable(env, once, plugins);
    ToggleFlipsSelection(env, once, sendback, plugins, later);
    FlipTwice(reg.active, Elems(plugins));
  }

  /** The handler tests' early exits: another action and an empty selection
      return the given URL and change nothing; a user without the capabilities
      ends the request with the "activate" message. */
  lemma HandleBulkToggleExitExamples(env: Env, reg: Registry, now: int)
    ensures BulkToggle(env, reg, "something", "activate-selected", ["pluginA", "pluginB"], now)
         == (Redirect("something"), reg)
    ensures BulkToggle(env, reg, "something", ToggleAction, [], now) == (Redirect("something"), reg)
    ensures !env.canActivatePlugins ==>
      BulkToggle(env, reg, "something", ToggleAction, ["pluginA", "pluginB"], now) == (Died(ActivateDenied), reg)
  {
    assert "activate-selected"[0] != ToggleAction[0];
  }

  /** The selection and host of the handler tests: two plugins, active nowhere,
      that the user may activate on a single-site install. */
  lemma ExampleSets(env: Env, reg: Registry)
    requires !env.isNetworkAdmin && !env.isMultisite
    requires "pluginA" in env.mayActivate && "pluginB" in env.mayActivate
    requires reg.active == {} && reg.networkActive == {}
    ensures ActivationSet(env, reg, ["pluginA", "pluginB"]) == {"pluginA", "pluginB"}
    ensures DeactivationSet(env, reg, ["pluginA", "pluginB"]) == {}
  {
    var plugins := ["pluginA", "pluginB"];
    assert MayActivate(env, reg, plugins[0]) && MayActivate(env, reg, plugins[1]);
  }

  // The success URLs of the handler tests, joined piece by piece: the solver
  // compares long string literals only in short steps.

  lemma SuccessUrlHead(env: Env)
    ensures SuccessUrl(env) == (env.adminUrl + "plugins.php?toggle-multi=true")
                             + ("&plugin_status=" + env.status + "&paged=" + env.page + "&s=" + env.search)
  {
    var q := "&plugin_status=" + env.status + "&paged=" + env.page + "&s=" + env.search;
    assert "plugins.php?toggle-multi=true&plugin_status=" + env.status + "&paged=" + env.page + "&s=" + env.search
        == "plugins.php?toggle-multi=true" + q;
  }

  lemma TestHead(env: Env)
    requires env.adminUrl == "http://example.org/wp-admin/"
    ensures env.adminUrl + "plugins.php?toggle-multi=true" == "http://example.org/wp-admin/plugins.php?toggle-multi=true"
  {
    assert "http://example.org/wp-admin/" + "plugins.php?" == "http://example.org/wp-admin/plugins.php?";
    assert "http://example.org/wp-admin/plugins.php?" + "toggle-multi=true"
        == "http://example.org/wp-admin/plugins.php?toggle-multi=true";
    assert "plugins.php?" + "toggle-multi=true" == "plugins.php?toggle-multi=true";
    assert env.adminUrl + "plugins.php?toggle-multi=true" == (env.adminUrl + "plugins.php?") + "toggle-multi=true";
  }

  /** The success URL of the test site with `$status`, `$page` and `$s` unset. */
  lemma TestSuccessUrl(env: Env)
    requires env.adminUrl == "http://example.org/wp-admin/" && env.status == "" && env.page == "" && env.search == ""
    ensures SuccessUrl(env) == "http://example.org/wp-admin/plugins.php?toggle-multi=true&plugin_status=&paged=&s="
  {
    SuccessUrlHead(env);
    TestHead(env);
    assert "&plugin_status=" + env.status + "&paged=" + env.page + "&s=" + env.search == "&plugin_status=&paged=&s=";
    assert "http://example.org/wp-admin/plugins.php?toggle-multi=true" + "&plugin_status=&paged=&s="
        == "http://example.org/wp-admin/plugins.php?toggle-multi=true&plugin_status=&paged=&s=";
  }

  /** The last join of the test URL with the globals set, proved on its own:
      alongside the other steps it is too costly for the solver. */
  lemma TestQueryGlobals()
    ensures "http://example.org/wp-admin/plugins.php?toggle-multi=true" + "&plugin_status=upgrade&paged=1&s=cat"
         == "http://example.org/wp-admin/plugins.php?toggle-multi=true&plugin_status=upgrade&paged=1&s=cat"
  {
  }

  /** The success URL of the test site with `$status`, `$page` and `$s` set. */
  lemma TestSuccessUrlWithGlobals(env: Env)
    requires env.adminUrl == "http://example.org/wp-admin/"
    requires env.status == "upgrade" && env.page == "1" && env.search == "cat"
    ensures SuccessUrl(env) == "http://example.org/wp-admin/plugins.php?toggle-multi=true&plugin_status=upgrade&paged=1&s=cat"
  {
    SuccessUrlHead(env);
    TestHead(env);
    assert "&plugin_status=" + env.status + "&paged=" + env.page + "&s=" + env.search
        == "&plugin_status=upgrade&paged=1&s=cat";
    TestQueryGlobals();
  }

  /** The handler test with two plugins active nowhere and a user holding both
      capabilities, with `$status`, `$page` and `$s` unset: both plugins become
      active and the handler redirects to the test's success URL. */
  lemma HandleBulkToggleExample(env: Env, reg: Registry, now: int)
    requires !env.isNetworkAdmin && env.canActivatePlugins && env.canDeactivatePlugins
    requires !env.isMultisite && "pluginA" in env.mayActivate && "pluginB" in env.mayActivate
    requires env.adminUrl == "http://example.org/wp-admin/" && env.status == "" && env.page == "" && env.search == ""
    requires reg.active == {} && reg.networkActive == {}
    ensures var r := BulkToggle(env, reg, "something", ToggleAction, ["pluginA", "pluginB"], now);
      && r.0 == Redirect("http://example.org/wp-admin/plugins.php?toggle-multi=true&plugin_status=&paged=&s=")
      && r.1.active == {"pluginA", "pluginB"}
  {
    ToggleSiteEffect(env, reg, "something", ["pluginA", "pluginB"], now);
    ExampleSets(env, reg);
    TestSuccessUrl(env);
  }

  /** The same test with `$status`, `$page` and `$s` set to `upgrade`, `1` and
      `cat`: the redirect carries them. */
  lemma HandleBulkToggleWithGlobalsExample(env: Env, reg: Registry, now: int)
    requires !env.isNetworkAdmin && env.canActivatePlugins && env.canDeactivatePlugins
    requires !env.isMultisite && "pluginA" in env.mayActivate && "pluginB" in env.mayActivate
    requires env.adminUrl == "http://example.org/wp-admin/"
    requires env.status == "upgrade" && env.page == "1" && env.search == "cat"
    requires reg.active == {} && reg.networkActive == {}
    ensures var r := BulkToggle(env, reg, "something", ToggleAction, ["pluginA", "pluginB"], now);
      && r.0 == Redirect("http://example.org/wp-admin/plugins.php?toggle-multi=true&plugin_status=upgrade&paged=1&s=cat")
      && r.1.active == {"pluginA", "pluginB"}
  {
    ToggleSiteEffect(env, reg, "something", ["pluginA", "pluginB"], now);
    ExampleSets(env, reg);
    TestSuccessUrlWithGlobals(env);
  }
}
