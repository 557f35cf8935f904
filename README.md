# Bulk Plugin Toggle, modelled in Dafny

Bulk Plugin Toggle is a WordPress plugin that adds a "Toggle" entry to the bulk
actions menu of the admin Plugins screen. When the user applies it to a selection,
the handler does three things:

- It checks that the user holds both the `activate_plugins` and the
  `deactivate_plugins` capability, and stops the request with an error message if
  not.
- It splits the selection in two:
  - the plugins to deactivate are the selected site-active plugins that are not
    network-active;
  - every other selected plugin goes to the activate list. A network-active plugin
    selected outside the network admin is therefore dropped by both steps.
- It activates the first list and deactivates the second, then redirects to the
  Plugins screen with a "toggled" flag. If nothing changed, it redirects to the URL
  it was given instead.

Outside the network admin, "active" means what `is_plugin_active` reports: the
plugin is in the site's own `active_plugins` option or is network-active.
Activation skips plugins that are already active and plugins the user may not
activate; under multisite it also skips network-only plugins. Deactivation skips
inactive plugins, network-active plugins and plugins the user may not deactivate.
In the network admin, "active" means network-active, and no per-plugin capability
is checked.

The network-admin branch of the split is modelled with line 251 of
`bulk-plugin-toggle.php` read as `$network_activate`, the list computed on line 248.
As written, that line reads the never-assigned `$network_active` (see
"## Findings"). So, as written, a network-admin toggle by a permitted user
changes nothing. Under PHP 7 it warns and returns `$sendback`; under PHP 8 it
stops with a TypeError from `array_diff` on line 257. The handler in this
model uses the corrected reading throughout; `SplitPluginsAsWritten` models the
code as written.

The `recently_activated` option is kept consistent with what changed:

- activated plugins are removed from it;
- deactivated plugins are entered in it with the current time, which overrides any
  older entry for the same plugin.

The model has four modules.

- `PhpArrays` (`php_arrays.dfy`) covers the PHP array operations the plugin relies
  on, over lists of values:
  - `array_filter` with a membership callback;
  - `array_diff`;
  - the array union `+` on the `recently_activated` map;
  - `isset` on the associative bulk-actions menu.
- `WordPress` (`wordpress.dfy`) covers the host as the plugin sees it:
  - `Env` holds the request's read-only facts (multisite and network-admin flags,
    capabilities, network-only plugins, the admin base URL, and the globals
    `$status`, `$page` and `$s`);
  - `Registry` holds the state the plugin changes;
  - the class `Host` keeps that state in mutable fields, with the host primitives
    as methods.
- `BulkPluginToggle` (`bulk_plugin_toggle.dfy`) holds the plugin's operations. Each
  operation that changes the host is an imperative method that modifies a `Host`, proved equal
  to a pure function of the environment and the old registry. The function's own
  contract states the effect declaratively.
- `ToggleProperties` (`toggle_properties.dfy`) proves what the toggle promises
  about those functions:
  - the split is a partition of the selection;
  - the handler's complete effect, in a single site and in the network admin;
  - fully toggleable plugins flip, and toggling twice restores the active set;
  - the test scenarios of the repository's own test suite.

## Model

| member | source | states |
|---|---|---|
| `BulkPluginToggle.CheckUserPermissions` | bulk-plugin-toggle.php:88-106 | Without dying, the result is whether the user holds both capabilities. When dying is enabled, the check returns only if the user holds both, and then returns true. Otherwise it aborts, with the "activate" message when that capability is missing and the "deactivate" message when only that one is missing. |
| `BulkPluginToggle.AddBulkToggle` | bulk-plugin-toggle.php:116-128 | The menu is left as it was, or gains exactly the entry `toggle-selected` ⇒ `Toggle` at the end. It changes exactly when that key is absent and the requested plugin status is absent, `all` or `upgrade`. Afterwards the key is present iff it was present before or the status allows it. Key uniqueness is preserved. |
| `ToggleProperties.AddBulkToggleIdempotent` | bulk-plugin-toggle.php:119-125 | Adding the toggle twice gives the same menu as adding it once. |
| `ToggleProperties.AddBulkToggleExamples` | tests/phpunit/tests/bulk-plugin-toggle.php:157-199 | The four menus of the test suite produce the expected results: default status, valid status, invalid status, and a menu already holding the toggle. |
| `BulkPluginToggle.SplitPlugins` | bulk-plugin-toggle.php:245-260 | With line 251 read as `$network_activate`, the two lists share no plugin, and together they hold exactly the selected plugins. |
| `BulkPluginToggle.SplitPluginsAsWritten` | bulk-plugin-toggle.php:245-260 | In the network admin, the split as written is modelled as undefined (None), because line 251 reads a never-assigned variable. PHP 7 would produce `[null, null]` after warnings. Elsewhere it is the split above, and the plugins to deactivate are the selected plugins for which `is_plugin_active` holds, minus the network-active ones. |
| `ToggleProperties.SplitSiteScope` | bulk-plugin-toggle.php:252-257 | In a single site, the plugins to deactivate are the selected plugins that are active and not network-active, in selection order. The plugins to activate are all the others, in order. |
| `ToggleProperties.SplitNetworkScope` | bulk-plugin-toggle.php:248-251 | In the network admin (reading `$network_activate` as intended), the plugins to deactivate are the selected network-active ones. The plugins to activate are all the others, in order. |
| `ToggleProperties.SplitPartition` | bulk-plugin-toggle.php:245-260 | Every selected occurrence lands in exactly one of the two lists (multiset equality). |
| `ToggleProperties.SplitAsWrittenFailsInNetworkAdmin` | bulk-plugin-toggle.php:250-251 | For a selection holding one network-active plugin in the network admin, the split as written is undefined (None). The corrected split puts that plugin on the deactivation list. |
| `ToggleProperties.SplitAsWrittenAgreesInSite` | bulk-plugin-toggle.php:252-255 | Outside the network admin, the split as written equals the corrected split. |
| `BulkPluginToggle.ActivationTargets` | bulk-plugin-toggle.php:142-161 | The loop keeps exactly the selected plugins that may be activated in the current scope, in selection order. |
| `BulkPluginToggle.Forget` | bulk-plugin-toggle.php:176-178 | Removing each activated plugin from `recently_activated` leaves the map minus those keys. |
| `BulkPluginToggle.Activation` | bulk-plugin-toggle.php:141-187 | The result says whether some selected plugin is activatable. If none is, nothing changes. Otherwise, in the current scope only, exactly the activatable plugins become active, and `recently_activated` forgets exactly them. All other state is unchanged. |
| `BulkPluginToggle.ActivatePlugins` | bulk-plugin-toggle.php:141-187 | The method leaves the host in the state `Activation` describes and returns its flag. |
| `BulkPluginToggle.KeepDeactivatable` | bulk-plugin-toggle.php:207-212 | The loop keeps exactly the plugins the user may deactivate, in order. |
| `BulkPluginToggle.StampAll` | bulk-plugin-toggle.php:221-224 | The loop builds a map from exactly the listed plugins to the current time. |
| `BulkPluginToggle.SiteDeactivationList` | bulk-plugin-toggle.php:204-212 | The three site-scope filters together keep exactly the deactivatable selected plugins, in order. |
| `BulkPluginToggle.DeactivationTargets` | bulk-plugin-toggle.php:200-213 | In either scope, the filtering keeps exactly the deactivatable selected plugins, in order. |
| `BulkPluginToggle.Deactivation` | bulk-plugin-toggle.php:199-233 | The result says whether some selected plugin is deactivatable. If none is, nothing changes. Otherwise, in the current scope only, exactly those plugins become inactive. `recently_activated` gains them with the current time, overriding older entries, and keeps every other entry. All other state is unchanged. |
| `BulkPluginToggle.DeactivatePlugins` | bulk-plugin-toggle.php:199-233 | The method leaves the host in the state `Deactivation` describes and returns its flag. |
| `PhpArrays.Filter` | bulk-plugin-toggle.php:202-204 | `array_filter` keeps exactly the elements in the kept set and never lengthens the list. |
| `PhpArrays.FilterConcat` | bulk-plugin-toggle.php:202-204 | Filtering distributes over concatenation. |
| `PhpArrays.FilterCompose` | bulk-plugin-toggle.php:204-205 | Two filters in sequence are one filter by the intersection of their sets. |
| `PhpArrays.FilterSplits` | bulk-plugin-toggle.php:253-257 | A filter and its complementary filter split a list's occurrences between them. |
| `PhpArrays.Diff` | bulk-plugin-toggle.php:205 | `array_diff` keeps exactly the elements not in the removed set. |
| `PhpArrays.Union` | bulk-plugin-toggle.php:227-229 | The union `$left + $right` has the keys of both. Keys of the left side keep their values, and keys found only on the right side keep the right side's values. |
| `BulkPluginToggle.BulkToggle` | bulk-plugin-toggle.php:271-301 | Another action or an empty selection returns `sendback` and changes nothing. The handler dies exactly when the request is a toggle of a non-empty selection by a user lacking a capability, and then changes nothing. The message is the "activate" one when that capability is missing and the "deactivate" one otherwise. Otherwise it redirects to `sendback` or to the success URL. In the network admin it uses the split with line 251 read as `$network_activate`; as written, that case changes nothing and returns `sendback` (PHP 7) or stops with a TypeError (PHP 8). |
| `BulkPluginToggle.HandleBulkToggle` | bulk-plugin-toggle.php:271-301 | The method returns the response and leaves the host in the state `BulkToggle` describes, including its reading of line 251. |
| `ToggleProperties.BulkToggleSteps` | bulk-plugin-toggle.php:285-300 | A permitted toggle is the split, then activation, then deactivation on the state activation left. It redirects to `sendback` exactly when neither step did anything. |
| `ToggleProperties.ToggleSiteEffect` | bulk-plugin-toggle.php:271-301 | In a single site, the site's `active_plugins` gains the activatable selected plugins and loses the deactivatable ones. Network state is unchanged. `recently_activated` loses the first group and stamps the second with the time. The redirect is to `sendback` iff both groups are empty. |
| `ToggleProperties.SiteToggleSkipsNetworkActive` | bulk-plugin-toggle.php:253-257 | Outside the network admin, a selected network-active plugin counts as active (`is_plugin_active`). The split still puts it on the activate list, and activation drops it as already active (line 152). Toggling it alone changes nothing and returns `sendback`. |
| `ToggleProperties.ToggleNetworkEffect` | bulk-plugin-toggle.php:271-301 | In the network admin (with the corrected split), the network-active set flips on exactly the selected plugins. The site's own `active_plugins` and `recently_activated` are unchanged, so `is_plugin_active` changes only through network activation. The network `recently_activated` loses the newly activated plugins and stamps the deactivated ones. The response is always the success redirect. |
| `ToggleProperties.FullyToggleableSets` | bulk-plugin-toggle.php:150-160 | In a single site, suppose the user may activate and deactivate every selected plugin and none of them is network-active or network-only. Then activation accepts exactly the inactive selected plugins and deactivation exactly the active ones. |
| `ToggleProperties.ToggleFlipsSelection` | bulk-plugin-toggle.php:271-301 | Under those conditions, the toggle flips exactly the selected plugins' activity and leaves the rest of the active set unchanged. |
| `ToggleProperties.ToggleTwiceRestoresActive` | bulk-plugin-toggle.php:271-301 | Under those conditions, toggling the same selection twice restores the original active set. |
| `ToggleProperties.HandleBulkToggleExitExamples` | tests/phpunit/tests/bulk-plugin-toggle.php:297-314 | Another action and an empty selection return `something` and change nothing. A user without the capabilities ends the request with the "activate" message. |
| `ToggleProperties.TestSuccessUrl` | bulk-plugin-toggle.php:300 | On the test site with `$status`, `$page` and `$s` unset, the success URL is the literal URL the test expects. |
| `ToggleProperties.TestSuccessUrlWithGlobals` | bulk-plugin-toggle.php:300 | With `$status`, `$page` and `$s` set to `upgrade`, `1` and `cat`, the success URL is the literal URL the test expects. |
| `ToggleProperties.HandleBulkToggleExample` | tests/phpunit/tests/bulk-plugin-toggle.php:316-326 | Two plugins active nowhere, and a user holding both capabilities. Toggling returns the test's literal URL `http://example.org/wp-admin/plugins.php?toggle-multi=true&plugin_status=&paged=&s=`. It also makes both plugins active. The test's plugins do not exist, so that holds only because host primitives are modelled as always succeeding. |
| `ToggleProperties.HandleBulkToggleWithGlobalsExample` | tests/phpunit/tests/bulk-plugin-toggle.php:328-344 | The same with the globals set: the redirect is the test's literal URL ending in `plugin_status=upgrade&paged=1&s=cat`, with the same caveat about the plugins becoming active. |

## Left out

- `remove_query_var`, `add_admin_notice`, `init`, `version` and the hook registrations are left out. They manipulate request globals and print markup, and are not part of the toggle logic.
- `$show_admin_notice` is left out. It is only a flag for the notice.
- The error-redirect URL passed by `activate_plugins` is left out. The host primitives `activate_plugins` and `deactivate_plugins` are modelled as always succeeding, with no plugin activation hooks, fatal errors or redirects.
- The integer keys PHP keeps after `unset`, `array_filter` and `array_diff` are not modelled. Lists are modelled by their values in order.
- Map entry order is not modelled: `recently_activated` is a map, so the order of its entries is abstracted away.
- The `(array)` cast of a missing `recently_activated` option is modelled as an empty map. Non-array option values are not modelled.
- `time()` is a parameter `now`, the same value for every plugin of one call.
- Concurrency and other requests are not modelled.
- Translation by `__()` is not modelled: messages and the label are the English strings.
- Loose comparison in `in_array` is not modelled: the plugin status is compared as a string. A non-string `$_GET` value is not modelled.
- `self_admin_url` is modelled as concatenation of the scope's admin base and the path.
- `current_user_can` per plugin is a set of plugins, and the capability booleans are independent of it. WordPress maps the `deactivate_plugins` capability onto `activate_plugins`; the test at tests/phpunit/tests/bulk-plugin-toggle.php:121-129 depends on that. The model keeps the two checks independent, so its properties hold for either mapping.
- The registry holds the site's own `active_plugins` option and the network-active set. `is_plugin_active` is their union. WordPress has no network-active plugins outside multisite; the model does not assume that and allows any network-active set.

## Findings

| source | as written | input that shows it | evidently intended | confidence | as-written member | corrected member |
|---|---|---|---|---|---|---|
| bulk-plugin-toggle.php:251 | In the network admin, the plugins to deactivate are read from `$network_active`, which is never assigned. The list is null: PHP 7 warns, activates nothing and deactivates nothing, and returns `$sendback`. PHP 8 raises a TypeError in `array_diff` at line 257. | Network admin, selection `[p]` with `p` network-active. | `$to_deactivate = $network_activate`, the filtered list computed at line 248, so that network-active selected plugins are deactivated. | not executed | `ToggleProperties.SplitAsWrittenFailsInNetworkAdmin` | `ToggleProperties.ToggleNetworkEffect` |
