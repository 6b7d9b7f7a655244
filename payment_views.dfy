/**
 * The dashboard's list of payment plugins: the names of the plugins whose
 * own class defines `process_payment`.
 */
module PaymentViews {
  import opened BasePlugin

  /**
   * The extension manager as the view sees it: all loaded plugins, and the
   * ones `get_active_plugins()` returns (that method is not part of this
   * model, so its answer is a field).
   */
  datatype ExtensionManager = ExtensionManager(plugins: seq<Plugin>, activePlugins: seq<Plugin>)

  const PaymentMethod: string := "process_payment"

  /** The plugin's own class (not a base class) defines `process_payment`. */
  predicate IsPaymentPlugin(p: Plugin)
  {
    PaymentMethod in p.ownMembers
  }

  /** The comprehension: `PLUGIN_NAME` of every payment plugin, in plugin order. */
  function PaymentPluginNames(plugins: seq<Plugin>): (names: seq<string>)
    ensures |names| <= |plugins|
    decreases |plugins|
  {
    if plugins == [] then []
    else
      var last := plugins[|plugins| - 1];
      PaymentPluginNames(plugins[..|plugins| - 1]) + (if IsPaymentPlugin(last) then [last.pluginName] else [])
  }

  /** A name is listed iff some plugin with that name defines `process_payment` itself. */
  lemma {:induction false} PaymentPluginNamesExact(plugins: seq<Plugin>, name: string)
    ensures name in PaymentPluginNames(plugins) <==>
      exists i :: 0 <= i < |plugins| && IsPaymentPlugin(plugins[i]) && plugins[i].pluginName == name
    decreases |plugins|
  {
    if plugins != [] {
      var front := plugins[..|plugins| - 1];
      PaymentPluginNamesExact(front, name);
      if exists i :: 0 <= i < |front| && IsPaymentPlugin(front[i]) && front[i].pluginName == name {
        var i :| 0 <= i < |front| && IsPaymentPlugin(front[i]) && front[i].pluginName == name;
        assert plugins[i] == front[i];
      }
      if exists i :: 0 <= i < |plugins| && IsPaymentPlugin(plugins[i]) && plugins[i].pluginName == name {
        var i :| 0 <= i < |plugins| && IsPaymentPlugin(plugins[i]) && plugins[i].pluginName == name;
        if i < |front| {
          assert front[i] == plugins[i];
        }
      }
    }
  }

  /** Filtering keeps order: the names of a concatenation are the concatenated names. */
  lemma {:induction false} PaymentPluginNamesAppend(a: seq<Plugin>, b: seq<Plugin>)
    ensures PaymentPluginNames(a + b) == PaymentPluginNames(a) + PaymentPluginNames(b)
    decreases |b|
  {
    if b == [] {
      assert a + b == a;
    } else {
      var front := b[..|b| - 1];
      assert (a + b)[..|a + b| - 1] == a + front;
      PaymentPluginNamesAppend(a, front);
    }
  }

  /** The plugins the view considers: the active ones when asked, otherwise all of them. */
  function Candidates(manager: ExtensionManager, activeOnly: bool): (c: seq<Plugin>)
    ensures activeOnly ==> c == manager.activePlugins
    ensures !activeOnly ==> c == manager.plugins
  {
    if activeOnly then manager.activePlugins else manager.plugins
  }

  /** `list_payments_plugins`. */
  function ListPaymentsPlugins(manager: ExtensionManager, activeOnly: bool): (names: seq<string>)
    ensures names == PaymentPluginNames(Candidates(manager, activeOnly))
    ensures |names| <= |Candidates(manager, activeOnly)|
  {
    PaymentPluginNames(Candidates(manager, activeOnly))
  }

  /** The index view's `payment_gateways`: the default `active_only=False`, so every loaded plugin is a candidate. */
  function IndexGateways(manager: ExtensionManager): (names: seq<string>)
    ensures names == PaymentPluginNames(manager.plugins)
  {
    ListPaymentsPlugins(manager, false)
  }
}
