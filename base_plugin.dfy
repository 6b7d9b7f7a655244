/**
 * The plugin base class: configuration items merged by name, the
 * `active` flag, get-or-create of a plugin's stored configuration, and the
 * hooks that all answer "no opinion" (`NotImplemented`) so that a chain of
 * plugins passes the previous value through.
 */
module BasePlugin {
  import opened Common

  /** One stored configuration item: a dictionary with a "name", a "value" and other keys. */
  datatype ConfigItem = ConfigItem(name: string, value: Option<string>, otherFields: map<string, string>)

  /**
   * One entry of the requested update. Either key may be missing from the
   * dictionary; `.get` then yields `None`.
   */
  datatype ConfigUpdate = ConfigUpdate(name: Option<string>, value: Option<string>)

  /** One step of the inner loop: a matching entry overwrites the value (with `None` if it has no "value"). */
  function ApplyUpdate(item: ConfigItem, update: ConfigUpdate): ConfigItem
  {
    if update.name == Some(item.name) then item.(value := update.value) else item
  }

  /** The inner loop over all update entries, in order, applied to one item. */
  function ApplyUpdates(item: ConfigItem, updates: seq<ConfigUpdate>): ConfigItem
    decreases |updates|
  {
    if updates == [] then item
    else ApplyUpdate(ApplyUpdates(item, updates[..|updates| - 1]), updates[|updates| - 1])
  }

  /** The whole configuration after the nested loops. */
  function Merged(current: seq<ConfigItem>, updates: seq<ConfigUpdate>): seq<ConfigItem>
  {
    seq(|current|, i requires 0 <= i < |current| => ApplyUpdates(current[i], updates))
  }

  /** Reference definition: the last update entry carrying the given name, if any. */
  function LastMatch(name: string, updates: seq<ConfigUpdate>): (r: Option<ConfigUpdate>)
    ensures r.Some? ==> r.value in updates && r.value.name == Some(name)
    ensures r.None? ==> forall u :: u in updates ==> u.name != Some(name)
    decreases |updates|
  {
    if updates == [] then None
    else if updates[|updates| - 1].name == Some(name) then Some(updates[|updates| - 1])
    else
      var r := LastMatch(name, updates[..|updates| - 1]);
      assert updates == updates[..|updates| - 1] + [updates[|updates| - 1]];
      r
  }

  /** Applying the entries in order leaves exactly the value of the last matching entry. */
  lemma {:induction false} ApplyUpdatesIsLastMatch(item: ConfigItem, updates: seq<ConfigUpdate>)
    ensures ApplyUpdates(item, updates) ==
      match LastMatch(item.name, updates)
      case Some(u) => item.(value := u.value)
      case None => item
    decreases |updates|
  {
    if updates != [] {
      ApplyUpdatesIsLastMatch(item, updates[..|updates| - 1]);
    }
  }

  /**
   * The merge keeps the length, order, names and other keys of the stored
   * configuration; an item's value becomes that of the last update entry with
   * its name (`None` when that entry has no "value"), and stays as it was
   * when no entry names it.
   */
  lemma MergedShape(current: seq<ConfigItem>, updates: seq<ConfigUpdate>)
    ensures |Merged(current, updates)| == |current|
    ensures forall i :: 0 <= i < |current| ==>
      && Merged(current, updates)[i].name == current[i].name
      && Merged(current, updates)[i].otherFields == current[i].otherFields
      && Merged(current, updates)[i].value ==
           match LastMatch(current[i].name, updates)
           case Some(u) => u.value
           case None => current[i].value
  {
    forall i | 0 <= i < |current| {
      ApplyUpdatesIsLastMatch(current[i], updates);
    }
  }

  /** Update entries that name no stored item are ignored: nothing is appended or changed. */
  lemma MergedIgnoresUnmatched(current: seq<ConfigItem>, updates: seq<ConfigUpdate>)
    requires forall u, i :: u in updates && 0 <= i < |current| ==> u.name != Some(current[i].name)
    ensures Merged(current, updates) == current
  {
    MergedShape(current, updates);
  }

  /** Applying the same update twice equals applying it once. */
  lemma MergedIdempotent(current: seq<ConfigItem>, updates: seq<ConfigUpdate>)
    ensures Merged(Merged(current, updates), updates) == Merged(current, updates)
  {
    var once := Merged(current, updates);
    MergedShape(current, updates);
    MergedShape(once, updates);
  }

  /** A stored plugin configuration, updated in place. */
  class PluginConfiguration {
    var name: string
    var active: bool
    var configuration: seq<ConfigItem>

    constructor (name: string, active: bool, configuration: seq<ConfigItem>)
      ensures this.name == name && this.active == active && this.configuration == configuration
    {
      this.name := name;
      this.active := active;
      this.configuration := configuration;
    }
  }

  /**
   * The nested loops: for every stored item, every update entry with its
   * name overwrites its value, in place.
   */
  method UpdateConfigItems(updates: seq<ConfigUpdate>, conf: PluginConfiguration)
    modifies conf`configuration
    ensures conf.configuration == Merged(old(conf.configuration), updates)
  {
    ghost var original := conf.configuration;
    var i := 0;
    while i < |conf.configuration|
      invariant 0 <= i <= |conf.configuration| == |original|
      invariant forall k :: 0 <= k < i ==> conf.configuration[k] == ApplyUpdates(original[k], updates)
      invariant forall k :: i <= k < |original| ==> conf.configuration[k] == original[k]
    {
      var j := 0;
      while j < |updates|
        invariant 0 <= j <= |updates|
        invariant |conf.configuration| == |original|
        invariant conf.configuration[i] == ApplyUpdates(original[i], updates[..j])
        invariant forall k :: 0 <= k < i ==> conf.configuration[k] == ApplyUpdates(original[k], updates)
        invariant forall k :: i < k < |original| ==> conf.configuration[k] == original[k]
      {
        var item := conf.configuration[i];
        if Some(item.name) == updates[j].name {
          conf.configuration := conf.configuration[i := item.(value := updates[j].value)];
        }
        assert updates[..j + 1][..j] == updates[..j];
        j := j + 1;
      }
      assert updates[..|updates|] == updates;
      i := i + 1;
    }
  }

  /** The validated form data: each key may be missing. */
  datatype CleanedData = CleanedData(configuration: Option<seq<ConfigUpdate>>, active: Option<bool>)

  /**
   * Merges a non-empty "configuration" entry into the stored items and sets
   * `active` only when the "active" key is present; returns the same record.
   */
  method SavePluginConfiguration(conf: PluginConfiguration, cleaned: CleanedData) returns (saved: PluginConfiguration)
    modifies conf
    ensures saved == conf && conf.name == old(conf.name)
    ensures conf.configuration ==
      if cleaned.configuration.Some? && cleaned.configuration.value != []
      then Merged(old(conf.configuration), cleaned.configuration.value)
      else old(conf.configuration)
    ensures conf.active == if cleaned.active.Some? then cleaned.active.value else old(conf.active)
  {
    if cleaned.configuration.Some? && cleaned.configuration.value != [] {
      UpdateConfigItems(cleaned.configuration.value, conf);
    }
    if cleaned.active.Some? {
      conf.active := cleaned.active.value;
    }
    saved := conf;
  }

  /** Field values handed to get-or-create for a record it creates. */
  datatype ConfigurationDefaults = ConfigurationDefaults(active: bool, configuration: seq<ConfigItem>)

  /**
   * The stored plugin configurations, by plugin name. A record created here
   * takes the model's field defaults, kept in `defaultActive` and
   * `defaultConfiguration`.
   */
  class ConfigurationTable {
    var rows: map<string, PluginConfiguration>
    const defaultActive: bool
    const defaultConfiguration: seq<ConfigItem>

    constructor (defaultActive: bool, defaultConfiguration: seq<ConfigItem>)
      ensures rows == map[]
      ensures this.defaultActive == defaultActive && this.defaultConfiguration == defaultConfiguration
    {
      rows := map[];
      this.defaultActive := defaultActive;
      this.defaultConfiguration := defaultConfiguration;
    }

    /** The per-class defaults passed to get-or-create: none. */
    function DefaultConfiguration(): (d: Option<ConfigurationDefaults>)
      ensures d.None?
    {
      None
    }

    /**
     * The field values a record created by get-or-create receives: the given
     * defaults when there are some, otherwise the model's field defaults.
     */
    function CreatedFields(defaults: Option<ConfigurationDefaults>): (r: ConfigurationDefaults)
      ensures defaults.None? ==> r.active == defaultActive && r.configuration == defaultConfiguration
      ensures defaults.Some? ==> r == defaults.value
    {
      if defaults.Some? then defaults.value
      else ConfigurationDefaults(defaultActive, defaultConfiguration)
    }

    /**
     * Get-or-create by plugin name: the existing record when there is one,
     * otherwise a new record with that name, stored in the table.
     */
    method GetPluginConfiguration(pluginName: string) returns (c: PluginConfiguration)
      modifies this
      ensures pluginName in old(rows) ==> c == old(rows)[pluginName] && rows == old(rows)
      ensures pluginName !in old(rows) ==>
        && fresh(c)
        && rows == old(rows)[pluginName := c]
        && c.name == pluginName && c.active == defaultActive && c.configuration == defaultConfiguration
    {
      if pluginName in rows {
        c := rows[pluginName];
      } else {
        var fields := CreatedFields(DefaultConfiguration());
        c := new PluginConfiguration(pluginName, fields.active, fields.configuration);
        rows := rows[pluginName := c];
      }
    }
  }

  /** Two get-or-create calls for the same name return the same record. */
  method GetPluginConfigurationTwice(table: ConfigurationTable, pluginName: string)
    returns (first: PluginConfiguration, second: PluginConfiguration)
    modifies table
    ensures first == second && pluginName in table.rows && table.rows[pluginName] == first
  {
    first := table.GetPluginConfiguration(pluginName);
    second := table.GetPluginConfiguration(pluginName);
  }

  /** The hooks every plugin offers. */
  datatype Hook =
    | CalculateCheckoutTotal | CalculateCheckoutSubtotal | CalculateCheckoutShipping
    | CalculateOrderShipping | CalculateCheckoutLineTotal | CalculateOrderLineUnit
    | GetTaxRateTypeChoices | ShowTaxesOnStorefront | TaxesAreEnabled
    | ApplyTaxesToShippingPriceRange | ApplyTaxesToShipping | ApplyTaxesToProduct
    | PreprocessOrderCreation | PostprocessOrderCreation | AssignTaxCodeToObjectMeta
    | GetTaxCodeFromObjectMeta | GetTaxRatePercentageValue

  /** A hook's answer: the `NotImplemented` sentinel ("no opinion") or a computed value. */
  datatype HookResult<V> = NotImplemented | Computed(value: V)

  /** What the base class answers to any hook: no opinion, whatever the previous value. */
  function BaseHook<V>(hook: Hook, previousValue: V): (r: HookResult<V>)
    ensures !r.Computed?
  {
    NotImplemented
  }

  /** How a chain uses one answer: `NotImplemented` keeps the previous value. */
  function ChainStep<V>(previousValue: V, answer: HookResult<V>): V
  {
    match answer
    case NotImplemented => previousValue
    case Computed(v) => v
  }

  /** The chain of plugins, in order, starting from the default value. */
  function RunChain<V>(plugins: seq<V -> HookResult<V>>, default: V): V
    decreases |plugins|
  {
    if plugins == [] then default
    else
      var previous := RunChain(plugins[..|plugins| - 1], default);
      ChainStep(previous, plugins[|plugins| - 1](previous))
  }

  /** A chain of plugins that all answer "no opinion" returns the default value unchanged. */
  lemma {:induction false} BaseChainKeepsDefault<V>(hook: Hook, plugins: seq<V -> HookResult<V>>, default: V)
    requires forall i, v :: 0 <= i < |plugins| ==> plugins[i](v) == BaseHook(hook, v)
    ensures RunChain(plugins, default) == default
    decreases |plugins|
  {
    if plugins != [] {
      var prefix := plugins[..|plugins| - 1];
      forall i, v | 0 <= i < |prefix| ensures prefix[i](v) == BaseHook(hook, v) {
        assert prefix[i] == plugins[i];
      }
      BaseChainKeepsDefault(hook, prefix, default);
      assert plugins[|plugins| - 1](default) == BaseHook(hook, default);
    }
  }

  /** A plugin class: its `PLUGIN_NAME` and the names its own class body defines. */
  datatype Plugin = Plugin(pluginName: string, ownMembers: set<string>)

  /** `str(plugin)`. */
  function Str(plugin: Plugin): (r: string)
    ensures r == plugin.pluginName
  {
    plugin.pluginName
  }
}
