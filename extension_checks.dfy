/**
 * The start-up check of the extension settings: the manager path and every
 * plugin path must name an importable module and an attribute of it.
 * Importing is replaced by a table from module paths to modules.
 */
module ExtensionChecks {
  import opened Common

  /** An importable module: how it prints, and the names it binds to a truthy object. */
  datatype Module = Module(repr: string, attributes: set<string>)

  /** What importing a module path does. */
  datatype ImportResult = Imported(m: Module) | ModuleNotFound | Raised(exception: string)

  /**
   * Import by path: an empty path raises `ValueError`, a relative path
   * (leading '.') raises `TypeError` (no anchor package), an unknown path
   * raises `ModuleNotFoundError`.
   */
  function ImportModule(modules: map<string, Module>, path: string): (r: ImportResult)
    ensures r.Imported? <==> path != "" && path[0] != '.' && path in modules
    ensures r.Raised? <==> path == "" || path[0] == '.'
  {
    if path == "" then Raised("ValueError")
    else if path[0] == '.' then Raised("TypeError")
    else if path in modules then Imported(modules[path])
    else ModuleNotFound
  }

  /** The index of the last '.', or -1 when there is none. */
  function LastDot(s: string): (k: int)
    ensures -1 <= k < |s|
    ensures k >= 0 ==> s[k] == '.'
    ensures forall j :: k < j < |s| ==> s[j] != '.'
    decreases |s|
  {
    if s == [] then -1
    else if s[|s| - 1] == '.' then |s| - 1
    else LastDot(s[..|s| - 1])
  }

  /** `s.rpartition(".")` without the separator: the module path and the attribute name. */
  function RPartition(s: string): (string, string)
  {
    var k := LastDot(s);
    if k < 0 then ("", s) else (s[..k], s[k + 1..])
  }

  /**
   * The split is at the last '.': the two parts joined by '.' give the
   * path back and the name holds no '.'; a path without '.' gives an
   * empty module path and the whole path as the name.
   */
  lemma RPartitionSplitsAtLastDot(s: string)
    ensures '.' in s ==> RPartition(s).0 + "." + RPartition(s).1 == s && '.' !in RPartition(s).1
    ensures '.' !in s ==> RPartition(s) == ("", s)
  {
    var k := LastDot(s);
    if '.' in s {
      var i :| 0 <= i < |s| && s[i] == '.';
      assert k >= i;
      assert s[..k] + "." + s[k + 1..] == s;
    }
  }

  /** A configuration error reported by the check. */
  datatype CheckError = CheckError(message: string)

  /** The settings the check reads: the manager path (missing, `None` or a string) and the plugin paths. */
  datatype Settings = Settings(extensionManager: Option<string>, plugins: seq<string>)

  /** The errors one part of the check appends, and the exception it raised, if any. */
  datatype CheckResult = CheckResult(errors: seq<CheckError>, raised: Option<string>)

  const MissingManagerMessage: string := "Settings should contain EXTENSION_MANAGER env"

  /** Which of the two paths is checked: the messages differ. */
  datatype PathKind = ManagerPath | PluginPath

  function NotFoundMessage(kind: PathKind, modulePath: string): string
  {
    match kind
    case ManagerPath => "Extension Manager path: " + modulePath + " doesn't exist"
    case PluginPath => "Plugin with path: " + modulePath + " doesn't exist"
  }

  function MissingAttributeMessage(kind: PathKind, name: string, m: Module): string
  {
    match kind
    case ManagerPath => "Extension Manager " + name + " doesn't exists in specific path " + m.repr
    case PluginPath => "Plugin " + name + " doesn't exists in specific path " + m.repr
  }

  /** Checks one non-empty dotted path: at most one error, or the import raised. */
  function CheckPath(kind: PathKind, path: string, modules: map<string, Module>): (r: CheckResult)
    ensures |r.errors| <= 1
    ensures r.raised.Some? ==> r.errors == []
    ensures r.errors == [] && r.raised.None? <==>
      var (modulePath, name) := RPartition(path);
      ImportModule(modules, modulePath).Imported? && name in modules[modulePath].attributes
    ensures r.raised.Some? <==> ImportModule(modules, RPartition(path).0).Raised?
    ensures ImportModule(modules, RPartition(path).0).ModuleNotFound? ==>
      r == CheckResult([CheckError(NotFoundMessage(kind, RPartition(path).0))], None)
    ensures var (modulePath, name) := RPartition(path);
      ImportModule(modules, modulePath).Imported? && name !in modules[modulePath].attributes ==>
      r == CheckResult([CheckError(MissingAttributeMessage(kind, name, modules[modulePath]))], None)
  {
    var (modulePath, name) := RPartition(path);
    match ImportModule(modules, modulePath)
    case Raised(e) => CheckResult([], Some(e))
    case ModuleNotFound => CheckResult([CheckError(NotFoundMessage(kind, modulePath))], None)
    case Imported(m) =>
      if name in m.attributes then CheckResult([], None)
      else CheckResult([CheckError(MissingAttributeMessage(kind, name, m))], None)
  }

  /** `check_manager`: a missing or empty manager path gives exactly one error and nothing else is checked. */
  function ManagerCheck(settings: Settings, modules: map<string, Module>): (r: CheckResult)
    ensures |r.errors| <= 1
    ensures settings.extensionManager.None? || settings.extensionManager.value == "" ==>
      r == CheckResult([CheckError(MissingManagerMessage)], None)
  {
    if settings.extensionManager.None? || settings.extensionManager.value == "" then
      CheckResult([CheckError(MissingManagerMessage)], None)
    else CheckPath(ManagerPath, settings.extensionManager.value, modules)
  }

  /** The check of one plugin path: an empty path is reported and the loop continues. */
  function PluginCheck(path: string, modules: map<string, Module>): (r: CheckResult)
    ensures |r.errors| <= 1
    ensures path == "" ==> r == CheckResult([CheckError("Wrong plugin_path " + path)], None)
  {
    if path == "" then CheckResult([CheckError("Wrong plugin_path " + path)], None)
    else CheckPath(PluginPath, path, modules)
  }

  /** `check_plugins` over the paths in order; an exception ends the loop, keeping the errors so far. */
  function PluginsCheck(paths: seq<string>, modules: map<string, Module>): CheckResult
    decreases |paths|
  {
    if paths == [] then CheckResult([], None)
    else
      var before := PluginsCheck(paths[..|paths| - 1], modules);
      if before.raised.Some? then before
      else
        var last := PluginCheck(paths[|paths| - 1], modules);
        CheckResult(before.errors + last.errors, last.raised)
  }

  /** Each plugin path adds at most one error, and the errors follow the order of the paths. */
  lemma {:induction false} PluginsCheckOneErrorPerPath(paths: seq<string>, modules: map<string, Module>)
    ensures |PluginsCheck(paths, modules).errors| <= |paths|
    ensures PluginsCheck(paths, modules).raised.None? ==>
      PluginsCheck(paths, modules).errors == PluginErrorsInOrder(paths, modules)
    decreases |paths|
  {
    if paths != [] {
      PluginsCheckOneErrorPerPath(paths[..|paths| - 1], modules);
    }
  }

  /** Reference definition: the errors of each path, concatenated in plugin order. */
  function PluginErrorsInOrder(paths: seq<string>, modules: map<string, Module>): seq<CheckError>
    decreases |paths|
  {
    if paths == [] then [] else PluginErrorsInOrder(paths[..|paths| - 1], modules) + PluginCheck(paths[|paths| - 1], modules).errors
  }

  /** `check_extensions`: manager errors first, plugin errors only when there are plugins; an exception escapes. */
  function CheckExtensionsSpec(settings: Settings, modules: map<string, Module>): Result<seq<CheckError>, string>
  {
    var manager := ManagerCheck(settings, modules);
    if manager.raised.Some? then Err(manager.raised.value)
    else if settings.plugins == [] then Ok(manager.errors)
    else
      var plugins := PluginsCheck(settings.plugins, modules);
      if plugins.raised.Some? then Err(plugins.raised.value) else Ok(manager.errors + plugins.errors)
  }

  /** The error list the checks append to, in place. */
  class ErrorLog {
    var errors: seq<CheckError>

    constructor ()
      ensures errors == []
    {
      errors := [];
    }

    method Append(e: CheckError)
      modifies this
      ensures errors == old(errors) + [e]
    {
      errors := errors + [e];
    }
  }

  /** Checks one dotted path, appending its error (if any) to the log. */
  method AppendPathErrors(log: ErrorLog, kind: PathKind, path: string, modules: map<string, Module>) returns (raised: Option<string>)
    modifies log
    ensures log.errors == old(log.errors) + CheckPath(kind, path, modules).errors
    ensures raised == CheckPath(kind, path, modules).raised
  {
    var (modulePath, name) := RPartition(path);
    var imported := ImportModule(modules, modulePath);
    raised := None;
    match imported {
      case Raised(e) =>
        raised := Some(e);
      case ModuleNotFound =>
        log.Append(CheckError(NotFoundMessage(kind, modulePath)));
      case Imported(m) =>
        if name !in m.attributes {
          log.Append(CheckError(MissingAttributeMessage(kind, name, m)));
        }
    }
  }

  /** `check_manager`. */
  method CheckManager(log: ErrorLog, settings: Settings, modules: map<string, Module>) returns (raised: Option<string>)
    modifies log
    ensures log.errors == old(log.errors) + ManagerCheck(settings, modules).errors
    ensures raised == ManagerCheck(settings, modules).raised
  {
    if settings.extensionManager.None? || settings.extensionManager.value == "" {
      log.Append(CheckError(MissingManagerMessage));
      return None;
    }
    raised := AppendPathErrors(log, ManagerPath, settings.extensionManager.value, modules);
  }

  /** `check_plugins`: the loop over the plugin paths. */
  method CheckPlugins(log: ErrorLog, plugins: seq<string>, modules: map<string, Module>) returns (raised: Option<string>)
    modifies log
    ensures log.errors == old(log.errors) + PluginsCheck(plugins, modules).errors
    ensures raised == PluginsCheck(plugins, modules).raised
  {
    var i := 0;
    raised := None;
    while i < |plugins|
      invariant 0 <= i <= |plugins|
      invariant raised.None? && PluginsCheck(plugins[..i], modules).raised.None?
      invariant log.errors == old(log.errors) + PluginsCheck(plugins[..i], modules).errors
    {
      PluginsCheckStep(plugins, i, modules);
      var path := plugins[i];
      if path == "" {
        log.Append(CheckError("Wrong plugin_path " + path));
        i := i + 1;
        continue;
      }
      raised := AppendPathErrors(log, PluginPath, path, modules);
      if raised.Some? {
        PluginsCheckStopsAtRaise(plugins, i + 1, modules);
        return;
      }
      i := i + 1;
    }
    assert plugins[..i] == plugins;
  }

  /** One more path checked: its errors are appended and its exception, if any, is the result's. */
  lemma PluginsCheckStep(plugins: seq<string>, i: nat, modules: map<string, Module>)
    requires i < |plugins|
    requires PluginsCheck(plugins[..i], modules).raised.None?
    ensures PluginsCheck(plugins[..i + 1], modules) ==
      CheckResult(PluginsCheck(plugins[..i], modules).errors + PluginCheck(plugins[i], modules).errors,
                  PluginCheck(plugins[i], modules).raised)
  {
    assert plugins[..i + 1][..i] == plugins[..i];
  }

  /** Once a path raises, the later paths are not checked. */
  lemma {:induction false} PluginsCheckStopsAtRaise(plugins: seq<string>, i: nat, modules: map<string, Module>)
    requires i <= |plugins|
    requires PluginsCheck(plugins[..i], modules).raised.Some?
    ensures PluginsCheck(plugins, modules) == PluginsCheck(plugins[..i], modules)
    decreases |plugins| - i
  {
    if i < |plugins| {
      assert plugins[..i + 1][..i] == plugins[..i];
      PluginsCheckStopsAtRaise(plugins, i + 1, modules);
    } else {
      assert plugins[..i] == plugins;
    }
  }

  /** `check_extensions`: runs both checks on a fresh error list and returns it, unless an import raised. */
  method CheckExtensions(settings: Settings, modules: map<string, Module>) returns (r: Result<seq<CheckError>, string>)
    ensures r == CheckExtensionsSpec(settings, modules)
    ensures r.Ok? && (settings.extensionManager.None? || settings.extensionManager.value == "") ==>
      r.value[..1] == [CheckError(MissingManagerMessage)]
    ensures r.Ok? ==> |r.value| <= 1 + |settings.plugins|
  {
    var log := new ErrorLog();
    var raised := CheckManager(log, settings, modules);
    assert log.errors == ManagerCheck(settings, modules).errors;
    if raised.Some? {
      return Err(raised.value);
    }
    if settings.plugins != [] {
      raised := CheckPlugins(log, settings.plugins, modules);
      if raised.Some? {
        return Err(raised.value);
      }
      PluginsCheckOneErrorPerPath(settings.plugins, modules);
    }
    r := Ok(log.errors);
  }
}
