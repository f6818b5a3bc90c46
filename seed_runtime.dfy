/**
 * The Seed runtime: the registration of its diagnostic collector and of the
 * default configuration layer, the check of plugin versions against Seed's
 * own, the diagnostic map and the typed access to the launch context.
 *
 * Plugins found by the service loader are given as a list of what their
 * package says; Java objects are references with their class name.
 */
module Runtime {
  import opened Wrappers
  import opened Strings

  const SEED_PACKAGE_PREFIX: string := "org.seedstack.seed"
  const DEFAULT_CONFIGURATION_PRIORITY: int := -1000
  const DEFAULT_PROVIDER_NAME: string := "default"
  const DIAGNOSTIC_COLLECTOR_NAME: string := "seed"

  /** A Java object: an identity and its runtime class. */
  datatype ObjectRef = ObjectRef(id: nat, className: string)

  /** A plugin as the service loader finds it: its name and its package's name and version, if any. */
  datatype PluginInfo = PluginInfo(name: string, packageName: Option<string>, version: Option<string>)

  /** A plugin is inconsistent when it is a Seed plugin with a version other than Seed's. */
  predicate Inconsistent(plugin: PluginInfo, seedVersion: Option<string>)
  {
    && seedVersion.Some?
    && plugin.packageName.Some?
    && IsPrefix(SEED_PACKAGE_PREFIX, plugin.packageName.value)
    && plugin.version.Some?
    && plugin.version.value != seedVersion.value
  }

  /** The names of the inconsistent plugins. */
  function InconsistentNames(plugins: seq<PluginInfo>, seedVersion: Option<string>): (names: set<string>)
    ensures forall name :: name in names <==>
      exists i :: 0 <= i < |plugins| && plugins[i].name == name && Inconsistent(plugins[i], seedVersion)
  {
    set i | 0 <= i < |plugins| && Inconsistent(plugins[i], seedVersion) :: plugins[i].name
  }

  /** Without a Seed version no plugin is examined. */
  lemma NoVersionNoCheck(plugins: seq<PluginInfo>)
    ensures InconsistentNames(plugins, None) == {}
  {
    assert forall i :: 0 <= i < |plugins| ==> !Inconsistent(plugins[i], None);
  }

  /**
   * The package test is a plain prefix test without a trailing dot: a package
   * `org.seedstack.seedling` counts as a Seed package too.
   */
  lemma PrefixWithoutDot(version: string, seedVersion: string)
    requires version != seedVersion
    ensures Inconsistent(PluginInfo("p", Some("org.seedstack.seedling"), Some(version)), Some(seedVersion))
  {
    assert "org.seedstack.seedling"[..|SEED_PACKAGE_PREFIX|] == SEED_PACKAGE_PREFIX;
  }

  /** A diagnostic value. */
  datatype DiagnosticValue =
    | Text(text: string)
    | Names(names: set<string>)
    | Object(ref: ObjectRef)
    | Nullable(maybe: Option<ObjectRef>)

  /** The diagnostic manager's registry of collectors, by name. */
  class DiagnosticManager {
    var collectors: set<string>

    constructor()
      ensures collectors == {}
    {
      collectors := {};
    }

    method RegisterDiagnosticInfoCollector(name: string)
      modifies this
      ensures collectors == old(collectors) + {name}
    {
      collectors := collectors + {name};
    }
  }

  /** The in-memory configuration layer the runtime creates. */
  class InMemoryProvider {
    constructor()
    {
    }
  }

  /** The prioritised configuration layers, by name. */
  class PrioritizedProvider {
    var providers: map<string, (InMemoryProvider, int)>

    constructor()
      ensures providers == map[]
    {
      providers := map[];
    }

    method RegisterProvider(name: string, provider: InMemoryProvider, priority: int)
      modifies this
      ensures providers == old(providers)[name := (provider, priority)]
    {
      providers := providers[name := (provider, priority)];
    }
  }

  class SeedRuntime {
    const context: Option<ObjectRef>
    const diagnosticManager: DiagnosticManager
    const configuration: PrioritizedProvider
    const configurationText: string          // what the configuration's `toString` gives
    const consoleManager: Option<ObjectRef>
    const seedVersion: Option<string>
    const defaultConfigurationProvider: InMemoryProvider
    var inconsistentPlugins: set<string>

    /**
     * Registers the `seed` collector, registers a fresh in-memory layer named
     * `default` at priority -1000, then checks the plugins' versions.
     */
    constructor(context: Option<ObjectRef>, diagnosticManager: DiagnosticManager,
                configuration: PrioritizedProvider, configurationText: string,
                consoleManager: Option<ObjectRef>, seedVersion: Option<string>,
                plugins: seq<PluginInfo>)
      modifies diagnosticManager, configuration
      ensures this.context == context && this.seedVersion == seedVersion
      ensures this.diagnosticManager == diagnosticManager && this.configuration == configuration
      ensures this.consoleManager == consoleManager && this.configurationText == configurationText
      ensures diagnosticManager.collectors == old(diagnosticManager.collectors) + {DIAGNOSTIC_COLLECTOR_NAME}
      ensures fresh(defaultConfigurationProvider)
      ensures configuration.providers
        == old(configuration.providers)[DEFAULT_PROVIDER_NAME := (defaultConfigurationProvider, DEFAULT_CONFIGURATION_PRIORITY)]
      ensures inconsistentPlugins == InconsistentNames(plugins, seedVersion)
    {
      this.context := context;
      this.diagnosticManager := diagnosticManager;
      this.configuration := configuration;
      this.configurationText := configurationText;
      this.consoleManager := consoleManager;
      this.seedVersion := seedVersion;
      var provider := new InMemoryProvider();
      this.defaultConfigurationProvider := provider;
      inconsistentPlugins := {};
      new;
      diagnosticManager.RegisterDiagnosticInfoCollector(DIAGNOSTIC_COLLECTOR_NAME);
      configuration.RegisterProvider(DEFAULT_PROVIDER_NAME, provider, DEFAULT_CONFIGURATION_PRIORITY);
      CheckConsistency(plugins);
    }

    /** Adds the name of every Seed plugin whose version differs from Seed's. */
    method CheckConsistency(plugins: seq<PluginInfo>)
      modifies this
      ensures inconsistentPlugins == old(inconsistentPlugins) + InconsistentNames(plugins, seedVersion)
    {
      if seedVersion.Some? {
        var i := 0;
        while i < |plugins|
          invariant 0 <= i <= |plugins|
          invariant inconsistentPlugins == old(inconsistentPlugins) + InconsistentNames(plugins[..i], seedVersion)
        {
          var plugin := plugins[i];
          assert forall j :: 0 <= j < i ==> plugins[..i + 1][j] == plugins[..i][j];
          assert plugins[..i + 1][i] == plugin;
          if plugin.packageName.Some? && IsPrefix(SEED_PACKAGE_PREFIX, plugin.packageName.value) {
            if plugin.version.Some? && plugin.version.value != seedVersion.value {
              inconsistentPlugins := inconsistentPlugins + {plugin.name};
            }
          }
          i := i + 1;
        }
        assert plugins[..i] == plugins;
      } else {
        NoVersionNoCheck(plugins);
      }
    }

    /** The diagnostic map, built key by key. */
    method Collect() returns (result: map<string, DiagnosticValue>)
      ensures "version" in result <==> seedVersion.Some?
      ensures seedVersion.Some? ==> result["version"] == Text(seedVersion.value)
      ensures "inconsistent-plugins" in result <==> inconsistentPlugins != {}
      ensures inconsistentPlugins != {} ==> result["inconsistent-plugins"] == Names(inconsistentPlugins)
      ensures "context" in result <==> context.Some?
      ensures context.Some? ==> result["context"] == Object(context.value)
      ensures "configuration" in result && result["configuration"] == Text(configurationText)
      ensures "color-output-supported" in result && result["color-output-supported"] == Nullable(consoleManager)
      ensures result.Keys <= {"version", "inconsistent-plugins", "context", "configuration", "color-output-supported"}
    {
      result := map[];
      if seedVersion.Some? {
        result := result["version" := Text(seedVersion.value)];
      }
      if inconsistentPlugins != {} {
        result := result["inconsistent-plugins" := Names(inconsistentPlugins)];
      }
      if context.Some? {
        result := result["context" := Object(context.value)];
      }
      result := result["configuration" := Text(configurationText)];
      result := result["color-output-supported" := Nullable(consoleManager)];
    }

    /**
     * The context as an instance of `className`: only when there is one and the
     * class is assignable from the context's class.
     */
    function ContextAs(className: string, isAssignableFrom: (string, string) -> bool): (r: Option<ObjectRef>)
      ensures r.Some? <==> context.Some? && isAssignableFrom(className, context.value.className)
      ensures r.Some? ==> r == context
    {
      if context.Some? && isAssignableFrom(className, context.value.className) then context else None
    }
  }
}
