/**
 * The application plugin: the application's identity, defaulted from the core
 * configuration, and its local storage directory, checked in a fixed order.
 *
 * The generated UUID is a parameter, and the file system is an oracle telling
 * what the storage directory looks like.
 */
module ApplicationModel {
  import opened Wrappers

  const DEFAULT_VERSION: string := "1.0.0"
  const DIAGNOSTIC_COLLECTOR_ID: string := "org.seedstack.seed.core.application"

  datatype ApplicationInfo = ApplicationInfo(appId: string, appName: string, appVersion: string)

  /**
   * The `application-*` keys of the core configuration; `None` for a key that
   * is not set (Java `null`).
   */
  datatype CoreConfiguration = CoreConfiguration(
    applicationId: Option<string>,
    applicationName: Option<string>,
    applicationVersion: Option<string>,
    storage: Option<string>)

  /**
   * The identity: a missing or empty id is replaced by the generated UUID, a
   * missing name by the id, a missing version by `1.0.0`. Only a missing name
   * or version is replaced; an empty one is kept.
   */
  function BuildApplicationInfo(config: CoreConfiguration, uuid: string): (info: ApplicationInfo)
    ensures config.applicationId.Some? && config.applicationId.value != "" ==> info.appId == config.applicationId.value
    ensures config.applicationId.None? || config.applicationId.value == "" ==> info.appId == uuid
    ensures config.applicationName.Some? ==> info.appName == config.applicationName.value
    ensures config.applicationName.None? ==> info.appName == info.appId
    ensures info.appVersion == config.applicationVersion.GetOr(DEFAULT_VERSION)
  {
    var appId := if config.applicationId.None? || config.applicationId.value == "" then uuid else config.applicationId.value;
    var appName := if config.applicationName.None? then appId else config.applicationName.value;
    var appVersion := if config.applicationVersion.None? then DEFAULT_VERSION else config.applicationVersion.value;
    ApplicationInfo(appId, appName, appVersion)
  }

  /** With a non-empty UUID the id is never empty, and neither is a name that falls back to it. */
  lemma IdentityNeverEmpty(config: CoreConfiguration, uuid: string)
    requires uuid != ""
    ensures BuildApplicationInfo(config, uuid).appId != ""
    ensures config.applicationName.None? ==> BuildApplicationInfo(config, uuid).appName != ""
  {
  }

  /** An empty id is replaced but an empty name is kept: only `null` is checked for the name. */
  lemma EmptyIdVersusEmptyName(uuid: string)
    ensures var info := BuildApplicationInfo(CoreConfiguration(Some(""), Some(""), None, None), uuid);
      info == ApplicationInfo(uuid, "", DEFAULT_VERSION)
  {
  }

  /** What the file system says about the storage path, after any attempt to create it. */
  datatype Directory = Directory(
    present: bool,        // it exists before the check
    created: bool,        // creating it and its parents succeeds
    isDirectory: bool,
    canWrite: bool,
    absolutePath: string)

  datatype StorageError =
    | UnableToCreateStorageDirectory(path: string)
    | StoragePathIsNotADirectory(path: string)
    | StorageDirectoryIsNotWritable(path: string)

  /**
   * The storage directory: none without a `storage` key; otherwise it must
   * exist or be created, be a directory and be writable, checked in that order.
   */
  function SetupApplicationStorage(config: CoreConfiguration, fs: string -> Directory): (r: Result<Option<Directory>, StorageError>)
    ensures config.storage.None? ==> r == Ok(None)
    ensures config.storage.Some? && r.Ok? ==> r.value == Some(fs(config.storage.value))
    ensures config.storage.Some? ==>
      var d := fs(config.storage.value);
      (r.Ok? <==> (d.present || d.created) && d.isDirectory && d.canWrite)
  {
    match config.storage
    case None => Ok(None)
    case Some(location) =>
      var d := fs(location);
      if !d.present && !d.created then Err(UnableToCreateStorageDirectory(d.absolutePath))
      else if !d.isDirectory then Err(StoragePathIsNotADirectory(d.absolutePath))
      else if !d.canWrite then Err(StorageDirectoryIsNotWritable(d.absolutePath))
      else Ok(Some(d))
  }

  /** The error reported is that of the first failing check, whatever the later checks say. */
  lemma StorageCheckOrder(config: CoreConfiguration, fs: string -> Directory)
    requires config.storage.Some?
    ensures var d := fs(config.storage.value);
      var r := SetupApplicationStorage(config, fs);
      && (!d.present && !d.created ==> r == Err(UnableToCreateStorageDirectory(d.absolutePath)))
      && ((d.present || d.created) && !d.isDirectory ==> r == Err(StoragePathIsNotADirectory(d.absolutePath)))
      && ((d.present || d.created) && d.isDirectory && !d.canWrite ==> r == Err(StorageDirectoryIsNotWritable(d.absolutePath)))
  {
  }

  /** Without a `storage` key the file system is not consulted: any two file systems agree. */
  lemma NoStorageNoCheck(config: CoreConfiguration, fs1: string -> Directory, fs2: string -> Directory)
    requires config.storage.None?
    ensures SetupApplicationStorage(config, fs1) == SetupApplicationStorage(config, fs2) == Ok(None)
  {
  }

  /** The application: its identity and its storage directory, if any. */
  datatype Application = Application(info: ApplicationInfo, storage: Option<Directory>)

  /** The diagnostic collector fed by the plugin. */
  class ApplicationDiagnosticCollector {
    var applicationInfo: Option<ApplicationInfo>
    var storageLocation: Option<string>

    constructor()
      ensures applicationInfo.None? && storageLocation.None?
    {
      applicationInfo := None;
      storageLocation := None;
    }
  }

  /** The core plugin's registry of diagnostic collectors, by id. */
  class CorePlugin {
    var diagnosticCollectors: set<string>

    constructor()
      ensures diagnosticCollectors == {}
    {
      diagnosticCollectors := {};
    }

    method RegisterDiagnosticCollector(id: string)
      modifies this
      ensures diagnosticCollectors == old(diagnosticCollectors) + {id}
    {
      diagnosticCollectors := diagnosticCollectors + {id};
    }
  }

  class ApplicationPlugin {
    const collector: ApplicationDiagnosticCollector
    var application: Option<Application>

    constructor()
      ensures fresh(collector) && application.None?
      ensures collector.applicationInfo.None? && collector.storageLocation.None?
    {
      collector := new ApplicationDiagnosticCollector();
      application := None;
    }

    /**
     * Builds the identity (handing it to the collector), sets up the storage,
     * then creates the application and registers the collector. A storage
     * failure stops it after the identity was handed over.
     */
    method Init(config: CoreConfiguration, uuid: string, fs: string -> Directory, core: CorePlugin)
      returns (r: Result<(), StorageError>)
      modifies this, collector, core
      ensures var info := BuildApplicationInfo(config, uuid);
        var storage := SetupApplicationStorage(config, fs);
        && collector.applicationInfo == Some(info)
        && (r.Ok? <==> storage.Ok?)
        && (storage.Err? ==>
              && r == Err(storage.error)
              && application == old(application)
              && collector.storageLocation == old(collector.storageLocation)
              && core.diagnosticCollectors == old(core.diagnosticCollectors))
        && (storage.Ok? ==>
              && application == Some(Application(info, storage.value))
              && collector.storageLocation == (if storage.value.Some? then Some(storage.value.value.absolutePath)
                                               else old(collector.storageLocation))
              && core.diagnosticCollectors == old(core.diagnosticCollectors) + {DIAGNOSTIC_COLLECTOR_ID})
    {
      var info := BuildApplicationInfo(config, uuid);
      collector.applicationInfo := Some(info);
      var storage := SetupApplicationStorage(config, fs);
      if storage.Err? {
        return Err(storage.error);
      }
      if storage.value.Some? {
        collector.storageLocation := Some(storage.value.value.absolutePath);
      }
      application := Some(Application(info, storage.value));
      core.RegisterDiagnosticCollector(DIAGNOSTIC_COLLECTOR_ID);
      return Ok(());
    }
  }
}
