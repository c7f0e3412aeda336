/**
 * monitor-config's `ConfigManager` and `RuntimeConfig`.
 *
 * The layered `config::Config` (the file plus the CRYPTO_MONITOR_*
 * environment) is built once, when the manager is created; it is modelled
 * by what deserialising it gives, a configuration or an error message.
 * Reading the file and the environment is not modelled.
 */
module ConfigManagement {
  import opened MonitorCore

  /** The built configuration sources, seen through `try_deserialize`. */
  datatype ConfigSource = ConfigSource(deserialized: Result<MonitorConfig>)

  /**
   * `validate`: the first failing check, in the order exchanges, database
   * URL, Fluvio endpoint; `Ok` when all three pass.
   */
  function ValidateConfig(c: MonitorConfig): (r: Result<()>)
    ensures r == Ok(()) <==> c.exchanges != [] && c.database.url != "" && c.fluvio.endpoint != ""
    ensures c.exchanges == [] ==> r == Err(Configuration("No exchanges configured"))
    ensures c.exchanges != [] && c.database.url == "" ==> r == Err(Configuration("Database URL not configured"))
    ensures c.exchanges != [] && c.database.url != "" && c.fluvio.endpoint == "" ==>
      r == Err(Configuration("Fluvio endpoint not configured"))
  {
    if c.exchanges == [] then Err(Configuration("No exchanges configured"))
    else if c.database.url == "" then Err(Configuration("Database URL not configured"))
    else if c.fluvio.endpoint == "" then Err(Configuration("Fluvio endpoint not configured"))
    else Ok(())
  }

  /** The configuration a source deserialises to, with the error wrapped as a configuration error. */
  function Deserialize(source: ConfigSource): Result<MonitorConfig> {
    match source.deserialized
    case Ok(c) => Ok(c)
    case Err(e) => Err(Configuration(e.msg))
  }

  class ConfigManager {
    const source: ConfigSource
    var monitorConfig: MonitorConfig

    constructor (source: ConfigSource)
      requires source.deserialized.Ok?
      ensures this.source == source && monitorConfig == source.deserialized.value
    {
      this.source := source;
      monitorConfig := source.deserialized.value;
    }

    /** `get_config_mut`: the caller replaces the configuration in place. */
    method SetConfig(c: MonitorConfig)
      modifies this
      ensures monitorConfig == c
    {
      monitorConfig := c;
    }

    /**
     * `reload`: deserialise the same sources again. On failure the error is
     * returned before the assignment, so the configuration is unchanged.
     */
    method Reload() returns (r: Result<()>)
      modifies this
      ensures source.deserialized.Ok? ==> r == Ok(()) && monitorConfig == source.deserialized.value
      ensures source.deserialized.Err? ==>
        r == Err(Configuration(source.deserialized.error.msg)) && monitorConfig == old(monitorConfig)
    {
      var d := Deserialize(source);
      match d {
        case Err(e) => return Err(e);
        case Ok(c) => monitorConfig := c;
      }
      r := Ok(());
    }

    /** `validate` on the current configuration; it changes nothing. */
    method Validate() returns (r: Result<()>)
      ensures r == ValidateConfig(monitorConfig)
    {
      r := ValidateConfig(monitorConfig);
    }
  }

  /**
   * `from_file` / `from_env` once the sources are built: a manager holding
   * the deserialised configuration, or the deserialisation error.
   */
  method FromSource(source: ConfigSource) returns (r: Result<ConfigManager>)
    ensures source.deserialized.Err? ==> r == Err(Configuration(source.deserialized.error.msg))
    ensures source.deserialized.Ok? ==>
      r.Ok? && r.value.source == source && r.value.monitorConfig == source.deserialized.value
  {
    match Deserialize(source) {
      case Err(e) => r := Err(e);
      case Ok(_) =>
        var m := new ConfigManager(source);
        r := Ok(m);
    }
  }

  /**
   * A manager created from a source reloads to the configuration it was
   * created with: changes made through `get_config_mut` are discarded.
   */
  method ReloadRestores(source: ConfigSource, c: MonitorConfig, edited: MonitorConfig) returns (m: ConfigManager)
    requires source.deserialized == Ok(c)
    ensures m.monitorConfig == c
  {
    m := new ConfigManager(source);
    m.SetConfig(edited);
    var r := m.Reload();
    assert r == Ok(());
  }

  datatype RuntimeConfig = RuntimeConfig(
    debugMode: bool,
    dryRun: bool,
    backtestMode: bool,
    startTime: Option<Timestamp>,
    endTime: Option<Timestamp>)

  /** `RuntimeConfig::default`: every flag off, no time window. */
  function DefaultRuntimeConfig(): (c: RuntimeConfig)
    ensures !c.debugMode && !c.dryRun && !c.backtestMode
    ensures c.startTime == None && c.endTime == None
  {
    RuntimeConfig(false, false, false, None, None)
  }
}
