/**
 * The agent's configuration record and the post-parse pipeline of
 * src/config/config.go: fill in defaults, validate, publish as the global
 * configuration.
 */
module Config {
  import opened Wrappers

  /** Go's `int` on the 64-bit targets the agent is built for. */
  newtype Int64 = x: int | -0x8000_0000_0000_0000 <= x < 0x8000_0000_0000_0000

  datatype ConfigUrls = ConfigUrls(
    StaticDNSConfig: string,
    MembersConfig: string,
    ServicesConfig: string,
    IaasPricingConfig: string,
    ServicesRequestsConfig: string)

  datatype SystemConfig = SystemConfig(
    WorkDir: string,
    LogLevel: string,
    ConfigUrls: ConfigUrls,
    ConfigReloadTime: Int64,    // seconds
    MinimumOfflineTime: Int64)  // seconds

  datatype NatsConfig = NatsConfig(NodeID: string, Url: string, User: string, Pass: string)

  datatype MysqlConfig = MysqlConfig(Host: string, Port: string, User: string, Pass: string, DB: string)

  datatype MatrixConfig = MatrixConfig(HomeServerURL: string, Username: string, Password: string, RoomID: string)

  datatype CollatorApiConfig = CollatorApiConfig(ListenAddress: string, ListenPort: string)

  datatype ServiceConfig = ServiceConfig(
    Name: string,
    Type: string,              // http, tcp, custom
    URL: string,
    Endpoint: string,
    Timeout: Int64,            // seconds
    Interval: Int64,           // seconds
    ExpectedStatus: Int64,
    ExpectedResponse: string)

  datatype AgentConfig = AgentConfig(
    AgentID: string,
    ReportInterval: Int64,     // seconds
    CheckInterval: Int64,      // seconds
    HealthCheckPort: Int64,
    ServicesToMonitor: seq<ServiceConfig>)

  /** The value of a whole configuration, as the JSON decoder leaves it. */
  datatype ConfigData = ConfigData(
    System: SystemConfig,
    Nats: NatsConfig,
    Mysql: MysqlConfig,
    Matrix: MatrixConfig,
    CollatorApi: CollatorApiConfig,
    Agent: AgentConfig)

  const DefaultWorkDir: string := "/opt/ibp-geodns-agent"
  const DefaultLogLevel: string := "Info"
  const DefaultConfigReloadTime: Int64 := 3600
  const DefaultMinimumOfflineTime: Int64 := 900
  const DefaultReportInterval: Int64 := 60
  const DefaultCheckInterval: Int64 := 30
  const DefaultHealthCheckPort: Int64 := 8080

  /** `after` is `dflt` when `before` was empty, and `before` otherwise. */
  predicate FilledStr(before: string, after: string, dflt: string) {
    (before == "" ==> after == dflt) && (before != "" ==> after == before)
  }

  /** `after` is `dflt` when `before` was exactly zero, and `before` otherwise. */
  predicate FilledInt(before: Int64, after: Int64, dflt: Int64) {
    (before == 0 ==> after == dflt) && (before != 0 ==> after == before)
  }

  function StrOr(s: string, dflt: string): string {
    if s == "" then dflt else s
  }

  function IntOr(x: Int64, dflt: Int64): Int64 {
    if x == 0 then dflt else x
  }

  /**
   * The configuration `setDefaults` leaves behind, `hostname` standing for
   * what `os.Hostname` returns (the empty string when it fails, since the
   * error is dropped).
   */
  function Defaulted(c: ConfigData, hostname: string): (r: ConfigData)
    ensures FilledStr(c.System.WorkDir, r.System.WorkDir, DefaultWorkDir)
    ensures FilledStr(c.System.LogLevel, r.System.LogLevel, DefaultLogLevel)
    ensures FilledInt(c.System.ConfigReloadTime, r.System.ConfigReloadTime, DefaultConfigReloadTime)
    ensures FilledInt(c.System.MinimumOfflineTime, r.System.MinimumOfflineTime, DefaultMinimumOfflineTime)
    ensures FilledInt(c.Agent.ReportInterval, r.Agent.ReportInterval, DefaultReportInterval)
    ensures FilledInt(c.Agent.CheckInterval, r.Agent.CheckInterval, DefaultCheckInterval)
    ensures FilledInt(c.Agent.HealthCheckPort, r.Agent.HealthCheckPort, DefaultHealthCheckPort)
    ensures FilledStr(c.Agent.AgentID, r.Agent.AgentID, hostname)
    // everything else is left as decoded
    ensures r.Nats == c.Nats && r.Mysql == c.Mysql && r.Matrix == c.Matrix && r.CollatorApi == c.CollatorApi
    ensures r.System.ConfigUrls == c.System.ConfigUrls
    ensures r.Agent.ServicesToMonitor == c.Agent.ServicesToMonitor
  {
    var sys := c.System;
    var agent := c.Agent;
    c.(System := sys.(WorkDir := StrOr(sys.WorkDir, DefaultWorkDir),
                      LogLevel := StrOr(sys.LogLevel, DefaultLogLevel),
                      ConfigReloadTime := IntOr(sys.ConfigReloadTime, DefaultConfigReloadTime),
                      MinimumOfflineTime := IntOr(sys.MinimumOfflineTime, DefaultMinimumOfflineTime)),
       Agent := agent.(ReportInterval := IntOr(agent.ReportInterval, DefaultReportInterval),
                       CheckInterval := IntOr(agent.CheckInterval, DefaultCheckInterval),
                       HealthCheckPort := IntOr(agent.HealthCheckPort, DefaultHealthCheckPort),
                       AgentID := StrOr(agent.AgentID, hostname)))
  }

  /** Applying the defaults a second time changes nothing. */
  lemma DefaultedIdempotent(c: ConfigData, hostname: string)
    ensures Defaulted(Defaulted(c, hostname), hostname) == Defaulted(c, hostname)
  {
  }

  /**
   * After the defaults every interval, the offline threshold and the port
   * are non-zero and the work directory and log level are non-empty; the
   * agent id is empty only when both it and the hostname were.
   */
  lemma DefaultedFieldsSet(c: ConfigData, hostname: string)
    ensures var r := Defaulted(c, hostname);
      r.System.WorkDir != "" && r.System.LogLevel != "" &&
      r.System.ConfigReloadTime != 0 && r.System.MinimumOfflineTime != 0 &&
      r.Agent.ReportInterval != 0 && r.Agent.CheckInterval != 0 && r.Agent.HealthCheckPort != 0 &&
      (r.Agent.AgentID == "" <==> c.Agent.AgentID == "" && hostname == "")
  {
  }

  datatype ConfigError = NatsUrlRequired | NatsNodeIdRequired

  /** The text of the error `Validate` returns. */
  function ErrorMessage(e: ConfigError): (r: string)
    ensures e == NatsUrlRequired <==> r == "NATS URL is required"
    ensures e == NatsNodeIdRequired <==> r == "NATS NodeID is required"
  {
    match e
    case NatsUrlRequired => "NATS URL is required"
    case NatsNodeIdRequired => "NATS NodeID is required"
  }

  /** `Validate`: the NATS URL is checked before the node id. */
  function Validate(c: ConfigData): (r: Outcome<ConfigError>)
    ensures r.Pass? <==> c.Nats.Url != "" && c.Nats.NodeID != ""
    ensures r == Fail(NatsUrlRequired) <==> c.Nats.Url == ""
    ensures r == Fail(NatsNodeIdRequired) <==> c.Nats.Url != "" && c.Nats.NodeID == ""
  {
    if c.Nats.Url == "" then Fail(NatsUrlRequired)
    else if c.Nats.NodeID == "" then Fail(NatsNodeIdRequired)
    else Pass
  }

  /** Defaults never touch the NATS section, so they cannot rescue or spoil validation. */
  lemma DefaultsPreserveValidation(c: ConfigData, hostname: string)
    ensures Validate(Defaulted(c, hostname)) == Validate(c)
  {
  }

  /** The texts `Validate` reports, in the order it checks. */
  lemma ValidateMessages(c: ConfigData)
    ensures c.Nats.Url == "" ==> ErrorMessage(Validate(c).error) == "NATS URL is required"
    ensures c.Nats.Url != "" && c.Nats.NodeID == "" ==>
      ErrorMessage(Validate(c).error) == "NATS NodeID is required"
  {
  }

  datatype LoadError = ValidationFailed(cause: ConfigError)

  /** `Load` wraps the validation error under a fixed prefix. */
  function LoadErrorMessage(e: LoadError): string {
    "config validation failed: " + ErrorMessage(e.cause)
  }

  /** The prefix is fixed, so the text of a load failure still tells which check failed. */
  lemma LoadErrorMessageInjective(a: LoadError, b: LoadError)
    ensures LoadErrorMessage(a) == LoadErrorMessage(b) ==> a == b
  {
    var p := "config validation failed: ";
    assert (p + ErrorMessage(a.cause))[|p|..] == ErrorMessage(a.cause);
    assert (p + ErrorMessage(b.cause))[|p|..] == ErrorMessage(b.cause);
  }

  /** What `Load` makes of an already decoded configuration. */
  function LoadPipeline(parsed: ConfigData, hostname: string): (r: Result<ConfigData, LoadError>)
    ensures r.Success? <==> Validate(parsed).Pass?
    ensures r.Success? ==> r.value == Defaulted(parsed, hostname)
    ensures r.Failure? ==> r.error == ValidationFailed(Validate(parsed).error)
  {
    var d := Defaulted(parsed, hostname);
    DefaultsPreserveValidation(parsed, hostname);
    match Validate(d)
    case Fail(e) => Failure(ValidationFailed(e))
    case Pass => Success(d)
  }

  /** The full texts of the two ways `Load` fails after decoding. */
  lemma LoadFailureTexts(parsed: ConfigData, hostname: string)
    ensures parsed.Nats.Url == "" ==>
      LoadErrorMessage(LoadPipeline(parsed, hostname).error) ==
        "config validation failed: NATS URL is required"
    ensures parsed.Nats.Url != "" && parsed.Nats.NodeID == "" ==>
      LoadErrorMessage(LoadPipeline(parsed, hostname).error) ==
        "config validation failed: NATS NodeID is required"
  {
  }

  /** A decoded configuration whose sections `setDefaults` updates in place. */
  class Config {
    var System: SystemConfig
    var Nats: NatsConfig
    var Mysql: MysqlConfig
    var Matrix: MatrixConfig
    var CollatorApi: CollatorApiConfig
    var Agent: AgentConfig

    function Value(): ConfigData
      reads this
    {
      ConfigData(System, Nats, Mysql, Matrix, CollatorApi, Agent)
    }

    constructor (parsed: ConfigData)
      ensures Value() == parsed
    {
      System, Nats, Mysql := parsed.System, parsed.Nats, parsed.Mysql;
      Matrix, CollatorApi, Agent := parsed.Matrix, parsed.CollatorApi, parsed.Agent;
    }

    /** `setDefaults`, one field at a time: the system section, then the agent section. */
    method SetDefaults(hostname: string)
      modifies this
      ensures Value() == Defaulted(old(Value()), hostname)
    {
      SetSystemDefaults();
      SetAgentDefaults(hostname);
    }

    method SetSystemDefaults()
      modifies this`System
      ensures System == Defaulted(old(Value()), "").System
    {
      if System.WorkDir == "" {
        System := System.(WorkDir := DefaultWorkDir);
      }
      if System.LogLevel == "" {
        System := System.(LogLevel := DefaultLogLevel);
      }
      if System.ConfigReloadTime == 0 {
        System := System.(ConfigReloadTime := DefaultConfigReloadTime);
      }
      if System.MinimumOfflineTime == 0 {
        System := System.(MinimumOfflineTime := DefaultMinimumOfflineTime);
      }
    }

    method SetAgentDefaults(hostname: string)
      modifies this`Agent
      ensures Agent == Defaulted(old(Value()), hostname).Agent
    {
      if Agent.ReportInterval == 0 {
        Agent := Agent.(ReportInterval := DefaultReportInterval);
      }
      if Agent.CheckInterval == 0 {
        Agent := Agent.(CheckInterval := DefaultCheckInterval);
      }
      if Agent.HealthCheckPort == 0 {
        Agent := Agent.(HealthCheckPort := DefaultHealthCheckPort);
      }
      if Agent.AgentID == "" {
        Agent := Agent.(AgentID := hostname);
      }
    }
  }

  /** The package-level state of the config package: the global configuration pointer. */
  class ConfigRegistry {
    var globalConfig: Config?

    constructor ()
      ensures globalConfig == null
    {
      globalConfig := null;
    }

    /**
     * The part of `Load` after decoding: defaults, validation, then the
     * swap of the global pointer, which also aliases the returned object.
     */
    method Load(parsed: ConfigData, hostname: string) returns (cfg: Config?, err: Option<LoadError>)
      modifies this
      ensures err.None? <==> LoadPipeline(parsed, hostname).Success?
      ensures err.None? ==> cfg != null && fresh(cfg) && globalConfig == cfg &&
                            cfg.Value() == LoadPipeline(parsed, hostname).value
      ensures err.Some? ==> cfg == null && globalConfig == old(globalConfig) &&
                            err.value == LoadPipeline(parsed, hostname).error
    {
      var c := new Config(parsed);
      c.SetDefaults(hostname);
      var v := Validate(c.Value());
      if v.Fail? {
        return null, Some(ValidationFailed(v.error));
      }
      globalConfig := c;
      return c, None;
    }
  }
}
