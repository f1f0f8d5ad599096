# ibp-geodns-agent: configuration defaults, log-level gating and health probes

A Dafny model of the three pieces of sequential logic in the ibp-geodns-agent
(a Go service that monitors remote services and reports to a NATS bus):

* **Configuration post-parse pipeline** (`config.dfy`, module `Config`). The six
  configuration sections are datatypes mirroring the Go structs. Class `Config`
  holds them as mutable fields. `SetDefaults` fills each exactly-zero or empty
  field with its fixed default, one conditional at a time. `Validate` requires
  the NATS URL and then the NATS node id. `ConfigRegistry.Load` runs defaults,
  then validation, then swaps the package-level `globalConfig` pointer. The pure
  function `Defaulted` specifies `SetDefaults`, and `LoadPipeline` specifies `Load`.
* **Log-level selection** (`logging.dfy`, module `Logging`). `LogLevel` lists the
  five levels in `iota` order. `ParseLevel` is the case-insensitive mapping inside
  `SetLevel`, with Info as the fallback. `ShouldLog` is the threshold test. Class
  `Logger` holds the package state: the current level, whether `Init` has created
  the logger, the messages that passed the gate, and whether `Fatal` exited.
* **Health-probe state machine** (`health.dfy`, module `Health`). `Flags` is the
  triple (started, ready, healthy). `Step` says what each call does to the flags
  and what it returns. Class `Server` keeps the flags as fields, and each of its
  methods is proved against `Step`. The three handlers are pure functions from
  the flags to a (status, body) response.

`wrappers.dfy` holds the `Option`, `Outcome` and `Result` datatypes used for Go's
`error` returns.

Behaviour of the code that the model keeps:

* The code's `Start` launches `ListenAndServe` in a goroutine. So `Start` succeeds
  whenever the server was not started, even if the port cannot be bound; a bind
  failure is only logged.
* The code's `Stop` clears only `started`: the `ready` flag stays true after a
  successful stop, and `Agent.Stop` never calls `SetReady(false)`. The listener
  is closed by then, so no request sees that flag. The next `Start` sets `ready`
  again anyway.
* In the code, readiness and health are plain flags. `ready` is set by `Start` and
  `SetReady`. `healthy` starts true and changes only through `SetHealthy`
  (`Health.Run`). Neither flag is derived from check results.
* Only an exactly-zero interval gets a default. A negative `CheckInterval` or
  `ReportInterval` passes through `setDefaults` and `Validate` unchanged.

## Model

| member | source | states |
|---|---|---|
| `Config.Defaulted` | src/config/config.go:140-166 | each of WorkDir, LogLevel, ConfigReloadTime, MinimumOfflineTime, ReportInterval, CheckInterval, HealthCheckPort becomes "/opt/ibp-geodns-agent", "Info", 3600, 900, 60, 30, 8080 exactly when it was empty or 0, and otherwise keeps its value (negative values included); AgentID becomes the hostname exactly when empty; Nats, Mysql, Matrix, CollatorApi, ConfigUrls and ServicesToMonitor are untouched |
| `Config.DefaultedIdempotent` | src/config/config.go:140-166 | applying the defaults twice equals applying them once |
| `Config.DefaultedFieldsSet` | src/config/config.go:140-165 | afterwards every defaulted number is non-zero and WorkDir and LogLevel are non-empty; AgentID is empty only when both it and the hostname were |
| `Config.Config.SetDefaults` | src/config/config.go:140-166 | the in-place update leaves the object holding exactly `Defaulted` of its old value |
| `Config.Validate` | src/config/config.go:169-177 | passes iff Nats.Url and Nats.NodeID are both non-empty; an empty URL gives "NATS URL is required" whatever the node id; only a present URL with an empty node id gives "NATS NodeID is required" |
| `Config.DefaultsPreserveValidation` | src/config/config.go:140-177 | validating the defaulted configuration gives the same answer as validating the decoded one |
| `Config.LoadPipeline` | src/config/config.go:111-117 | the pipeline succeeds iff the decoded configuration validates; on success it yields the defaulted configuration; on failure it yields the validation error wrapped as a load error |
| `Config.Config.constructor` | src/config/config.go:106-109 | the object holds exactly the decoded configuration |
| `Config.Config.SetSystemDefaults` | src/config/config.go:141-152 | the system section becomes the system section of `Defaulted` of the old value |
| `Config.Config.SetAgentDefaults` | src/config/config.go:153-165 | the agent section becomes the agent section of `Defaulted` of the old value, with AgentID taken from the hostname when empty |
| `Config.ConfigRegistry.constructor` | src/config/config.go:94-97 | the package starts with no global configuration |
| `Config.ErrorMessage` | src/config/config.go:170-175 | a missing URL is reported as "NATS URL is required" and a missing node id as "NATS NodeID is required", and each text names only its own error |
| `Config.ValidateMessages` | src/config/config.go:169-177 | an empty URL yields "NATS URL is required" whatever the node id; a present URL with an empty node id yields "NATS NodeID is required" |
| `Config.LoadErrorMessageInjective` | src/config/config.go:115-117 | the wrapped text still determines the cause: two load failures with the same text have the same validation error |
| `Config.LoadFailureTexts` | src/config/config.go:112-117 | a decoded configuration without a NATS URL fails to load with "config validation failed: NATS URL is required"; one with a URL but no node id fails with "config validation failed: NATS NodeID is required" |
| `Config.ConfigRegistry.Load` | src/config/config.go:106-129 | on success it returns a fresh configuration holding `LoadPipeline`'s value and makes it the global configuration (the same object); on failure it returns no configuration, the validation error, and leaves the global pointer as it was |
| `Logging.LevelsTotallyOrdered` | src/logging/logger.go:11-17 | the level order is reflexive, antisymmetric, transitive and total, with Debug lowest and Fatal highest |
| `Logging.LowerChar` | src/logging/logger.go:35 | the lowered character is never an upper-case ASCII letter |
| `Logging.Lower` | src/logging/logger.go:35 | lowering keeps the length and lowers each character in place |
| `Logging.LowerIdempotent` | src/logging/logger.go:35 | lowering twice equals lowering once |
| `Logging.ParseLevel` | src/logging/logger.go:34-48 | the selected level is one whose spelling the lowered string is, or Info when the lowered string is no spelling at all |
| `Logging.ParseLevelMatchesSpellings` | src/logging/logger.go:34-48 | `SetLevel` selects a level iff the lowered string is one of its spellings (debug / info / warn or warning / error / fatal); Info is also selected for every unrecognised string |
| `Logging.ParseLevelAnyCasing` | src/logging/logger.go:34-45 | any string that lowers letter by letter to a spelling of a level selects that level |
| `Logging.ParseLevelIgnoresCase` | src/logging/logger.go:34-48 | strings equal after lowering select the same level, and lowering first changes nothing |
| `Logging.ParseLevelExamples` | src/logging/logger.go:34-45 | "DEBUG" and "Debug" give Debug, "WARNING" gives Warn, and the configuration default "Info" gives Info |
| `Logging.ParseLevelFallback` | src/logging/logger.go:46-47 | the empty string and an unknown name give Info |
| `Logging.ShouldLog` | src/logging/logger.go:52-54 | a level passes iff its rank is at least the current level's; the current level itself and Fatal always pass |
| `Logging.ShouldLogThreshold` | src/logging/logger.go:52-54 | a level passes iff it is at least the current one: the current level and Fatal always pass, passing is upward closed, and exactly the levels below the current one are dropped |
| `Logging.Logger.constructor` | src/logging/logger.go:19-22 | the package starts at level Info, with no logger, no output and no exit |
| `Logging.Logger.Init` | src/logging/logger.go:25-31 | the logger is created; the level becomes `ParseLevel` of the first override only when one is given and non-empty, and is otherwise unchanged |
| `Logging.Logger.SetLevel` | src/logging/logger.go:34-49 | the current level becomes `ParseLevel` of the argument |
| `Logging.Logger.Gated` | src/logging/logger.go:57-99 | the check shared by the four gated writers: the message is appended iff its level passes the current one, and nothing else changes |
| `Logging.Logger.Debug` | src/logging/logger.go:57-66 | the message is emitted, and appended to the output, iff Debug passes the current level |
| `Logging.Logger.Info` | src/logging/logger.go:68-77 | the message is appended iff Info passes the current level |
| `Logging.Logger.Warn` | src/logging/logger.go:79-88 | the message is appended iff Warn passes the current level |
| `Logging.Logger.Error` | src/logging/logger.go:90-99 | the message is appended iff Error passes the current level |
| `Logging.Logger.Fatal` | src/logging/logger.go:101-108 | the message is appended whatever the current level, and the process exits; like every `Logger` method it requires that the process has not exited yet |
| `Logging.DefaultLevelGating` | src/logging/logger.go:20-99 | for every message text and every `Init` call without an override or with an empty one, and with no `SetLevel`, Debug is suppressed and the Info, Warn and Error messages reach the output in order |
| `Health.Server.constructor` | src/health/health.go:23-29 | a new server is healthy, not ready, not started, and has no listener |
| `Health.Server.Start` | src/health/health.go:32-61 | on a started server: the error "already started" and no flag changes; otherwise started and ready become true and healthy is kept |
| `Health.Server.Stop` | src/health/health.go:64-81 | on a stopped server: success and no change; when shutdown fails: an error and started stays true; otherwise started becomes false and ready and healthy keep their values |
| `Health.Server.SetHealthy` | src/health/health.go:84-88 | only healthy changes, to the argument |
| `Health.Server.SetReady` | src/health/health.go:91-95 | only ready changes, to the argument |
| `Health.Step` | src/health/health.go:32-95 | a call that fails changes no flag; "already started" exactly for `Start` on a started server and a shutdown error exactly for a failing `Stop` on a started one; only `SetHealthy` moves healthy; ready is set by `SetReady` and by a successful `Start`; started is set by a successful `Start` and cleared by a successful `Stop` of a started server |
| `Health.Run` | src/health/health.go:84-88 | after any sequence of calls, healthy is the argument of the last `SetHealthy`, or its initial value if there was none |
| `Health.RunAppend` | src/health/health.go:32-95 | running two sequences of calls one after the other equals running their concatenation |
| `Health.StopThenRestart` | src/health/health.go:32-81 | after a successful stop, healthy and ready are kept, any further stop succeeds without change, and a new start succeeds and sets ready |
| `Health.ReadyUntilSetReadyFalse` | src/health/health.go:56-95 | once ready, a server stays ready through any sequence of calls that contains no `SetReady(false)` |
| `Health.HealthHandler` | src/health/health.go:98-110 | `/health` answers 200 "OK" when healthy and 503 "UNHEALTHY" otherwise; the status is 200 iff healthy |
| `Health.ReadyHandler` | src/health/health.go:113-125 | `/ready` answers 200 "READY" when ready and 503 "NOT READY" otherwise; the status is 200 iff ready |
| `Health.LiveHandler` | src/health/health.go:128-132 | `/live` answers 200 "ALIVE" |
| `Health.HandlersReadOneFlag` | src/health/health.go:98-132 | `/health` depends only on healthy and `/ready` only on ready, each body gives its flag back, and `/live` is the same in every state |
| `Health.ProbeLifecycle` | src/health/health.go:23-95 | `readyHandler` computed from the flags gives 503 before `Start` and 200 after it; the first `Start` succeeds, a second one fails with AlreadyStarted, and the `Stop` succeeds; after a successful `Stop` the `ready` flag is still true, so the handler computed from that state gives 200 |

## Left out

- Reading the configuration file and `json.Unmarshal` (src/config/config.go:101-109): file I/O and library parsing. `Load` takes the decoded configuration as input.
- `os.Hostname` (src/config/config.go:163) is the `hostname` parameter. The error it may return is dropped by the code, and the model allows any string, including the empty one.
- `loadRemoteConfig` (src/config/config.go:180-187) is a placeholder that returns nil. The code only logs its result, so it has no effect on the model.
- `Get` (src/config/config.go:133-137) is a locked read of the global pointer. The model reads `ConfigRegistry.globalConfig` directly.
- `Reload` (src/config/config.go:190-201) is not modelled. It ignores its receiver and calls `Load`, which on success has already pointed `globalConfig` at the new object (src/config/config.go:125-127). The copy `*globalConfig = *newCfg` at line 197 therefore copies that object onto itself. The object that was global before, which `Agent.config` holds (src/agent/agent.go:46), is never updated.
- Go's `int` is `Config.Int64`. No code in config.go does arithmetic on these fields, so wrap-around never arises in the model. The products with `time.Second` in agent.go (lines 104 and 147) and reporter.go (line 71) are outside the model.
- `Logging.LowerChar` and `Logging.Lower` are not all of `strings.ToLower`. `LowerChar` lowers ASCII letters, U+0130 and U+212A (the only non-ASCII characters whose lower-case form is ASCII) and keeps every other character, and `Lower` applies it letter by letter. So they agree with Go on whether a string lowers to one of the ASCII level names, which is all `SetLevel` looks at.
- Log formatting (the `[LEVEL]` prefixes and `Printf` of the arguments) and the output stream are not modelled. A logged message is an `Entry` of level and message text. `os.Exit` is the `exited` flag.
- `Logging.Logger.Debug`: calling a logging function before `Init` dereferences a nil logger in Go. The model turns this into the precondition that an emitted message needs `Init` first; the same holds for `Info`, `Warn`, `Error` and `Fatal`.
- The HTTP listener (`ListenAndServe`, `Shutdown`, the mux and the `port` address) is abstracted. Whether `Shutdown` succeeds is `Stop`'s `shutdownSucceeds` input. Two kinds of logging are not modelled: the `ListenAndServe` error log, and the `logging.Info` calls in `Start` and `Stop` (src/health/health.go:58, 79).
- The handlers are functions of the flags alone. They give the answer the code's handler would compute from a state whether or not a listener is serving it, for example after a successful `Stop`.
- The mutexes of `Server` and of the config package are left out. The calls are modelled one at a time.
- src/agent/agent.go, src/reporter/reporter.go, src/nats/client.go and src/main.go are not part of this model. They hold goroutines, tickers, bus publishing and process wiring. The service checks and the config reload there are empty placeholders, and the report is built from constants.
