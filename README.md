# Cilium adapter capability registration: a Dafny model

The Cilium adapter for Meshery registers the components it offers with the Meshery
orchestration server. The entry point is `main.go`. At start-up it launches two
background tasks at the same time: one registers the fixed workload and trait
definitions once; the other runs a refresh loop, one dynamic registration
straight away and one more on every tick of a 24-hour ticker. A dynamic registration asks the server to generate components from a
Helm chart or from manifests, using a fixed filter that locates CRD fields.

This project models the configuration logic that feeds those calls and the
shape of the calls themselves:

- `Stdlib` (stdlib.dfy): the environment as a `map<string, string>` snapshot;
  `os.Getenv`, where an unset variable reads as `""`; `strings.HasPrefix`.
- `Settings` (settings.dfy): the `DEBUG` flag, the server address from
  `MESHERY_SERVER`, the self address from `SERVICE_ADDR` and the adapter address
  `serviceAddress()+":"+port`.
- `Components` (components.dfy): choosing the source URL and generation method
  from `COMP_GEN_URL`, `COMP_GEN_METHOD` or the build's `version`; the constant
  CRD filter; the `DynamicComponentsConfig` payload.
- `Registration` (registration.dfy): a `Registry` class for the remote server.
  It records every call it receives with its outcome, and the outcome is chosen
  nondeterministically. The module also holds the three procedures
  `registerCapabilities`, `registerWorkloads` and `registerDynamicCapabilities`.

Library constants whose values are defined outside this repository are not given
values. They are the fields of a `Library` parameter: `adapter.Manifests`,
`smp.ServiceMesh_Type_name[CILIUM_SERVICE_MESH]` and `config.CiliumOperation`.
Nothing assumes that `adapter.Manifests` is `"Manifest"`. The build-time
`version` and the configured `port` are parameters too.

Two behaviours of the code are kept as written, although a reader might expect otherwise:

- The server address is used as given when it starts with the four letters
  `"http"`, not when it starts with a URL scheme. So `httpbin.internal:9081` is
  passed on without a scheme (`Settings.ServerAddressHttpNamedHost`).
- The fallback generation method is the library's `adapter.Manifests`, not the
  literal `"Manifest"`.

Registering twice builds identical values. This needs no lemma, because Dafny
functions are deterministic.

## Model

| member | source | states |
|---|---|---|
| `Stdlib.UnsetIsEmpty` | main.go:125 | An unset variable and one set to "" read the same, and no other variable changes |
| `Settings.IsDebug` | main.go:120-122 | Debug is on exactly when DEBUG is present and equal to "true" |
| `Settings.ServerAddressCases` | main.go:124-136 | Unset or empty MESHERY_SERVER gives "http://localhost:9081". A value starting with "http" is kept verbatim. Any other value gets "http://" prepended. The result always starts with "http" |
| `Settings.ServerAddressIdempotent` | main.go:127-133 | Feeding the address back in as MESHERY_SERVER returns the same address |
| `Settings.ServerAddressKeepsSetting` | main.go:127-133 | A non-empty MESHERY_SERVER is always the tail of the address |
| `Settings.ServerAddressWithoutScheme` | main.go:132 | "registry.internal:9081" becomes "http://registry.internal:9081" |
| `Settings.ServerAddressHttpNamedHost` | main.go:128-129 | "httpbin.internal:9081" is kept verbatim: the test is on the letters "http", not on a scheme |
| `Settings.ServiceAddress` | main.go:138-146 | A non-empty SERVICE_ADDR is returned verbatim, otherwise "localhost". The result is never empty |
| `Settings.AdapterAddressLayout` | main.go:151 | The adapter address is the service address, one ':', then the port, with nothing else |
| `Settings.AdapterAddressSplits` | main.go:193 | If the port has no ':', splitting the adapter address at its last ':' gives back the service address and the port |
| `Components.ResolveSource` | main.go:173-191 | A set COMP_GEN_URL is the URL verbatim. The method is then COMP_GEN_METHOD if it is exactly "Helm" or "Manifest", else `adapter.Manifests`. Without COMP_GEN_URL the URL is the default chart URL for `version` and the method is `adapter.Manifests`. The method is always one of those three values |
| `Components.MethodIgnoredWithoutUrl` | main.go:178-191 | Without COMP_GEN_URL, setting COMP_GEN_METHOD to anything, or unsetting it, does not change the source |
| `Components.DefaultChartUrlContainsVersion` | main.go:189 | The default chart URL contains `version` as a substring |
| `Components.ChartVersionOfDefault` | main.go:189 | The version can be read back from the default chart URL |
| `Components.DefaultOfChartVersion` | main.go:189 | Any URL from which a version can be read is the default chart URL of that version |
| `Components.DefaultChartUrlInjective` | main.go:189 | Two versions with the same default chart URL are equal |
| `Components.DefaultSourceScenario` | main.go:186-191 | With no overrides, version "1.15.0" gives the 1.15.0 chart URL and `adapter.Manifests` |
| `Components.DefaultVersionScenario` | main.go:36 | A build with the default version "edge" and no overrides reads the "edge" chart URL with `adapter.Manifests` |
| `Components.HelmOverrideScenario` | main.go:178-181 | URL "https://example.com/chart" with method "Helm" gives that URL read as Helm |
| `Components.UnrecognisedMethodScenario` | main.go:180-184 | That URL with the method unset, or set to "helm", falls back to `adapter.Manifests` |
| `Components.CiliumCrdFilter` | main.go:200-210 | Each of the seven filter lists has exactly one expression, and each starts with "$". The two iteration lists are equal. VField is "name" and GField is "group" |
| `Components.ComponentsConfig` | main.go:193-212 | The payload has a 30-minute timeout and the resolved URL and method. Its mesh version is `version` and its mesh name and operation come from the library. Its filter is the constant Cilium filter |
| `Components.ComponentsConfigReadsOnlyOverrides` | main.go:178-191 | The payload depends on the environment only through COMP_GEN_URL and COMP_GEN_METHOD |
| `Registration.Registry.RegisterWorkloads` | main.go:151 | The static workload registration is recorded once, and its outcome may be success or failure |
| `Registration.Registry.RegisterTraits` | main.go:156 | The static trait registration is recorded once, and its outcome may be success or failure |
| `Registration.Registry.RegisterWorkLoadsDynamically` | main.go:193 | The dynamic registration is recorded once, and its outcome may be success or failure |
| `Registration.RegisterCapabilities` | main.go:148-159 | Earlier attempts and their outcomes are kept as a prefix. Exactly two calls are added, static workloads then static traits, both with the resolved server and adapter addresses. The traits call is made whatever the first call's outcome |
| `Registration.RegisterWorkloads` | main.go:172-218 | Earlier attempts and their outcomes are kept as a prefix. Exactly one dynamic call is added, carrying the resolved server address, the adapter address and the payload. A failure is swallowed: nothing is returned |
| `Registration.RegisterDynamicCapabilities` | main.go:161-171 | Earlier attempts and their outcomes are kept as a prefix. After k ticks there have been exactly k + 1 new calls, whatever their outcomes. They are the eager one first, then one per tick in order, each built from its own cycle's environment |
| `Registration.CyclesAt` | main.go:162-168 | Cycle 0 is the eager registration built from the first environment. Cycle i > 0 is built from the environment at tick i |

## Left out

- Process bootstrap (main.go:40-118): creating the config directory, the logger, viper configuration, the kubeconfig and `grpc.Start`. These are I/O and process plumbing.
- The goroutines that run the two registration procedures beside the gRPC server (main.go:108-109). Concurrency is not modelled: each procedure is a sequential method, so the model does not capture that the two procedures' calls may interleave on the server.
- The bodies of `oam.RegisterWorkloads`, `oam.RegisterTraits` and `adapter.RegisterWorkLoadsDynamically`. They are network calls into other libraries. Each is a `Registry` method that records the call and returns an arbitrary outcome. The 30-minute bound is only the number sent in the payload; its enforcement lives in the library.
- Registration.RegisterDynamicCapabilities: covers the first k ticks only, because the source's `for` loop never ends. The wall-clock ticker and its 24-hour period are replaced by a sequence of tick events, one environment snapshot per tick.
- The meaning of the JSONPath filter strings. They are evaluated by the server's generation engine, so they are opaque constant strings here.
- The values of `adapter.Manifests`, `smp.ServiceMesh_Type_name` and `config.CiliumOperation`. They are defined in libraries that are not part of this model.
- Log messages and log levels.
- The source calls `os.Getenv` several times within one procedure. The model reads one environment snapshot per procedure call, so a change to the environment between two reads in the same call is not captured.
- Go strings are byte sequences and Dafny strings are character sequences. Every literal the code compares or concatenates is ASCII, so prefix tests and concatenation behave the same in both.
