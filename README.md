# Identity platform login UI: consent handler and tracing setup

A Dafny model of two small parts of the identity platform login UI service.

- **The `/api/consent` handler** (module `Consent`). It makes three provider
  calls in a fixed order: `CheckSession(cookies)`, then `GetConsent(challenge)`,
  then `AcceptConsent(identity, consent)`. It stops at the first call that
  fails. When all three succeed it answers 200, and the body's `redirect_to` is
  the accepted decision's `RedirectTo`. When any call fails it answers 403 and
  calls the logger's `Errorf` exactly once. The handler's own code is not part
  of this model. What is modelled is the contract that its tests in
  `pkg/extra/handlers_test.go` fix. `Run` is the pure specification of one
  request. It returns the response, the calls the service received with their
  arguments, and the number of `Errorf` calls. `Api.HandleConsent` is the
  imperative handler, written against a `Service` that plays the role of the
  tests' mock and a `Logger` that counts errors. Its postcondition equates the
  state it leaves with `Run`.
- **The tracing setup** (module `Tracing`). `GitRevision` finds the first
  `vcs.revision` build setting, and returns `"n/a"` when there is none.
  `BuildResource` picks the resource attributes, depending on whether build
  information is present. `NewTracer` picks the jaeger exporter when an
  endpoint is configured and the stdout exporter otherwise. If constructing
  the exporter fails, it logs one error and returns null. On success it runs
  `init` with the fixed service name `github.com/canonical/identity-platform-login-ui`.
  The process-wide provider and propagator that `init` sets are the fields
  of a `Globals` object.

The inputs of the model are: the request's cookies and `consent_challenge`
value (a `Request`); the three responses the mock service is configured
with (a `Service`); the tracer configuration's jaeger endpoint and logger (a
`Config`); the binary's build information (an `Option<BuildInfo>`); and the
errors of the two exporter constructors (an `ExporterFactory`).

Modules `Wrappers` (`Option`, `Result`) and `Logging` (`Logger`, which counts
`Errorf` calls) are shared by the two.

Without build information the resource keeps the given service name and
sets only `service.version` to `"n/a"` (internal/tracing/tracer.go:53-57).

## Model

| member | source | states |
|---|---|---|
| `Consent.Run` | pkg/extra/handlers_test.go:21-168 | The status is 200 or 403. It is 200 exactly when all three calls succeed, and then `redirect_to` is the accepted decision's `RedirectTo`. There is no redirect on 403. `Errorf` is called 0 times on 200 and once on 403. `CheckSession` is always the first call, with the request's cookies. `GetConsent` is the second call, with the `consent_challenge` value, exactly when the session succeeded. `AcceptConsent` is the third call exactly when the first two succeeded, and it gets the session's identity and the consent record. |
| `Consent.Api.HandleConsent` | pkg/extra/handlers_test.go:44-47 | Serving one request returns `Run`'s response. It appends exactly `Run`'s calls to the service's log and adds exactly `Run`'s error count to the logger. |
| `Consent.Api.constructor` | pkg/extra/handlers_test.go:45 | `NewAPI(service, logger)` keeps the service and the logger it is given. |
| `Consent.Service.constructor` | pkg/extra/handlers_test.go:40-42 | The mock service holds the three configured responses and has received no call yet. |
| `Consent.Service.CheckSession` | pkg/extra/handlers_test.go:40 | Records one `CheckSession` call with the cookies it was given, and returns the configured session result. |
| `Consent.Service.GetConsent` | pkg/extra/handlers_test.go:41 | Records one `GetConsent` call with the challenge it was given, and returns the configured consent result. |
| `Consent.Service.AcceptConsent` | pkg/extra/handlers_test.go:42 | Records one `AcceptConsent` call with the identity and consent it was given, and returns the configured decision result. |
| `Consent.SuccessScenario` | pkg/extra/handlers_test.go:21-70 | Builds the mock service with the test's session (identity "test"), consent record ("challenge") and decision (`redirect_to` "test"), a fresh logger and the API. It serves one request with challenge `7bb518c4eec2454dbb289f5fdb4c0ee2`. The result is 200 with `redirect_to` "test", no `Errorf` call, and exactly the three calls CheckSession(cookies), GetConsent(that challenge), AcceptConsent(that identity, that consent record). |
| `Consent.HandleConsentSuccess` | pkg/extra/handlers_test.go:21-70 | When all three calls succeed: 200 with `redirect_to` equal to the decision's `RedirectTo`. `Errorf` is never called. The calls are exactly CheckSession(cookies), GetConsent(challenge), AcceptConsent(session identity, consent), in that order. |
| `Consent.HandleConsentFailOnAcceptConsent` | pkg/extra/handlers_test.go:72-105 | When only `AcceptConsent` fails: 403 and one `Errorf` call, after all three calls were made with the expected arguments. |
| `Consent.HandleConsentFailOnGetConsent` | pkg/extra/handlers_test.go:107-138 | When `GetConsent` fails after a good session: 403 and one `Errorf` call. Only CheckSession and GetConsent were called, so `AcceptConsent` never was. |
| `Consent.HandleConsentFailOnCheckSession` | pkg/extra/handlers_test.go:140-168 | When `CheckSession` fails: 403 and one `Errorf` call. Only CheckSession was called; neither `GetConsent` nor `AcceptConsent` was. |
| `Consent.DecisionNeedsResolvedSteps` | pkg/extra/handlers_test.go:40-42 | A 200 needs a resolved session and a resolved consent record from the same run. The `AcceptConsent` call then carried exactly their payloads. |
| `Logging.Logger.constructor` | pkg/extra/handlers_test.go:25 | A fresh logger has received no `Errorf` call. |
| `Logging.Logger.Errorf` | pkg/extra/handlers_test.go:93 | Each call adds exactly one to the error count. |
| `Tracing.GitRevision` | internal/tracing/tracer.go:40-48 | Returns the value of the first setting, in list order, whose key is `"vcs.revision"`. Returns `"n/a"` when no setting has that key, the empty list included. |
| `Tracing.GitRevisionFound` | internal/tracing/tracer.go:40-45 | If any setting at index k has the revision key, there is a first such setting at an index i <= k, and `GitRevision` returns its value. |
| `Tracing.BuildResource` | internal/tracing/tracer.go:50-73 | With no build info, the resource has exactly `service.name` = the given service and `service.version` = `"n/a"`, so no `git_sha` and no `app`. With build info, it has exactly `service.name` (the module path if the hint is empty, else the hint unchanged), `git_sha` = `GitRevision(settings)` and `app` = the main module's path, and no version. The schema is that of semantic conventions 1.18.0. |
| `Tracing.SelectExporter` | internal/tracing/tracer.go:88-99 | The exporter is the jaeger collector exactly when the endpoint is non-empty, and it carries that endpoint. Otherwise it is the pretty-printing stdout exporter. |
| `Tracing.ExporterFactory.constructor` | internal/tracing/tracer.go:89-99 | The factory holds the configured error of each constructor and has attempted no construction yet. |
| `Tracing.ExporterFactory.NewJaeger` | internal/tracing/tracer.go:90-94 | Records one jaeger construction for the endpoint. Fails with the configured error if there is one; otherwise returns the collector exporter for that endpoint. |
| `Tracing.ExporterFactory.NewStdout` | internal/tracing/tracer.go:96-98 | Records one stdout construction. Fails with the configured error if there is one; otherwise returns the stdout exporter. |
| `Tracing.Tracer.constructor` | internal/tracing/tracer.go:81 | `new(Tracer)`: no tracer installed and no logger. |
| `Tracing.Globals.constructor` | internal/tracing/tracer.go:34-35 | No global tracer provider and no propagator are installed yet. |
| `Tracing.Tracer.Init` | internal/tracing/tracer.go:25-38 | Sets the global provider to one on the given exporter with `BuildResource(service, info)`. Sets the global propagator to trace context plus baggage. Keeps the tracer named `service` from that provider. The logger is unchanged. |
| `Tracing.NewTracer` | internal/tracing/tracer.go:80-111 | Exactly one exporter construction is attempted, and it is `SelectExporter(endpoint)`. The result is null exactly when that construction fails; then exactly one error is logged, and the global provider and propagator are unchanged, so `init` did not run. Otherwise the result is a fresh tracer with no error logged. It holds the configured logger. The global provider is the one on that exporter with the resource for the fixed login-UI name, the global propagator is trace context plus baggage, and the tracer is the one of that name from that provider. |
| `Tracing.NewTracerKeepsServiceName` | internal/tracing/tracer.go:108 | The name `NewTracer` passes to `init` is non-empty. So the resource of a tracer built by `NewTracer` has exactly that service name, and the module-path fallback is never taken through it. |

## Left out

- HTTP routing and recording (`chi.NewMux`, `RegisterEndpoints`, `httptest`) and JSON encoding and decoding: library plumbing. The response is a status plus an optional `redirect_to`.
- The real identity-provider and consent-provider clients, and the gomock machinery: foreign calls. Their responses are inputs to a recording `Service`. The context argument of each call is not modelled.
- Behaviour the tests do not fix: a missing `consent_challenge` parameter (the request carries the parameter's value as a string), the text and arguments of log messages, and the body of a 403. The handler's own source is not part of this model.
- The OpenTelemetry SDK: the tracer provider, the always-on sampler, the batcher, the propagators and the exporters' wire formats. These are foreign code with asynchronous export. The provider, the propagators and the tracer are values that record their configuration. `otel.Set*` is modelled only as the two fields of `Globals` that `init` assigns.
- `Tracer.Start`: a pass-through to the SDK tracer, with nothing of its own to state.
- `debug.ReadBuildInfo`: it is an input (`Option<BuildInfo>`). The semantic-convention constants (`service.name`, `service.version` and the 1.18.0 schema URL) come from the OpenTelemetry library.
- OpenTelemetry attribute ordering and de-duplication: the attributes are a map, since every key in one resource is distinct.
- A nil `cfg` or `cfg.Logger`: Go would panic dereferencing either; the model's `Config` is a value that always holds a logger.
