/**
 * The tracing setup: the build-provenance resource attached to every span,
 * the lookup of the source-control revision among the build settings, and
 * the tracer constructor that chooses an exporter and installs the tracer.
 *
 * The process's build information is an optional input (None when the
 * binary carries none), the two exporter constructors are an abstract
 * factory whose errors are inputs, and the process-wide provider and
 * propagator that `init` sets are the fields of a `Globals` object.
 */
module Tracing {
  import opened Wrappers
  import opened Logging

  /** The build-setting key holding the source-control revision. */
  const RevisionKey: string := "vcs.revision"
  /** The placeholder for an unknown revision or version. */
  const NotAvailable: string := "n/a"
  /** Attribute keys of the OpenTelemetry semantic conventions, version 1.18.0. */
  const ServiceNameKey: string := "service.name"
  const ServiceVersionKey: string := "service.version"
  const SchemaUrl: string := "https://opentelemetry.io/schemas/1.18.0"
  /** The application's own attribute keys. */
  const GitShaKey: string := "git_sha"
  const AppKey: string := "app"
  /** The service name `NewTracer` always passes to `init`. */
  const LoginUiService: string := "github.com/canonical/identity-platform-login-ui"

  /** One key/value setting recorded in the binary at build time. */
  datatype BuildSetting = BuildSetting(key: string, value: string)

  /** A module of the build: its path and version. */
  datatype Module = Module(path: string, version: string)

  /** The build information of the running binary. */
  datatype BuildInfo = BuildInfo(path: string, main: Module, settings: seq<BuildSetting>)

  /** A telemetry resource: its schema and its string-valued attributes. */
  datatype Resource = Resource(schemaUrl: string, attributes: map<string, string>)

  predicate IsRevision(s: BuildSetting)
  {
    s.key == RevisionKey
  }

  /** Index `i` holds the first revision setting of `settings`. */
  predicate FirstRevisionAt(settings: seq<BuildSetting>, i: int)
  {
    0 <= i < |settings| && IsRevision(settings[i]) &&
    forall j :: 0 <= j < i ==> !IsRevision(settings[j])
  }

  /**
   * The value of the first setting, in list order, whose key is
   * "vcs.revision"; "n/a" when there is none.
   */
  function GitRevision(settings: seq<BuildSetting>): (r: string)
    ensures (forall j :: 0 <= j < |settings| ==> !IsRevision(settings[j])) ==> r == NotAvailable
    ensures forall i :: FirstRevisionAt(settings, i) ==> r == settings[i].value
  {
    if settings == [] then NotAvailable
    else if IsRevision(settings[0]) then settings[0].value
    else
      assert forall i :: FirstRevisionAt(settings, i) ==> FirstRevisionAt(settings[1..], i - 1);
      GitRevision(settings[1..])
  }

  /**
   * When some setting is a revision, there is a first one at or before it,
   * and its value is what `GitRevision` returns.
   */
  lemma {:induction false} GitRevisionFound(settings: seq<BuildSetting>, k: int)
    requires 0 <= k < |settings| && IsRevision(settings[k])
    ensures exists i :: 0 <= i <= k && FirstRevisionAt(settings, i) && GitRevision(settings) == settings[i].value
  {
    if IsRevision(settings[0]) {
      assert FirstRevisionAt(settings, 0);
    } else {
      GitRevisionFound(settings[1..], k - 1);
      var i :| 0 <= i <= k - 1 && FirstRevisionAt(settings[1..], i) && GitRevision(settings[1..]) == settings[1..][i].value;
      assert FirstRevisionAt(settings, i + 1);
    }
  }

  /**
   * The resource attached to every span. Without build information it
   * names the given service with version "n/a"; with build information it
   * names the given service, or the binary's module path when the given
   * name is empty, and records the revision and the main module's path
   * instead of a version.
   */
  function BuildResource(service: string, info: Option<BuildInfo>): (r: Resource)
    ensures r.schemaUrl == SchemaUrl
    ensures info.None? ==>
              r.attributes.Keys == {ServiceNameKey, ServiceVersionKey} &&
              r.attributes[ServiceNameKey] == service &&
              r.attributes[ServiceVersionKey] == NotAvailable
    ensures info.Some? ==>
              r.attributes.Keys == {ServiceNameKey, GitShaKey, AppKey} &&
              r.attributes[ServiceNameKey] == (if service == "" then info.value.path else service) &&
              r.attributes[GitShaKey] == GitRevision(info.value.settings) &&
              r.attributes[AppKey] == info.value.main.path
  {
    match info
    case None =>
      Resource(SchemaUrl, map[ServiceNameKey := service, ServiceVersionKey := NotAvailable])
    case Some(bi) =>
      var name := if service == "" then bi.path else service;
      Resource(SchemaUrl, map[ServiceNameKey := name,
                              GitShaKey := GitRevision(bi.settings),
                              AppKey := bi.main.path])
  }

  /** A span exporter, as configured by `NewTracer`. */
  datatype Exporter =
    | JaegerCollector(endpoint: string)
    | StdoutTrace(prettyPrint: bool)

  /** The exporter `NewTracer` builds for a configured jaeger endpoint. */
  function SelectExporter(jaegerEndpoint: string): (e: Exporter)
    ensures e.JaegerCollector? <==> jaegerEndpoint != ""
    ensures e.JaegerCollector? ==> e.endpoint == jaegerEndpoint
    ensures e.StdoutTrace? ==> e.prettyPrint
  {
    if jaegerEndpoint != "" then JaegerCollector(jaegerEndpoint) else StdoutTrace(true)
  }

  /**
   * The two exporter constructors. Whether each fails is an input; every
   * construction attempted is recorded.
   */
  class ExporterFactory {
    const jaegerError: Option<string>
    const stdoutError: Option<string>
    var attempts: seq<Exporter>

    constructor (jaegerError: Option<string>, stdoutError: Option<string>)
      ensures this.jaegerError == jaegerError && this.stdoutError == stdoutError
      ensures attempts == []
    {
      this.jaegerError, this.stdoutError := jaegerError, stdoutError;
      attempts := [];
    }

    /** The error a construction of `e` reports, if any. */
    function ErrorFor(e: Exporter): Option<string>
    {
      match e
      case JaegerCollector(_) => jaegerError
      case StdoutTrace(_) => stdoutError
    }

    /** `jaeger.New` with a collector endpoint. */
    method NewJaeger(endpoint: string) returns (r: Result<Exporter>)
      modifies this
      ensures attempts == old(attempts) + [JaegerCollector(endpoint)]
      ensures r == if jaegerError.Some? then Failure(jaegerError.value) else Success(JaegerCollector(endpoint))
    {
      attempts := attempts + [JaegerCollector(endpoint)];
      r := if jaegerError.Some? then Failure(jaegerError.value) else Success(JaegerCollector(endpoint));
    }

    /** `stdouttrace.New`, pretty-printing or not. */
    method NewStdout(prettyPrint: bool) returns (r: Result<Exporter>)
      modifies this
      ensures attempts == old(attempts) + [StdoutTrace(prettyPrint)]
      ensures r == if stdoutError.Some? then Failure(stdoutError.value) else Success(StdoutTrace(prettyPrint))
    {
      attempts := attempts + [StdoutTrace(prettyPrint)];
      r := if stdoutError.Some? then Failure(stdoutError.value) else Success(StdoutTrace(prettyPrint));
    }
  }

  /**
   * A tracer provider that samples every span, batches spans to `exporter`
   * and tags them with `resource`.
   */
  datatype TracerProvider = TracerProvider(exporter: Exporter, resource: Resource)

  /** A context propagator: W3C trace context or baggage. */
  datatype Propagator = TraceContext | Baggage

  /** The tracer `init` keeps: the one named `name` from `provider`. */
  datatype TracerHandle = TracerHandle(name: string, provider: TracerProvider)

  /**
   * The process-wide OpenTelemetry state that `init` sets: the global
   * tracer provider and the global text-map propagator.
   */
  class Globals {
    var provider: Option<TracerProvider>
    var propagators: seq<Propagator>

    /** Nothing installed yet. */
    constructor ()
      ensures provider == None && propagators == []
    {
      provider, propagators := None, [];
    }
  }

  /** The tracer configuration: the jaeger endpoint ("" when none) and the logger. */
  datatype Config = Config(jaegerEndpoint: string, logger: Logger)

  class Tracer {
    var tracer: Option<TracerHandle>
    var logger: Logger?

    /** `new(Tracer)`: every field at its zero value. */
    constructor ()
      ensures tracer == None && logger == null
    {
      tracer, logger := None, null;
    }

    /**
     * Installs, process-wide, the provider for `e` with the resource for
     * `service` and the composite trace-context-and-baggage propagator, and
     * keeps the tracer named `service` from that provider.
     */
    method Init(service: string, e: Exporter, info: Option<BuildInfo>, globals: Globals)
      modifies this, globals
      ensures globals.provider == Some(TracerProvider(e, BuildResource(service, info)))
      ensures globals.propagators == [TraceContext, Baggage]
      ensures tracer == Some(TracerHandle(service, globals.provider.value))
      ensures logger == old(logger)
    {
      var provider := TracerProvider(e, BuildResource(service, info));
      globals.provider := Some(provider);
      globals.propagators := [TraceContext, Baggage];
      tracer := Some(TracerHandle(service, provider));
    }
  }

  /**
   * Builds the jaeger exporter when an endpoint is configured and the
   * stdout exporter otherwise. If that construction fails it logs one error
   * and returns null, leaving the process-wide state untouched; otherwise
   * it returns a fresh tracer holding the configured logger and
   * initialised with the fixed service name.
   */
  method NewTracer(cfg: Config, factory: ExporterFactory, info: Option<BuildInfo>, globals: Globals)
    returns (t: Tracer?)
    modifies cfg.logger, factory, globals
    ensures var e := SelectExporter(cfg.jaegerEndpoint);
            factory.attempts == old(factory.attempts) + [e] &&
            (t == null <==> factory.ErrorFor(e).Some?) &&
            cfg.logger.errorfCalls == old(cfg.logger.errorfCalls) + (if t == null then 1 else 0)
    ensures t == null ==>
              globals.provider == old(globals.provider) &&
              globals.propagators == old(globals.propagators)
    ensures t != null ==>
              var provider := TracerProvider(SelectExporter(cfg.jaegerEndpoint), BuildResource(LoginUiService, info));
              fresh(t) && t.logger == cfg.logger &&
              globals.provider == Some(provider) &&
              globals.propagators == [TraceContext, Baggage] &&
              t.tracer == Some(TracerHandle(LoginUiService, provider))
  {
    t := new Tracer();
    t.logger := cfg.logger;

    var exporter: Result<Exporter>;
    if cfg.jaegerEndpoint != "" {
      exporter := factory.NewJaeger(cfg.jaegerEndpoint);
    } else {
      exporter := factory.NewStdout(true);
    }

    if exporter.Failure? {
      t.logger.Errorf();
      return null;
    }

    t.Init(LoginUiService, exporter.value, info, globals);
  }

  /**
   * The name `NewTracer` passes to `init` is never empty, so the resource
   * of a tracer built by `NewTracer` always carries that name and never
   * the module-path fallback.
   */
  lemma NewTracerKeepsServiceName(info: Option<BuildInfo>)
    ensures LoginUiService != ""
    ensures BuildResource(LoginUiService, info).attributes[ServiceNameKey] == LoginUiService
  {
  }
}
