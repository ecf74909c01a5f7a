/** The Run Gateway: one entry point per run-lifecycle operation. The mode is
    fixed at construction. With a coordinator client the gateway proxies
    every run operation through it; without one it serves runs from its own
    in-memory registry, a map from run id to run record.

    Every operation is a pure function. The clock reading (`now`), the
    random hex strings that `uuid4()` would produce (`FreshIds`) and the
    downstream service (`send`) are parameters. An operation that may change
    the registry returns a `Reply`: its result and the gateway afterwards. */
module Gateway {
  import opened Wrappers
  import opened Model
  import opened Utils
  import opened EventLine
  import Coordinator

  datatype RunGateway = RunGateway(
    coordinator: Option<Coordinator.Client>,
    runs: map<string, Run>,
    serviceName: string,
    serviceVersion: string)
  {
    predicate IsLocal() {
      coordinator.None?
    }
  }

  /** The keyword arguments of the constructor. */
  datatype Options = Options(
    runCoordinator: Option<Coordinator.Client>,
    runCoordinatorUrl: Option<string>,
    runCoordinatorBearerToken: Option<string>,
    serviceName: string,
    serviceVersion: string)

  /** `ARP_RUN_COORDINATOR_URL` and `ARP_RUN_COORDINATOR_BEARER_TOKEN`. */
  datatype Environment = Environment(coordinatorUrl: Option<string>, coordinatorBearerToken: Option<string>)

  /** The two `uuid4().hex` values a local start may consume. */
  datatype FreshIds = FreshIds(runHex: string, nodeRunHex: string)

  datatype Reply<T> = Reply(result: Result<T, ServerError>, next: RunGateway)

  /** The registry invariant: every run is stored under its own id, and a
      run has an end time exactly when it is no longer running. */
  ghost predicate WellFormed(runs: map<string, Run>) {
    forall id | id in runs :: runs[id].runId == id && (runs[id].endedAt.None? <==> runs[id].state == Running)
  }

  // ---------------------------------------------------------------------
  // Construction
  // ---------------------------------------------------------------------

  /** The constructor. An injected client wins; otherwise a URL from the
      argument or else from the environment selects proxy mode with a client
      for that URL; otherwise the gateway is local. The registry starts
      empty. An environment URL is normalised twice: once when it is read
      and once more with the argument URL. */
  function Create(opts: Options, env: Environment): (g: RunGateway)
    ensures g.runs == map[]
    ensures g.serviceName == opts.serviceName && g.serviceVersion == opts.serviceVersion
    ensures g.coordinator.Some?
        <==> opts.runCoordinator.Some? || Truthy(opts.runCoordinatorUrl) || Truthy(env.coordinatorUrl)
    ensures opts.runCoordinator.Some? ==> g.coordinator == opts.runCoordinator
    ensures opts.runCoordinator.None? && Truthy(opts.runCoordinatorUrl) ==>
              g.coordinator.Some? && g.coordinator.value.baseUrl == NormalizeBaseUrl(opts.runCoordinatorUrl.value)
    ensures opts.runCoordinator.None? && !Truthy(opts.runCoordinatorUrl) && Truthy(env.coordinatorUrl) ==>
              g.coordinator.Some?
              && g.coordinator.value.baseUrl == NormalizeBaseUrl(NormalizeBaseUrl(env.coordinatorUrl.value))
    ensures opts.runCoordinator.None? && g.coordinator.Some? ==>
              && (Truthy(opts.runCoordinatorBearerToken) ==>
                    g.coordinator.value.bearerToken == opts.runCoordinatorBearerToken)
              && (!Truthy(opts.runCoordinatorBearerToken) && Truthy(env.coordinatorBearerToken) ==>
                    g.coordinator.value.bearerToken == env.coordinatorBearerToken)
              && (!Truthy(opts.runCoordinatorBearerToken) && !Truthy(env.coordinatorBearerToken) ==>
                    g.coordinator.value.bearerToken.None?)
  {
    if opts.runCoordinator.Some? then
      RunGateway(opts.runCoordinator, map[], opts.serviceName, opts.serviceVersion)
    else
      var resolved := Or(opts.runCoordinatorUrl, RunCoordinatorUrlFromEnv(env.coordinatorUrl));
      if resolved.None? then
        RunGateway(None, map[], opts.serviceName, opts.serviceVersion)
      else
        var token := Or(opts.runCoordinatorBearerToken, RunCoordinatorBearerTokenFromEnv(env.coordinatorBearerToken));
        RunGateway(Some(Coordinator.Client(NormalizeBaseUrl(resolved.value), token)), map[],
                   opts.serviceName, opts.serviceVersion)
  }

  // ---------------------------------------------------------------------
  // Health and version
  // ---------------------------------------------------------------------

  const CoordinatorCheckName := "run_coordinator"

  /** The sub-checks of a downstream report; `None` reads as none at all. */
  function DownstreamChecks(h: Health): seq<Check> {
    if h.checks.Some? then h.checks.value else []
  }

  /** `health`. Local: `ok` with no checks. Proxy: one health call; a
      failure is reported as `degraded` with a single `down` check whose
      message is the error's string form (`describe`, Python's `str`), and a
      report is mirrored at top level with a synthesised check for the
      coordinator in front of the downstream's own checks. */
  function HealthOf(
    g: RunGateway,
    now: Timestamp,
    send: Coordinator.CoordinatorRequest -> Coordinator.Outcome<Health>,
    describe: ServerError -> string): (h: Health)
    ensures h.time == now
    ensures g.IsLocal() ==> h.status == Ok && h.checks.None?
    ensures !g.IsLocal() ==>
              var url := Text(g.coordinator.value.baseUrl);
              match Coordinator.CheckHealth(g.coordinator.value, send)
              case Failure(e) =>
                && h.status == Degraded
                && h.checks == Some([Check(CoordinatorCheckName, Down, Some(describe(e)), Some(map["url" := url]))])
              case Success(d) =>
                && h.status == d.status
                && h.checks.Some?
                && |h.checks.value| == 1 + |DownstreamChecks(d)|
                && h.checks.value[0] == Check(CoordinatorCheckName, d.status, None,
                                              Some(map["url" := url, "status" := Text(StatusName(d.status))]))
                && h.checks.value[1..] == DownstreamChecks(d)
  {
    match g.coordinator
    case None => Health(Ok, now, None)
    case Some(client) =>
      match Coordinator.CheckHealth(client, send)
      case Failure(e) =>
        var check := Check(CoordinatorCheckName, Down, Some(describe(e)), Some(map["url" := Text(client.baseUrl)]));
        Health(Degraded, now, Some([check]))
      case Success(d) =>
        var check := Check(CoordinatorCheckName, d.status, None,
                           Some(map["url" := Text(client.baseUrl), "status" := Text(StatusName(d.status))]));
        Health(d.status, now, Some([check] + DownstreamChecks(d)))
  }

  const SupportedApiVersions := ["v1"]

  /** `version`: the configured identity and the one supported API version. */
  function Version(g: RunGateway): (v: VersionInfo)
    ensures v.serviceName == g.serviceName && v.serviceVersion == g.serviceVersion
    ensures v.supportedApiVersions == ["v1"]
  {
    VersionInfo(g.serviceName, g.serviceVersion, SupportedApiVersions)
  }

  // ---------------------------------------------------------------------
  // Runs
  // ---------------------------------------------------------------------

  function AlreadyExists(runId: string): (e: ServerError)
    ensures e.code == "run_already_exists" && e.statusCode == 409
  {
    ServerError("run_already_exists", "Run '" + runId + "' already exists", 409, None)
  }

  function NotFound(runId: string): (e: ServerError)
    ensures e.code == "run_not_found" && e.statusCode == 404
  {
    ServerError("run_not_found", "Run '" + runId + "' not found", 404, None)
  }

  /** The id of a locally started run: the supplied one unless it is absent
      or empty, else a generated `run_<hex>`. */
  function ResolveRunId(body: RunStartRequest, ids: FreshIds): (id: string)
    ensures Truthy(body.runId) ==> id == body.runId.value
    ensures !Truthy(body.runId) ==> id == "run_" + ids.runHex
  {
    if Truthy(body.runId) then body.runId.value else "run_" + ids.runHex
  }

  /** `start_run`. Proxy: the body goes downstream verbatim and the registry
      is not touched. Local: insert-if-absent of a new running record. */
  function StartRun(
    g: RunGateway,
    body: RunStartRequest,
    ids: FreshIds,
    now: Timestamp,
    send: Coordinator.CoordinatorRequest -> Coordinator.Outcome<Run>): (rep: Reply<Run>)
    ensures rep.next.(runs := g.runs) == g
    ensures !g.IsLocal() ==>
              rep.next == g
              && Coordinator.MapsOutcome(g.coordinator.value.baseUrl, send(Coordinator.StartRunRequest(body)), rep.result)
    ensures g.IsLocal() ==>
              var id := ResolveRunId(body, ids);
              && (rep.result.Failure? <==> id in g.runs)
              && (rep.result.Failure? ==> rep.result.error == AlreadyExists(id) && rep.next == g)
              && (rep.result.Success? ==>
                    var run := rep.result.value;
                    && run.runId == id
                    && run.state == Running
                    && run.endedAt.None?
                    && run.startedAt == now
                    && run.rootNodeRunId == "node_run_" + ids.nodeRunHex
                    && run.runContext == body.runContext
                    && run.extensions == body.extensions
                    && rep.next.runs.Keys == g.runs.Keys + {id}
                    && rep.next.runs[id] == run
                    && (forall k | k in g.runs :: rep.next.runs[k] == g.runs[k]))
    ensures WellFormed(g.runs) ==> WellFormed(rep.next.runs)
  {
    match g.coordinator
    case Some(client) => Reply(Coordinator.StartRun(client, body, send), g)
    case None =>
      var id := ResolveRunId(body, ids);
      if id in g.runs then
        Reply(Failure(AlreadyExists(id)), g)
      else
        var run := Run(id, Running, "node_run_" + ids.nodeRunHex, body.runContext, now, None, body.extensions);
        Reply(Success(run), g.(runs := g.runs[id := run]))
  }

  /** `_get_local_run`: lookup-or-fail. */
  function GetLocalRun(runs: map<string, Run>, runId: string): (r: Result<Run, ServerError>)
    ensures r.Success? <==> runId in runs
    ensures r.Success? ==> r.value == runs[runId]
    ensures r.Failure? ==> r.error == NotFound(runId)
  {
    if runId in runs then Success(runs[runId]) else Failure(NotFound(runId))
  }

  /** `get_run`. It returns no new gateway: it never changes the registry. */
  function GetRun(
    g: RunGateway,
    runId: string,
    send: Coordinator.CoordinatorRequest -> Coordinator.Outcome<Run>): (r: Result<Run, ServerError>)
    ensures !g.IsLocal() ==>
              Coordinator.MapsOutcome(g.coordinator.value.baseUrl, send(Coordinator.GetRunRequest(runId)), r)
    ensures g.IsLocal() ==> (r.Success? <==> runId in g.runs)
    ensures g.IsLocal() && runId in g.runs ==> r == Success(g.runs[runId])
    ensures g.IsLocal() && runId !in g.runs ==> r == Failure(NotFound(runId))
  {
    match g.coordinator
    case Some(client) => Coordinator.GetRun(client, runId, send)
    case None => GetLocalRun(g.runs, runId)
  }

  /** `cancel_run`. Local: a missing run is `run_not_found`; a terminal run
      is returned as it is; a running run is replaced (never mutated) by a
      canceled copy ending at `now`, stored under the copy's own id. */
  function CancelRun(
    g: RunGateway,
    runId: string,
    now: Timestamp,
    send: Coordinator.CoordinatorRequest -> Coordinator.Outcome<Run>): (rep: Reply<Run>)
    ensures rep.next.(runs := g.runs) == g
    ensures !g.IsLocal() ==>
              rep.next == g
              && Coordinator.MapsOutcome(g.coordinator.value.baseUrl, send(Coordinator.CancelRunRequest(runId)), rep.result)
    ensures g.IsLocal() && runId !in g.runs ==> rep.result == Failure(NotFound(runId)) && rep.next == g
    ensures g.IsLocal() && runId in g.runs && g.runs[runId].state.IsTerminal() ==>
              rep.result == Success(g.runs[runId]) && rep.next == g
    ensures g.IsLocal() && runId in g.runs && !g.runs[runId].state.IsTerminal() ==>
              var before := g.runs[runId];
              && rep.result.Success?
              && var after := rep.result.value;
              && after.state == Canceled
              && after.endedAt == Some(now)
              && after.runId == before.runId
              && after.rootNodeRunId == before.rootNodeRunId
              && after.runContext == before.runContext
              && after.startedAt == before.startedAt
              && after.extensions == before.extensions
              && rep.next.runs.Keys == g.runs.Keys + {before.runId}
              && rep.next.runs[before.runId] == after
              && (forall k | k in g.runs && k != before.runId :: rep.next.runs[k] == g.runs[k])
    ensures WellFormed(g.runs) ==> WellFormed(rep.next.runs)
  {
    match g.coordinator
    case Some(client) => Reply(Coordinator.CancelRun(client, runId, send), g)
    case None =>
      match GetLocalRun(g.runs, runId)
      case Failure(e) => Reply(Failure(e), g)
      case Success(run) =>
        if run.state.IsTerminal() then
          Reply(Success(run), g)
        else
          var updated := run.(state := Canceled, endedAt := Some(now));
          Reply(Success(updated), g.(runs := g.runs[run.runId := updated]))
  }

  const PlaceholderMessage := "Template Run Gateway does not stream real events yet."

  /** `stream_run_events`. Local: one `run_started` event at sequence 0 for
      the requested id, whether or not such a run exists, written as a
      single line. */
  function StreamRunEvents(
    g: RunGateway,
    runId: string,
    now: Timestamp,
    send: Coordinator.CoordinatorRequest -> Coordinator.Outcome<string>): (r: Result<string, ServerError>)
    ensures !g.IsLocal() ==>
              Coordinator.MapsOutcome(g.coordinator.value.baseUrl, send(Coordinator.StreamRunEventsRequest(runId)), r)
    ensures g.IsLocal() ==>
              && r.Success?
              && SingleLine(r.value)
              && ParseEventLine(r.value) == Some(Event(runId, 0, "run_started", now.iso, PlaceholderMessage))
  {
    match g.coordinator
    case Some(client) => Coordinator.StreamRunEvents(client, runId, send)
    case None =>
      var event := Event(runId, 0, "run_started", now.iso, PlaceholderMessage);
      ParseEncodedEventLine(event);
      Success(EncodeEventLine(event))
  }
}
