/** The records the gateway exchanges with its callers and with the Run
    Coordinator: runs, health reports, version information and the
    structured error every failing operation raises. */
module Model {
  import opened Wrappers

  /** Opaque caller-supplied structured data (`run_context`, `extensions`,
      error `details`); the gateway only copies it. */
  datatype Json =
    | Null
    | Bool(b: bool)
    | Number(n: int)
    | Text(s: string)
    | Array(items: seq<Json>)
    | Object(fields: map<string, Json>)

  type Details = map<string, Json>

  /** A reading of the UTC clock, kept as its ISO-8601 text. */
  datatype Timestamp = Timestamp(iso: string)

  datatype RunState = Running | Succeeded | Failed | Canceled {
    predicate IsTerminal() {
      Succeeded? || Failed? || Canceled?
    }
  }

  datatype Run = Run(
    runId: string,
    state: RunState,
    rootNodeRunId: string,
    runContext: Option<Json>,
    startedAt: Timestamp,
    endedAt: Option<Timestamp>,
    extensions: Option<Json>)

  /** The body of a start request. The gateway reads `runId`, `runContext`
      and `extensions`; the rest is forwarded untouched in proxy mode. */
  datatype RunStartRequest = RunStartRequest(
    runId: Option<string>,
    rootNodeTypeRef: Json,
    input: Json,
    runContext: Option<Json>,
    extensions: Option<Json>)

  datatype Status = Ok | Degraded | Down

  /** The wire name of a status, as it appears inside a details map. */
  function StatusName(s: Status): string {
    match s
    case Ok => "ok"
    case Degraded => "degraded"
    case Down => "down"
  }

  datatype Check = Check(
    name: string,
    status: Status,
    message: Option<string>,
    details: Option<Details>)

  datatype Health = Health(status: Status, time: Timestamp, checks: Option<seq<Check>>)

  datatype VersionInfo = VersionInfo(
    serviceName: string,
    serviceVersion: string,
    supportedApiVersions: seq<string>)

  /** The gateway's single error type: a machine-readable code, a human
      message, an HTTP status code and optional details. */
  datatype ServerError = ServerError(
    code: string,
    message: string,
    statusCode: int,
    details: Option<Details>)
}
