/** The gateway's outbound client for the Run Coordinator
    (`RunCoordinatorGatewayClient`): five operations, each making exactly one
    downstream call through a single error-mapping step. The downstream
    call itself is not modelled; what it produced is an input. */
module Coordinator {
  import opened Wrappers
  import opened Model

  /** The client wrapper; `baseUrl` is stored exactly as it was given. */
  datatype Client = Client(baseUrl: string, bearerToken: Option<string>)

  /** What a single downstream call produced: a value, a recognised API
      error (`ArpApiError`, whose status code may be unset), or any other
      fault, known only by its string form. */
  datatype Outcome<+T> =
    | Returned(value: T)
    | ApiError(code: string, message: string, statusCode: Option<int>, details: Option<Details>)
    | Fault(text: string)

  /** The request each operation sends downstream. */
  datatype CoordinatorRequest =
    | CancelRunRequest(runId: string)
    | GetRunRequest(runId: string)
    | HealthRequest
    | StartRunRequest(body: RunStartRequest)
    | StreamRunEventsRequest(runId: string)

  const BadGateway := 502
  const UnavailableCode := "run_coordinator_unavailable"
  const UnavailableMessage := "Run Coordinator request failed"

  /** The details attached to a fault that is not an API error. */
  function UnavailableDetails(baseUrl: string, text: string): Details {
    map["run_coordinator_url" := Text(baseUrl), "error" := Text(text)]
  }

  /** `exc.status_code or 502`: an unset or zero status becomes 502. */
  function MappedStatus(statusCode: Option<int>): (s: int)
    ensures s != 0
    ensures statusCode.Some? && statusCode.value != 0 ==> s == statusCode.value
    ensures statusCode.None? || statusCode.value == 0 ==> s == BadGateway
  {
    match statusCode
    case Some(c) => if c != 0 then c else BadGateway
    case None => BadGateway
  }

  /** The error-mapping policy, stated case by case: success passes
      through, an API error keeps its code, message and details, and any
      other fault becomes `run_coordinator_unavailable` with status 502. */
  ghost predicate MapsOutcome<T>(baseUrl: string, o: Outcome<T>, r: Result<T, ServerError>) {
    && (o.Returned? ==> r == Success(o.value))
    && (o.ApiError? ==>
          && r.Failure?
          && r.error.code == o.code
          && r.error.message == o.message
          && r.error.details == o.details
          && (o.statusCode.Some? && o.statusCode.value != 0 ==> r.error.statusCode == o.statusCode.value)
          && (o.statusCode.None? || o.statusCode.value == 0 ==> r.error.statusCode == BadGateway))
    && (o.Fault? ==>
          r == Failure(ServerError(UnavailableCode, UnavailableMessage, BadGateway,
                                   Some(UnavailableDetails(baseUrl, o.text)))))
  }

  /** The policy leaves no freedom: at most one result satisfies it. */
  lemma MapsOutcomeIsFunctional<T>(baseUrl: string, o: Outcome<T>, r1: Result<T, ServerError>, r2: Result<T, ServerError>)
    requires MapsOutcome(baseUrl, o, r1) && MapsOutcome(baseUrl, o, r2)
    ensures r1 == r2
  {
  }

  /** `_call`: one attempt, no retry, and the outcome mapped by the policy. */
  function Call<T>(c: Client, o: Outcome<T>): (r: Result<T, ServerError>)
    ensures MapsOutcome(c.baseUrl, o, r)
  {
    match o
    case Returned(v) => Success(v)
    case ApiError(code, message, status, details) =>
      Failure(ServerError(code, message, MappedStatus(status), details))
    case Fault(text) =>
      Failure(ServerError(UnavailableCode, UnavailableMessage, BadGateway,
                          Some(UnavailableDetails(c.baseUrl, text))))
  }

  /** Every error the client raises carries a non-zero status. */
  lemma CallErrorsHaveStatus<T>(c: Client, o: Outcome<T>)
    ensures Call(c, o).Failure? ==> Call(c, o).error.statusCode != 0
  {
  }

  /** Reads a raised error back into the outcome it most plausibly came from. */
  function Recover<T>(baseUrl: string, r: Result<T, ServerError>): Outcome<T> {
    match r
    case Success(v) => Returned(v)
    case Failure(e) =>
      if e.code == UnavailableCode && e.message == UnavailableMessage && e.statusCode == BadGateway
         && e.details.Some? && "error" in e.details.value && e.details.value["error"].Text?
         && e.details.value == UnavailableDetails(baseUrl, e.details.value["error"].s)
      then Fault(e.details.value["error"].s)
      else ApiError(e.code, e.message, Some(e.statusCode), e.details)
  }

  /** The mapping loses nothing for successes, for faults, and for API errors
      that carry their own non-zero status and do not imitate the
      unavailable error. */
  lemma RecoverCall<T>(c: Client, o: Outcome<T>)
    requires o.ApiError? ==>
               && o.statusCode.Some? && o.statusCode.value != 0
               && !(o.code == UnavailableCode && o.message == UnavailableMessage && o.statusCode.value == BadGateway)
    ensures Recover(c.baseUrl, Call(c, o)) == o
  {
  }

  /** And it does lose the difference between an unset status and an
      explicit 502, and between a fault and an API error that copies it. */
  lemma CallIsNotInjective(c: Client)
    ensures Call<Run>(c, ApiError("e", "m", None, None)) == Call<Run>(c, ApiError("e", "m", Some(502), None))
    ensures Call<Run>(c, ApiError("e", "m", Some(0), None)) == Call<Run>(c, ApiError("e", "m", None, None))
    ensures Call<Run>(c, Fault("x"))
         == Call<Run>(c, ApiError(UnavailableCode, UnavailableMessage, Some(502),
                                  Some(UnavailableDetails(c.baseUrl, "x"))))
  {
  }

  // The five operations. Each sends one request built from its arguments
  // and maps the single outcome; `send` is the downstream service.

  function CancelRun(c: Client, runId: string, send: CoordinatorRequest -> Outcome<Run>): (r: Result<Run, ServerError>)
    ensures MapsOutcome(c.baseUrl, send(CancelRunRequest(runId)), r)
  {
    Call(c, send(CancelRunRequest(runId)))
  }

  function GetRun(c: Client, runId: string, send: CoordinatorRequest -> Outcome<Run>): (r: Result<Run, ServerError>)
    ensures MapsOutcome(c.baseUrl, send(GetRunRequest(runId)), r)
  {
    Call(c, send(GetRunRequest(runId)))
  }

  function CheckHealth(c: Client, send: CoordinatorRequest -> Outcome<Health>): (r: Result<Health, ServerError>)
    ensures MapsOutcome(c.baseUrl, send(HealthRequest), r)
  {
    Call(c, send(HealthRequest))
  }

  function StartRun(c: Client, body: RunStartRequest, send: CoordinatorRequest -> Outcome<Run>): (r: Result<Run, ServerError>)
    ensures MapsOutcome(c.baseUrl, send(StartRunRequest(body)), r)
  {
    Call(c, send(StartRunRequest(body)))
  }

  function StreamRunEvents(c: Client, runId: string, send: CoordinatorRequest -> Outcome<string>): (r: Result<string, ServerError>)
    ensures MapsOutcome(c.baseUrl, send(StreamRunEventsRequest(runId)), r)
  {
    Call(c, send(StreamRunEventsRequest(runId)))
  }
}
