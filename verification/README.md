# Run Gateway lifecycle core, in Dafny

This project models the decision logic of an ARP Run Gateway. The gateway is
the ingress service that starts, reads, cancels and streams events for
long-running runs. It also reports the gateway's health.

The mode is fixed when the gateway is constructed:

- **Proxy mode.** A Run Coordinator client is injected, or a coordinator URL
  comes from the argument or from `ARP_RUN_COORDINATOR_URL`. Every run
  operation then goes through the client. The client makes one downstream
  call and maps its failure into one error taxonomy:
  - a pass-through API error, with status defaulting to 502;
  - otherwise `run_coordinator_unavailable` (502).
- **Local mode.** Otherwise the gateway keeps an in-memory registry from run
  id to run record. The registry supports insert-if-absent (start),
  lookup-or-fail (get, `run_not_found`/404) and construct-and-replace
  (cancel of a running run; a terminal run is returned unchanged).

Health aggregation combines the gateway's view of the coordinator with the
coordinator's own report. A failing coordinator gives `degraded`, never
`down`.

Everything is a pure function. These are parameters:

- the clock (`now`, a `Timestamp` holding the ISO-8601 text);
- the two random `uuid4().hex` strings a local start may use (`FreshIds`);
- the environment variables (`Option<string>`);
- the downstream service (`send`, from the request the client builds to the
  `Outcome` of that call: `Returned`, `ApiError` or `Fault`);
- Python's `str()` of a caught error (`describe`).

An operation that can change the registry returns a `Reply`: its result and
the gateway after the call.

Files, one module each:

- `wrappers.dfy`: `Option` and `Result`.
- `model.dfy`: the records (`Run`, `RunStartRequest`, `Health`, `Check`,
  `VersionInfo`, `ServerError`).
- `utils.dfy`: URL normalisation and the environment helpers.
- `event_line.dfy`: the local stream payload. It holds the event record and
  its `json.dumps` serialisation with default settings. It also holds a
  reader for that layout, which serves as the serialisation's inverse.
- `coordinator.dfy`: the outbound client and its error mapping.
- `gateway.dfy`: the gateway's construction and its six operations.
- `gateway_properties.dfy`: properties spanning several calls, including the
  registry invariant over any sequence of calls after construction.

Three behaviours of the code that a reader might not expect, all modelled
as written:

- The URL from `ARP_RUN_COORDINATOR_URL` is normalised twice: once when it
  is read and once more in the constructor. A URL ending in `/v1/v1` loses
  both segments when it comes from the environment, but only one when it is
  passed as an argument (`GatewayProperties.EnvironmentUrlIsNormalisedTwice`).
- Local `stream_run_events` does not check that the run exists. It emits the
  `run_started` event for any id.
- Local `cancel_run` stores the canceled copy under the record's own
  `run_id`, not under the requested id. The two agree because of the registry
  invariant, which every reachable gateway keeps
  (`GatewayProperties.ReachableGateways`).

## Model

| member | source | states |
|---|---|---|
| Utils.StripTrailingSlashes | src/arp_template_run_gateway/utils.py:14 | `rstrip("/")` keeps a prefix of the URL. Only slashes follow that prefix, and the prefix does not itself end with a slash. |
| Utils.StripTrailingSlashesUnique | src/arp_template_run_gateway/utils.py:14 | Those three properties determine the stripped URL completely. |
| Utils.NormalizeBaseUrl | src/arp_template_run_gateway/utils.py:13-17 | The normalised URL is a prefix of the input. Either only the trailing slashes were removed, and the result then ends neither with `/` nor with `/v1` (`OnlySlashesRemoved`); or exactly one `/v1` and the slashes after it were removed (`VersionSegmentRemoved`). An input ending in neither `/` nor `/v1` comes back unchanged. |
| Utils.NormalizeBaseUrlUnique | src/arp_template_run_gateway/utils.py:13-17 | Any prefix of the URL that fits one of the two cases above is the normalised URL, so the contract fixes the result. |
| Utils.NormalizeStripsSlashes | src/arp_template_run_gateway/utils.py:13-17 | A URL whose stripped form does not end in `/v1` loses exactly its trailing slashes, so `http://c/` becomes `http://c`. |
| Utils.NormalizeRemovesOneVersionSegment | src/arp_template_run_gateway/utils.py:15-16 | For any base, `base + "/v1"` followed by any number of slashes normalises to exactly `base`. |
| Utils.NormalizeIsNotIdempotent | src/arp_template_run_gateway/utils.py:13-17 | At most one `/v1` is removed: `http://c/v1/v1` becomes `http://c/v1`, and normalising again gives `http://c`. |
| Utils.RunCoordinatorUrlFromEnv | src/arp_template_run_gateway/utils.py:20-24 | The result is None exactly when the variable is unset or empty. Otherwise it is the normalised value, a prefix of the value. |
| Utils.RunCoordinatorBearerTokenFromEnv | src/arp_template_run_gateway/utils.py:27-31 | The result is None exactly when the variable is unset or empty. Otherwise it is the token, unaltered. |
| Utils.Or | src/arp_template_run_gateway/gateway.py:67 | Python's `a or b` on optional strings: `a` when it is present and non-empty, else `b`. |
| Coordinator.MappedStatus | src/arp_template_run_gateway/run_coordinator_client.py:86 | The mapped status is the API error's own status when that is set and non-zero, and 502 otherwise. It is never zero. |
| Coordinator.Call | src/arp_template_run_gateway/run_coordinator_client.py:79-98 | One downstream call, mapped by the policy. A success is returned unchanged. An API error keeps its code, message and details. Any other fault becomes `run_coordinator_unavailable`, status 502, with message "Run Coordinator request failed" and details `{run_coordinator_url, error}`. |
| Coordinator.MapsOutcomeIsFunctional | src/arp_template_run_gateway/run_coordinator_client.py:79-98 | The case-by-case mapping policy admits at most one result for each downstream outcome, so `Call` is exactly that policy. |
| Coordinator.CallErrorsHaveStatus | src/arp_template_run_gateway/run_coordinator_client.py:86-93 | Every error the client raises has a non-zero status. |
| Coordinator.RecoverCall | src/arp_template_run_gateway/run_coordinator_client.py:82-98 | The mapping can be inverted for successes and for faults. It can also be inverted for API errors that carry a non-zero status and do not imitate the unavailable error. |
| Coordinator.CallIsNotInjective | src/arp_template_run_gateway/run_coordinator_client.py:86 | An unset status, a zero status and an explicit 502 all map to the same error. So does a fault and an API error that copies the unavailable error. |
| Coordinator.CancelRun | src/arp_template_run_gateway/run_coordinator_client.py:48-52 | Cancel sends one cancel request for the given id, and its result follows the mapping policy. |
| Coordinator.GetRun | src/arp_template_run_gateway/run_coordinator_client.py:54-58 | Get sends one get request for the given id, and its result follows the mapping policy. |
| Coordinator.CheckHealth | src/arp_template_run_gateway/run_coordinator_client.py:60-64 | Health sends one health request, and its result follows the mapping policy. |
| Coordinator.StartRun | src/arp_template_run_gateway/run_coordinator_client.py:66-70 | Start sends one start request carrying the body verbatim, and its result follows the mapping policy. |
| Coordinator.StreamRunEvents | src/arp_template_run_gateway/run_coordinator_client.py:72-76 | Stream sends one stream request for the given id, and its result follows the mapping policy. |
| EventLine.EscapeChar | src/arp_template_run_gateway/gateway.py:229 | One character escaped the way `json.dumps` does with ASCII-only output uses only printable ASCII. |
| EventLine.DecodeEscapeChar | src/arp_template_run_gateway/gateway.py:229 | Reading one escaped character, whatever its range (short escape, control, DEL, non-ASCII or astral surrogate pair), gives back that character and leaves the rest of the text untouched. |
| EventLine.Escape | src/arp_template_run_gateway/gateway.py:229 | The escaped body of a JSON string literal, as `json.dumps` writes it, uses only printable ASCII. |
| EventLine.DecodeEscape | src/arp_template_run_gateway/gateway.py:229 | Reading an escaped literal gives back exactly the original text, and reading stops at the closing quote. |
| EventLine.Decimal | src/arp_template_run_gateway/gateway.py:224 | The decimal text of a sequence number is a non-empty run of digits whose value is that number. |
| EventLine.ParseDecimal | src/arp_template_run_gateway/gateway.py:224 | The decimal text of a sequence number, followed by anything that does not start with a digit, reads back as that number and leaves the rest. |
| EventLine.EncodeEventLine | src/arp_template_run_gateway/gateway.py:222-229 | The payload is one line: it ends with a newline, and that newline is the only one. |
| EventLine.ParseEncodedEventLine | src/arp_template_run_gateway/gateway.py:222-229 | Every payload reads back as the five fields it was written from. |
| Gateway.Create | src/arp_template_run_gateway/gateway.py:59-76 | The gateway is in proxy mode exactly when a client was injected, or a non-empty URL came from the argument or the environment. An injected client is used as is. An argument URL is normalised once, and an environment URL twice. The token comes from the argument, else from the environment, else is absent. The registry starts empty. |
| Gateway.HealthOf | src/arp_template_run_gateway/gateway.py:91-117 | Local mode reports `ok` with no checks. A failing health call reports `degraded` with the single check `run_coordinator`, status `down`, the error text as message, and details `{url}`. A report is mirrored: its status goes to the top level, and the checks are the synthesised `run_coordinator` check (status and `{url, status}`) followed by the downstream checks in order. |
| Gateway.Version | src/arp_template_run_gateway/gateway.py:129-134 | The version is the configured service name and version, with `["v1"]` as the supported API versions. |
| Gateway.AlreadyExists | src/arp_template_run_gateway/gateway.py:152-156 | The id-collision error has code `run_already_exists` and status 409. |
| Gateway.NotFound | src/arp_template_run_gateway/gateway.py:236-240 | The lookup-miss error has code `run_not_found` and status 404. |
| Gateway.ResolveRunId | src/arp_template_run_gateway/gateway.py:150 | The run id is the supplied id when it is present and non-empty, otherwise `run_` followed by the random hex. |
| Gateway.StartRun | src/arp_template_run_gateway/gateway.py:147-169 | In proxy mode the body goes downstream and the gateway is unchanged. In local mode the start fails with 409, leaving the registry unchanged, exactly when the id is taken. Otherwise the new record is running, has no end time, starts at `now`, and copies `run_context` and `extensions`. It is stored under its id, and no other entry changes. The registry invariant is preserved. |
| Gateway.GetLocalRun | src/arp_template_run_gateway/gateway.py:232-241 | The lookup returns the stored record when the id is a key, and `run_not_found` otherwise. |
| Gateway.GetRun | src/arp_template_run_gateway/gateway.py:182-184 | In proxy mode get follows the mapping policy. In local mode it succeeds exactly when the id is a key, returning the stored record, and gives 404 otherwise. |
| Gateway.CancelRun | src/arp_template_run_gateway/gateway.py:197-205 | In proxy mode cancel is delegated. A missing id gives 404. A terminal run is returned unchanged, with the gateway unchanged. A running run is replaced by a copy that is canceled and ends at `now`, with every other field equal. Only that key changes, and the invariant is preserved. |
| Gateway.StreamRunEvents | src/arp_template_run_gateway/gateway.py:219-229 | In proxy mode the stream is delegated. In local mode the stream always succeeds with one line that reads back as `run_started` at sequence 0, carrying the requested id, the time, and the placeholder message. |
| GatewayProperties.StartThenGet | tests/test_gateway_smoke.py:29-43 | After a successful local start, a get of the new id returns the same record. |
| GatewayProperties.StartTwiceConflicts | src/arp_template_run_gateway/gateway.py:150-156 | A second local start with the same explicit id fails with `run_already_exists`/409 and changes nothing. |
| GatewayProperties.GeneratedIdsDiffer | src/arp_template_run_gateway/gateway.py:150 | Generated ids from distinct hex strings are distinct. |
| GatewayProperties.CancelIsIdempotent | src/arp_template_run_gateway/gateway.py:200-205 | A second cancel returns the same record and changes nothing, whatever the clock reads. |
| GatewayProperties.CancelTouchesOnlyItsKey | src/arp_template_run_gateway/gateway.py:203-204 | Under the registry invariant, a local cancel adds no key and changes no entry other than the requested one. |
| GatewayProperties.ProxyIgnoresRegistry | src/arp_template_run_gateway/gateway.py:147-220 | In proxy mode start, get, cancel and stream neither read nor write the registry. |
| GatewayProperties.HealthDownOnlyFromDownstream | src/arp_template_run_gateway/gateway.py:91-117 | The gateway reports `down` exactly when the coordinator's own report says `down`. A failed probe never does. |
| GatewayProperties.HealthFaultIsDegraded | src/arp_template_run_gateway/gateway.py:96-103 | Any failing health call gives `degraded` with one `run_coordinator` check whose status is `down`. |
| GatewayProperties.HealthPropagatesDegraded | tests/test_gateway_smoke.py:46-52 | A degraded coordinator with one `db` check gives a degraded gateway. Its checks are exactly the `run_coordinator` check (degraded), then `db`. |
| GatewayProperties.StepPreservesWellFormed | src/arp_template_run_gateway/gateway.py:150-205 | Every call keeps the registry invariant: each key equals its run's id, and the end time is absent exactly while the run is running. |
| GatewayProperties.StepKeepsMode | src/arp_template_run_gateway/gateway.py:63-76 | No call changes the mode or the service identity. In proxy mode no call changes anything. |
| GatewayProperties.StepFreezesTerminalRuns | src/arp_template_run_gateway/gateway.py:151-202 | No call removes a run, and a terminal run is never changed again. |
| GatewayProperties.ReplayPreservesWellFormed | src/arp_template_run_gateway/gateway.py:150-205 | Any sequence of calls keeps the registry invariant. |
| GatewayProperties.ReplayKeepsMode | src/arp_template_run_gateway/gateway.py:63-76 | Any sequence of calls keeps the mode. In proxy mode it leaves the gateway as it was. |
| GatewayProperties.ReplayFreezesTerminalRuns | src/arp_template_run_gateway/gateway.py:151-202 | Over any sequence of calls, runs are never removed, and terminal runs stay exactly as they were. |
| GatewayProperties.ReachableGateways | src/arp_template_run_gateway/gateway.py:59-76 | Every gateway reachable from construction satisfies the invariant and keeps its mode. A proxy gateway never stores a run. |
| GatewayProperties.EnvironmentUrlIsNormalisedTwice | src/arp_template_run_gateway/gateway.py:67-72 | The same URL `http://c/v1/v1` names `http://c/v1` when passed as an argument, but `http://c` when read from the environment. |

## Left out

- `app.py` (`create_app`) and `auth_settings_from_env_or_dev_insecure`: framework and auth wiring with no decision logic.
- `asyncio.to_thread` and `async`/`await`: each operation is one sequential function. The registry lock that concurrent requests would need is not modelled.
- The `RunCoordinatorClient` HTTP calls: these belong to a foreign library. The downstream service is the `send` parameter, and its answer is an `Outcome`.
- `now()` and `uuid.uuid4()`: their values are parameters. The uniqueness of uuids is not proved; `GatewayProperties.GeneratedIdsDiffer` only shows that distinct hex strings give distinct ids.
- Python's `str()` of the error caught by `health` belongs to the external server library. It is the `describe` parameter.
- `json.dumps`: only the local event payload is modelled, with the default `ensure_ascii` escaping and separators. `ParseEventLine` reads that one layout; it is not a general JSON parser.
- Pydantic validation and `model_copy`: records are plain values, and a copy is a record update.
- The bearer token and the optional inner client of `RunCoordinatorGatewayClient`: the token is stored in the `Client`, but no request uses it.
- Gateway.HealthOf: an injected coordinator is modelled as the same client type. An injected object that raises its own exception types directly, rather than the client's mapped error, is not modelled.
- Exceptions outside `Exception` (for example `KeyboardInterrupt`) from a downstream call are not modelled. The source does not catch them either.
