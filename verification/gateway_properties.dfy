/** Properties of the gateway that relate several calls: what a start
    followed by a get or a second start returns, the idempotence of cancel,
    the independence of proxy mode from the registry, the health policy as
    a whole, and the registry invariant over any sequence of calls made
    after construction. */
module GatewayProperties {
  import opened Wrappers
  import opened Model
  import opened Utils
  import opened Gateway
  import Coordinator

  /** The downstream service, one function per response type. */
  datatype Downstream = Downstream(
    runs: Coordinator.CoordinatorRequest -> Coordinator.Outcome<Run>,
    health: Coordinator.CoordinatorRequest -> Coordinator.Outcome<Health>,
    stream: Coordinator.CoordinatorRequest -> Coordinator.Outcome<string>)

  /** One call made on the gateway, with the clock reading and random ids it
      would consume. */
  datatype GatewayCall =
    | StartCall(body: RunStartRequest, ids: FreshIds, now: Timestamp)
    | GetCall(runId: string)
    | CancelCall(runId: string, now: Timestamp)
    | StreamCall(runId: string, now: Timestamp)
    | HealthCall(now: Timestamp)
    | VersionCall

  /** The gateway after one call. */
  function Step(g: RunGateway, c: GatewayCall, d: Downstream): RunGateway {
    match c
    case StartCall(body, ids, now) => StartRun(g, body, ids, now, d.runs).next
    case CancelCall(runId, now) => CancelRun(g, runId, now, d.runs).next
    case _ => g
  }

  /** The gateway after a sequence of calls, in order. */
  function Replay(g: RunGateway, calls: seq<GatewayCall>, d: Downstream): RunGateway
    decreases |calls|
  {
    if calls == [] then g else Replay(Step(g, calls[0], d), calls[1..], d)
  }

  // ---------------------------------------------------------------------
  // Local start, get and cancel
  // ---------------------------------------------------------------------

  /** A run that was just started locally is what a get of its id returns. */
  lemma StartThenGet(g: RunGateway, body: RunStartRequest, ids: FreshIds, now: Timestamp, d: Downstream)
    requires g.IsLocal()
    requires StartRun(g, body, ids, now, d.runs).result.Success?
    ensures var rep := StartRun(g, body, ids, now, d.runs);
            GetRun(rep.next, rep.result.value.runId, d.runs) == rep.result
  {
  }

  /** Starting twice with the same explicit id: the second start fails with
      `run_already_exists` (409) and leaves the registry as the first left it. */
  lemma StartTwiceConflicts(
    g: RunGateway, body1: RunStartRequest, body2: RunStartRequest,
    ids1: FreshIds, ids2: FreshIds, t1: Timestamp, t2: Timestamp, d: Downstream)
    requires g.IsLocal()
    requires Truthy(body1.runId) && body2.runId == body1.runId
    requires StartRun(g, body1, ids1, t1, d.runs).result.Success?
    ensures var first := StartRun(g, body1, ids1, t1, d.runs);
            var second := StartRun(first.next, body2, ids2, t2, d.runs);
            && second.result.Failure?
            && second.result.error.code == "run_already_exists"
            && second.result.error.statusCode == 409
            && second.next == first.next
  {
  }

  /** Generated ids from distinct random hex strings are distinct. */
  lemma GeneratedIdsDiffer(b1: RunStartRequest, b2: RunStartRequest, ids1: FreshIds, ids2: FreshIds)
    requires !Truthy(b1.runId) && !Truthy(b2.runId)
    requires ids1.runHex != ids2.runHex
    ensures ResolveRunId(b1, ids1) != ResolveRunId(b2, ids2)
  {
    var p := "run_";
    assert (p + ids1.runHex)[|p|..] == ids1.runHex;
    assert (p + ids2.runHex)[|p|..] == ids2.runHex;
  }

  /** Cancel is idempotent: a second cancel returns the same record and
      changes nothing, whatever the clock says by then. */
  lemma CancelIsIdempotent(g: RunGateway, runId: string, t1: Timestamp, t2: Timestamp, d: Downstream)
    requires g.IsLocal() && WellFormed(g.runs)
    ensures var first := CancelRun(g, runId, t1, d.runs);
            var second := CancelRun(first.next, runId, t2, d.runs);
            second == first.(result := second.result) && second.result == first.result
  {
  }

  /** With the invariant in force, a local cancel writes only the requested
      key and never adds one. */
  lemma CancelTouchesOnlyItsKey(g: RunGateway, runId: string, now: Timestamp, d: Downstream)
    requires g.IsLocal() && WellFormed(g.runs)
    ensures var next := CancelRun(g, runId, now, d.runs).next;
            && next.runs.Keys == g.runs.Keys
            && (forall k | k in g.runs && k != runId :: next.runs[k] == g.runs[k])
  {
  }

  // ---------------------------------------------------------------------
  // Proxy mode
  // ---------------------------------------------------------------------

  /** In proxy mode the registry is neither read nor written: two gateways
      that differ only in their registries give the same answers and keep
      their registries. */
  lemma ProxyIgnoresRegistry(
    g: RunGateway, other: map<string, Run>, body: RunStartRequest, ids: FreshIds,
    runId: string, now: Timestamp, d: Downstream)
    requires !g.IsLocal()
    ensures var h := g.(runs := other);
            && StartRun(g, body, ids, now, d.runs).result == StartRun(h, body, ids, now, d.runs).result
            && GetRun(g, runId, d.runs) == GetRun(h, runId, d.runs)
            && CancelRun(g, runId, now, d.runs).result == CancelRun(h, runId, now, d.runs).result
            && StreamRunEvents(g, runId, now, d.stream) == StreamRunEvents(h, runId, now, d.stream)
            && StartRun(h, body, ids, now, d.runs).next.runs == other
            && CancelRun(h, runId, now, d.runs).next.runs == other
  {
  }

  // ---------------------------------------------------------------------
  // Health
  // ---------------------------------------------------------------------

  /** The gateway reports `down` exactly when a configured coordinator
      answered its health call with a `down` report; a failing call is only
      `degraded`. */
  lemma HealthDownOnlyFromDownstream(
    g: RunGateway, now: Timestamp, d: Downstream, describe: ServerError -> string)
    ensures var h := HealthOf(g, now, d.health, describe);
            var o := d.health(Coordinator.HealthRequest);
            h.status == Down <==> (!g.IsLocal() && o.Returned? && o.value.status == Down)
  {
  }

  /** Any failing downstream health call, whatever the error, gives the same
      report shape: `degraded`, one `run_coordinator` check, status `down`. */
  lemma HealthFaultIsDegraded(g: RunGateway, now: Timestamp, d: Downstream, describe: ServerError -> string)
    requires !g.IsLocal()
    requires !d.health(Coordinator.HealthRequest).Returned?
    ensures var h := HealthOf(g, now, d.health, describe);
            && h.status == Degraded
            && h.checks.Some? && |h.checks.value| == 1
            && h.checks.value[0].name == "run_coordinator"
            && h.checks.value[0].status == Down
  {
  }

  /** A `degraded` coordinator with one `down` sub-check yields a `degraded`
      gateway whose checks are the synthesised coordinator check followed by
      that sub-check. */
  lemma HealthPropagatesDegraded(g: RunGateway, now: Timestamp, t: Timestamp, describe: ServerError -> string)
    requires !g.IsLocal()
    ensures var db := Check("db", Down, None, None);
            var report := Health(Degraded, t, Some([db]));
            var h := HealthOf(g, now, (_: Coordinator.CoordinatorRequest) => Coordinator.Returned(report), describe);
            && h.status == Degraded
            && h.checks.Some? && |h.checks.value| == 2
            && h.checks.value[0].name == "run_coordinator" && h.checks.value[0].status == Degraded
            && h.checks.value[1] == db
  {
  }

  // ---------------------------------------------------------------------
  // Any sequence of calls
  // ---------------------------------------------------------------------

  /** Every call keeps the registry invariant. */
  lemma StepPreservesWellFormed(g: RunGateway, c: GatewayCall, d: Downstream)
    requires WellFormed(g.runs)
    ensures WellFormed(Step(g, c, d).runs)
  {
  }

  /** No call changes the mode, the service identity, or a proxy
      gateway's registry. */
  lemma StepKeepsMode(g: RunGateway, c: GatewayCall, d: Downstream)
    ensures Step(g, c, d).(runs := g.runs) == g
    ensures !g.IsLocal() ==> Step(g, c, d) == g
  {
  }

  /** Runs are never removed, and a run that has reached a terminal state is
      never changed again. */
  lemma StepFreezesTerminalRuns(g: RunGateway, c: GatewayCall, d: Downstream)
    requires WellFormed(g.runs)
    ensures g.runs.Keys <= Step(g, c, d).runs.Keys
    ensures forall k | k in g.runs && g.runs[k].state.IsTerminal() :: Step(g, c, d).runs[k] == g.runs[k]
  {
  }

  lemma {:induction false} ReplayPreservesWellFormed(g: RunGateway, calls: seq<GatewayCall>, d: Downstream)
    requires WellFormed(g.runs)
    ensures WellFormed(Replay(g, calls, d).runs)
    decreases |calls|
  {
    if calls != [] {
      StepPreservesWellFormed(g, calls[0], d);
      ReplayPreservesWellFormed(Step(g, calls[0], d), calls[1..], d);
    }
  }

  lemma {:induction false} ReplayKeepsMode(g: RunGateway, calls: seq<GatewayCall>, d: Downstream)
    ensures Replay(g, calls, d).(runs := g.runs) == g
    ensures !g.IsLocal() ==> Replay(g, calls, d) == g
    decreases |calls|
  {
    if calls != [] {
      StepKeepsMode(g, calls[0], d);
      ReplayKeepsMode(Step(g, calls[0], d), calls[1..], d);
    }
  }

  lemma {:induction false} ReplayFreezesTerminalRuns(g: RunGateway, calls: seq<GatewayCall>, d: Downstream)
    requires WellFormed(g.runs)
    ensures g.runs.Keys <= Replay(g, calls, d).runs.Keys
    ensures forall k | k in g.runs && g.runs[k].state.IsTerminal() :: Replay(g, calls, d).runs[k] == g.runs[k]
    decreases |calls|
  {
    if calls != [] {
      var next := Step(g, calls[0], d);
      StepFreezesTerminalRuns(g, calls[0], d);
      StepPreservesWellFormed(g, calls[0], d);
      ReplayFreezesTerminalRuns(next, calls[1..], d);
    }
  }

  /** Whatever happens after construction, the registry keeps its invariant,
      and a gateway built with a coordinator never stores a run. */
  lemma ReachableGateways(opts: Options, env: Environment, calls: seq<GatewayCall>, d: Downstream)
    ensures var g := Create(opts, env);
            && WellFormed(Replay(g, calls, d).runs)
            && Replay(g, calls, d).coordinator == g.coordinator
            && (!g.IsLocal() ==> Replay(g, calls, d).runs == map[])
  {
    var g := Create(opts, env);
    ReplayPreservesWellFormed(g, calls, d);
    ReplayKeepsMode(g, calls, d);
  }

  /** The same URL given as the argument and through the environment can
      name different coordinators: the environment value is normalised
      twice. */
  lemma EnvironmentUrlIsNormalisedTwice()
    ensures var url := "http://c/v1/v1";
            var viaArgument := Create(Options(None, Some(url), None, "s", "1"), Environment(None, None));
            var viaEnvironment := Create(Options(None, None, None, "s", "1"), Environment(Some(url), None));
            && viaArgument.coordinator.value.baseUrl == "http://c/v1"
            && viaEnvironment.coordinator.value.baseUrl == "http://c"
  {
    NormalizeIsNotIdempotent();
  }
}
