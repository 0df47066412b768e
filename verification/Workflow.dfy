/** One execution attempt: which events the workflow publishes, in which order, for every point at
    which the model gateway or the publisher may raise. */
module Workflow {
  import opened Events
  import opened Delivery

  datatype Node = Planner | ToolRunner | Validator | Reviewer

  function StepName(n: Node): string {
    match n
    case Planner => "planner"
    case ToolRunner => "tool_runner"
    case Validator => "validator"
    case Reviewer => "reviewer"
  }

  function AgentName(n: Node): string {
    match n
    case Planner => "planner-agent"
    case ToolRunner => "tool-runner-agent"
    case Validator => "validator-agent"
    case Reviewer => "reviewer-agent"
  }

  /** The compiled graph, as the path it takes. */
  function Route(requireValidation: bool): seq<Node> {
    if requireValidation then [Planner, ToolRunner, Validator, Reviewer] else [Planner, ToolRunner, Reviewer]
  }

  /** What a model invocation reports; local nodes report zeros under their own names. */
  datatype Telemetry = Telemetry(tokenIn: nat, tokenOut: nat, latencyMs: real, costUsd: real, modelName: string, provider: string)

  /** The outside world of one attempt. `enabled` when the process has a model gateway, `builds` when
      constructing the workflow graph does not raise. Call number `i` of the publisher ends as `faults(i)` says
      and, when it takes effect, stamps the event with `ids(i)`. */
  datatype Env = Env(
    enabled: bool,
    builds: bool,
    gateway: Node -> Option<Telemetry>,
    faults: nat -> Fault,
    ids: nat -> Id,
    stepIds: nat -> Id,
    duration: Node -> real,
    now: Time,
    output: Value,
    error: string)

  datatype Request = Request(run: Id, correlationId: Id, traceId: Id, context: RuntimeContext)

  /** An event before the envelope: `entity_id` and payload. */
  datatype Draft = Draft(entityId: Id, body: Body)

  function Stamped(env: Env, req: Request, d: Draft, i: nat): Event {
    Event(env.ids(i), d.entityId, req.correlationId, req.traceId, d.body)
  }

  /** `next` counts publisher calls, whether or not they took effect. */
  datatype Published = Published(trace: seq<Event>, next: nat, ok: bool)

  /** Publish in order until a call raises. */
  function PublishAll(env: Env, req: Request, ds: seq<Draft>, i: nat): Published {
    if ds == [] then Published([], i, true)
    else
      var e := Stamped(env, req, ds[0], i);
      match env.faults(i)
      case Lost => Published([], i + 1, false)
      case Landed => Published([e], i + 1, false)
      case Fine =>
        var rest := PublishAll(env, req, ds[1..], i + 1);
        rest.(trace := [e] + rest.trace)
  }

  function NodeTelemetry(env: Env, n: Node): Option<Telemetry> {
    match n
    case Planner => env.gateway(n)
    case Reviewer => env.gateway(n)
    case ToolRunner => Some(Telemetry(0, 0, env.duration(n), 0.0, "builtin-tooling", "internal"))
    case Validator => Some(Telemetry(0, 0, env.duration(n), 0.0, "builtin-validator", "internal"))
  }

  /** `timedelta(milliseconds=ms)` */
  function Micros(ms: real): int {
    (ms * 1000.0 + 0.5).Floor
  }

  function StepRow(env: Env, req: Request, n: Node, t: Telemetry, i: nat): Row {
    map[
      IdCol := Text(env.stepIds(i)), RunCol := Text(req.run), AgentNameCol := Text(AgentName(n)), StepNameCol := Text(StepName(n)),
      StatusCol := Status(Succeeded), InputCol := Dict(map[]), OutputCol := Dict(map[]), DurationCol := Num(env.duration(n)),
      TokensCol := Num((t.tokenIn + t.tokenOut) as real), StartedCol := Instant(env.now - Micros(env.duration(n))), FinishedCol := Instant(env.now),
      TraceCol := Text(req.traceId)]
  }

  function CostRow(env: Env, req: Request, t: Telemetry): Row {
    map[
      RunCol := Text(req.run), AgentCol := req.context.agentId, WorkflowCol := req.context.workflowId,
      EnvironmentCol := req.context.environmentId, CostCol := Num(t.costUsd), TokenInCol := Num(t.tokenIn as real),
      TokenOutCol := Num(t.tokenOut as real), ProviderCol := Text(t.provider), ModelNameCol := Text(t.modelName),
      OccurredCol := Instant(env.now)]
  }

  function Metric(name: MetricName, entityType: string, entityId: Id, amount: real): Draft {
    Draft(entityId, MetricRecorded(name, entityType, entityId, amount))
  }

  /** Everything the step emitter publishes for one node; `i` is the publisher call it starts at. */
  function StepDrafts(env: Env, req: Request, n: Node, t: Telemetry, i: nat): seq<Draft> {
    [Draft(env.stepIds(i + 1), StepCompleted(StepRow(env, req, n, t, i))),
     Metric(StepDurationMs, "execution_step", req.run, env.duration(n)),
     Metric(StepTokenUsage, "execution_step", req.run, (t.tokenIn + t.tokenOut) as real),
     Metric(ModelLatencyMs, "model", t.modelName, t.latencyMs),
     Metric(ModelTokenInput, "model", t.modelName, t.tokenIn as real),
     Metric(ModelTokenOutput, "model", t.modelName, t.tokenOut as real),
     Draft(req.run, InferenceRecorded(req.run, Text(t.modelName))),
     Draft(req.run, CostRecorded(CostRow(env, req, t)))]
  }

  /** The callback the workflow is constructed with: what publishing one node's step consists of. */
  type Emitter = (Node, Telemetry, nat) -> seq<Draft>

  function StepEmitter(env: Env, req: Request): Emitter {
    (n: Node, t: Telemetry, i: nat) => StepDrafts(env, req, n, t, i)
  }

  /** The nodes in order, until the gateway or the publisher raises. */
  function RunNodes(env: Env, req: Request, emit: Emitter, nodes: seq<Node>, i: nat): Published {
    if nodes == [] then Published([], i, true)
    else
      match NodeTelemetry(env, nodes[0])
      case None => Published([], i, false)
      case Some(t) =>
        var p := PublishAll(env, req, emit(nodes[0], t, i), i);
        if !p.ok then p
        else
          var rest := RunNodes(env, req, emit, nodes[1..], p.next);
          rest.(trace := p.trace + rest.trace)
  }

  function FinishedDrafts(env: Env, req: Request): seq<Draft> {
    var outcome := map[StatusCol := Status(Succeeded), OutputCol := env.output, FinishedCol := Instant(env.now), ErrorCol := Null];
    [Draft(req.run, ExecutionFinished(req.run, outcome)), Draft(req.run, AuditRecorded(ExecutionFinish, req.run))]
  }

  function FailedDrafts(env: Env, req: Request): seq<Draft> {
    var outcome := map[StatusCol := Status(Failed), OutputCol := Null, FinishedCol := Instant(env.now), ErrorCol := Text(env.error)];
    [Draft(req.run, ExecutionFailed(req.run, outcome)), Draft(req.run, AuditRecorded(ExecutionFail, req.run))]
  }

  /** The `try` block of `_run_workflow`. */
  function Attempt(env: Env, req: Request): Published {
    var p := RunNodes(env, req, StepEmitter(env, req), Route(req.context.requireValidation), 0);
    if !p.ok then p
    else
      var q := PublishAll(env, req, FinishedDrafts(env, req), p.next);
      q.(trace := p.trace + q.trace)
  }

  /** `_run_workflow`: the graph is built before the `try`; a raise in the attempt is turned into a failed event; a raise while
      publishing that leaves the method. */
  function RunWorkflow(env: Env, req: Request): Published {
    if !env.enabled || !env.builds then Published([], 0, false)
    else
      var a := Attempt(env, req);
      if a.ok then a
      else
        var q := PublishAll(env, req, FailedDrafts(env, req), a.next);
        q.(trace := a.trace + q.trace)
  }

  // ------------------------------------------------------------------ the trace

  lemma {:induction false} PublishedPrefix(env: Env, req: Request, ds: seq<Draft>, i: nat)
    ensures var p := PublishAll(env, req, ds, i);
      && |p.trace| <= |ds|
      && (p.ok ==> |p.trace| == |ds| && p.next == i + |ds|)
      && (forall k :: 0 <= k < |p.trace| ==> p.trace[k] == Stamped(env, req, ds[k], i + k))
  {
    if ds != [] { PublishedPrefix(env, req, ds[1..], i + 1); }
  }

  /** The step names of a trace, in publication order. */
  function StepNames(trace: seq<Event>): seq<Value> {
    if trace == [] then []
    else if trace[0].body.StepCompleted? then [Get(trace[0].body.step, StepNameCol)] + StepNames(trace[1..])
    else StepNames(trace[1..])
  }

  function Names(nodes: seq<Node>): seq<Value> {
    if nodes == [] then [] else [Text(StepName(nodes[0]))] + Names(nodes[1..])
  }

  lemma {:induction false} StepNamesAppend(a: seq<Event>, b: seq<Event>)
    ensures StepNames(a + b) == StepNames(a) + StepNames(b)
  {
    if a == [] {
      assert a + b == b;
    } else {
      StepNamesAppend(a[1..], b);
      assert (a + b)[1..] == a[1..] + b && (a + b)[0] == a[0];
    }
  }

  lemma {:induction false} NoStepNames(trace: seq<Event>)
    requires forall e :: e in trace ==> !e.body.StepCompleted?
    ensures StepNames(trace) == []
  {
    if trace != [] { NoStepNames(trace[1..]); }
  }

  /** What one node publishes: its own step first, no further step, no lifecycle event, and token
      amounts that add up. */
  predicate StepShape(n: Node, ds: seq<Draft>) {
    && ds != []
    && ds[0].body.StepCompleted? && Get(ds[0].body.step, StepNameCol) == Text(StepName(n))
    && (forall k :: 1 <= k < |ds| ==> !ds[k].body.StepCompleted?)
    && (forall k :: 0 <= k < |ds| ==> LifecycleRun(ds[k].body).None? && !ds[k].body.ExecutionStarted?)
    && TotalOfDrafts(Amount(StepTokenUsage), ds) == TotalOfDrafts(Amount(ModelTokenInput), ds) + TotalOfDrafts(Amount(ModelTokenOutput), ds)
    && TotalOfDrafts(CostTokens, ds) == TotalOfDrafts(Amount(StepTokenUsage), ds)
  }

  ghost predicate WellShaped(emit: Emitter) {
    forall n: Node, t: Telemetry, i: nat :: StepShape(n, emit(n, t, i))
  }

  lemma StepUsage(env: Env, req: Request, n: Node, t: Telemetry, i: nat)
    ensures TotalOfDrafts(Amount(StepTokenUsage), StepDrafts(env, req, n, t, i)) == (t.tokenIn + t.tokenOut) as real
  {
    EightDrafts(Amount(StepTokenUsage), StepDrafts(env, req, n, t, i));
  }

  lemma StepInput(env: Env, req: Request, n: Node, t: Telemetry, i: nat)
    ensures TotalOfDrafts(Amount(ModelTokenInput), StepDrafts(env, req, n, t, i)) == t.tokenIn as real
  {
    EightDrafts(Amount(ModelTokenInput), StepDrafts(env, req, n, t, i));
  }

  lemma StepOutput(env: Env, req: Request, n: Node, t: Telemetry, i: nat)
    ensures TotalOfDrafts(Amount(ModelTokenOutput), StepDrafts(env, req, n, t, i)) == t.tokenOut as real
  {
    EightDrafts(Amount(ModelTokenOutput), StepDrafts(env, req, n, t, i));
  }

  lemma StepCostTokens(env: Env, req: Request, n: Node, t: Telemetry, i: nat)
    ensures TotalOfDrafts(CostTokens, StepDrafts(env, req, n, t, i)) == (t.tokenIn + t.tokenOut) as real
  {
    EightDrafts(CostTokens, StepDrafts(env, req, n, t, i));
    var cost := CostRow(env, req, t);
    assert Get(cost, TokenInCol) == Num(t.tokenIn as real) && Get(cost, TokenOutCol) == Num(t.tokenOut as real);
  }

  lemma StepCharge(env: Env, req: Request, n: Node, t: Telemetry, i: nat)
    ensures TotalOfDrafts(Charged, StepDrafts(env, req, n, t, i)) == t.costUsd
  {
    EightDrafts(Charged, StepDrafts(env, req, n, t, i));
    assert Get(CostRow(env, req, t), CostCol) == Num(t.costUsd);
  }

  lemma StepDraftsStartWithStep(env: Env, req: Request, n: Node, t: Telemetry, i: nat)
    ensures var ds := StepDrafts(env, req, n, t, i);
      && ds != [] && ds[0].body.StepCompleted? && Get(ds[0].body.step, StepNameCol) == Text(StepName(n))
      && (forall k :: 1 <= k < |ds| ==> !ds[k].body.StepCompleted?)
      && (forall k :: 0 <= k < |ds| ==> LifecycleRun(ds[k].body).None? && !ds[k].body.ExecutionStarted?)
  {
  }

  lemma EmitterIsWellShaped(env: Env, req: Request)
    ensures WellShaped(StepEmitter(env, req))
  {
    forall n: Node, t: Telemetry, i: nat ensures StepShape(n, StepDrafts(env, req, n, t, i)) {
      StepUsage(env, req, n, t, i);
      StepInput(env, req, n, t, i);
      StepOutput(env, req, n, t, i);
      StepCostTokens(env, req, n, t, i);
      StepDraftsStartWithStep(env, req, n, t, i);
    }
  }

  /** One node contributes its own step first, or nothing at all. */
  lemma NodeNames(env: Env, req: Request, n: Node, ds: seq<Draft>, i: nat)
    requires StepShape(n, ds)
    ensures var p := PublishAll(env, req, ds, i);
      && StepNames(p.trace) == (if p.trace == [] then [] else [Text(StepName(n))])
      && (p.ok ==> p.trace != [])
  {
    var p := PublishAll(env, req, ds, i);
    PublishedPrefix(env, req, ds, i);
    if p.trace != [] {
      forall e | e in p.trace[1..] ensures !e.body.StepCompleted? {
        var k :| 0 <= k < |p.trace[1..]| && p.trace[1..][k] == e;
        assert e == Stamped(env, req, ds[k + 1], i + k + 1);
      }
      NoStepNames(p.trace[1..]);
    }
  }

  lemma {:induction false} NodesNames(env: Env, req: Request, emit: Emitter, nodes: seq<Node>, i: nat)
    requires WellShaped(emit)
    ensures StepNames(RunNodes(env, req, emit, nodes, i).trace) <= Names(nodes)
    ensures RunNodes(env, req, emit, nodes, i).ok ==> StepNames(RunNodes(env, req, emit, nodes, i).trace) == Names(nodes)
  {
    if nodes != [] {
      var t := NodeTelemetry(env, nodes[0]);
      if t.Some? {
        var p := PublishAll(env, req, emit(nodes[0], t.value, i), i);
        NodeNames(env, req, nodes[0], emit(nodes[0], t.value, i), i);
        if p.ok {
          NodesNames(env, req, emit, nodes[1..], p.next);
          StepNamesAppend(p.trace, RunNodes(env, req, emit, nodes[1..], p.next).trace);
        }
      }
    }
  }

  /** The attempt and what follows it, as three consecutive pieces. */
  lemma TraceParts(env: Env, req: Request) returns (nodes: Published, fin: Published, fail: Published)
    requires env.enabled && env.builds
    ensures nodes == RunNodes(env, req, StepEmitter(env, req), Route(req.context.requireValidation), 0)
    ensures fin == if nodes.ok then PublishAll(env, req, FinishedDrafts(env, req), nodes.next) else nodes.(trace := [])
    ensures fail == if fin.ok then fin.(trace := []) else PublishAll(env, req, FailedDrafts(env, req), fin.next)
    ensures RunWorkflow(env, req).trace == nodes.trace + fin.trace + fail.trace
    ensures RunWorkflow(env, req).ok == fail.ok
  {
    nodes := RunNodes(env, req, StepEmitter(env, req), Route(req.context.requireValidation), 0);
    fin := if nodes.ok then PublishAll(env, req, FinishedDrafts(env, req), nodes.next) else nodes.(trace := []);
    fail := if fin.ok then fin.(trace := []) else PublishAll(env, req, FailedDrafts(env, req), fin.next);
    assert Attempt(env, req).trace == nodes.trace + fin.trace;
    assert nodes.trace + fin.trace + [] == nodes.trace + fin.trace;
  }

  /** The closing publications of an attempt. */
  predicate Closing(env: Env, req: Request, trace: seq<Event>) {
    forall e :: e in trace ==>
      !e.body.StepCompleted? && !e.body.ExecutionStarted? &&
      (LifecycleRun(e.body).Some? ==> Concluding(e.body) && LifecycleRun(e.body) == Some(req.run) && e.entityId == req.run)
  }

  lemma FinishedIsClosing(env: Env, req: Request, i: nat)
    ensures Closing(env, req, PublishAll(env, req, FinishedDrafts(env, req), i).trace)
  {
    PublishedPrefix(env, req, FinishedDrafts(env, req), i);
  }

  lemma FailedIsClosing(env: Env, req: Request, i: nat)
    ensures Closing(env, req, PublishAll(env, req, FailedDrafts(env, req), i).trace)
  {
    PublishedPrefix(env, req, FailedDrafts(env, req), i);
  }

  lemma EndingIsClosing(env: Env, req: Request, i: nat)
    ensures Closing(env, req, PublishAll(env, req, FinishedDrafts(env, req), i).trace)
    ensures Closing(env, req, PublishAll(env, req, FailedDrafts(env, req), i).trace)
  {
    FinishedIsClosing(env, req, i);
    FailedIsClosing(env, req, i);
  }

  lemma NotFinished(nodes: seq<Event>, rest: seq<Event>, p: nat)
    requires !HasFinished(nodes) && p < |nodes|
    ensures !(nodes + rest)[p].body.ExecutionFinished?
  {
    assert nodes[p] in nodes;
  }

  /** A finished event behind the steps has all of them before it. */
  lemma NamesBefore(nodes: seq<Event>, rest: seq<Event>, p: nat)
    requires !HasFinished(nodes) && NoSteps(rest)
    requires p < |nodes + rest| && (nodes + rest)[p].body.ExecutionFinished?
    ensures StepNames((nodes + rest)[..p]) == StepNames(nodes)
  {
    var n := |nodes|;
    if p < n {
      NotFinished(nodes, rest, p);
      assert false;
    }
    assert (nodes + rest)[..p] == nodes + rest[..p - n];
    StepNamesAppend(nodes, rest[..p - n]);
    NoStepNames(rest[..p - n]);
  }

  predicate NoSteps(trace: seq<Event>) {
    forall e :: e in trace ==> !e.body.StepCompleted?
  }

  lemma NodesPart(env: Env, req: Request)
    ensures var p := RunNodes(env, req, StepEmitter(env, req), Route(req.context.requireValidation), 0);
      && StepNames(p.trace) <= Names(Route(req.context.requireValidation))
      && (p.ok ==> StepNames(p.trace) == Names(Route(req.context.requireValidation)))
      && !HasFinished(p.trace)
  {
    EmitterIsWellShaped(env, req);
    NodesNames(env, req, StepEmitter(env, req), Route(req.context.requireValidation), 0);
    NodesHaveNoOutcome(env, req);
  }

  lemma EndingPart(fin: seq<Event>, fail: seq<Event>)
    requires NoSteps(fin) && NoSteps(fail) && !HasFinished(fail)
    ensures NoSteps(fin + fail) && (HasFinished(fin + fail) ==> fin != [])
  {
    OutcomesAppend(fin, fail);
  }

  lemma EndingHasNoSteps(env: Env, req: Request, i: nat)
    ensures NoSteps(PublishAll(env, req, FinishedDrafts(env, req), i).trace)
    ensures NoSteps(PublishAll(env, req, FailedDrafts(env, req), i).trace)
  {
    EndingIsClosing(env, req, i);
  }

  lemma FinishedPart(env: Env, req: Request, nodes: Published, fin: Published)
    requires fin == if nodes.ok then PublishAll(env, req, FinishedDrafts(env, req), nodes.next) else nodes.(trace := [])
    ensures NoSteps(fin.trace) && (fin.trace != [] ==> nodes.ok)
  {
    EndingHasNoSteps(env, req, nodes.next);
  }

  lemma FailedPart(env: Env, req: Request, fin: Published, fail: Published)
    requires fail == if fin.ok then fin.(trace := []) else PublishAll(env, req, FailedDrafts(env, req), fin.next)
    ensures NoSteps(fail.trace) && !HasFinished(fail.trace)
  {
    EndingHasNoSteps(env, req, fin.next);
    FailedIsNotFinished(env, req, fin.next);
  }

  lemma Regroup(a: seq<Event>, b: seq<Event>, c: seq<Event>)
    ensures a + (b + c) == a + b + c
  {
  }

  /** The steps of an attempt, and what follows them. */
  lemma StepsThenEnding(env: Env, req: Request) returns (steps: Published, rest: seq<Event>)
    requires env.enabled && env.builds
    ensures steps == RunNodes(env, req, StepEmitter(env, req), Route(req.context.requireValidation), 0)
    ensures RunWorkflow(env, req).trace == steps.trace + rest
    ensures NoSteps(rest) && (HasFinished(rest) ==> steps.ok)
  {
    var nodes, fin, fail := TraceParts(env, req);
    FinishedPart(env, req, nodes, fin);
    FailedPart(env, req, fin, fail);
    EndingPart(fin.trace, fail.trace);
    Regroup(nodes.trace, fin.trace, fail.trace);
    steps, rest := nodes, fin.trace + fail.trace;
  }

  /** The steps an attempt goes through, by name. */
  function Expected(requireValidation: bool): seq<Value> {
    if requireValidation then [Text("planner"), Text("tool_runner"), Text("validator"), Text("reviewer")]
    else [Text("planner"), Text("tool_runner"), Text("reviewer")]
  }

  lemma RouteNames(requireValidation: bool)
    ensures Names(Route(requireValidation)) == Expected(requireValidation)
  {
    var tail := Names([Validator, Reviewer]);
    assert Names([Reviewer]) == [Text("reviewer")] && tail == [Text("validator")] + Names([Reviewer]);
    assert Names([ToolRunner, Reviewer]) == [Text("tool_runner")] + Names([Reviewer]);
    assert Names([ToolRunner, Validator, Reviewer]) == [Text("tool_runner")] + tail;
  }

  /** Whatever raises and wherever, the step events of one attempt are a prefix of planner,
      tool_runner, validator when validation is required, reviewer; and a finished event has all of them
      before it. */
  lemma StepsFollowRoute(env: Env, req: Request)
    ensures var names, trace := Expected(req.context.requireValidation), RunWorkflow(env, req).trace;
      && StepNames(trace) <= names
      && forall p :: 0 <= p < |trace| && trace[p].body.ExecutionFinished? ==> StepNames(trace[..p]) == names
  {
    RouteNames(req.context.requireValidation);
    if env.enabled && env.builds {
      var steps, rest := StepsThenEnding(env, req);
      NodesPart(env, req);
      RouteBefore(steps.trace, rest, Names(Route(req.context.requireValidation)));
    }
  }

  // ------------------------------------------------------------------ what the events say

  /** From start to finish it takes the duration, to the nearest microsecond. */
  predicate Timed(start: Value, finish: Value, duration: Value) {
    && start.Instant? && finish.Instant? && duration.Num?
    && var gap := (finish.t - start.t) as real - 1000.0 * duration.n;
    -0.5 <= gap <= 0.5
  }

  /** A step row of this run by the agent that belongs to the step; validation only when required. */
  predicate ProperStep(req: Request, row: Row) {
    && Get(row, RunCol) == Text(req.run) && Get(row, StatusCol) == Status(Succeeded) && Get(row, TraceCol) == Text(req.traceId)
    && Timed(Get(row, StartedCol), Get(row, FinishedCol), Get(row, DurationCol))
    && match Get(row, StepNameCol)
       case Text("planner") => Get(row, AgentNameCol) == Text("planner-agent")
       case Text("tool_runner") => Get(row, AgentNameCol) == Text("tool-runner-agent")
       case Text("validator") => Get(row, AgentNameCol) == Text("validator-agent") && req.context.requireValidation
       case Text("reviewer") => Get(row, AgentNameCol) == Text("reviewer-agent")
       case _ => false
  }

  /** A cost is charged to the run and to the agent, workflow and environment it was started with. */
  predicate ProperCost(req: Request, row: Row) {
    && Get(row, RunCol) == Text(req.run) && Get(row, AgentCol) == req.context.agentId
    && Get(row, WorkflowCol) == req.context.workflowId && Get(row, EnvironmentCol) == req.context.environmentId
  }

  predicate Proper(env: Env, req: Request, b: Body) {
    match b
    case StepCompleted(step) => ProperStep(req, step)
    case CostRecorded(cost) => ProperCost(req, cost)
    case InferenceRecorded(run, _) => run == req.run
    case ExecutionFinished(run, o) => run == req.run && Get(o, OutputCol) == env.output && Get(o, ErrorCol) == Null && Get(o, FinishedCol) == Instant(env.now)
    case ExecutionFailed(run, o) => run == req.run && Get(o, OutputCol) == Null && Get(o, ErrorCol) == Text(env.error) && Get(o, FinishedCol) == Instant(env.now)
    case AuditRecorded(action, subject) => subject == req.run && (action.ExecutionFinish? || action.ExecutionFail?)
    case MetricRecorded(m, kind, id, _) => if m.StepDurationMs? || m.StepTokenUsage? then kind == "execution_step" && id == req.run else kind == "model"
    case _ => true
  }

  predicate ProperEvent(env: Env, req: Request, e: Event) {
    Proper(env, req, e.body) && e.correlationId == req.correlationId && e.traceId == req.traceId
  }

  predicate AllProper(env: Env, req: Request, ds: seq<Draft>) {
    forall k :: 0 <= k < |ds| ==> Proper(env, req, ds[k].body)
  }

  ghost predicate ProperEmitter(env: Env, req: Request, emit: Emitter) {
    forall n: Node, t: Telemetry, i: nat :: (n.Validator? ==> req.context.requireValidation) ==> AllProper(env, req, emit(n, t, i))
  }

  lemma StepRowIsProper(env: Env, req: Request, n: Node, t: Telemetry, i: nat)
    requires n.Validator? ==> req.context.requireValidation
    ensures ProperStep(req, StepRow(env, req, n, t, i))
  {
    assert Get(StepRow(env, req, n, t, i), StepNameCol) == Text(StepName(n));
  }

  lemma CostRowIsProper(env: Env, req: Request, t: Telemetry)
    ensures ProperCost(req, CostRow(env, req, t))
  {
  }

  lemma EmitterIsProper(env: Env, req: Request)
    ensures ProperEmitter(env, req, StepEmitter(env, req))
  {
    forall n: Node, t: Telemetry, i: nat | n.Validator? ==> req.context.requireValidation ensures AllProper(env, req, StepDrafts(env, req, n, t, i)) {
      StepRowIsProper(env, req, n, t, i);
      CostRowIsProper(env, req, t);
    }
  }

  lemma {:induction false} NodesAreProper(env: Env, req: Request, emit: Emitter, nodes: seq<Node>, i: nat)
    requires ProperEmitter(env, req, emit) && (Validator in nodes ==> req.context.requireValidation)
    ensures forall e :: e in RunNodes(env, req, emit, nodes, i).trace ==> ProperEvent(env, req, e)
  {
    if nodes != [] {
      var t := NodeTelemetry(env, nodes[0]);
      if t.Some? {
        var ds := emit(nodes[0], t.value, i);
        assert AllProper(env, req, ds);
        PublishedPrefix(env, req, ds, i);
        NodesAreProper(env, req, emit, nodes[1..], PublishAll(env, req, ds, i).next);
      }
    }
  }

  /** In every event an attempt publishes: a step carries its run and the agent name that belongs to
      its step name, a validator step appears only when validation is required, and costs and inference
      records are charged to the run with the context it was started with; outcomes carry the
      workflow's output or the error; and all carry the request's correlation and trace ids. */
  lemma EventsAreProper(env: Env, req: Request, e: Event)
    requires e in RunWorkflow(env, req).trace
    ensures ProperEvent(env, req, e)
  {
    var steps, fin, fail := TraceParts(env, req);
    EmitterIsProper(env, req);
    NodesAreProper(env, req, StepEmitter(env, req), Route(req.context.requireValidation), 0);
    PublishedPrefix(env, req, FinishedDrafts(env, req), steps.next);
    PublishedPrefix(env, req, FailedDrafts(env, req), fin.next);
  }

  /** All costs of one attempt share a partition: that of the agent, or of the run when there is none. */
  lemma CostsShareKey(env: Env, req: Request, e: Event)
    requires e in RunWorkflow(env, req).trace && e.body.CostRecorded? && req.run != ""
    ensures DefaultPartitionKey(e) == if req.context.agentId.Truthy() then req.context.agentId else Text(req.run)
  {
    EventsAreProper(env, req, e);
    PartitionKeyIs(e);
  }

  lemma RouteBefore(steps: seq<Event>, rest: seq<Event>, names: seq<Value>)
    requires !HasFinished(steps) && NoSteps(rest) && StepNames(steps) <= names && (HasFinished(rest) ==> StepNames(steps) == names)
    ensures StepNames(steps + rest) <= names
    ensures forall p :: 0 <= p < |steps + rest| && (steps + rest)[p].body.ExecutionFinished? ==> StepNames((steps + rest)[..p]) == names
  {
    StepNamesAppend(steps, rest);
    NoStepNames(rest);
    forall p | 0 <= p < |steps + rest| && (steps + rest)[p].body.ExecutionFinished? ensures StepNames((steps + rest)[..p]) == names {
      NamesBefore(steps, rest, p);
      OutcomesAppend(steps, rest);
      assert (steps + rest)[p] in steps + rest;
    }
  }

  lemma FailedIsNotFinished(env: Env, req: Request, i: nat)
    ensures !HasFinished(PublishAll(env, req, FailedDrafts(env, req), i).trace)
  {
    PublishedPrefix(env, req, FailedDrafts(env, req), i);
  }

  lemma {:induction false} NodesHaveNoLifecycle(env: Env, req: Request, emit: Emitter, nodes: seq<Node>, i: nat)
    requires WellShaped(emit)
    ensures forall e :: e in RunNodes(env, req, emit, nodes, i).trace ==> LifecycleRun(e.body).None? && !e.body.ExecutionStarted?
  {
    if nodes != [] {
      var t := NodeTelemetry(env, nodes[0]);
      if t.Some? {
        var ds := emit(nodes[0], t.value, i);
        assert StepShape(nodes[0], ds);
        PublishedPrefix(env, req, ds, i);
        NodesHaveNoLifecycle(env, req, emit, nodes[1..], PublishAll(env, req, ds, i).next);
      }
    }
  }

  // ------------------------------------------------------------------ terminal events

  ghost predicate HasTerminal(trace: seq<Event>, run: Id) {
    exists e :: e in trace && IsTerminal(e.body) && LifecycleRun(e.body) == Some(run)
  }

  lemma EndingPublished(env: Env, req: Request, ds: seq<Draft>, i: nat)
    requires |ds| == 2 && IsTerminal(ds[0].body) && LifecycleRun(ds[0].body) == Some(req.run)
    ensures PublishAll(env, req, ds, i).ok ==> HasTerminal(PublishAll(env, req, ds, i).trace, req.run)
    ensures PublishAll(env, req, ds, i).trace != [] ==> PublishAll(env, req, ds, i).trace[0].body == ds[0].body
  {
    PublishedPrefix(env, req, ds, i);
    var p := PublishAll(env, req, ds, i);
    if p.ok {
      assert p.trace[0] in p.trace;
    }
  }

  /** A normal return of `_run_workflow` leaves a finished or failed event of the run in the topic. */
  lemma ReturnPublishesTerminal(env: Env, req: Request)
    requires RunWorkflow(env, req).ok
    ensures HasTerminal(RunWorkflow(env, req).trace, req.run)
  {
    var nodes, fin, fail := TraceParts(env, req);
    EndingPublished(env, req, FinishedDrafts(env, req), nodes.next);
    EndingPublished(env, req, FailedDrafts(env, req), fin.next);
    var last := if fin.ok && nodes.ok then fin.trace else fail.trace;
    var e :| e in last && IsTerminal(e.body) && LifecycleRun(e.body) == Some(req.run);
    assert e in RunWorkflow(env, req).trace;
  }

  /** The workflow never publishes a started event, and its terminal events are about its own run,
      carry the run id as `entity_id` and state an outcome with the matching status. */
  lemma LifecycleOfTrace(env: Env, req: Request, e: Event)
    requires e in RunWorkflow(env, req).trace
    ensures !e.body.ExecutionStarted?
    ensures LifecycleRun(e.body).Some? ==> Concluding(e.body) && LifecycleRun(e.body) == Some(req.run) && e.entityId == req.run
  {
    var nodes, fin, fail := TraceParts(env, req);
    EmitterIsWellShaped(env, req);
    NodesHaveNoLifecycle(env, req, StepEmitter(env, req), Route(req.context.requireValidation), 0);
    EndingIsClosing(env, req, nodes.next);
    EndingIsClosing(env, req, fin.next);
  }

  predicate HasFinished(trace: seq<Event>) {
    exists e :: e in trace && e.body.ExecutionFinished?
  }

  predicate HasFailed(trace: seq<Event>) {
    exists e :: e in trace && e.body.ExecutionFailed?
  }

  lemma OutcomesAppend(a: seq<Event>, b: seq<Event>)
    ensures HasFinished(a + b) <==> HasFinished(a) || HasFinished(b)
    ensures HasFailed(a + b) <==> HasFailed(a) || HasFailed(b)
  {
    if HasFinished(a) { var e :| e in a && e.body.ExecutionFinished?; assert e in a + b; }
    if HasFinished(b) { var e :| e in b && e.body.ExecutionFinished?; assert e in a + b; }
    if HasFailed(a) { var e :| e in a && e.body.ExecutionFailed?; assert e in a + b; }
    if HasFailed(b) { var e :| e in b && e.body.ExecutionFailed?; assert e in a + b; }
  }

  lemma EndingOutcomes(env: Env, req: Request, ds: seq<Draft>, i: nat)
    requires |ds| == 2 && ds[1].body.AuditRecorded? && IsTerminal(ds[0].body)
    ensures Ends(env, PublishAll(env, req, ds, i), ds[0].body, i)
  {
    TwoDrafts(env, req, ds, i);
    var q := PublishAll(env, req, ds, i);
    if !env.faults(i).Lost? {
      assert q.trace[0] in q.trace && q.trace[0].body == ds[0].body;
    }
  }

  /** `q` is what became of publishing outcome `b` and its audit event from call `i` on. */
  ghost predicate Ends(env: Env, q: Published, b: Body, i: nat) {
    && (HasFinished(q.trace) <==> b.ExecutionFinished? && !env.faults(i).Lost?)
    && (HasFailed(q.trace) <==> b.ExecutionFailed? && !env.faults(i).Lost?)
    && q.ok == (env.faults(i).Fine? && env.faults(i + 1).Fine?)
    && q.next == if env.faults(i).Fine? then i + 2 else i + 1
  }

  lemma NodesHaveNoOutcome(env: Env, req: Request)
    ensures var trace := RunNodes(env, req, StepEmitter(env, req), Route(req.context.requireValidation), 0).trace;
      !HasFinished(trace) && !HasFailed(trace)
  {
    EmitterIsWellShaped(env, req);
    NodesHaveNoLifecycle(env, req, StepEmitter(env, req), Route(req.context.requireValidation), 0);
  }

  predicate TwoOutcomes(env: Env, i: nat) {
    || (env.faults(i).Landed? && !env.faults(i + 1).Lost?)
    || (env.faults(i).Fine? && !env.faults(i + 1).Fine? && !env.faults(i + 2).Lost?)
  }

  lemma BothOutcomesOf(env: Env, nodes: seq<Event>, fin: Published, fail: Published, finished: Body, failed: Body, i: nat)
    requires !HasFinished(nodes) && !HasFailed(nodes) && finished.ExecutionFinished? && failed.ExecutionFailed?
    requires Ends(env, fin, finished, i)
    requires if fin.ok then fail.trace == [] else Ends(env, fail, failed, fin.next)
    ensures HasFinished(nodes + fin.trace + fail.trace) && HasFailed(nodes + fin.trace + fail.trace) <==> TwoOutcomes(env, i)
  {
    OutcomesAppend(nodes, fin.trace);
    OutcomesAppend(nodes + fin.trace, fail.trace);
  }

  lemma {:induction false} PublishOkIff(env: Env, req: Request, ds: seq<Draft>, i: nat)
    ensures PublishAll(env, req, ds, i).ok <==> forall k :: i <= k < i + |ds| ==> env.faults(k).Fine?
    ensures PublishAll(env, req, ds, i).ok ==> PublishAll(env, req, ds, i).next == i + |ds|
  {
    if ds != [] {
      PublishOkIff(env, req, ds[1..], i + 1);
      assert (forall k :: i <= k < i + |ds| ==> env.faults(k).Fine?) <==>
        env.faults(i).Fine? && forall k :: i + 1 <= k < i + 1 + |ds[1..]| ==> env.faults(k).Fine?;
    }
  }

  /** How many events one step publishes. */
  const PER_STEP: nat := 8

  ghost predicate Sized(emit: Emitter) {
    forall n: Node, t: Telemetry, i: nat :: |emit(n, t, i)| == PER_STEP
  }

  lemma EmitterIsSized(env: Env, req: Request)
    ensures Sized(StepEmitter(env, req))
  {
    forall n: Node, t: Telemetry, i: nat ensures |StepDrafts(env, req, n, t, i)| == PER_STEP {}
  }

  predicate Answers(env: Env, nodes: seq<Node>) {
    forall n :: n in nodes ==> NodeTelemetry(env, n).Some?
  }

  lemma {:induction false} NodesOkIff(env: Env, req: Request, emit: Emitter, nodes: seq<Node>, i: nat)
    requires Sized(emit)
    ensures RunNodes(env, req, emit, nodes, i).ok <==> Answers(env, nodes) && forall k :: i <= k < i + PER_STEP * |nodes| ==> env.faults(k).Fine?
    ensures RunNodes(env, req, emit, nodes, i).ok ==> RunNodes(env, req, emit, nodes, i).next == i + PER_STEP * |nodes|
  {
    if nodes != [] {
      assert nodes == [nodes[0]] + nodes[1..];
      var t := NodeTelemetry(env, nodes[0]);
      if t.Some? {
        var ds := emit(nodes[0], t.value, i);
        PublishOkIff(env, req, ds, i);
        NodesOkIff(env, req, emit, nodes[1..], i + PER_STEP);
        assert i + PER_STEP + PER_STEP * |nodes[1..]| == i + PER_STEP * |nodes|;
      }
    }
  }

  /** Every step goes out: both model calls answer and no publish of a step event fails. */
  ghost predicate StepsGoOut(env: Env, req: Request) {
    && env.enabled && env.builds && env.gateway(Planner).Some? && env.gateway(Reviewer).Some?
    && forall k :: 0 <= k < PER_STEP * |Route(req.context.requireValidation)| ==> env.faults(k).Fine?
  }

  lemma StepsGoOutIff(env: Env, req: Request)
    ensures StepsGoOut(env, req) <==>
      env.enabled && env.builds && RunNodes(env, req, StepEmitter(env, req), Route(req.context.requireValidation), 0).ok
    ensures StepsGoOut(env, req) ==>
      RunNodes(env, req, StepEmitter(env, req), Route(req.context.requireValidation), 0).next == PER_STEP * |Route(req.context.requireValidation)|
  {
    EmitterIsSized(env, req);
    var route := Route(req.context.requireValidation);
    NodesOkIff(env, req, StepEmitter(env, req), route, 0);
    assert route[0] == Planner && route[|route| - 1] == Reviewer;
    assert Answers(env, route) <==> NodeTelemetry(env, Planner).Some? && NodeTelemetry(env, Reviewer).Some?;
  }

  /** One attempt publishes both outcomes exactly when every step goes out and then, counting publishes,
      the finished event takes effect, it or the audit event after it raises, and the failed event takes
      effect. */
  lemma BothOutcomesIff(env: Env, req: Request)
    ensures (HasFinished(RunWorkflow(env, req).trace) && HasFailed(RunWorkflow(env, req).trace)) <==>
      StepsGoOut(env, req) && TwoOutcomes(env, PER_STEP * |Route(req.context.requireValidation)|)
  {
    StepsGoOutIff(env, req);
    if env.enabled && env.builds {
      var nodes, fin, fail := TraceParts(env, req);
      NodesHaveNoOutcome(env, req);
      var ds, es := FinishedDrafts(env, req), FailedDrafts(env, req);
      EndingOutcomes(env, req, es, fin.next);
      if nodes.ok {
        EndingOutcomes(env, req, ds, nodes.next);
        BothOutcomesOf(env, nodes.trace, fin, fail, ds[0].body, es[0].body, nodes.next);
      } else {
        OutcomesAppend(nodes.trace, fin.trace);
        OutcomesAppend(nodes.trace + fin.trace, fail.trace);
      }
    }
  }

  /** Only the audit publish after the finished event is lost. */
  function AuditLost(req: Request): Env {
    var audit := PER_STEP * |Route(req.context.requireValidation)| + 1;
    Env(true, true, (n: Node) => Some(Telemetry(0, 0, 0.0, 0.0, "model", "provider")), (i: nat) => if i == audit then Lost else Fine,
        (i: nat) => "", (i: nat) => "", (n: Node) => 0.0, 0, Null, "")
  }

  /** It happens: an attempt in which nothing but the audit publish fails. */
  lemma BothOutcomesHappen(req: Request)
    ensures var p := RunWorkflow(AuditLost(req), req); p.ok && HasFinished(p.trace) && HasFailed(p.trace)
  {
    var env := AuditLost(req);
    StepsGoOutIff(env, req);
    BothOutcomesIff(env, req);
    var nodes, fin, fail := TraceParts(env, req);
    TwoDrafts(env, req, FinishedDrafts(env, req), nodes.next);
    TwoDrafts(env, req, FailedDrafts(env, req), fin.next);
  }

  lemma TwoDrafts(env: Env, req: Request, ds: seq<Draft>, i: nat)
    requires |ds| == 2
    ensures PublishAll(env, req, ds, i) ==
      if env.faults(i).Lost? then Published([], i + 1, false)
      else if env.faults(i).Landed? then Published([Stamped(env, req, ds[0], i)], i + 1, false)
      else if env.faults(i + 1).Lost? then Published([Stamped(env, req, ds[0], i)], i + 2, false)
      else Published([Stamped(env, req, ds[0], i), Stamped(env, req, ds[1], i + 1)], i + 2, env.faults(i + 1).Fine?)
  {
    assert ds[1..][1..] == [];
    assert PublishAll(env, req, ds[1..][1..], i + 2) == Published([], i + 2, true);
  }

  // ------------------------------------------------------------------ token accounting

  function Total(f: Body -> real, trace: seq<Event>): real {
    if trace == [] then 0.0 else f(trace[0].body) + Total(f, trace[1..])
  }

  function TotalOfDrafts(f: Body -> real, ds: seq<Draft>): real {
    if ds == [] then 0.0 else f(ds[0].body) + TotalOfDrafts(f, ds[1..])
  }

  lemma {:induction false} TotalAppends(f: Body -> real, a: seq<Event>, b: seq<Event>)
    ensures Total(f, a + b) == Total(f, a) + Total(f, b)
  {
    if a == [] {
      assert a + b == b;
    } else {
      TotalAppends(f, a[1..], b);
      assert (a + b)[1..] == a[1..] + b;
    }
  }

  lemma {:induction false} TotalPublished(f: Body -> real, env: Env, req: Request, ds: seq<Draft>, i: nat)
    requires PublishAll(env, req, ds, i).ok
    ensures Total(f, PublishAll(env, req, ds, i).trace) == TotalOfDrafts(f, ds)
  {
    if ds != [] {
      TotalPublished(f, env, req, ds[1..], i + 1);
      var e, rest := Stamped(env, req, ds[0], i), PublishAll(env, req, ds[1..], i + 1).trace;
      assert ([e] + rest)[1..] == rest;
    }
  }

  lemma {:induction false} NothingToTotal(f: Body -> real, trace: seq<Event>)
    requires forall e :: e in trace ==> f(e.body) == 0.0
    ensures Total(f, trace) == 0.0
  {
    if trace != [] { NothingToTotal(f, trace[1..]); }
  }

  lemma {:induction false} EightDrafts(f: Body -> real, ds: seq<Draft>)
    requires |ds| == 8
    ensures TotalOfDrafts(f, ds) ==
      f(ds[0].body) + f(ds[1].body) + f(ds[2].body) + f(ds[3].body) + f(ds[4].body) + f(ds[5].body) + f(ds[6].body) + f(ds[7].body)
  {
    assert ds[1..][1..] == ds[2..] && ds[2..][1..] == ds[3..] && ds[3..][1..] == ds[4..];
    assert ds[4..][1..] == ds[5..] && ds[5..][1..] == ds[6..] && ds[6..][1..] == ds[7..] && ds[7..][1..] == [];
    assert TotalOfDrafts(f, ds[7..]) == f(ds[7].body);
    assert TotalOfDrafts(f, ds[6..]) == f(ds[6].body) + TotalOfDrafts(f, ds[7..]);
    assert TotalOfDrafts(f, ds[5..]) == f(ds[5].body) + TotalOfDrafts(f, ds[6..]);
    assert TotalOfDrafts(f, ds[4..]) == f(ds[4].body) + TotalOfDrafts(f, ds[5..]);
    assert TotalOfDrafts(f, ds[3..]) == f(ds[3].body) + TotalOfDrafts(f, ds[4..]);
    assert TotalOfDrafts(f, ds[2..]) == f(ds[2].body) + TotalOfDrafts(f, ds[3..]);
    assert TotalOfDrafts(f, ds[1..]) == f(ds[1].body) + TotalOfDrafts(f, ds[2..]);
  }

  function MetricAmount(b: Body, m: MetricName): real {
    if b.MetricRecorded? && b.metric == m then b.amount else 0.0
  }

  function Amount(m: MetricName): Body -> real {
    (b: Body) => MetricAmount(b, m)
  }

  function AsNumber(v: Value): real {
    if v.Num? then v.n else 0.0
  }

  function CostTokens(b: Body): real {
    if b.CostRecorded? then AsNumber(Get(b.cost, TokenInCol)) + AsNumber(Get(b.cost, TokenOutCol)) else 0.0
  }

  predicate Balanced(trace: seq<Event>) {
    && Total(Amount(StepTokenUsage), trace) == Total(Amount(ModelTokenInput), trace) + Total(Amount(ModelTokenOutput), trace)
    && Total(CostTokens, trace) == Total(Amount(StepTokenUsage), trace)
  }

  lemma BalancedAppend(a: seq<Event>, b: seq<Event>)
    requires Balanced(a) && Balanced(b)
    ensures Balanced(a + b)
  {
    TotalAppends(Amount(StepTokenUsage), a, b);
    TotalAppends(Amount(ModelTokenInput), a, b);
    TotalAppends(Amount(ModelTokenOutput), a, b);
    TotalAppends(CostTokens, a, b);
  }

  lemma NodeBalanced(env: Env, req: Request, n: Node, ds: seq<Draft>, i: nat)
    requires StepShape(n, ds) && PublishAll(env, req, ds, i).ok
    ensures Balanced(PublishAll(env, req, ds, i).trace)
  {
    TotalPublished(Amount(StepTokenUsage), env, req, ds, i);
    TotalPublished(Amount(ModelTokenInput), env, req, ds, i);
    TotalPublished(Amount(ModelTokenOutput), env, req, ds, i);
    TotalPublished(CostTokens, env, req, ds, i);
  }

  lemma {:induction false} NodesBalanced(env: Env, req: Request, emit: Emitter, nodes: seq<Node>, i: nat)
    requires WellShaped(emit) && RunNodes(env, req, emit, nodes, i).ok
    ensures Balanced(RunNodes(env, req, emit, nodes, i).trace)
  {
    if nodes != [] {
      var t := NodeTelemetry(env, nodes[0]).value;
      var ds := emit(nodes[0], t, i);
      var p := PublishAll(env, req, ds, i);
      NodeBalanced(env, req, nodes[0], ds, i);
      NodesBalanced(env, req, emit, nodes[1..], p.next);
      BalancedAppend(p.trace, RunNodes(env, req, emit, nodes[1..], p.next).trace);
    }
  }

  lemma {:induction false} NodesPrefix(env: Env, req: Request, emit: Emitter, nodes: seq<Node>, k: nat, i: nat)
    requires k <= |nodes| && RunNodes(env, req, emit, nodes[..k], i).ok
    ensures RunNodes(env, req, emit, nodes[..k], i).trace <= RunNodes(env, req, emit, nodes, i).trace
  {
    if k > 0 {
      var t := NodeTelemetry(env, nodes[0]);
      assert nodes[..k][0] == nodes[0] && nodes[..k][1..] == nodes[1..][..k - 1];
      var p := PublishAll(env, req, emit(nodes[0], t.value, i), i);
      NodesPrefix(env, req, emit, nodes[1..], k - 1, p.next);
    }
  }

  /** At every step boundary of an attempt that gets that far, the step token usage published so far
      equals the model's input plus output tokens, and the tokens of the cost events. */
  lemma TokensBalanceAtBoundaries(env: Env, req: Request, k: nat)
    requires k <= |Route(req.context.requireValidation)| && env.enabled && env.builds
    requires RunNodes(env, req, StepEmitter(env, req), Route(req.context.requireValidation)[..k], 0).ok
    ensures var before := RunNodes(env, req, StepEmitter(env, req), Route(req.context.requireValidation)[..k], 0).trace;
      Balanced(before) && before <= RunWorkflow(env, req).trace
  {
    var emit, route := StepEmitter(env, req), Route(req.context.requireValidation);
    EmitterIsWellShaped(env, req);
    NodesBalanced(env, req, emit, route[..k], 0);
    NodesPrefix(env, req, emit, route, k, 0);
    var nodes, fin, fail := TraceParts(env, req);
  }

  // ------------------------------------------------------------------ what was reported is what was published

  /** The events of a step amount to what the telemetry says; those of an outcome to nothing. */
  ghost predicate Meters(f: Body -> real, g: Telemetry -> real, emit: Emitter) {
    && (forall n: Node, t: Telemetry, i: nat :: TotalOfDrafts(f, emit(n, t, i)) == g(t))
    && (forall b: Body :: b.ExecutionFinished? || b.ExecutionFailed? || b.AuditRecorded? ==> f(b) == 0.0)
  }

  function Reported(g: Telemetry -> real, env: Env, nodes: seq<Node>): real {
    if nodes == [] then 0.0
    else (if NodeTelemetry(env, nodes[0]).Some? then g(NodeTelemetry(env, nodes[0]).value) else 0.0) + Reported(g, env, nodes[1..])
  }

  lemma {:induction false} NodesMetered(f: Body -> real, g: Telemetry -> real, env: Env, req: Request, emit: Emitter, nodes: seq<Node>, i: nat)
    requires Meters(f, g, emit) && RunNodes(env, req, emit, nodes, i).ok
    ensures Total(f, RunNodes(env, req, emit, nodes, i).trace) == Reported(g, env, nodes)
  {
    if nodes != [] {
      var t := NodeTelemetry(env, nodes[0]).value;
      var p := PublishAll(env, req, emit(nodes[0], t, i), i);
      TotalPublished(f, env, req, emit(nodes[0], t, i), i);
      NodesMetered(f, g, env, req, emit, nodes[1..], p.next);
      TotalAppends(f, p.trace, RunNodes(env, req, emit, nodes[1..], p.next).trace);
    }
  }

  lemma ReportedOf(g: Telemetry -> real, env: Env, n: Node, rest: seq<Node>)
    ensures Reported(g, env, [n] + rest) == (if NodeTelemetry(env, n).Some? then g(NodeTelemetry(env, n).value) else 0.0) + Reported(g, env, rest)
  {
    assert ([n] + rest)[1..] == rest;
  }

  lemma RouteReports(g: Telemetry -> real, env: Env, validate: bool)
    requires env.gateway(Planner).Some? && env.gateway(Reviewer).Some?
    requires forall t: Telemetry :: t.tokenIn == 0 && t.tokenOut == 0 && t.costUsd == 0.0 ==> g(t) == 0.0
    ensures Reported(g, env, Route(validate)) == g(env.gateway(Planner).value) + g(env.gateway(Reviewer).value)
  {
    ReportedOf(g, env, Reviewer, []);
    ReportedOf(g, env, Validator, [Reviewer]);
    ReportedOf(g, env, ToolRunner, if validate then [Validator, Reviewer] else [Reviewer]);
    ReportedOf(g, env, Planner, if validate then [ToolRunner, Validator, Reviewer] else [ToolRunner, Reviewer]);
    assert [Validator] + [Reviewer] == [Validator, Reviewer];
    assert Route(validate) == [Planner] + if validate then [ToolRunner, Validator, Reviewer] else [ToolRunner, Reviewer];
    assert [ToolRunner] + [Validator, Reviewer] == [ToolRunner, Validator, Reviewer];
  }

  lemma EndingTotal(f: Body -> real, g: Telemetry -> real, emit: Emitter, env: Env, req: Request, i: nat)
    requires Meters(f, g, emit)
    ensures Total(f, PublishAll(env, req, FinishedDrafts(env, req), i).trace) == 0.0
    ensures Total(f, PublishAll(env, req, FailedDrafts(env, req), i).trace) == 0.0
  {
    var ds, es := FinishedDrafts(env, req), FailedDrafts(env, req);
    PublishedPrefix(env, req, ds, i);
    PublishedPrefix(env, req, es, i);
    NothingToTotal(f, PublishAll(env, req, ds, i).trace);
    NothingToTotal(f, PublishAll(env, req, es, i).trace);
  }

  function Charged(b: Body): real {
    if b.CostRecorded? then AsNumber(Get(b.cost, CostCol)) else 0.0
  }

  function TokensIn(t: Telemetry): real { t.tokenIn as real }

  function TokensOut(t: Telemetry): real { t.tokenOut as real }

  function Cost(t: Telemetry): real { t.costUsd }

  lemma EmitterMetersInput(env: Env, req: Request)
    ensures Meters(Amount(ModelTokenInput), TokensIn, StepEmitter(env, req))
  {
    forall n: Node, t: Telemetry, i: nat ensures TotalOfDrafts(Amount(ModelTokenInput), StepDrafts(env, req, n, t, i)) == TokensIn(t) {
      StepInput(env, req, n, t, i);
    }
  }

  lemma EmitterMetersOutput(env: Env, req: Request)
    ensures Meters(Amount(ModelTokenOutput), TokensOut, StepEmitter(env, req))
  {
    forall n: Node, t: Telemetry, i: nat ensures TotalOfDrafts(Amount(ModelTokenOutput), StepDrafts(env, req, n, t, i)) == TokensOut(t) {
      StepOutput(env, req, n, t, i);
    }
  }

  lemma EmitterCharges(env: Env, req: Request)
    ensures Meters(Charged, Cost, StepEmitter(env, req))
  {
    forall n: Node, t: Telemetry, i: nat ensures TotalOfDrafts(Charged, StepDrafts(env, req, n, t, i)) == Cost(t) {
      StepCharge(env, req, n, t, i);
    }
  }

  lemma FinishedNeedsSteps(env: Env, req: Request)
    requires HasFinished(RunWorkflow(env, req).trace)
    ensures env.enabled && env.builds
    ensures RunNodes(env, req, StepEmitter(env, req), Route(req.context.requireValidation), 0).ok
    ensures env.gateway(Planner).Some? && env.gateway(Reviewer).Some?
  {
    var steps, rest := StepsThenEnding(env, req);
    NodesHaveNoOutcome(env, req);
    OutcomesAppend(steps.trace, rest);
    StepsGoOutIff(env, req);
  }

  lemma FinishedTotals(f: Body -> real, g: Telemetry -> real, emit: Emitter, env: Env, req: Request)
    requires emit == StepEmitter(env, req) && Meters(f, g, emit) && HasFinished(RunWorkflow(env, req).trace)
    requires forall t: Telemetry :: t.tokenIn == 0 && t.tokenOut == 0 && t.costUsd == 0.0 ==> g(t) == 0.0
    ensures env.gateway(Planner).Some? && env.gateway(Reviewer).Some?
    ensures Total(f, RunWorkflow(env, req).trace) == g(env.gateway(Planner).value) + g(env.gateway(Reviewer).value)
  {
    FinishedNeedsSteps(env, req);
    var nodes, fin, fail := TraceParts(env, req);
    NodesMetered(f, g, env, req, emit, Route(req.context.requireValidation), 0);
    RouteReports(g, env, req.context.requireValidation);
    EndingTotal(f, g, emit, env, req, nodes.next);
    EndingTotal(f, g, emit, env, req, fin.next);
    TotalAppends(f, nodes.trace, fin.trace);
    TotalAppends(f, nodes.trace + fin.trace, fail.trace);
  }

  /** Conservation from the gateway to the topics: when an attempt publishes its finished event, the
      model token metrics and the costs of its whole trace are those of the two model calls, no more and
      no less; the local nodes add nothing. */
  lemma SpendIsConserved(env: Env, req: Request)
    requires HasFinished(RunWorkflow(env, req).trace)
    ensures env.gateway(Planner).Some? && env.gateway(Reviewer).Some?
    ensures var trace, p, r := RunWorkflow(env, req).trace, env.gateway(Planner).value, env.gateway(Reviewer).value;
      && Total(Amount(ModelTokenInput), trace) == (p.tokenIn + r.tokenIn) as real
      && Total(Amount(ModelTokenOutput), trace) == (p.tokenOut + r.tokenOut) as real
      && Total(Charged, trace) == p.costUsd + r.costUsd
  {
    var emit := StepEmitter(env, req);
    EmitterMetersInput(env, req);
    EmitterMetersOutput(env, req);
    EmitterCharges(env, req);
    FinishedTotals(Amount(ModelTokenInput), TokensIn, emit, env, req);
    FinishedTotals(Amount(ModelTokenOutput), TokensOut, emit, env, req);
    FinishedTotals(Charged, Cost, emit, env, req);
  }
}
