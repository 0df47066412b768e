/** The orchestration service as it runs: sequences of publishes on a shared publisher, proved against
    the trace functions of `Workflow`; and the command that starts an execution. */
module ExecutionService {
  import opened Events
  import opened Delivery
  import opened Publishing
  import opened StatusSafety
  import Confluence
  import W = Workflow

  // ------------------------------------------------------------------ the compiled graph

  /** `None` is the end of the graph. */
  function Edge(n: W.Node, requireValidation: bool): Option<W.Node> {
    match n
    case Planner => Some(W.ToolRunner)
    case ToolRunner => Some(if requireValidation then W.Validator else W.Reviewer)
    case Validator => Some(W.Reviewer)
    case Reviewer => None
  }

  function Rank(n: Option<W.Node>): nat {
    match n
    case None => 0
    case Some(m) => if m.Planner? then 4 else if m.ToolRunner? then 3 else if m.Validator? then 2 else 1
  }

  function Path(n: Option<W.Node>, requireValidation: bool): seq<W.Node>
    decreases Rank(n)
  {
    if n.None? then [] else [n.value] + Path(Edge(n.value, requireValidation), requireValidation)
  }

  function Visited(requireValidation: bool): seq<W.Node> {
    [W.Planner, W.ToolRunner] + (if requireValidation then [W.Validator] else []) + [W.Reviewer]
  }

  /** Following the edges from the entry point visits planner, tool runner, the validator exactly when
      validation is required, and the reviewer. */
  lemma PathIsRoute(requireValidation: bool)
    ensures Path(Some(W.Planner), requireValidation) == Visited(requireValidation) == W.Route(requireValidation)
  {
    assert Path(Some(W.Reviewer), requireValidation) == [W.Reviewer];
    assert Path(Some(W.Validator), requireValidation) == [W.Validator, W.Reviewer];
  }

  // ------------------------------------------------------------------ commands

  /** What a loaded deployment contributes to an execution; `hasEndpoint` when its model version
      and that version's endpoint are there. */
  datatype Deployment = Deployment(agentId: Option<Value>, agentGraph: Value, hasEndpoint: bool, environmentId: Value)

  datatype CreateRequest = CreateRequest(deploymentId: Value, graphId: Value, input: Value, requireValidation: bool)

  /** Ids, clock and request context at the time of the command. */
  datatype Caller = Caller(runId: Id, startedId: Id, auditId: Id, correlationId: Id, traceId: Id, now: Time, startedFault: Fault, auditFault: Fault)

  datatype Reply = MissingTarget | DeploymentNotFound | PublishFailed | Accepted(started: Event)

  function PythonOr(a: Value, b: Value): Value {
    if a.Truthy() then a else b
  }

  /** The graph the run is recorded with: the request's own, else the deployment's. */
  function ChosenGraph(req: CreateRequest, d: Option<Deployment>): Value {
    if req.deploymentId.Truthy() && d.Some? && d.value.agentId.Some? && d.value.agentGraph.Truthy()
    then PythonOr(req.graphId, d.value.agentGraph) else req.graphId
  }

  function Context(req: CreateRequest, d: Option<Deployment>): RuntimeContext {
    if req.deploymentId.Truthy() && d.Some? && d.value.hasEndpoint then
      RuntimeContext(req.requireValidation, if d.value.agentId.Some? then d.value.agentId.value else Null, ChosenGraph(req, d), d.value.environmentId)
    else RuntimeContext(req.requireValidation, Null, Null, Null)
  }

  function StartedEvent(req: CreateRequest, d: Option<Deployment>, k: Caller): Event {
    Event(k.startedId, k.runId, k.correlationId, k.traceId, ExecutionStarted(
      map[IdCol := Text(k.runId), DeploymentCol := req.deploymentId, GraphCol := ChosenGraph(req, d), StatusCol := Status(Running),
          InputCol := req.input, OutputCol := Null, StartedCol := Instant(k.now), FinishedCol := Null,
          CorrelationCol := Text(k.correlationId), TraceCol := Text(k.traceId), ErrorCol := Null],
      Context(req, d)))
  }

  /** The started event is one that confluence, status safety and the composed system ask for: every
      column of the run row, status running, and the run id as `entity_id`. */
  lemma StartedEventIsWellStated(req: CreateRequest, d: Option<Deployment>, k: Caller)
    ensures WellStated(StartedEvent(req, d, k)) && Confluence.FullRun(StartedEvent(req, d, k).body.run)
    ensures StartedEvent(req, d, k).entityId == k.runId && Starts(StartedEvent(req, d, k), k.runId)
  {
    assert StartedEvent(req, d, k).body.run.Keys == Confluence.RUN_COLUMNS;
  }

  /** What a started event records as the run's graph and deployment: the request's own graph whenever it
      names one, else the graph of the deployment's agent if the deployment is known and has one. Validation
      is as requested, and costs go to the deployment's agent and environment if its model is deployed. */
  lemma RequestGraphWins(req: CreateRequest, d: Option<Deployment>, k: Caller)
    ensures var run := StartedEvent(req, d, k).body.run;
      && Get(run, DeploymentCol) == req.deploymentId
      && (req.graphId.Truthy() ==> Get(run, GraphCol) == req.graphId)
      && (!req.graphId.Truthy() && req.deploymentId.Truthy() && d.Some? && d.value.agentId.Some? && d.value.agentGraph.Truthy() ==>
        Get(run, GraphCol) == d.value.agentGraph)
      && (!req.deploymentId.Truthy() || d.None? || d.value.agentId.None? || !d.value.agentGraph.Truthy() ==> Get(run, GraphCol) == req.graphId)
    ensures var run, context := StartedEvent(req, d, k).body.run, StartedEvent(req, d, k).body.context;
      && context.requireValidation == req.requireValidation
      && (req.deploymentId.Truthy() && d.Some? && d.value.hasEndpoint ==>
        context.workflowId == Get(run, GraphCol) && context.environmentId == d.value.environmentId &&
        context.agentId == if d.value.agentId.Some? then d.value.agentId.value else Null)
      && (!req.deploymentId.Truthy() || d.None? || !d.value.hasEndpoint ==>
        context.agentId == Null && context.workflowId == Null && context.environmentId == Null)
  {
  }

  predicate Admissible(req: CreateRequest, d: Option<Deployment>) {
    if req.deploymentId.Truthy() then d.Some? else req.graphId.Truthy()
  }

  /** What an admissible command leaves in the topics: nothing, the started event alone, or the
      started event and then its audit event. */
  function CommandEvents(req: CreateRequest, d: Option<Deployment>, k: Caller): seq<Event> {
    var started := StartedEvent(req, d, k);
    if k.startedFault.Lost? then []
    else if k.startedFault.Landed? || k.auditFault.Lost? then [started]
    else [started, Event(k.auditId, k.runId, k.correlationId, k.traceId, AuditRecorded(ExecutionStart, k.runId))]
  }

  /** The started event always comes first, the audit event never without it, and both are about the run
      of the reply. */
  lemma StartedComesFirst(req: CreateRequest, d: Option<Deployment>, k: Caller)
    ensures var es := CommandEvents(req, d, k);
      && |es| == (if k.startedFault.Lost? then 0 else if k.startedFault.Fine? && !k.auditFault.Lost? then 2 else 1)
      && (|es| > 0 ==> Starts(es[0], k.runId) && es[0].entityId == k.runId && Get(es[0].body.run, InputCol) == req.input)
      && (|es| > 1 ==> es[1].body == AuditRecorded(ExecutionStart, k.runId))
      && forall e :: e in es ==> e.correlationId == k.correlationId && e.traceId == k.traceId
  {
  }

  /** Publishing `ds` from call `i` on, begun at `start`, stands at draft `k` with `now` published. */
  ghost predicate Underway(env: W.Env, req: W.Request, ds: seq<W.Draft>, i: nat, start: seq<Event>, k: nat, now: seq<Event>) {
    && k <= |ds|
    && var whole, rest := W.PublishAll(env, req, ds, i), W.PublishAll(env, req, ds[k..], i + k);
    start + whole.trace == now + rest.trace && whole.next == rest.next && whole.ok == rest.ok
  }

  ghost predicate Over(env: W.Env, req: W.Request, ds: seq<W.Draft>, i: nat, start: seq<Event>, now: seq<Event>, next: nat, ok: bool) {
    now == start + W.PublishAll(env, req, ds, i).trace && next == W.PublishAll(env, req, ds, i).next && ok == W.PublishAll(env, req, ds, i).ok
  }

  /** The walk over `nodes`, begun at `start`, has the nodes `left` to go from call `i` on. */
  ghost predicate Walking(env: W.Env, req: W.Request, emit: W.Emitter, nodes: seq<W.Node>, start: seq<Event>, left: seq<W.Node>, i: nat, now: seq<Event>) {
    var whole, rest := W.RunNodes(env, req, emit, nodes, 0), W.RunNodes(env, req, emit, left, i);
    start + whole.trace == now + rest.trace && whole.next == rest.next && whole.ok == rest.ok
  }

  ghost predicate Walked(env: W.Env, req: W.Request, emit: W.Emitter, nodes: seq<W.Node>, i: nat, start: seq<Event>, now: seq<Event>, next: nat, ok: bool) {
    var p := W.RunNodes(env, req, emit, nodes, i);
    now == start + p.trace && next == p.next && ok == p.ok
  }

  lemma GatewayRaises(env: W.Env, req: W.Request, emit: W.Emitter, nodes: seq<W.Node>, start: seq<Event>, left: seq<W.Node>, i: nat, now: seq<Event>)
    requires Walking(env, req, emit, nodes, start, left, i, now)
    requires left != [] && W.NodeTelemetry(env, left[0]).None?
    ensures Walked(env, req, emit, nodes, 0, start, now, i, false)
  {
    assert now + [] == now;
  }

  lemma NodeEmitted(env: W.Env, req: W.Request, emit: W.Emitter, nodes: seq<W.Node>, start: seq<Event>, left: seq<W.Node>, i: nat,
                    before: seq<Event>, now: seq<Event>, next: nat, ok: bool)
    requires Walking(env, req, emit, nodes, start, left, i, before)
    requires left != [] && W.NodeTelemetry(env, left[0]).Some?
    requires Over(env, req, emit(left[0], W.NodeTelemetry(env, left[0]).value, i), i, before, now, next, ok)
    ensures if ok then Walking(env, req, emit, nodes, start, left[1..], next, now) else Walked(env, req, emit, nodes, 0, start, now, next, false)
  {
    var p := W.PublishAll(env, req, emit(left[0], W.NodeTelemetry(env, left[0]).value, i), i);
    if ok {
      var rest := W.RunNodes(env, req, emit, left[1..], next);
      assert before + (p.trace + rest.trace) == before + p.trace + rest.trace;
    }
  }

  class ExecutionCommandService {
    const publisher: Publisher
    var activeExecutions: int

    constructor (p: Publisher)
      ensures publisher == p && activeExecutions == 0
    {
      publisher, activeExecutions := p, 0;
    }

    /** Publishes the `k`-th of the drafts `ds`. */
    method PublishNext(env: W.Env, req: W.Request, d: W.Draft, i: nat, ghost ds: seq<W.Draft>, ghost start: seq<Event>, k: nat) returns (ok: bool)
      requires k < |ds| && d == ds[k] && Underway(env, req, ds, i, start, k, publisher.events)
      modifies publisher
      ensures ok ==> Underway(env, req, ds, i, start, k + 1, publisher.events)
      ensures !ok ==> Over(env, req, ds, i, start, publisher.events, i + k + 1, false)
    {
      ghost var before := publisher.events;
      assert ds[k..][0] == d && ds[k..][1..] == ds[k + 1..];
      var e := W.Stamped(env, req, d, i + k);
      ok := publisher.Publish(e, env.faults(i + k));
      ghost var rest := W.PublishAll(env, req, ds[k + 1..], i + k + 1);
      assert ok ==> before + ([e] + rest.trace) == before + [e] + rest.trace;
      assert before + [] == before;
    }

    /** `_publish_metric`, as the `k`-th of the drafts `ds`. */
    method PublishMetric(env: W.Env, req: W.Request, name: MetricName, entityType: string, entityId: Id, amount: real, i: nat,
                         ghost ds: seq<W.Draft>, ghost start: seq<Event>, k: nat) returns (ok: bool)
      requires k < |ds| && ds[k] == W.Metric(name, entityType, entityId, amount) && Underway(env, req, ds, i, start, k, publisher.events)
      modifies publisher
      ensures ok ==> Underway(env, req, ds, i, start, k + 1, publisher.events)
      ensures !ok ==> Over(env, req, ds, i, start, publisher.events, i + k + 1, false)
    {
      ok := PublishNext(env, req, W.Metric(name, entityType, entityId, amount), i, ds, start, k);
    }

    /** The first half of the step emitter: the step and its own metrics. */
    method EmitStepMetrics(env: W.Env, req: W.Request, n: W.Node, t: W.Telemetry, i: nat, ghost ds: seq<W.Draft>, ghost start: seq<Event>)
      returns (next: nat, ok: bool)
      requires |ds| == 8 && Underway(env, req, ds, i, start, 0, publisher.events)
      requires ds[0] == W.Draft(env.stepIds(i + 1), StepCompleted(W.StepRow(env, req, n, t, i)))
      requires ds[1] == W.Metric(StepDurationMs, "execution_step", req.run, env.duration(n))
      requires ds[2] == W.Metric(StepTokenUsage, "execution_step", req.run, (t.tokenIn + t.tokenOut) as real)
      modifies publisher
      ensures if ok then Underway(env, req, ds, i, start, 3, publisher.events) && next == i + 3
        else Over(env, req, ds, i, start, publisher.events, next, false)
    {
      ok := PublishNext(env, req, W.Draft(env.stepIds(i + 1), StepCompleted(W.StepRow(env, req, n, t, i))), i, ds, start, 0);
      if !ok { return i + 1, false; }
      ok := PublishMetric(env, req, StepDurationMs, "execution_step", req.run, env.duration(n), i, ds, start, 1);
      if !ok { return i + 2, false; }
      ok := PublishMetric(env, req, StepTokenUsage, "execution_step", req.run, (t.tokenIn + t.tokenOut) as real, i, ds, start, 2);
      return i + 3, ok;
    }

    /** The model metrics of the telemetry block. */
    method EmitModelMetrics(env: W.Env, req: W.Request, t: W.Telemetry, i: nat, ghost ds: seq<W.Draft>, ghost start: seq<Event>)
      returns (next: nat, ok: bool)
      requires |ds| == 8 && Underway(env, req, ds, i, start, 3, publisher.events)
      requires ds[3] == W.Metric(ModelLatencyMs, "model", t.modelName, t.latencyMs)
      requires ds[4] == W.Metric(ModelTokenInput, "model", t.modelName, t.tokenIn as real)
      requires ds[5] == W.Metric(ModelTokenOutput, "model", t.modelName, t.tokenOut as real)
      modifies publisher
      ensures if ok then Underway(env, req, ds, i, start, 6, publisher.events) && next == i + 6
        else Over(env, req, ds, i, start, publisher.events, next, false)
    {
      ok := PublishMetric(env, req, ModelLatencyMs, "model", t.modelName, t.latencyMs, i, ds, start, 3);
      if !ok { return i + 4, false; }
      ok := PublishMetric(env, req, ModelTokenInput, "model", t.modelName, t.tokenIn as real, i, ds, start, 4);
      if !ok { return i + 5, false; }
      ok := PublishMetric(env, req, ModelTokenOutput, "model", t.modelName, t.tokenOut as real, i, ds, start, 5);
      return i + 6, ok;
    }

    /** The inference and cost events of the telemetry block. */
    method EmitInferenceAndCost(env: W.Env, req: W.Request, t: W.Telemetry, i: nat, ghost ds: seq<W.Draft>, ghost start: seq<Event>)
      returns (next: nat, ok: bool)
      requires |ds| == 8 && Underway(env, req, ds, i, start, 6, publisher.events)
      requires ds[6] == W.Draft(req.run, InferenceRecorded(req.run, Text(t.modelName)))
      requires ds[7] == W.Draft(req.run, CostRecorded(W.CostRow(env, req, t)))
      modifies publisher
      ensures Over(env, req, ds, i, start, publisher.events, next, ok)
    {
      ok := PublishNext(env, req, W.Draft(req.run, InferenceRecorded(req.run, Text(t.modelName))), i, ds, start, 6);
      if !ok { return i + 7, false; }
      ok := PublishNext(env, req, W.Draft(req.run, CostRecorded(W.CostRow(env, req, t))), i, ds, start, 7);
      assert ds[8..] == [];
      return i + 8, ok;
    }

    /** The step emitter: step, two step metrics, three model metrics, inference, cost. */
    method EmitStep(env: W.Env, req: W.Request, n: W.Node, t: W.Telemetry, i: nat, ghost ds: seq<W.Draft>) returns (next: nat, ok: bool)
      requires ds == W.StepDrafts(env, req, n, t, i)
      modifies publisher
      ensures Over(env, req, ds, i, old(publisher.events), publisher.events, next, ok)
    {
      ghost var start := publisher.events;
      assert ds[0..] == ds;
      next, ok := EmitStepMetrics(env, req, n, t, i, ds, start);
      if ok { next, ok := EmitModelMetrics(env, req, t, i, ds, start); }
      if ok { next, ok := EmitInferenceAndCost(env, req, t, i, ds, start); }
    }

    /** `graph.ainvoke`: node after node along the edges. */
    method Invoke(env: W.Env, req: W.Request, ghost emit: W.Emitter) returns (next: nat, ok: bool)
      requires forall n: W.Node, t: W.Telemetry, i: nat :: emit(n, t, i) == W.StepDrafts(env, req, n, t, i)
      modifies publisher
      ensures Walked(env, req, emit, Visited(req.context.requireValidation), 0, old(publisher.events), publisher.events, next, ok)
    {
      var validate := req.context.requireValidation;
      var node := Some(W.Planner);
      next := 0;
      PathIsRoute(validate);
      ghost var start := publisher.events;
      while node.Some?
        invariant Walking(env, req, emit, W.Route(validate), start, Path(node, validate), next, publisher.events)
        decreases Rank(node)
      {
        ghost var path, before, i := Path(node, validate), publisher.events, next;
        assert path[1..] == Path(Edge(node.value, validate), validate);
        var telemetry := W.NodeTelemetry(env, node.value);
        if telemetry.None? {
          GatewayRaises(env, req, emit, W.Route(validate), start, path, next, publisher.events);
          return next, false;
        }
        ghost var ds := emit(node.value, telemetry.value, next);
        next, ok := EmitStep(env, req, node.value, telemetry.value, next, ds);
        NodeEmitted(env, req, emit, W.Route(validate), start, path, i, before, publisher.events, next, ok);
        if !ok { return; }
        node := Edge(node.value, validate);
      }
      return next, true;
    }

    /** The outcome event and its audit event. */
    method PublishOutcome(env: W.Env, req: W.Request, outcome: Body, action: AuditAction, i: nat) returns (next: nat, ok: bool)
      modifies publisher
      ensures Over(env, req, [W.Draft(req.run, outcome), W.Draft(req.run, AuditRecorded(action, req.run))], i,
                   old(publisher.events), publisher.events, next, ok)
    {
      ghost var ds, start := [W.Draft(req.run, outcome), W.Draft(req.run, AuditRecorded(action, req.run))], publisher.events;
      assert ds[0..] == ds;
      ok := PublishNext(env, req, W.Draft(req.run, outcome), i, ds, start, 0);
      if !ok { return i + 1, false; }
      ok := PublishNext(env, req, W.Draft(req.run, AuditRecorded(action, req.run)), i, ds, start, 1);
      if !ok { return i + 2, false; }
      assert ds[2..] == [];
      return i + 2, true;
    }

    /** The `try` block of `_run_workflow`. */
    method Attempt(env: W.Env, req: W.Request) returns (next: nat, ok: bool)
      modifies publisher
      ensures var p := W.Attempt(env, req);
        publisher.events == old(publisher.events) + p.trace && next == p.next && ok == p.ok
    {
      next, ok := Invoke(env, req, W.StepEmitter(env, req));
      PathIsRoute(req.context.requireValidation);
      if ok {
        next, ok := PublishOutcome(env, req, ExecutionFinished(req.run, map[
          StatusCol := Status(Succeeded), OutputCol := env.output, FinishedCol := Instant(env.now), ErrorCol := Null]), ExecutionFinish, next);
      }
    }

    /** `_run_workflow`; the gauge of active executions is conserved however the attempt ends, and is one
        too high for good when building the workflow raises, which happens before the `try`. */
    method RunWorkflow(env: W.Env, req: W.Request) returns (ok: bool)
      modifies this, publisher
      ensures publisher.events == old(publisher.events) + W.RunWorkflow(env, req).trace
      ensures ok == W.RunWorkflow(env, req).ok
      ensures activeExecutions == old(activeExecutions) + if env.enabled && !env.builds then 1 else 0
    {
      if !env.enabled { return false; }
      activeExecutions := activeExecutions + 1;
      if !env.builds { return false; }
      var next;
      next, ok := Attempt(env, req);
      if !ok {
        next, ok := PublishOutcome(env, req, ExecutionFailed(req.run, map[
          StatusCol := Status(Failed), OutputCol := Null, FinishedCol := Instant(env.now), ErrorCol := Text(env.error)]), ExecutionFail, next);
      }
      activeExecutions := activeExecutions - 1;
    }

    /** `create_execution` where the workflow runs in the execution workers. A refused command
        publishes nothing; an accepted one has published its started event, then its audit event. */
    method CreateExecution(req: CreateRequest, loaded: Option<Deployment>, k: Caller) returns (reply: Reply)
      modifies publisher
      ensures reply.MissingTarget? <==> !req.deploymentId.Truthy() && !req.graphId.Truthy()
      ensures reply.DeploymentNotFound? <==> req.deploymentId.Truthy() && loaded.None?
      ensures reply.Accepted? <==> Admissible(req, loaded) && k.startedFault.Fine? && k.auditFault.Fine?
      ensures reply.Accepted? ==> reply.started == StartedEvent(req, loaded, k)
      ensures publisher.events == old(publisher.events) + if Admissible(req, loaded) then CommandEvents(req, loaded, k) else []
    {
      if !req.deploymentId.Truthy() && !req.graphId.Truthy() { return MissingTarget; }
      var context, graph := RuntimeContext(req.requireValidation, Null, Null, Null), req.graphId;
      if req.deploymentId.Truthy() {
        if loaded.None? { return DeploymentNotFound; }
        var d := loaded.value;
        if d.agentId.Some? && d.agentGraph.Truthy() { graph := PythonOr(graph, d.agentGraph); }
        if d.hasEndpoint {
          context := RuntimeContext(req.requireValidation, if d.agentId.Some? then d.agentId.value else Null, graph, d.environmentId);
        }
      }
      var row := map[
        IdCol := Text(k.runId), DeploymentCol := req.deploymentId, GraphCol := graph, StatusCol := Status(Running),
        InputCol := req.input, OutputCol := Null, StartedCol := Instant(k.now), FinishedCol := Null,
        CorrelationCol := Text(k.correlationId), TraceCol := Text(k.traceId), ErrorCol := Null];
      var started := Event(k.startedId, k.runId, k.correlationId, k.traceId, ExecutionStarted(row, context));
      var ok := publisher.Publish(started, k.startedFault);
      if !ok { return PublishFailed; }
      ok := publisher.Publish(Event(k.auditId, k.runId, k.correlationId, k.traceId, AuditRecorded(ExecutionStart, k.runId)), k.auditFault);
      return if ok then Accepted(started) else PublishFailed;
    }
  }
}
