/** The wire contract shared by every module: values, row payloads, the event envelope,
    the topics, and the partition key that decides which events keep their relative order. */
module Events {

  type Id = string

  /** Microseconds since an arbitrary epoch. */
  type Time = int

  datatype Option<+T> = None | Some(value: T)

  datatype ExecutionStatus = Pending | Running | Succeeded | Failed

  /** Dynamic payload values. `Stamp(t)` is the ISO-8601 text of the instant `t`. */
  datatype Value =
    | Null
    | Bool(b: bool)
    | Num(n: real)
    | Text(s: string)
    | Instant(t: Time)
    | Stamp(at: Time)
    | Status(status: ExecutionStatus)
    | List(items: seq<Value>)
    | Tuple(parts: seq<Value>)
    | Dict(entries: map<string, Value>)
  {
    /** Python truthiness. */
    predicate Truthy() {
      match this
      case Null => false
      case Bool(b) => b
      case Num(n) => n != 0.0
      case Text(s) => s != ""
      case List(items) => items != []
      case Tuple(parts) => parts != []
      case Dict(entries) => entries != map[]
      case _ => true
    }
  }

  /** Column names of the read-model tables that carry links or lifecycle state. */
  datatype Column =
    | IdCol | DeploymentCol | GraphCol | StatusCol | InputCol | OutputCol | StartedCol | FinishedCol
    | CorrelationCol | TraceCol | ErrorCol
    | RunCol | AgentNameCol | StepNameCol | DurationCol | TokensCol
    | AgentCol | WorkflowCol | EnvironmentCol | CostCol | TokenInCol | TokenOutCol | ProviderCol
    | ModelNameCol | OccurredCol
    | SeverityCol | DedupeCol | SourceEventCol | TitleCol | DescriptionCol | LastSentCol
    | OtherCol(name: string)

  type Row = map<Column, Value>

  /** `payload.get(column)` */
  function Get(row: Row, c: Column): Value {
    if c in row then row[c] else Null
  }

  /** The part of `runtime_context` that the workflow branches on or attributes costs to. */
  datatype RuntimeContext = RuntimeContext(requireValidation: bool, agentId: Value, workflowId: Value, environmentId: Value)

  datatype MetricName =
    | StepDurationMs | StepTokenUsage | ModelLatencyMs | ModelTokenInput | ModelTokenOutput
    | OtherMetric(name: string)

  datatype AuditAction = ExecutionStart | ExecutionFinish | ExecutionFail | OtherAction(name: string)

  datatype Body =
    | DeploymentCreated(deployment: Row)
    | DeploymentUpdated(deploymentId: Id, deploymentChanges: Row)
    | DeploymentDeleted(deletedDeployment: Id)
    | GraphCreated(graph: Row)
    | GraphUpdated(graphId: Id, graphChanges: Row)
    | GraphDeleted(deletedGraph: Id)
    | ExecutionStarted(run: Row, context: RuntimeContext)
    | ExecutionFinished(finishedRun: Id, outcome: Row)
    | ExecutionFailed(failedRun: Id, failure: Row)
    | StepCompleted(step: Row)
    | MetricRecorded(metric: MetricName, entityType: string, measured: Id, amount: real)
    | InferenceRecorded(inferenceRun: Id, modelName: Value)
    | CostRecorded(cost: Row)
    | AlertCreated(alert: Row)
    | AlertUpdated(update: Row)
    | AuditRecorded(action: AuditAction, subject: Id)
    | OtherBody(eventType: string)

  datatype Event = Event(eventId: Id, entityId: Id, correlationId: Id, traceId: Id, body: Body)

  datatype Topic =
    | AgentExecutions | AgentSteps | SystemMetrics | ModelInference | CostEvents
    | AlertsEvents | AuditEvents | RegistryEvents | OtherTopic(name: string)

  /** The topic every producer in the modelled modules publishes a given body to. */
  function TopicOf(b: Body): Topic {
    match b
    case DeploymentCreated(_) => RegistryEvents
    case DeploymentUpdated(_, _) => RegistryEvents
    case DeploymentDeleted(_) => RegistryEvents
    case GraphCreated(_) => RegistryEvents
    case GraphUpdated(_, _) => RegistryEvents
    case GraphDeleted(_) => RegistryEvents
    case ExecutionStarted(_, _) => AgentExecutions
    case ExecutionFinished(_, _) => AgentExecutions
    case ExecutionFailed(_, _) => AgentExecutions
    case StepCompleted(_) => AgentSteps
    case MetricRecorded(_, _, _, _) => SystemMetrics
    case InferenceRecorded(_, _) => ModelInference
    case CostRecorded(_) => CostEvents
    case AlertCreated(_) => AlertsEvents
    case AlertUpdated(_) => AlertsEvents
    case AuditRecorded(_, _) => AuditEvents
    case OtherBody(t) => OtherTopic(t)
  }

  datatype KeyName = AgentKey | ModelKey | DeploymentKey | RunKey

  /** `event.payload.get(key_name)`: only top-level payload entries are consulted, so the ids
      nested inside `execution_run`, `execution_step`, `deployment` or `alert` are invisible here. */
  function PayloadEntry(b: Body, k: KeyName): Value {
    match (b, k)
    case (CostRecorded(row), AgentKey) => Get(row, AgentCol)
    case (CostRecorded(row), RunKey) => Get(row, RunCol)
    case (DeploymentUpdated(d, _), DeploymentKey) => Text(d)
    case (DeploymentDeleted(d), DeploymentKey) => Text(d)
    case (ExecutionFinished(r, _), RunKey) => Text(r)
    case (ExecutionFailed(r, _), RunKey) => Text(r)
    case (InferenceRecorded(r, _), RunKey) => Text(r)
    case _ => Null
  }

  function FirstKey(b: Body, names: seq<KeyName>): Option<Value> {
    if names == [] then None
    else if PayloadEntry(b, names[0]).Truthy() then Some(PayloadEntry(b, names[0]))
    else FirstKey(b, names[1..])
  }

  const KEY_ORDER: seq<KeyName> := [AgentKey, ModelKey, DeploymentKey, RunKey]

  function DefaultPartitionKey(e: Event): Value {
    match FirstKey(e.body, KEY_ORDER)
    case Some(v) => v
    case None => Text(e.entityId)
  }

  /** The run a lifecycle event (started, finished, failed) speaks about. */
  function LifecycleRun(b: Body): Option<Id> {
    match b
    case ExecutionStarted(row, _) => (match Get(row, IdCol) case Text(r) => Some(r) case _ => None)
    case ExecutionFinished(r, _) => Some(r)
    case ExecutionFailed(r, _) => Some(r)
    case _ => None
  }

  predicate IsTerminal(b: Body) {
    b.ExecutionFinished? || b.ExecutionFailed?
  }

  /** The outcome columns of a terminal event, with the status that goes with its type. */
  predicate Concluding(b: Body) {
    match b
    case ExecutionFinished(_, o) => {StatusCol, OutputCol, FinishedCol} <= o.Keys && o[StatusCol] == Status(Succeeded)
    case ExecutionFailed(_, o) => {StatusCol, OutputCol, FinishedCol} <= o.Keys && o[StatusCol] == Status(Failed)
    case _ => false
  }

  /** Lifecycle events as the orchestration service builds them: `entity_id` is the run id. */
  predicate LifecycleShape(e: Event) {
    LifecycleRun(e.body) == Some(e.entityId)
  }

  /** Where each body keeps an entry the partition key is taken from: a cost goes by its agent, else its
      run; everything without such an entry goes by `entity_id`. */
  lemma PartitionKeyIs(e: Event)
    ensures DefaultPartitionKey(e) ==
      match e.body
      case CostRecorded(cost) =>
        if Get(cost, AgentCol).Truthy() then Get(cost, AgentCol) else if Get(cost, RunCol).Truthy() then Get(cost, RunCol) else Text(e.entityId)
      case DeploymentUpdated(d, _) => if d != "" then Text(d) else Text(e.entityId)
      case DeploymentDeleted(d) => if d != "" then Text(d) else Text(e.entityId)
      case ExecutionFinished(r, _) => if r != "" then Text(r) else Text(e.entityId)
      case ExecutionFailed(r, _) => if r != "" then Text(r) else Text(e.entityId)
      case InferenceRecorded(r, _) => if r != "" then Text(r) else Text(e.entityId)
      case _ => Text(e.entityId)
  {
    FourKeys(e.body);
  }

  lemma FourKeys(b: Body)
    ensures FirstKey(b, KEY_ORDER) ==
      if PayloadEntry(b, AgentKey).Truthy() then Some(PayloadEntry(b, AgentKey))
      else if PayloadEntry(b, ModelKey).Truthy() then Some(PayloadEntry(b, ModelKey))
      else if PayloadEntry(b, DeploymentKey).Truthy() then Some(PayloadEntry(b, DeploymentKey))
      else if PayloadEntry(b, RunKey).Truthy() then Some(PayloadEntry(b, RunKey))
      else None
  {
    FirstOf(b, AgentKey, [ModelKey, DeploymentKey, RunKey]);
    FirstOf(b, ModelKey, [DeploymentKey, RunKey]);
    FirstOf(b, DeploymentKey, [RunKey]);
    FirstOf(b, RunKey, []);
    assert KEY_ORDER == [AgentKey] + [ModelKey, DeploymentKey, RunKey];
    assert [ModelKey] + [DeploymentKey, RunKey] == [ModelKey, DeploymentKey, RunKey];
    assert [DeploymentKey] + [RunKey] == [DeploymentKey, RunKey];
    assert [RunKey] + [] == [RunKey];
  }

  lemma FirstOf(b: Body, k: KeyName, rest: seq<KeyName>)
    ensures FirstKey(b, [k] + rest) == if PayloadEntry(b, k).Truthy() then Some(PayloadEntry(b, k)) else FirstKey(b, rest)
  {
    assert ([k] + rest)[1..] == rest;
  }

  /** Every lifecycle event of one run gets the same key, whether the run id is found under
      `execution_run_id` (terminal events) or only as `entity_id` (started events). */
  lemma LifecycleKey(e: Event)
    requires LifecycleShape(e)
    ensures DefaultPartitionKey(e) == Text(e.entityId)
    ensures TopicOf(e.body) == AgentExecutions
  {
    PartitionKeyIs(e);
  }
}
