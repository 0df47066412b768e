/** The read-model projection: what `ProjectionService.apply` does to the tables that carry links
    or lifecycle state. Handlers of other event types write other tables and are identities here. */
module Projector {
  import opened Events

  datatype Table = Deployments | Graphs | Runs | Steps | Costs | Alerts

  datatype Tables = Tables(
    deployments: map<Id, Row>,
    graphs: map<Id, Row>,
    runs: map<Id, Row>,
    steps: map<Id, Row>,
    costs: map<Id, Row>,
    alerts: map<Id, Row>)
  {
    function Rows(t: Table): map<Id, Row> {
      match t
      case Deployments => deployments
      case Graphs => graphs
      case Runs => runs
      case Steps => steps
      case Costs => costs
      case Alerts => alerts
    }

    function With(t: Table, rows: map<Id, Row>): Tables {
      match t
      case Deployments => this.(deployments := rows)
      case Graphs => this.(graphs := rows)
      case Runs => this.(runs := rows)
      case Steps => this.(steps := rows)
      case Costs => this.(costs := rows)
      case Alerts => this.(alerts := rows)
    }
  }

  // ------------------------------------------------------------------ json_safe

  function JsonSafe(v: Value): Value {
    match v
    case Instant(t) => Stamp(t)
    case Dict(entries) => Dict(map k | k in entries :: JsonSafe(entries[k]))
    case List(items) => List(seq(|items|, i requires 0 <= i < |items| => JsonSafe(items[i])))
    case Tuple(parts) => List(seq(|parts|, i requires 0 <= i < |parts| => JsonSafe(parts[i])))
    case _ => v
  }

  /** No instants and no tuples at any depth. */
  predicate IsJson(v: Value) {
    match v
    case Instant(_) => false
    case Tuple(_) => false
    case Dict(entries) => forall k :: k in entries ==> IsJson(entries[k])
    case List(items) => forall i :: 0 <= i < |items| ==> IsJson(items[i])
    case _ => true
  }

  lemma {:induction false} JsonSafeIsJson(v: Value)
    ensures IsJson(JsonSafe(v))
  {
    match v
    case Dict(entries) =>
      forall k | k in entries ensures IsJson(JsonSafe(entries[k])) { JsonSafeIsJson(entries[k]); }
    case List(items) =>
      forall i | 0 <= i < |items| ensures IsJson(JsonSafe(items[i])) { JsonSafeIsJson(items[i]); }
    case Tuple(parts) =>
      forall i | 0 <= i < |parts| ensures IsJson(JsonSafe(parts[i])) { JsonSafeIsJson(parts[i]); }
    case _ =>
  }

  /** Values that are JSON already are stored as they are, so normalising twice is normalising once. */
  lemma {:induction false} JsonSafeKeepsJson(v: Value)
    requires IsJson(v)
    ensures JsonSafe(v) == v
  {
    match v
    case Dict(entries) =>
      forall k | k in entries ensures JsonSafe(entries[k]) == entries[k] { JsonSafeKeepsJson(entries[k]); }
      assert (map k | k in entries :: JsonSafe(entries[k])) == entries;
    case List(items) =>
      forall i | 0 <= i < |items| ensures JsonSafe(items[i]) == items[i] { JsonSafeKeepsJson(items[i]); }
      assert seq(|items|, i requires 0 <= i < |items| => JsonSafe(items[i])) == items;
    case _ =>
  }

  datatype Hop = Key(k: string) | Item(i: nat)

  /** The value at the end of a path, if the path exists. */
  function Look(v: Value, path: seq<Hop>): Option<Value> {
    if path == [] then Some(v)
    else
      match (v, path[0])
      case (Dict(entries), Key(k)) => if k in entries then Look(entries[k], path[1..]) else None
      case (List(items), Item(i)) => if i < |items| then Look(items[i], path[1..]) else None
      case (Tuple(parts), Item(i)) => if i < |parts| then Look(parts[i], path[1..]) else None
      case _ => None
  }

  /** Nothing is lost or moved: exactly the same paths exist, an instant becomes its ISO text, and
      everything that is JSON already is found unchanged where it was. */
  lemma {:induction false} JsonSafeKeepsPaths(v: Value, path: seq<Hop>)
    ensures Look(JsonSafe(v), path).Some? <==> Look(v, path).Some?
    ensures Look(v, path).Some? && Look(v, path).value.Instant? ==> Look(JsonSafe(v), path) == Some(Stamp(Look(v, path).value.t))
    ensures Look(v, path).Some? && IsJson(Look(v, path).value) ==> Look(JsonSafe(v), path) == Look(v, path)
  {
    if path == [] {
      if IsJson(v) { JsonSafeKeepsJson(v); }
    } else {
      match (v, path[0])
      case (Dict(entries), Key(k)) => if k in entries { JsonSafeKeepsPaths(entries[k], path[1..]); }
      case (List(items), Item(i)) => if i < |items| { JsonSafeKeepsPaths(items[i], path[1..]); }
      case (Tuple(parts), Item(i)) => if i < |parts| { JsonSafeKeepsPaths(parts[i], path[1..]); }
      case _ =>
    }
  }

  /** Top-level instants stay instants (they become timestamp columns); containers are normalised. */
  function Normal(v: Value): Value {
    if v.Dict? || v.List? || v.Tuple? then JsonSafe(v) else v
  }

  function Normalised(payload: Row): (row: Row)
    ensures row.Keys == payload.Keys
    ensures forall c :: c in payload && !payload[c].Dict? && !payload[c].List? && !payload[c].Tuple? ==> row[c] == payload[c]
  {
    map c | c in payload :: Normal(payload[c])
  }

  // ------------------------------------------------------------------ _upsert, _update, _delete

  /** The row `_upsert` leaves behind: the payload is the new row, or is laid over the old one. */
  function NewRow(rows: map<Id, Row>, id: Id, payload: Row): Row {
    if id in rows then rows[id] + Normalised(payload) else Normalised(payload)
  }

  /** `_upsert`: a missing or non-text id raises. */
  function Upsert(db: Tables, t: Table, payload: Row): Option<Tables> {
    match Get(payload, IdCol)
    case Text(id) => Some(db.With(t, db.Rows(t)[id := NewRow(db.Rows(t), id, payload)]))
    case _ => None
  }

  /** `_update`: absent rows are ignored. */
  function Update(db: Tables, t: Table, id: Id, changes: Row): Tables {
    if id in db.Rows(t) then db.With(t, db.Rows(t)[id := db.Rows(t)[id] + Normalised(changes)]) else db
  }

  function UnlinkRow(row: Row, c: Column, id: Id): Row {
    if Get(row, c) == Text(id) then row[c := Null] else row
  }

  /** `ON DELETE SET NULL` on one column. */
  function Unlink(rows: map<Id, Row>, c: Column, id: Id): map<Id, Row> {
    map k | k in rows :: UnlinkRow(rows[k], c, id)
  }

  function DeleteDeployment(db: Tables, id: Id): Tables {
    if id in db.deployments then db.(deployments := db.deployments - {id}, runs := Unlink(db.runs, DeploymentCol, id)) else db
  }

  function DeleteGraph(db: Tables, id: Id): Tables {
    if id in db.graphs then db.(graphs := db.graphs - {id}, runs := Unlink(db.runs, GraphCol, id)) else db
  }

  /** `_resolve_fk_or_none` */
  function Resolve(rows: map<Id, Row>, link: Value): Value {
    if link.Text? && link.s != "" && link.s in rows then link else Null
  }

  // ------------------------------------------------------------------ handlers

  /** A lookup with default: the entry is present afterwards. */
  function Defaulted(row: Row, c: Column): Row {
    row[c := Get(row, c)]
  }

  function StartedRow(db: Tables, run: Row): Row {
    Defaulted(Defaulted(run, StartedCol), FinishedCol)
      [DeploymentCol := Resolve(db.deployments, Get(run, DeploymentCol))]
      [GraphCol := Resolve(db.graphs, Get(run, GraphCol))]
  }

  predicate HasOutcome(outcome: Row) {
    StatusCol in outcome && OutputCol in outcome && FinishedCol in outcome
  }

  function OutcomeChanges(outcome: Row): Row
    requires HasOutcome(outcome)
  {
    map[StatusCol := outcome[StatusCol], OutputCol := outcome[OutputCol],
        FinishedCol := outcome[FinishedCol], ErrorCol := Get(outcome, ErrorCol)]
  }

  function Finish(db: Tables, run: Id, outcome: Row): Option<Tables> {
    if HasOutcome(outcome) then Some(Update(db, Runs, run, OutcomeChanges(outcome))) else None
  }

  function PlaceholderRow(run: Id, e: Event, step: Row, now: Time): Row {
    map[
      IdCol := Text(run), DeploymentCol := Null, GraphCol := Null, StatusCol := Status(Running),
      InputCol := Dict(map[]), OutputCol := Null,
      StartedCol := if Get(step, StartedCol).Truthy() then step[StartedCol] else Instant(now),
      FinishedCol := Null, CorrelationCol := Text(e.correlationId),
      TraceCol := if TraceCol in step then step[TraceCol] else Text(e.traceId), ErrorCol := Null]
  }

  function EnsureRun(db: Tables, run: Id, e: Event, step: Row, now: Time): Tables {
    if run in db.runs then db else db.(runs := db.runs[run := PlaceholderRow(run, e, step, now)])
  }

  function StepPayload(step: Row): Row {
    Defaulted(Defaulted(step, StartedCol), FinishedCol)
  }

  function CompleteStep(db: Tables, e: Event, step: Row, now: Time): Option<Tables> {
    match Get(step, RunCol)
    case Text(run) => Upsert(EnsureRun(db, run, e, StepPayload(step), now), Steps, StepPayload(step))
    case _ => None
  }

  /** The run link is dropped when the run is not there; what is left must satisfy the foreign key. */
  function RecordCost(db: Tables, e: Event, cost: Row): Option<Tables> {
    if OccurredCol !in cost then None
    else
      var link := Get(cost, RunCol);
      var found := link.Text? && link.s in db.runs;
      if !link.Truthy() && link != Null && !found then None
      else
        var payload := cost[IdCol := Text(e.eventId)];
        Upsert(db, Costs, if link.Truthy() && !found then payload[RunCol := Null] else payload)
  }

  /** `uq_alert_dedupe_key` */
  predicate DedupeFree(alerts: map<Id, Row>, id: Id, row: Row) {
    Get(row, DedupeCol) == Null ||
    forall k :: k in alerts && k != id ==> Get(alerts[k], DedupeCol) != Get(row, DedupeCol)
  }

  function UpsertAlert(db: Tables, alert: Row): Option<Tables> {
    match Get(alert, IdCol)
    case Text(id) =>
      var p := Defaulted(alert, LastSentCol);
      var row := if id in db.alerts then db.alerts[id] + p else p;
      if DedupeFree(db.alerts, id, row) then Some(db.(alerts := db.alerts[id := row])) else None
    case _ => None
  }

  /** One event, with the clock the handler reads; `None` when the handler or the flush raises. */
  function Apply(db: Tables, e: Event, now: Time): Option<Tables> {
    match e.body
    case DeploymentCreated(row) => Upsert(db, Deployments, row)
    case DeploymentUpdated(id, changes) => Some(Update(db, Deployments, id, changes))
    case DeploymentDeleted(id) => Some(DeleteDeployment(db, id))
    case GraphCreated(row) => Upsert(db, Graphs, row)
    case GraphUpdated(id, changes) => Some(Update(db, Graphs, id, changes))
    case GraphDeleted(id) => Some(DeleteGraph(db, id))
    case ExecutionStarted(run, _) => Upsert(db, Runs, StartedRow(db, run))
    case ExecutionFinished(run, outcome) => Finish(db, run, outcome)
    case ExecutionFailed(run, outcome) => Finish(db, run, outcome)
    case StepCompleted(step) => CompleteStep(db, e, step, now)
    case CostRecorded(cost) => RecordCost(db, e, cost)
    case AlertCreated(alert) => UpsertAlert(db, alert)
    case AlertUpdated(alert) => UpsertAlert(db, alert)
    case _ => Some(db)
  }

  const EMPTY := Tables(map[], map[], map[], map[], map[], map[])

  // ------------------------------------------------------------------ referential safety

  predicate LinkOk(rows: map<Id, Row>, link: Value) {
    link == Null || (link.Text? && link.s in rows)
  }

  ghost predicate RunsLinked(db: Tables) {
    forall r :: r in db.runs ==> LinkOk(db.deployments, Get(db.runs[r], DeploymentCol)) && LinkOk(db.graphs, Get(db.runs[r], GraphCol))
  }

  ghost predicate StepsLinked(db: Tables) {
    forall s :: s in db.steps ==> Get(db.steps[s], RunCol).Text? && Get(db.steps[s], RunCol).s in db.runs
  }

  ghost predicate CostsLinked(db: Tables) {
    forall k :: k in db.costs ==> LinkOk(db.runs, Get(db.costs[k], RunCol))
  }

  ghost predicate Linked(db: Tables) {
    RunsLinked(db) && StepsLinked(db) && CostsLinked(db)
  }

  /** Each link of the row `_upsert` leaves is the payload's, or what it was. */
  lemma NewRowLink(rows: map<Id, Row>, id: Id, payload: Row, c: Column)
    requires c in payload ==> payload[c] == Null || payload[c].Text?
    ensures Get(NewRow(rows, id, payload), c) ==
      if c in payload then payload[c] else if id in rows then Get(rows[id], c) else Null
  {
  }

  lemma StartedKeepsLinks(db: Tables, run: Row)
    requires Linked(db) && Upsert(db, Runs, StartedRow(db, run)).Some?
    ensures Linked(Upsert(db, Runs, StartedRow(db, run)).value)
  {
    var p := StartedRow(db, run);
    var id := p[IdCol].s;
    NewRowLink(db.runs, id, p, DeploymentCol);
    NewRowLink(db.runs, id, p, GraphCol);
  }

  lemma FinishKeepsLinks(db: Tables, run: Id, outcome: Row)
    requires Linked(db) && Finish(db, run, outcome).Some?
    ensures Linked(Finish(db, run, outcome).value)
  {
    var db' := Finish(db, run, outcome).value;
    if run in db.runs {
      assert Get(db'.runs[run], DeploymentCol) == Get(db.runs[run], DeploymentCol);
      assert Get(db'.runs[run], GraphCol) == Get(db.runs[run], GraphCol);
    }
  }

  lemma EnsureRunKeepsLinks(db: Tables, run: Id, e: Event, step: Row, now: Time)
    requires Linked(db)
    ensures Linked(EnsureRun(db, run, e, step, now)) && run in EnsureRun(db, run, e, step, now).runs
    ensures EnsureRun(db, run, e, step, now).steps == db.steps
  {
    var row := PlaceholderRow(run, e, step, now);
    assert Get(row, DeploymentCol) == Null && Get(row, GraphCol) == Null;
  }

  lemma NewStepKeepsLinks(db: Tables, id: Id, row: Row)
    requires Linked(db) && Get(row, RunCol).Text? && Get(row, RunCol).s in db.runs
    ensures Linked(db.(steps := db.steps[id := row]))
  {
  }

  lemma StepKeepsLinks(db: Tables, e: Event, step: Row, now: Time)
    requires Linked(db) && CompleteStep(db, e, step, now).Some?
    ensures Linked(CompleteStep(db, e, step, now).value)
  {
    var run, p := Get(step, RunCol).s, StepPayload(step);
    var mid := EnsureRun(db, run, e, p, now);
    EnsureRunKeepsLinks(db, run, e, p, now);
    NewRowLink(mid.steps, p[IdCol].s, p, RunCol);
    NewStepKeepsLinks(mid, p[IdCol].s, NewRow(mid.steps, p[IdCol].s, p));
  }

  lemma CostKeepsLinks(db: Tables, e: Event, cost: Row)
    requires Linked(db) && RecordCost(db, e, cost).Some?
    ensures Linked(RecordCost(db, e, cost).value)
  {
    var link := Get(cost, RunCol);
    var payload := cost[IdCol := Text(e.eventId)];
    var p := if link.Truthy() && !(link.Text? && link.s in db.runs) then payload[RunCol := Null] else payload;
    NewRowLink(db.costs, e.eventId, p, RunCol);
  }

  lemma DeleteKeepsLinks(db: Tables, id: Id)
    requires Linked(db)
    ensures Linked(DeleteDeployment(db, id)) && Linked(DeleteGraph(db, id))
  {
  }

  lemma RegistryKeepsLinks(db: Tables, t: Table, payload: Row)
    requires Linked(db) && (t.Deployments? || t.Graphs?) && Upsert(db, t, payload).Some?
    ensures Linked(Upsert(db, t, payload).value)
  {
  }

  lemma UpdateKeepsLinks(db: Tables, t: Table, id: Id, changes: Row)
    requires Linked(db) && (t.Deployments? || t.Graphs?)
    ensures Linked(Update(db, t, id, changes))
  {
  }

  lemma AlertKeepsLinks(db: Tables, alert: Row)
    requires Linked(db) && UpsertAlert(db, alert).Some?
    ensures Linked(UpsertAlert(db, alert).value)
  {
  }

  /** Every step row names an existing run, and every run or cost link is null or names an existing
      row, after any event applied to such a state; the handlers see to it before the database does. */
  lemma ApplyKeepsLinks(db: Tables, e: Event, now: Time)
    requires Linked(db) && Apply(db, e, now).Some?
    ensures Linked(Apply(db, e, now).value)
  {
    match e.body
    case DeploymentCreated(row) => RegistryKeepsLinks(db, Deployments, row);
    case GraphCreated(row) => RegistryKeepsLinks(db, Graphs, row);
    case DeploymentUpdated(id, changes) => UpdateKeepsLinks(db, Deployments, id, changes);
    case GraphUpdated(id, changes) => UpdateKeepsLinks(db, Graphs, id, changes);
    case AlertCreated(alert) => AlertKeepsLinks(db, alert);
    case AlertUpdated(alert) => AlertKeepsLinks(db, alert);
    case DeploymentDeleted(id) => DeleteKeepsLinks(db, id);
    case GraphDeleted(id) => DeleteKeepsLinks(db, id);
    case ExecutionStarted(run, _) => StartedKeepsLinks(db, run);
    case ExecutionFinished(run, outcome) => FinishKeepsLinks(db, run, outcome);
    case ExecutionFailed(run, outcome) => FinishKeepsLinks(db, run, outcome);
    case StepCompleted(step) => StepKeepsLinks(db, e, step, now);
    case CostRecorded(cost) => CostKeepsLinks(db, e, cost);
    case _ =>
  }

  /** Steps that arrive before their run, and runs that arrive before their deployment or graph, are
      never refused: a well-formed event is applied in whatever state it finds. */
  lemma OutOfOrderIsTolerated(db: Tables, e: Event, now: Time)
    requires match e.body
      case ExecutionStarted(run, _) => Get(run, IdCol).Text?
      case ExecutionFinished(_, outcome) => HasOutcome(outcome)
      case ExecutionFailed(_, outcome) => HasOutcome(outcome)
      case StepCompleted(step) => Get(step, IdCol).Text? && Get(step, RunCol).Text?
      case _ => false
    ensures Apply(db, e, now).Some?
  {
  }
}
