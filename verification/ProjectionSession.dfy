/** The projection as it runs: an object over the session's tables, whose handlers change rows in
    place, proved against the functions of `Projector`. A handler that raises returns `false`; its
    transaction is then rolled back. */
module ProjectionSession {
  import opened Events
  import P = Projector

  class ProjectionService {
    var deployments: map<Id, Row>
    var graphs: map<Id, Row>
    var runs: map<Id, Row>
    var steps: map<Id, Row>
    var costs: map<Id, Row>
    var alerts: map<Id, Row>

    function View(): P.Tables
      reads this
    {
      P.Tables(deployments, graphs, runs, steps, costs, alerts)
    }

    constructor (db: P.Tables)
      ensures View() == db
    {
      deployments, graphs, runs, steps, costs, alerts := db.deployments, db.graphs, db.runs, db.steps, db.costs, db.alerts;
    }

    method Write(t: P.Table, id: Id, row: Row)
      modifies this
      ensures View() == old(View()).With(t, old(View()).Rows(t)[id := row])
    {
      match t
      case Deployments => deployments := deployments[id := row];
      case Graphs => graphs := graphs[id := row];
      case Runs => runs := runs[id := row];
      case Steps => steps := steps[id := row];
      case Costs => costs := costs[id := row];
      case Alerts => alerts := alerts[id := row];
    }

    /** `for field, value in payload.items(): setattr(entity, field, ...)` */
    static method SetAttributes(entity: Row, payload: Row, normalise: bool) returns (row: Row)
      ensures row == entity + if normalise then P.Normalised(payload) else payload
    {
      row := entity;
      var fields := payload.Keys;
      while fields != {}
        invariant fields <= payload.Keys
        invariant row.Keys == entity.Keys + (payload.Keys - fields)
        invariant forall c :: c in row ==>
          row[c] == if c in payload && c !in fields then (if normalise then P.Normal(payload[c]) else payload[c]) else entity[c]
        decreases fields
      {
        var c :| c in fields;
        row := row[c := if normalise then P.Normal(payload[c]) else payload[c]];
        fields := fields - {c};
      }
    }

    method Upsert(t: P.Table, payload: Row) returns (ok: bool)
      modifies this
      ensures ok == P.Upsert(old(View()), t, payload).Some?
      ensures View() == if ok then P.Upsert(old(View()), t, payload).value else old(View())
    {
      match Get(payload, IdCol)
      case Text(id) =>
        var rows := View().Rows(t);
        var row := SetAttributes(if id in rows then rows[id] else map[], payload, true);
        assert map[] + P.Normalised(payload) == P.Normalised(payload);
        Write(t, id, row);
        return true;
      case _ => return false;
    }

    method Update(t: P.Table, id: Id, changes: Row)
      modifies this
      ensures View() == P.Update(old(View()), t, id, changes)
    {
      var rows := View().Rows(t);
      if id in rows {
        var row := SetAttributes(rows[id], changes, true);
        Write(t, id, row);
      }
    }

    /** The database nulls the links that pointed at the deleted row. */
    method DeleteDeployment(id: Id)
      modifies this
      ensures View() == P.DeleteDeployment(old(View()), id)
    {
      if id in deployments {
        deployments := deployments - {id};
        var unlinked := Nulled(DeploymentCol, id);
        runs := unlinked;
      }
    }

    method DeleteGraph(id: Id)
      modifies this
      ensures View() == P.DeleteGraph(old(View()), id)
    {
      if id in graphs {
        graphs := graphs - {id};
        var unlinked := Nulled(GraphCol, id);
        runs := unlinked;
      }
    }

    method Nulled(c: Column, id: Id) returns (rows: map<Id, Row>)
      ensures rows == P.Unlink(runs, c, id)
    {
      rows := runs;
      var left := runs.Keys;
      while left != {}
        invariant left <= runs.Keys && rows.Keys == runs.Keys
        invariant forall k :: k in left ==> rows[k] == runs[k]
        invariant forall k :: k in runs && k !in left ==> rows[k] == P.UnlinkRow(runs[k], c, id)
        decreases left
      {
        var k :| k in left;
        if Get(rows[k], c) == Text(id) { rows := rows[k := rows[k][c := Null]]; }
        left := left - {k};
      }
    }

    method ResolveFkOrNone(rows: map<Id, Row>, link: Value) returns (v: Value)
      ensures v == P.Resolve(rows, link)
    {
      if !link.Truthy() { return Null; }
      if !link.Text? || link.s !in rows { return Null; }
      return link;
    }

    method HandleExecutionStarted(run: Row) returns (ok: bool)
      modifies this
      ensures ok == P.Upsert(old(View()), P.Runs, P.StartedRow(old(View()), run)).Some?
      ensures View() == if ok then P.Upsert(old(View()), P.Runs, P.StartedRow(old(View()), run)).value else old(View())
    {
      var payload := run[StartedCol := Get(run, StartedCol)];
      payload := payload[FinishedCol := Get(payload, FinishedCol)];
      var deployment := ResolveFkOrNone(deployments, Get(payload, DeploymentCol));
      payload := payload[DeploymentCol := deployment];
      var graph := ResolveFkOrNone(graphs, Get(payload, GraphCol));
      payload := payload[GraphCol := graph];
      ok := Upsert(P.Runs, payload);
    }

    method HandleExecutionFinished(run: Id, outcome: Row) returns (ok: bool)
      modifies this
      ensures ok == P.Finish(old(View()), run, outcome).Some?
      ensures View() == if ok then P.Finish(old(View()), run, outcome).value else old(View())
    {
      if StatusCol !in outcome || OutputCol !in outcome || FinishedCol !in outcome { return false; }
      Update(P.Runs, run, map[StatusCol := outcome[StatusCol], OutputCol := outcome[OutputCol],
                              FinishedCol := outcome[FinishedCol], ErrorCol := Get(outcome, ErrorCol)]);
      return true;
    }

    method EnsureExecutionRunPlaceholder(run: Id, e: Event, step: Row, now: Time)
      modifies this
      ensures View() == P.EnsureRun(old(View()), run, e, step, now)
    {
      if run in runs { return; }
      Write(P.Runs, run, P.PlaceholderRow(run, e, step, now));
    }

    method HandleStepCompleted(e: Event, step: Row, now: Time) returns (ok: bool)
      modifies this
      ensures ok == P.CompleteStep(old(View()), e, step, now).Some?
      ensures ok ==> View() == P.CompleteStep(old(View()), e, step, now).value
    {
      var payload := step[StartedCol := Get(step, StartedCol)];
      payload := payload[FinishedCol := Get(payload, FinishedCol)];
      match Get(step, RunCol)
      case Text(run) =>
        EnsureExecutionRunPlaceholder(run, e, payload, now);
        ok := Upsert(P.Steps, payload);
      case _ => return false;
    }

    method HandleCostRecorded(e: Event, cost: Row) returns (ok: bool)
      modifies this
      ensures ok == P.RecordCost(old(View()), e, cost).Some?
      ensures ok ==> View() == P.RecordCost(old(View()), e, cost).value
    {
      if OccurredCol !in cost { return false; }
      var payload := cost[IdCol := Text(e.eventId)];
      var link := Get(cost, RunCol);
      var found := link.Text? && link.s in runs;
      if link.Truthy() && !found { payload := payload[RunCol := Null]; }
      if !link.Truthy() && link != Null && !found { return false; }
      ok := Upsert(P.Costs, payload);
    }

    /** Alerts are written without normalisation; the unique dedupe key is checked at the flush. */
    method UpsertAlert(alert: Row) returns (ok: bool)
      modifies this
      ensures ok == P.UpsertAlert(old(View()), alert).Some?
      ensures ok ==> View() == P.UpsertAlert(old(View()), alert).value
    {
      var payload := alert[LastSentCol := Get(alert, LastSentCol)];
      match Get(alert, IdCol)
      case Text(id) =>
        var row := SetAttributes(if id in alerts then alerts[id] else map[], payload, false);
        assert map[] + payload == payload;
        ok := P.DedupeFree(alerts, id, row);
        Write(P.Alerts, id, row);
      case _ => return false;
    }

    method ApplyRegistry(e: Event) returns (ok: bool)
      requires TopicOf(e.body) == RegistryEvents
      modifies this
      ensures ok == P.Apply(old(View()), e, 0).Some?
      ensures ok ==> View() == P.Apply(old(View()), e, 0).value
    {
      ok := true;
      match e.body
      case DeploymentCreated(row) => ok := Upsert(P.Deployments, row);
      case DeploymentUpdated(id, changes) => Update(P.Deployments, id, changes);
      case DeploymentDeleted(id) => DeleteDeployment(id);
      case GraphCreated(row) => ok := Upsert(P.Graphs, row);
      case GraphUpdated(id, changes) => Update(P.Graphs, id, changes);
      case GraphDeleted(id) => DeleteGraph(id);
    }

    /** One event, against the whole specification of the projection. */
    method Apply(e: Event, now: Time) returns (ok: bool)
      modifies this
      ensures ok == P.Apply(old(View()), e, now).Some?
      ensures ok ==> View() == P.Apply(old(View()), e, now).value
    {
      if TopicOf(e.body) == RegistryEvents {
        ok := ApplyRegistry(e);
        return;
      }
      match e.body
      case ExecutionStarted(run, _) => ok := HandleExecutionStarted(run);
      case ExecutionFinished(run, outcome) => ok := HandleExecutionFinished(run, outcome);
      case ExecutionFailed(run, outcome) => ok := HandleExecutionFinished(run, outcome);
      case StepCompleted(step) => ok := HandleStepCompleted(e, step, now);
      case CostRecorded(cost) => ok := HandleCostRecorded(e, cost);
      case AlertCreated(alert) => ok := UpsertAlert(alert);
      case AlertUpdated(alert) => ok := UpsertAlert(alert);
      case _ => ok := true;
    }
  }
}
