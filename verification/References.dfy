/** Referential safety of the read model in every reachable state of the projection group. */
module References {
  import opened Events
  import opened Delivery
  import opened Projector
  import opened Confluence
  import opened Protocol
  import opened ProtocolSafety

  /** No two alert rows share a dedupe key. */
  ghost predicate Deduped(alerts: map<Id, Row>) {
    forall a, b :: a in alerts && b in alerts && a != b && Get(alerts[a], DedupeCol) != Null ==>
      Get(alerts[a], DedupeCol) != Get(alerts[b], DedupeCol)
  }

  ghost predicate Consistent(db: Tables) {
    Linked(db) && Deduped(db.alerts)
  }

  ghost predicate KeepsConsistent(c: Config<Tables>) {
    forall db: Tables, e: Event, now: Time ::
      Consistent(db) && c.apply(db, e, now).Some? ==> Consistent(c.apply(db, e, now).value)
  }

  lemma UpsertAside(db: Tables, t: Table, row: Row)
    requires !t.Alerts?
    ensures Upsert(db, t, row).Some? ==> Upsert(db, t, row).value.alerts == db.alerts
  {
  }

  lemma FinishAside(db: Tables, run: Id, outcome: Row)
    ensures Projector.Finish(db, run, outcome).Some? ==> Projector.Finish(db, run, outcome).value.alerts == db.alerts
  {
  }

  lemma StepAside(db: Tables, e: Event, step: Row, now: Time)
    ensures CompleteStep(db, e, step, now).Some? ==> CompleteStep(db, e, step, now).value.alerts == db.alerts
  {
  }

  lemma CostAside(db: Tables, e: Event, cost: Row)
    ensures RecordCost(db, e, cost).Some? ==> RecordCost(db, e, cost).value.alerts == db.alerts
  {
  }

  lemma AlertsAside(db: Tables, e: Event, now: Time)
    requires TopicOf(e.body) != AlertsEvents && Apply(db, e, now).Some?
    ensures Apply(db, e, now).value.alerts == db.alerts
  {
    match e.body
    case DeploymentCreated(row) => UpsertAside(db, Deployments, row);
    case GraphCreated(row) => UpsertAside(db, Graphs, row);
    case ExecutionStarted(run, _) => UpsertAside(db, Runs, StartedRow(db, run));
    case ExecutionFinished(run, outcome) => FinishAside(db, run, outcome);
    case ExecutionFailed(run, outcome) => FinishAside(db, run, outcome);
    case StepCompleted(step) => StepAside(db, e, step, now);
    case CostRecorded(cost) => CostAside(db, e, cost);
    case _ =>
  }

  lemma AlertStaysUnique(db: Tables, alert: Row)
    requires Deduped(db.alerts) && UpsertAlert(db, alert).Some?
    ensures Deduped(UpsertAlert(db, alert).value.alerts)
  {
  }

  lemma ApplyKeepsUnique(db: Tables, e: Event, now: Time)
    requires Deduped(db.alerts) && Apply(db, e, now).Some?
    ensures Deduped(Apply(db, e, now).value.alerts)
  {
    match e.body
    case AlertCreated(alert) => AlertStaysUnique(db, alert);
    case AlertUpdated(alert) => AlertStaysUnique(db, alert);
    case _ => AlertsAside(db, e, now);
  }

  lemma ProjectorKeepsConsistent(n: nat)
    ensures KeepsConsistent(ProjectionConfig(n))
  {
    forall db: Tables, e: Event, now: Time | Consistent(db) && Apply(db, e, now).Some?
      ensures Consistent(Apply(db, e, now).value)
    {
      ApplyKeepsLinks(db, e, now);
      ApplyKeepsUnique(db, e, now);
    }
  }

  lemma {:induction false} ReplayConsistent(c: Config<Tables>, db0: Tables, cs: seq<Applied>)
    requires KeepsConsistent(c) && Consistent(db0) && Replay(c, db0, cs).Some?
    ensures Consistent(Replay(c, db0, cs).value)
  {
    if cs != [] { ReplayConsistent(c, db0, cs[..|cs| - 1]); }
  }

  /** Whatever events reach the topics, in whatever order they are applied, redelivered, retried or
      raced over by any number of workers: every step row names an existing run, every run and cost
      link is null or names an existing row, and no dedupe key has two alert rows. */
  lemma ReferentialSafety(n: nat, s0: Node<Tables>, moves: seq<Move>)
    requires Init(ProjectionConfig(n), EMPTY, s0) && Run(ProjectionConfig(n), s0, moves).Some?
    ensures Linked(Run(ProjectionConfig(n), s0, moves).value.group.world.model)
    ensures Deduped(Run(ProjectionConfig(n), s0, moves).value.group.world.model.alerts)
  {
    var c := ProjectionConfig(n);
    ExactlyOnceEffect(c, EMPTY, s0, moves);
    ProjectorKeepsConsistent(n);
    ReplayConsistent(c, EMPTY, Run(c, s0, moves).value.group.world.commits);
  }

  /** Run rows without one kind of link to `id`, otherwise as they were. */
  ghost predicate Unlinked(runs: map<Id, Row>, runs': map<Id, Row>, link: Column, id: Id) {
    runs'.Keys == runs.Keys && forall r, c :: r in runs ==> Get(runs'[r], c) == if c == link && Get(runs[r], link) == Text(id) then Null else Get(runs[r], c)
  }

  lemma UnlinkIs(runs: map<Id, Row>, link: Column, id: Id)
    ensures Unlinked(runs, Unlink(runs, link, id), link, id)
  {
  }

  /** Deleting a deployment removes its row, nulls exactly the run links that pointed at it and changes
      nothing else; deleting one that is not there changes nothing. */
  lemma DeletionNullsLinks(db: Tables, id: Id)
    ensures var db' := DeleteDeployment(db, id);
      && db'.deployments == db.deployments - {id} && db'.graphs == db.graphs
      && db'.steps == db.steps && db'.costs == db.costs && db'.alerts == db.alerts
      && if id in db.deployments then Unlinked(db.runs, db'.runs, DeploymentCol, id) else db'.runs == db.runs
  {
    UnlinkIs(db.runs, DeploymentCol, id);
  }

  /** The same for graphs. */
  lemma GraphDeletionNullsLinks(db: Tables, id: Id)
    ensures var db' := DeleteGraph(db, id);
      && db'.graphs == db.graphs - {id} && db'.deployments == db.deployments
      && db'.steps == db.steps && db'.costs == db.costs && db'.alerts == db.alerts
      && if id in db.graphs then Unlinked(db.runs, db'.runs, GraphCol, id) else db'.runs == db.runs
  {
    UnlinkIs(db.runs, GraphCol, id);
  }

  /** A cost row keeps its run link exactly when the run's row is there already: costs and runs travel
      on different topics, so the link of a cost that overtakes its run is lost for good. */
  lemma CostLinkKeptIff(db: Tables, e: Event, cost: Row, run: Id)
    requires Get(cost, RunCol) == Text(run) && run != "" && OccurredCol in cost && e.eventId !in db.costs
    ensures RecordCost(db, e, cost).Some? && e.eventId in RecordCost(db, e, cost).value.costs
    ensures Get(RecordCost(db, e, cost).value.costs[e.eventId], RunCol) == Text(run) <==> run in db.runs
    ensures Get(RecordCost(db, e, cost).value.costs[e.eventId], RunCol) == Null <==> run !in db.runs
  {
    var payload := cost[IdCol := Text(e.eventId)];
    NewRowLink(db.costs, e.eventId, if run in db.runs then payload else payload[RunCol := Null], RunCol);
  }
}
