/** Which table and which row an event writes, and exactly when a run's link to its deployment or
    graph is there. */
module Links {
  import opened Events
  import opened Delivery
  import opened Projector
  import opened Confluence
  import opened Protocol
  import opened ProtocolSafety
  import opened StatusSafety

  // ------------------------------------------------------------------ one event, one row

  /** A payload entry in its column: containers as JSON, anything else as it is. */
  predicate Stored(payload: Value, column: Value) {
    column == if payload.Dict? || payload.List? || payload.Tuple? then JsonSafe(payload) else payload
  }

  /** Row `id` holds the payload's columns and, besides, those it had; every other row is as it was. */
  ghost predicate Overlaid(before: map<Id, Row>, after: map<Id, Row>, id: Id, payload: Row) {
    && after.Keys == before.Keys + {id}
    && (forall k :: k in before && k != id ==> after[k] == before[k])
    && var was := if id in before then before[id] else map[];
      && after[id].Keys == was.Keys + payload.Keys
      && forall c :: c in after[id] ==> if c in payload then Stored(payload[c], after[id][c]) else after[id][c] == was[c]
  }

  lemma NewRowColumns(before: map<Id, Row>, id: Id, payload: Row, c: Column)
    ensures var was := if id in before then before[id] else map[];
      c in NewRow(before, id, payload) ==>
        if c in payload then Stored(payload[c], NewRow(before, id, payload)[c]) else c in was && NewRow(before, id, payload)[c] == was[c]
  {
  }

  lemma NewRowOverlays(before: map<Id, Row>, id: Id, payload: Row)
    ensures Overlaid(before, before[id := NewRow(before, id, payload)], id, payload)
  {
    forall c | c in NewRow(before, id, payload)
      ensures var was := if id in before then before[id] else map[];
        if c in payload then Stored(payload[c], NewRow(before, id, payload)[c]) else c in was && NewRow(before, id, payload)[c] == was[c]
    {
      NewRowColumns(before, id, payload, c);
    }
  }

  lemma UpsertWrites(db: Tables, t: Table, payload: Row)
    ensures Upsert(db, t, payload).Some? <==> Get(payload, IdCol).Text?
    ensures Upsert(db, t, payload).Some? ==>
      var rows' := Upsert(db, t, payload).value.Rows(t);
      Upsert(db, t, payload).value == db.With(t, rows') && Overlaid(db.Rows(t), rows', payload[IdCol].s, payload)
  {
    if Get(payload, IdCol).Text? { NewRowOverlays(db.Rows(t), payload[IdCol].s, payload); }
  }

  /** `deployment.created` writes the deployments table and `graph.created` the graphs table: the row
      under the payload's id, column by column, and nothing else; without a text id they raise. */
  lemma CreationWrites(db: Tables, e: Event, now: Time)
    requires e.body.DeploymentCreated? || e.body.GraphCreated?
    ensures e.body.DeploymentCreated? ==>
      var row := e.body.deployment;
      && (Apply(db, e, now).Some? <==> Get(row, IdCol).Text?)
      && (Apply(db, e, now).Some? ==>
        var db' := Apply(db, e, now).value;
        Overlaid(db.deployments, db'.deployments, row[IdCol].s, row) && db' == db.(deployments := db'.deployments))
    ensures e.body.GraphCreated? ==>
      var row := e.body.graph;
      && (Apply(db, e, now).Some? <==> Get(row, IdCol).Text?)
      && (Apply(db, e, now).Some? ==>
        var db' := Apply(db, e, now).value;
        Overlaid(db.graphs, db'.graphs, row[IdCol].s, row) && db' == db.(graphs := db'.graphs))
  {
    if e.body.DeploymentCreated? { UpsertWrites(db, Deployments, e.body.deployment); } else { UpsertWrites(db, Graphs, e.body.graph); }
  }

  /** The two updates lay their changes over the row of their own table, if it is there. */
  lemma UpdateWrites(db: Tables, e: Event, now: Time)
    requires e.body.DeploymentUpdated? || e.body.GraphUpdated?
    ensures Apply(db, e, now).Some?
    ensures var db' := Apply(db, e, now).value;
      match e.body
      case DeploymentUpdated(id, changes) =>
        if id in db.deployments then Overlaid(db.deployments, db'.deployments, id, changes) && db' == db.(deployments := db'.deployments)
        else db' == db
      case GraphUpdated(id, changes) =>
        if id in db.graphs then Overlaid(db.graphs, db'.graphs, id, changes) && db' == db.(graphs := db'.graphs)
        else db' == db
  {
  }

  /** The cost's columns under the id of the event, its run link dropped when it names no run that is there. */
  function CostColumns(runs: map<Id, Row>, e: Event, cost: Row): Row {
    var link, own := Get(cost, RunCol), cost[IdCol := Text(e.eventId)];
    if link == Null || link == Text("") || (link.Text? && link.s in runs) then own else own[RunCol := Null]
  }

  lemma CostIsUpsert(db: Tables, e: Event, cost: Row)
    requires RecordCost(db, e, cost).Some?
    ensures RecordCost(db, e, cost) == Upsert(db, Costs, CostColumns(db.runs, e, cost)) && OccurredCol in cost
    ensures CostColumns(db.runs, e, cost)[IdCol] == Text(e.eventId)
  {
  }

  lemma CostUpserted(db: Tables, id: Id, p: Row)
    requires Get(p, IdCol) == Text(id)
    ensures Upsert(db, Costs, p).Some?
    ensures var db' := Upsert(db, Costs, p).value;
      db' == db.(costs := db'.costs) && Overlaid(db.costs, db'.costs, id, p)
  {
    UpsertWrites(db, Costs, p);
  }

  /** `cost.recorded` writes one row of the costs table, under the id of the event. */
  lemma CostWrites(db: Tables, e: Event, now: Time)
    requires e.body.CostRecorded? && Apply(db, e, now).Some?
    ensures OccurredCol in e.body.cost
    ensures var db' := Apply(db, e, now).value;
      && db' == db.(costs := db'.costs)
      && Overlaid(db.costs, db'.costs, e.eventId, CostColumns(db.runs, e, e.body.cost))
  {
    CostIsUpsert(db, e, e.body.cost);
    CostUpserted(db, e.eventId, CostColumns(db.runs, e, e.body.cost));
  }

  /** Run `run` is there, entered as running and without links if it was not, and all other runs are as
      they were. */
  ghost predicate Ensured(before: map<Id, Row>, after: map<Id, Row>, run: Id, e: Event, step: Row, now: Time) {
    && after.Keys == before.Keys + {run}
    && (forall r :: r in before ==> after[r] == before[r])
    && (run !in before ==> Blank(after[run], run, e, step, now))
  }

  /** A run known only from one of its steps: running, since the step's start if that is known. */
  predicate Blank(row: Row, run: Id, e: Event, step: Row, now: Time) {
    && Get(row, IdCol) == Text(run) && Get(row, StatusCol) == Status(Running) && Get(row, InputCol) == Dict(map[])
    && (forall c :: c in row && c in {DeploymentCol, GraphCol, OutputCol, FinishedCol, ErrorCol} ==> row[c] == Null)
    && Get(row, StartedCol) == (if Get(step, StartedCol).Truthy() then Get(step, StartedCol) else Instant(now))
    && Get(row, CorrelationCol) == Text(e.correlationId)
    && (TraceCol !in step ==> Get(row, TraceCol) == Text(e.traceId)) && (TraceCol in step ==> Get(row, TraceCol) == step[TraceCol])
  }

  lemma EnsureRunWrites(db: Tables, run: Id, e: Event, step: Row, now: Time)
    ensures var db' := EnsureRun(db, run, e, step, now);
      db' == db.(runs := db'.runs) && Ensured(db.runs, db'.runs, run, e, step, now)
  {
    assert Blank(PlaceholderRow(run, e, step, now), run, e, step, now);
  }

  /** The step's columns; the two times are entered even when the payload lacks them. */
  function StepColumns(step: Row): Row {
    step[StartedCol := Get(step, StartedCol)][FinishedCol := Get(step, FinishedCol)]
  }

  lemma StepIsUpsert(db: Tables, e: Event, step: Row, now: Time)
    ensures CompleteStep(db, e, step, now) == if Get(step, RunCol).Text?
      then Upsert(EnsureRun(db, step[RunCol].s, e, StepColumns(step), now), Steps, StepColumns(step)) else None
    ensures Get(StepColumns(step), IdCol) == Get(step, IdCol)
  {
  }

  lemma StepUpserted(db: Tables, mid: Tables, run: Id, e: Event, step: Row, now: Time)
    requires mid == db.(runs := mid.runs) && Ensured(db.runs, mid.runs, run, e, StepColumns(step), now)
    ensures Upsert(mid, Steps, StepColumns(step)).Some? <==> Get(StepColumns(step), IdCol).Text?
    ensures Upsert(mid, Steps, StepColumns(step)).Some? ==> StepWritten(db, Upsert(mid, Steps, StepColumns(step)).value, run, e, step, now)
  {
    UpsertWrites(mid, Steps, StepColumns(step));
  }

  /** The step's row is written and its run is there; no other row changes. */
  ghost predicate StepWritten(db: Tables, db': Tables, run: Id, e: Event, step: Row, now: Time) {
    && db' == db.(runs := db'.runs, steps := db'.steps)
    && Ensured(db.runs, db'.runs, run, e, StepColumns(step), now)
    && IdCol in StepColumns(step) && StepColumns(step)[IdCol].Text?
    && Overlaid(db.steps, db'.steps, StepColumns(step)[IdCol].s, StepColumns(step))
  }

  /** `step.completed` writes one row of the steps table, under the step's id; a run that is
      not there yet is entered as running, without links, and a run that is there is not touched. */
  lemma StepWrites(db: Tables, e: Event, now: Time)
    requires e.body.StepCompleted?
    ensures Apply(db, e, now).Some? <==> Get(e.body.step, IdCol).Text? && Get(e.body.step, RunCol).Text?
    ensures Apply(db, e, now).Some? ==> StepWritten(db, Apply(db, e, now).value, Get(e.body.step, RunCol).s, e, e.body.step, now)
  {
    var step := e.body.step;
    StepIsUpsert(db, e, step, now);
    if Get(step, RunCol).Text? {
      var run := step[RunCol].s;
      EnsureRunWrites(db, run, e, StepColumns(step), now);
      StepUpserted(db, EnsureRun(db, run, e, StepColumns(step), now), run, e, step, now);
    }
  }

  // ------------------------------------------------------------------ when a run's link is there

  predicate Registry(t: Table) {
    t.Deployments? || t.Graphs?
  }

  /** The column of the run row that names a row of table `t`. */
  function LinkColumn(t: Table): Column
    requires Registry(t)
  {
    if t.Deployments? then DeploymentCol else GraphCol
  }

  predicate Creates(e: Event, t: Table, id: Id) {
    && (t.Deployments? ==> e.body.DeploymentCreated? && Get(e.body.deployment, IdCol) == Text(id))
    && (t.Graphs? ==> e.body.GraphCreated? && Get(e.body.graph, IdCol) == Text(id))
    && Registry(t)
  }

  predicate Deletes(e: Event, t: Table, id: Id) {
    (t.Deployments? && e.body == DeploymentDeleted(id)) || (t.Graphs? && e.body == GraphDeleted(id))
  }

  /** The started event asks for a link to row `id`. */
  predicate AsksFor(e: Event, t: Table, id: Id)
    requires Registry(t)
  {
    e.body.ExecutionStarted? && Get(e.body.run, LinkColumn(t)) == Text(id) && id != ""
  }

  predicate LinksTo(db: Tables, run: Id, t: Table, id: Id)
    requires Registry(t)
  {
    run in db.runs && Get(db.runs[run], LinkColumn(t)) == Text(id)
  }

  /** What one event does to the presence of a registry row and to one link of a run to it. */
  ghost predicate LinkEffect(db: Tables, db': Tables, e: Event, t: Table, run: Id, id: Id)
    requires Registry(t)
  {
    && (id in db'.Rows(t) <==> Creates(e, t, id) || (id in db.Rows(t) && !Deletes(e, t, id)))
    && (LinksTo(db', run, t, id) <==>
      if Starts(e, run) then AsksFor(e, t, id) && id in db.Rows(t)
      else LinksTo(db, run, t, id) && !(Deletes(e, t, id) && id in db.Rows(t)))
  }

  /** Links of `run` to row `id` and that row are as they were. */
  predicate Kept(db: Tables, db': Tables, t: Table, run: Id, id: Id)
    requires Registry(t)
  {
    (id in db'.Rows(t) <==> id in db.Rows(t)) && (LinksTo(db', run, t, id) <==> LinksTo(db, run, t, id))
  }

  lemma StartedLink(db: Tables, run: Row, t: Table)
    requires Registry(t)
    ensures LinkColumn(t) in StartedRow(db, run)
    ensures StartedRow(db, run)[LinkColumn(t)] == Resolve(db.Rows(t), Get(run, LinkColumn(t)))
    ensures Get(StartedRow(db, run), IdCol) == Get(run, IdCol)
  {
  }

  lemma StartLinks(db: Tables, e: Event, now: Time, t: Table, run: Id, id: Id)
    requires Registry(t) && e.body.ExecutionStarted? && Apply(db, e, now).Some?
    ensures LinkEffect(db, Apply(db, e, now).value, e, t, run, id)
  {
    var p := StartedRow(db, e.body.run);
    StartedLink(db, e.body.run, t);
    NewRowLink(db.runs, p[IdCol].s, p, LinkColumn(t));
  }

  lemma FinishLinks(db: Tables, r: Id, outcome: Row, t: Table, run: Id, id: Id)
    requires Registry(t) && Projector.Finish(db, r, outcome).Some?
    ensures Kept(db, Projector.Finish(db, r, outcome).value, t, run, id)
  {
    var db' := Projector.Finish(db, r, outcome).value;
    assert run in db.runs ==> Get(db'.runs[run], LinkColumn(t)) == Get(db.runs[run], LinkColumn(t));
  }

  lemma StepLinks(db: Tables, e: Event, now: Time, t: Table, run: Id, id: Id)
    requires Registry(t) && e.body.StepCompleted? && Apply(db, e, now).Some?
    ensures Kept(db, Apply(db, e, now).value, t, run, id)
  {
    StepWrites(db, e, now);
  }

  lemma UnlinkedLink(rows: map<Id, Row>, c: Column, gone: Id, run: Id, link: Column, id: Id)
    ensures run in Unlink(rows, c, gone) <==> run in rows
    ensures run in rows ==>
      (Get(Unlink(rows, c, gone)[run], link) == Text(id) <==> Get(rows[run], link) == Text(id) && !(link == c && id == gone))
  {
  }

  lemma DeploymentLinks(db: Tables, gone: Id, e: Event, t: Table, run: Id, id: Id)
    requires Registry(t) && e.body == DeploymentDeleted(gone)
    ensures LinkEffect(db, DeleteDeployment(db, gone), e, t, run, id)
  {
    UnlinkedLink(db.runs, DeploymentCol, gone, run, LinkColumn(t), id);
  }

  lemma GraphLinks(db: Tables, gone: Id, e: Event, t: Table, run: Id, id: Id)
    requires Registry(t) && e.body == GraphDeleted(gone)
    ensures LinkEffect(db, DeleteGraph(db, gone), e, t, run, id)
  {
    UnlinkedLink(db.runs, GraphCol, gone, run, LinkColumn(t), id);
  }

  lemma CreationLinks(db: Tables, e: Event, now: Time, t: Table, run: Id, id: Id)
    requires Registry(t) && (e.body.DeploymentCreated? || e.body.GraphCreated?) && Apply(db, e, now).Some?
    ensures LinkEffect(db, Apply(db, e, now).value, e, t, run, id)
  {
    CreationWrites(db, e, now);
  }

  lemma UpdateLinks(db: Tables, e: Event, now: Time, t: Table, run: Id, id: Id)
    requires Registry(t) && (e.body.DeploymentUpdated? || e.body.GraphUpdated?) && Apply(db, e, now).Some?
    ensures Kept(db, Apply(db, e, now).value, t, run, id)
  {
    UpdateWrites(db, e, now);
  }

  lemma CostLinks(db: Tables, e: Event, now: Time, t: Table, run: Id, id: Id)
    requires Registry(t) && e.body.CostRecorded? && Apply(db, e, now).Some?
    ensures Kept(db, Apply(db, e, now).value, t, run, id)
  {
    CostWrites(db, e, now);
  }

  lemma AlertLinks(db: Tables, alert: Row, t: Table, run: Id, id: Id)
    requires Registry(t) && UpsertAlert(db, alert).Some?
    ensures Kept(db, UpsertAlert(db, alert).value, t, run, id)
  {
  }

  /** Only creations, deletions and started events matter. */
  predicate Neutral(b: Body) {
    !b.DeploymentCreated? && !b.GraphCreated? && !b.DeploymentDeleted? && !b.GraphDeleted? && !b.ExecutionStarted?
  }

  lemma KeptHasEffect(db: Tables, db': Tables, e: Event, t: Table, run: Id, id: Id)
    requires Registry(t) && Neutral(e.body) && Kept(db, db', t, run, id)
    ensures LinkEffect(db, db', e, t, run, id)
  {
  }

  lemma NeutralLinks(db: Tables, e: Event, now: Time, t: Table, run: Id, id: Id)
    requires Registry(t) && Neutral(e.body) && Apply(db, e, now).Some?
    ensures Kept(db, Apply(db, e, now).value, t, run, id)
  {
    match e.body
    case DeploymentUpdated(_, _) => UpdateLinks(db, e, now, t, run, id);
    case GraphUpdated(_, _) => UpdateLinks(db, e, now, t, run, id);
    case ExecutionFinished(r, outcome) => FinishLinks(db, r, outcome, t, run, id);
    case ExecutionFailed(r, outcome) => FinishLinks(db, r, outcome, t, run, id);
    case StepCompleted(_) => StepLinks(db, e, now, t, run, id);
    case CostRecorded(_) => CostLinks(db, e, now, t, run, id);
    case AlertCreated(alert) => AlertLinks(db, alert, t, run, id);
    case AlertUpdated(alert) => AlertLinks(db, alert, t, run, id);
    case _ =>
  }

  lemma EventLinks(db: Tables, e: Event, now: Time, t: Table, run: Id, id: Id)
    requires Registry(t) && Apply(db, e, now).Some?
    ensures LinkEffect(db, Apply(db, e, now).value, e, t, run, id)
  {
    match e.body
    case DeploymentCreated(_) => CreationLinks(db, e, now, t, run, id);
    case GraphCreated(_) => CreationLinks(db, e, now, t, run, id);
    case DeploymentDeleted(gone) => DeploymentLinks(db, gone, e, t, run, id);
    case GraphDeleted(gone) => GraphLinks(db, gone, e, t, run, id);
    case ExecutionStarted(_, _) => StartLinks(db, e, now, t, run, id);
    case _ => NeutralHasEffect(db, e, now, t, run, id);
  }

  lemma NeutralHasEffect(db: Tables, e: Event, now: Time, t: Table, run: Id, id: Id)
    requires Registry(t) && Neutral(e.body) && Apply(db, e, now).Some?
    ensures LinkEffect(db, Apply(db, e, now).value, e, t, run, id)
  {
    NeutralLinks(db, e, now, t, run, id);
    KeptHasEffect(db, Apply(db, e, now).value, e, t, run, id);
  }

  // ------------------------------------------------------------------ over all commits

  /** A handler whose effect on registry rows and links is the projector's. */
  ghost predicate LinksAlike(c: Config<Tables>) {
    forall db: Tables, e: Event, now: Time, t: Table, run: Id, id: Id ::
      Registry(t) && c.apply(db, e, now).Some? ==> LinkEffect(db, c.apply(db, e, now).value, e, t, run, id)
  }

  lemma ProjectorLinksAlike(n: nat)
    ensures LinksAlike(ProjectionConfig(n))
  {
    forall db: Tables, e: Event, now: Time, t: Table, run: Id, id: Id | Registry(t) && Apply(db, e, now).Some?
      ensures LinkEffect(db, Apply(db, e, now).value, e, t, run, id)
    {
      EventLinks(db, e, now, t, run, id);
    }
  }

  /** Row `id` was created, and not deleted since. */
  ghost predicate Live(cs: seq<Applied>, t: Table, id: Id) {
    exists j :: 0 <= j < |cs| && Creates(cs[j].record.event, t, id) && Undeleted(cs, j, t, id)
  }

  ghost predicate Undeleted(cs: seq<Applied>, after: nat, t: Table, id: Id) {
    forall k :: after < k < |cs| ==> !Deletes(cs[k].record.event, t, id)
  }

  /** The run's last started event asked for row `id`, which was there, and it has not been deleted
      since. */
  ghost predicate LinkStands(cs: seq<Applied>, t: Table, run: Id, id: Id)
    requires Registry(t)
  {
    exists i :: 0 <= i < |cs| && LinkStandsSince(cs, i, t, run, id)
  }

  ghost predicate LinkStandsSince(cs: seq<Applied>, i: nat, t: Table, run: Id, id: Id)
    requires Registry(t) && i < |cs|
  {
    && Starts(cs[i].record.event, run) && AsksFor(cs[i].record.event, t, id)
    && Live(cs[..i], t, id) && Undeleted(cs, i, t, id)
    && forall k :: i < k < |cs| ==> !Starts(cs[k].record.event, run)
  }

  lemma LiveStep(cs: seq<Applied>, a: Applied, t: Table, id: Id)
    ensures Live(cs + [a], t, id) <==> Creates(a.record.event, t, id) || (Live(cs, t, id) && !Deletes(a.record.event, t, id))
  {
    var more, n := cs + [a], |cs|;
    assert more[n] == a && Undeleted(more, n, t, id);
    assert forall k :: 0 <= k < n ==> more[k] == cs[k];
    forall j | 0 <= j < n ensures Undeleted(more, j, t, id) <==> Undeleted(cs, j, t, id) && !Deletes(a.record.event, t, id) {
      UndeletedStep(cs, a, j, t, id);
    }
  }

  lemma UndeletedStep(cs: seq<Applied>, a: Applied, after: nat, t: Table, id: Id)
    requires after < |cs|
    ensures Undeleted(cs + [a], after, t, id) <==> Undeleted(cs, after, t, id) && !Deletes(a.record.event, t, id)
  {
    var more := cs + [a];
    assert more[|cs|] == a;
    assert forall k :: after < k < |cs| ==> more[k] == cs[k];
  }

  lemma StandsStep(cs: seq<Applied>, a: Applied, i: nat, t: Table, run: Id, id: Id)
    requires Registry(t) && i < |cs|
    ensures LinkStandsSince(cs + [a], i, t, run, id) <==>
      LinkStandsSince(cs, i, t, run, id) && !Starts(a.record.event, run) && !Deletes(a.record.event, t, id)
  {
    var more := cs + [a];
    assert more[..i] == cs[..i] && more[|cs|] == a;
    assert forall k :: 0 <= k < |cs| ==> more[k] == cs[k];
  }

  lemma LinkStep(cs: seq<Applied>, a: Applied, t: Table, run: Id, id: Id)
    requires Registry(t)
    ensures LinkStands(cs + [a], t, run, id) <==>
      if Starts(a.record.event, run) then AsksFor(a.record.event, t, id) && Live(cs, t, id)
      else LinkStands(cs, t, run, id) && !Deletes(a.record.event, t, id)
  {
    var more, n := cs + [a], |cs|;
    assert more[n] == a && more[..n] == cs;
    assert LinkStandsSince(more, n, t, run, id) <==> Starts(a.record.event, run) && AsksFor(a.record.event, t, id) && Live(cs, t, id);
    forall i | 0 <= i < n
      ensures LinkStandsSince(more, i, t, run, id) <==>
        LinkStandsSince(cs, i, t, run, id) && !Starts(a.record.event, run) && !Deletes(a.record.event, t, id)
    {
      StandsStep(cs, a, i, t, run, id);
    }
  }

  lemma {:induction false} ReplayLinks(c: Config<Tables>, cs: seq<Applied>, t: Table, run: Id, id: Id)
    requires LinksAlike(c) && Registry(t) && Replay(c, EMPTY, cs).Some?
    ensures var db := Replay(c, EMPTY, cs).value;
      && (id in db.Rows(t) <==> Live(cs, t, id))
      && (LinksTo(db, run, t, id) <==> LinkStands(cs, t, run, id))
      && (LinksTo(db, run, t, id) ==> id in db.Rows(t))
  {
    if cs != [] {
      var before, a := cs[..|cs| - 1], cs[|cs| - 1];
      ReplayLinks(c, before, t, run, id);
      var db := Replay(c, EMPTY, before).value;
      assert LinkEffect(db, c.apply(db, a.record.event, a.now).value, a.record.event, t, run, id);
      assert cs == before + [a];
      LiveStep(before, a, t, id);
      LinkStep(before, a, t, run, id);
    }
  }

  /** In every reachable state, for deployments and graphs alike: a row is there exactly when it was
      created and not deleted since, and a run links to it exactly when the run's last started event
      named it, it was there at that moment, and it has not been deleted since. */
  lemma LinkIff(n: nat, s0: Node<Tables>, moves: seq<Move>, t: Table, run: Id, id: Id)
    requires Init(ProjectionConfig(n), EMPTY, s0) && Run(ProjectionConfig(n), s0, moves).Some? && Registry(t)
    ensures var w := Run(ProjectionConfig(n), s0, moves).value.group.world;
      && (id in w.model.Rows(t) <==> Live(w.commits, t, id))
      && (LinksTo(w.model, run, t, id) <==> LinkStands(w.commits, t, run, id))
  {
    var c := ProjectionConfig(n);
    ExactlyOnceEffect(c, EMPTY, s0, moves);
    ProjectorLinksAlike(n);
    ReplayLinks(c, Run(c, s0, moves).value.group.world.commits, t, run, id);
  }
}
