/** The projection tolerates reordering across topics: only the order of the lifecycle events of
    each run matters, never where its steps, its costs or other runs' events fall between them. */
module Confluence {
  import opened Events
  import opened Delivery
  import opened Projector

  /** The projection group: its handler publishes nothing. */
  function ProjectionConfig(maxRetries: nat): Config<Tables> {
    Config("projection-consumers", maxRetries, Apply, (e, out) => false, (e, out) => out == [])
  }

  function Body(a: Applied): Body {
    a.record.event.body
  }

  /** The lifecycle events of run `r`, in the order they were applied. */
  function Lifecycle(cs: seq<Applied>, r: Id): seq<Event> {
    if cs == [] then []
    else
      var a := cs[|cs| - 1];
      Lifecycle(cs[..|cs| - 1], r) + if LifecycleRun(Body(a)) == Some(r) then [a.record.event] else []
  }

  /** The run row those events describe, given only the registry rows they may link to. */
  function RunRow(db: Tables, h: seq<Event>): Row {
    if h == [] then map[]
    else
      match h[|h| - 1].body
      case ExecutionStarted(run, _) => Normalised(StartedRow(db, run))
      case ExecutionFinished(_, outcome) => WithOutcome(RunRow(db, h[..|h| - 1]), outcome)
      case ExecutionFailed(_, outcome) => WithOutcome(RunRow(db, h[..|h| - 1]), outcome)
      case _ => RunRow(db, h[..|h| - 1])
  }

  function WithOutcome(row: Row, outcome: Row): Row {
    if HasOutcome(outcome) then row + Normalised(OutcomeChanges(outcome)) else row
  }

  /** The step rows those events describe. */
  function StepTable(cs: seq<Applied>): map<Id, Row> {
    if cs == [] then map[]
    else
      var before := StepTable(cs[..|cs| - 1]);
      var b := Body(cs[|cs| - 1]);
      if b.StepCompleted? && Get(b.step, IdCol).Text? then before[Get(b.step, IdCol).s := Normalised(StepPayload(b.step))]
      else before
  }

  function StepId(b: Body): Value {
    if b.StepCompleted? then Get(b.step, IdCol) else Null
  }

  ghost predicate HasStep(cs: seq<Applied>, r: Id) {
    exists a :: a in cs && Body(a).StepCompleted? && Get(Body(a).step, RunCol) == Text(r)
  }

  /** The columns of `execution_runs` apart from the two timestamps the database maintains. */
  const RUN_COLUMNS: set<Column> :=
    {IdCol, DeploymentCol, GraphCol, StatusCol, InputCol, OutputCol, StartedCol, FinishedCol, CorrelationCol, TraceCol, ErrorCol}

  predicate FullRun(run: Row) {
    run.Keys == RUN_COLUMNS
  }

  /** Registry rows stay as they are, and started events carry every column of the run table, as
      `create_execution` builds them. */
  predicate Admissible(b: Body) {
    match b
    case DeploymentCreated(_) => false
    case DeploymentDeleted(_) => false
    case GraphCreated(_) => false
    case GraphDeleted(_) => false
    case ExecutionStarted(run, _) => FullRun(run)
    case _ => true
  }

  ghost predicate KeyedRow(r: Id, row: Row) {
    row.Keys <= RUN_COLUMNS && IdCol in row && row[IdCol] == Text(r)
  }

  ghost predicate Keyed(runs: map<Id, Row>) {
    forall r :: r in runs ==> KeyedRow(r, runs[r])
  }

  ghost predicate StartsFirst(cs: seq<Applied>) {
    forall r :: Lifecycle(cs, r) != [] ==> Lifecycle(cs, r)[0].body.ExecutionStarted?
  }

  ghost predicate DistinctSteps(db: Tables, cs: seq<Applied>) {
    && (forall i, j :: 0 <= i < j < |cs| && Body(cs[i]).StepCompleted? && Body(cs[j]).StepCompleted? ==>
          StepId(Body(cs[i])) != StepId(Body(cs[j])))
    && (forall a :: a in cs && StepId(Body(a)).Text? ==> StepId(Body(a)).s !in db.steps)
  }

  ghost predicate WellFormed(db: Tables, cs: seq<Applied>) {
    && Keyed(db.runs)
    && (forall a :: a in cs ==> Admissible(Body(a)))
    && StartsFirst(cs)
    && DistinctSteps(db, cs)
  }

  lemma WellFormedPrefix(db: Tables, cs: seq<Applied>)
    requires WellFormed(db, cs) && cs != []
    ensures WellFormed(db, cs[..|cs| - 1])
  {
    var before := cs[..|cs| - 1];
    forall r | Lifecycle(before, r) != [] ensures Lifecycle(before, r)[0].body.ExecutionStarted? {
      assert Lifecycle(cs, r)[0] == Lifecycle(before, r)[0];
    }
    assert forall a :: a in before ==> a in cs;
  }

  // ------------------------------------------------------------------ one event

  predicate SameRegistry(db: Tables, db0: Tables) {
    db.deployments.Keys == db0.deployments.Keys && db.graphs.Keys == db0.graphs.Keys
  }

  /** The run table after one applied event. */
  function RunsAfter(db: Tables, e: Event, now: Time): map<Id, Row> {
    match e.body
    case ExecutionStarted(run, _) =>
      (match Get(run, IdCol) case Text(r) => db.runs[r := Normalised(StartedRow(db, run))] case _ => db.runs)
    case ExecutionFinished(r, outcome) => if r in db.runs then db.runs[r := WithOutcome(db.runs[r], outcome)] else db.runs
    case ExecutionFailed(r, outcome) => if r in db.runs then db.runs[r := WithOutcome(db.runs[r], outcome)] else db.runs
    case StepCompleted(step) =>
      (match Get(step, RunCol)
       case Text(r) => if r in db.runs then db.runs else db.runs[r := PlaceholderRow(r, e, StepPayload(step), now)]
       case _ => db.runs)
    case _ => db.runs
  }

  function StepsAfter(steps: map<Id, Row>, b: Body): map<Id, Row> {
    if b.StepCompleted? && Get(b.step, IdCol).Text? then steps[Get(b.step, IdCol).s := Normalised(StepPayload(b.step))] else steps
  }

  ghost predicate Effect(db: Tables, db': Tables, e: Event, now: Time) {
    && db'.runs == RunsAfter(db, e, now)
    && db'.steps == StepsAfter(db.steps, e.body)
    && SameRegistry(db', db)
  }

  /** A row that carries every column overwrites whatever was there, placeholder or not. */
  lemma FullRowOverwrites(p: Row, row: Row)
    requires row.Keys <= p.Keys
    ensures row + p == p
  {
  }

  lemma StartedRowColumns(db: Tables, run: Row)
    requires FullRun(run)
    ensures StartedRow(db, run).Keys == RUN_COLUMNS
  {
    assert StartedRow(db, run).Keys == run.Keys + {StartedCol, FinishedCol, DeploymentCol, GraphCol};
  }

  lemma StartedRowId(db: Tables, run: Row)
    ensures Get(StartedRow(db, run), IdCol) == Get(run, IdCol)
  {
  }

  lemma NormalisedId(p: Row, r: Id)
    requires Get(p, IdCol) == Text(r)
    ensures Normalised(p).Keys == p.Keys && IdCol in Normalised(p) && Normalised(p)[IdCol] == Text(r)
  {
  }

  lemma StartedRowIsFull(db: Tables, run: Row, r: Id)
    requires FullRun(run) && Get(run, IdCol) == Text(r)
    ensures FullRun(Normalised(StartedRow(db, run)))
    ensures Get(StartedRow(db, run), IdCol) == Text(r)
    ensures Normalised(StartedRow(db, run))[IdCol] == Text(r)
  {
    StartedRowColumns(db, run);
    StartedRowId(db, run);
    NormalisedId(StartedRow(db, run), r);
  }

  lemma StartedNewRow(db: Tables, run: Row, r: Id)
    requires Keyed(db.runs) && FullRun(run) && Get(run, IdCol) == Text(r)
    ensures NewRow(db.runs, r, StartedRow(db, run)) == Normalised(StartedRow(db, run))
  {
    StartedRowIsFull(db, run, r);
    if r in db.runs {
      assert KeyedRow(r, db.runs[r]);
      FullRowOverwrites(Normalised(StartedRow(db, run)), db.runs[r]);
    }
  }

  lemma UpsertRun(db: Tables, payload: Row, r: Id)
    requires Get(payload, IdCol) == Text(r)
    ensures Upsert(db, Runs, payload) == Some(db.(runs := db.runs[r := NewRow(db.runs, r, payload)]))
  {
  }

  lemma StartedEffect(db: Tables, run: Row, r: Id)
    requires Keyed(db.runs) && FullRun(run) && Get(run, IdCol) == Text(r)
    ensures Upsert(db, Runs, StartedRow(db, run)) == Some(db.(runs := db.runs[r := Normalised(StartedRow(db, run))]))
  {
    StartedRowIsFull(db, run, r);
    UpsertRun(db, StartedRow(db, run), r);
    StartedNewRow(db, run, r);
  }

  lemma FinishEffect(db: Tables, r: Id, outcome: Row)
    requires Finish(db, r, outcome).Some?
    ensures Finish(db, r, outcome).value ==
      if r in db.runs then db.(runs := db.runs[r := WithOutcome(db.runs[r], outcome)]) else db
  {
  }

  lemma StepEffect(db: Tables, e: Event, step: Row, now: Time)
    requires CompleteStep(db, e, step, now).Some?
    requires Get(step, IdCol).Text? ==> Get(step, IdCol).s !in db.steps
    ensures Get(step, IdCol).Text? && Get(step, RunCol).Text?
    ensures CompleteStep(db, e, step, now).value ==
      EnsureRun(db, Get(step, RunCol).s, e, StepPayload(step), now)
        .(steps := db.steps[Get(step, IdCol).s := Normalised(StepPayload(step))])
  {
  }

  ghost predicate RunsUntouched(db: Tables, db': Tables) {
    db'.runs == db.runs && db'.steps == db.steps && SameRegistry(db', db)
  }

  lemma CostEffect(db: Tables, e: Event, cost: Row)
    requires RecordCost(db, e, cost).Some?
    ensures RunsUntouched(db, RecordCost(db, e, cost).value)
  {
  }

  lemma AlertEffect(db: Tables, alert: Row)
    requires UpsertAlert(db, alert).Some?
    ensures RunsUntouched(db, UpsertAlert(db, alert).value)
  {
  }

  lemma RegistryEffect(db: Tables, t: Table, id: Id, changes: Row)
    requires t.Deployments? || t.Graphs?
    ensures RunsUntouched(db, Update(db, t, id, changes))
  {
  }

  /** Registry updates, costs, alerts and the rest leave runs and steps alone. */
  predicate Aside(b: Body) {
    LifecycleRun(b).None? && !b.ExecutionStarted? && !b.StepCompleted? && Admissible(b)
  }

  lemma AsideEffect(db: Tables, e: Event, now: Time)
    requires Aside(e.body) && Apply(db, e, now).Some?
    ensures RunsUntouched(db, Apply(db, e, now).value)
  {
    match e.body
    case CostRecorded(cost) => CostEffect(db, e, cost);
    case AlertCreated(alert) => AlertEffect(db, alert);
    case AlertUpdated(alert) => AlertEffect(db, alert);
    case DeploymentUpdated(id, changes) => RegistryEffect(db, Deployments, id, changes);
    case GraphUpdated(id, changes) => RegistryEffect(db, Graphs, id, changes);
    case _ =>
  }

  lemma UntouchedEffect(db: Tables, db': Tables, e: Event, now: Time)
    requires Aside(e.body) && RunsUntouched(db, db')
    ensures Effect(db, db', e, now) && BodyOk(e.body)
  {
  }

  lemma StartedEventEffect(db: Tables, e: Event, now: Time)
    requires e.body.ExecutionStarted? && Keyed(db.runs) && Admissible(e.body) && Apply(db, e, now).Some?
    ensures Effect(db, Apply(db, e, now).value, e, now) && BodyOk(e.body)
  {
    assert Apply(db, e, now) == Upsert(db, Runs, StartedRow(db, e.body.run));
    StartedEffect(db, e.body.run, Get(e.body.run, IdCol).s);
  }

  lemma OutcomeEventEffect(db: Tables, e: Event, now: Time)
    requires IsTerminal(e.body) && Apply(db, e, now).Some?
    ensures Effect(db, Apply(db, e, now).value, e, now) && BodyOk(e.body)
  {
    assert Apply(db, e, now) == Finish(db, LifecycleRun(e.body).value, Outcome(e.body));
    FinishEffect(db, LifecycleRun(e.body).value, Outcome(e.body));
  }

  lemma StepEventEffect(db: Tables, e: Event, now: Time)
    requires e.body.StepCompleted? && Apply(db, e, now).Some?
    requires StepId(e.body).Text? ==> StepId(e.body).s !in db.steps
    ensures Effect(db, Apply(db, e, now).value, e, now) && BodyOk(e.body)
  {
    assert Apply(db, e, now) == CompleteStep(db, e, e.body.step, now);
    StepEffect(db, e, e.body.step, now);
  }

  lemma EventEffect(db: Tables, e: Event, now: Time)
    requires Keyed(db.runs) && Admissible(e.body) && Apply(db, e, now).Some?
    requires StepId(e.body).Text? ==> StepId(e.body).s !in db.steps
    ensures Effect(db, Apply(db, e, now).value, e, now)
    ensures BodyOk(e.body)
  {
    if Aside(e.body) {
      AsideEffect(db, e, now);
      UntouchedEffect(db, Apply(db, e, now).value, e, now);
    } else {
      match e.body
      case ExecutionStarted(_, _) => StartedEventEffect(db, e, now);
      case ExecutionFinished(_, _) => OutcomeEventEffect(db, e, now);
      case ExecutionFailed(_, _) => OutcomeEventEffect(db, e, now);
      case StepCompleted(_) => StepEventEffect(db, e, now);
    }
  }

  /** What an applied event must have carried. */
  predicate BodyOk(b: Body) {
    && (b.ExecutionStarted? ==> Get(b.run, IdCol).Text?)
    && (b.StepCompleted? ==> Get(b.step, IdCol).Text? && Get(b.step, RunCol).Text?)
  }

  function Outcome(b: Body): Row
    requires IsTerminal(b)
  {
    if b.ExecutionFinished? then b.outcome else b.failure
  }

  lemma OutcomeIsKeyed(r: Id, row: Row, outcome: Row)
    requires KeyedRow(r, row)
    ensures KeyedRow(r, WithOutcome(row, outcome))
  {
  }

  lemma PlaceholderIsKeyed(r: Id, e: Event, step: Row, now: Time)
    ensures KeyedRow(r, PlaceholderRow(r, e, step, now))
  {
  }

  lemma KeyedPut(runs: map<Id, Row>, r: Id, row: Row)
    requires Keyed(runs) && KeyedRow(r, row)
    ensures Keyed(runs[r := row])
  {
  }

  lemma KeyedAfterStart(db: Tables, run: Row)
    requires Keyed(db.runs) && FullRun(run) && Get(run, IdCol).Text?
    ensures Keyed(db.runs[Get(run, IdCol).s := Normalised(StartedRow(db, run))])
  {
    StartedRowIsFull(db, run, Get(run, IdCol).s);
    KeyedPut(db.runs, Get(run, IdCol).s, Normalised(StartedRow(db, run)));
  }

  lemma KeyedAfterOutcome(runs: map<Id, Row>, r: Id, outcome: Row)
    requires Keyed(runs) && r in runs
    ensures Keyed(runs[r := WithOutcome(runs[r], outcome)])
  {
    OutcomeIsKeyed(r, runs[r], outcome);
    KeyedPut(runs, r, WithOutcome(runs[r], outcome));
  }

  lemma KeyedAfterStep(runs: map<Id, Row>, r: Id, e: Event, step: Row, now: Time)
    requires Keyed(runs)
    ensures Keyed(runs[r := PlaceholderRow(r, e, step, now)])
  {
    PlaceholderIsKeyed(r, e, step, now);
    KeyedPut(runs, r, PlaceholderRow(r, e, step, now));
  }

  lemma KeyedAfter(db: Tables, e: Event, now: Time)
    requires Keyed(db.runs) && Admissible(e.body)
    ensures Keyed(RunsAfter(db, e, now))
  {
    match e.body
    case ExecutionStarted(run, _) => if Get(run, IdCol).Text? { KeyedAfterStart(db, run); }
    case ExecutionFinished(r, outcome) => if r in db.runs { KeyedAfterOutcome(db.runs, r, outcome); }
    case ExecutionFailed(r, outcome) => if r in db.runs { KeyedAfterOutcome(db.runs, r, outcome); }
    case StepCompleted(step) => if Get(step, RunCol).Text? { KeyedAfterStep(db.runs, Get(step, RunCol).s, e, StepPayload(step), now); }
    case _ =>
  }

  // ------------------------------------------------------------------ any number of events

  /** Where run `r` stands after `cs`. */
  ghost predicate RunDescribed(db0: Tables, runs: map<Id, Row>, cs: seq<Applied>, r: Id) {
    if Lifecycle(cs, r) != [] then r in runs && runs[r] == RunRow(db0, Lifecycle(cs, r))
    else if r in db0.runs then r in runs && runs[r] == db0.runs[r]
    else r in runs <==> HasStep(cs, r)
  }

  lemma StartedRowByRegistry(db0: Tables, db: Tables, run: Row)
    requires SameRegistry(db, db0)
    ensures StartedRow(db, run) == StartedRow(db0, run)
  {
  }

  lemma HasStepLast(before: seq<Applied>, a: Applied, r: Id)
    ensures HasStep(before + [a], r) <==>
      (HasStep(before, r) || (Body(a).StepCompleted? && Get(Body(a).step, RunCol) == Text(r)))
  {
    assert a in before + [a];
    if HasStep(before, r) {
      var x :| x in before && Body(x).StepCompleted? && Get(Body(x).step, RunCol) == Text(r);
      assert x in before + [a];
    }
  }

  lemma LifecycleLast(before: seq<Applied>, a: Applied, r: Id)
    ensures Lifecycle(before + [a], r) ==
      if LifecycleRun(Body(a)) == Some(r) then Lifecycle(before, r) + [a.record.event] else Lifecycle(before, r)
  {
    assert (before + [a])[..|before|] == before;
  }

  /** An event that is not a lifecycle event of `r` can only create its placeholder. */
  lemma OtherRunRow(db: Tables, e: Event, now: Time, r: Id)
    requires LifecycleRun(e.body) != Some(r) && BodyOk(e.body)
    ensures r in db.runs ==> r in RunsAfter(db, e, now) && RunsAfter(db, e, now)[r] == db.runs[r]
    ensures r in RunsAfter(db, e, now) <==> r in db.runs || (e.body.StepCompleted? && Get(e.body.step, RunCol) == Text(r))
  {
  }

  lemma OtherRunStep(db0: Tables, db: Tables, before: seq<Applied>, a: Applied, r: Id)
    requires RunDescribed(db0, db.runs, before, r) && LifecycleRun(Body(a)) != Some(r)
    requires BodyOk(Body(a))
    ensures RunDescribed(db0, RunsAfter(db, a.record.event, a.now), before + [a], r)
  {
    OtherRunRow(db, a.record.event, a.now, r);
    HasStepLast(before, a, r);
    LifecycleLast(before, a, r);
  }

  lemma StartedStep(db0: Tables, db: Tables, before: seq<Applied>, a: Applied, r: Id)
    requires LifecycleRun(Body(a)) == Some(r) && Body(a).ExecutionStarted? && SameRegistry(db, db0)
    ensures RunDescribed(db0, RunsAfter(db, a.record.event, a.now), before + [a], r)
  {
    LifecycleLast(before, a, r);
    StartedRowByRegistry(db0, db, Body(a).run);
  }

  lemma TerminalStep(db0: Tables, db: Tables, before: seq<Applied>, a: Applied, r: Id)
    requires RunDescribed(db0, db.runs, before, r)
    requires LifecycleRun(Body(a)) == Some(r) && IsTerminal(Body(a)) && Lifecycle(before, r) != []
    ensures RunDescribed(db0, RunsAfter(db, a.record.event, a.now), before + [a], r)
  {
    LifecycleLast(before, a, r);
    var h := Lifecycle(before, r);
    assert (h + [a.record.event])[..|h|] == h;
  }

  lemma RunStep(db0: Tables, db: Tables, before: seq<Applied>, a: Applied, r: Id)
    requires StartsFirst(before + [a]) && SameRegistry(db, db0) && BodyOk(Body(a))
    requires RunDescribed(db0, db.runs, before, r)
    ensures RunDescribed(db0, RunsAfter(db, a.record.event, a.now), before + [a], r)
  {
    if LifecycleRun(Body(a)) != Some(r) {
      OtherRunStep(db0, db, before, a, r);
    } else if Body(a).ExecutionStarted? {
      StartedStep(db0, db, before, a, r);
    } else {
      LifecycleLast(before, a, r);
      assert Lifecycle(before + [a], r)[0].body.ExecutionStarted?;
      TerminalStep(db0, db, before, a, r);
    }
  }

  /** When the effect of an event on runs and steps is known. */
  ghost predicate Covered(db: Tables, e: Event) {
    Keyed(db.runs) && Admissible(e.body) && (StepId(e.body).Text? ==> StepId(e.body).s !in db.steps)
  }

  /** A handler that does to runs and steps what the projector does. */
  ghost predicate Projects(c: Config<Tables>) {
    forall db: Tables, e: Event, now: Time ::
      Covered(db, e) && c.apply(db, e, now).Some? ==> Effect(db, c.apply(db, e, now).value, e, now) && BodyOk(e.body)
  }

  lemma ProjectorProjects(n: nat)
    ensures Projects(ProjectionConfig(n))
  {
    forall db: Tables, e: Event, now: Time | Covered(db, e) && Apply(db, e, now).Some?
      ensures Effect(db, Apply(db, e, now).value, e, now) && BodyOk(e.body)
    {
      EventEffect(db, e, now);
    }
  }

  /** The invariant of a projection run over `cs`. */
  ghost predicate Described(db0: Tables, db: Tables, cs: seq<Applied>) {
    && (forall r :: RunDescribed(db0, db.runs, cs, r))
    && db.steps == db0.steps + StepTable(cs)
    && SameRegistry(db, db0)
    && Keyed(db.runs)
  }

  lemma StepTableLast(steps: map<Id, Row>, before: seq<Applied>, a: Applied)
    ensures StepsAfter(steps + StepTable(before), Body(a)) == steps + StepTable(before + [a])
  {
    assert (before + [a])[..|before|] == before;
  }

  lemma DescribedStep(db0: Tables, db: Tables, db': Tables, before: seq<Applied>, a: Applied)
    requires StartsFirst(before + [a]) && Admissible(Body(a)) && Described(db0, db, before)
    requires BodyOk(Body(a)) && Effect(db, db', a.record.event, a.now)
    ensures Described(db0, db', before + [a])
  {
    forall r ensures RunDescribed(db0, db'.runs, before + [a], r) {
      RunStep(db0, db, before, a, r);
    }
    KeyedAfter(db, a.record.event, a.now);
    StepTableLast(db0.steps, before, a);
  }

  lemma {:induction false} ProjectionDescribed(c: Config<Tables>, db0: Tables, cs: seq<Applied>)
    requires Projects(c) && WellFormed(db0, cs) && Replay(c, db0, cs).Some?
    ensures Described(db0, Replay(c, db0, cs).value, cs)
    ensures forall a :: a in cs ==> BodyOk(Body(a))
  {
    if cs == [] {
      assert db0.steps + map[] == db0.steps;
    } else {
      var before, a := cs[..|cs| - 1], cs[|cs| - 1];
      WellFormedPrefix(db0, cs);
      ProjectionDescribed(c, db0, before);
      var db := Replay(c, db0, before).value;
      assert a in cs;
      NewStepIsNew(db0, cs);
      assert cs == before + [a];
      DescribedStep(db0, db, Replay(c, db0, cs).value, before, a);
    }
  }

  lemma {:induction false} StepTableHas(cs: seq<Applied>, id: Id)
    ensures id in StepTable(cs) <==> exists a :: a in cs && StepId(Body(a)) == Text(id)
  {
    if cs != [] {
      var before, a := cs[..|cs| - 1], cs[|cs| - 1];
      StepTableHas(before, id);
      assert cs == before + [a];
    }
  }

  lemma NewStepIsNew(db0: Tables, cs: seq<Applied>)
    requires cs != [] && DistinctSteps(db0, cs)
    ensures StepId(Body(cs[|cs| - 1])).Text? ==>
      StepId(Body(cs[|cs| - 1])).s !in db0.steps + StepTable(cs[..|cs| - 1])
  {
    var before, a := cs[..|cs| - 1], cs[|cs| - 1];
    if StepId(Body(a)).Text? {
      assert a in cs;
      StepTableHas(before, StepId(Body(a)).s);
      forall x | x in before ensures StepId(Body(x)) != StepId(Body(a)) {
        var i :| 0 <= i < |before| && before[i] == x;
        assert cs[i] == x;
      }
    }
  }

  // ------------------------------------------------------------------ two orders, one outcome

  ghost predicate Mentions(cs: seq<Applied>, e: Event) {
    exists a :: a in cs && a.record.event == e
  }

  /** Each run has the same lifecycle events in the same order, and the same steps were applied, at
      whatever places and clocks. */
  ghost predicate SameStory(cs1: seq<Applied>, cs2: seq<Applied>) {
    && (forall r :: Lifecycle(cs1, r) == Lifecycle(cs2, r))
    && (forall e: Event :: e.body.StepCompleted? ==> (Mentions(cs1, e) <==> Mentions(cs2, e)))
  }

  /** Steps belong to runs that were started, here or before. */
  ghost predicate StepsHaveRuns(db0: Tables, cs: seq<Applied>) {
    forall r :: HasStep(cs, r) ==> r in db0.runs || Lifecycle(cs, r) != []
  }

  lemma {:induction false} StepTableValue(cs: seq<Applied>, id: Id)
    requires id in StepTable(cs)
    ensures exists a :: a in cs && StepId(Body(a)) == Text(id) && StepTable(cs)[id] == Normalised(StepPayload(Body(a).step))
  {
    var before, a := cs[..|cs| - 1], cs[|cs| - 1];
    assert cs == before + [a];
    assert a in cs;
    if StepId(Body(a)) != Text(id) {
      StepTableValue(before, id);
      var x :| x in before && StepId(Body(x)) == Text(id) && StepTable(before)[id] == Normalised(StepPayload(Body(x).step));
      assert x in cs;
    }
  }

  lemma OneStepPerId(db0: Tables, cs: seq<Applied>, a: Applied, b: Applied)
    requires DistinctSteps(db0, cs) && a in cs && b in cs
    requires Body(a).StepCompleted? && StepId(Body(a)) == StepId(Body(b)) && StepId(Body(a)).Text?
    ensures a == b
  {
    var i :| 0 <= i < |cs| && cs[i] == a;
    var j :| 0 <= j < |cs| && cs[j] == b;
    assert StepId(Body(cs[i])) == StepId(Body(cs[j])) && Body(cs[j]).StepCompleted?;
    if i < j || j < i {
      assert false;
    }
  }

  lemma SameStepRow(db0: Tables, cs1: seq<Applied>, cs2: seq<Applied>, id: Id)
    requires SameStory(cs1, cs2) && DistinctSteps(db0, cs2) && id in StepTable(cs1)
    ensures id in StepTable(cs2) && StepTable(cs2)[id] == StepTable(cs1)[id]
  {
    StepTableValue(cs1, id);
    var a :| a in cs1 && StepId(Body(a)) == Text(id) && StepTable(cs1)[id] == Normalised(StepPayload(Body(a).step));
    assert Mentions(cs1, a.record.event);
    var b :| b in cs2 && b.record.event == a.record.event;
    StepTableHas(cs2, id);
    StepTableValue(cs2, id);
    var x :| x in cs2 && StepId(Body(x)) == Text(id) && StepTable(cs2)[id] == Normalised(StepPayload(Body(x).step));
    OneStepPerId(db0, cs2, b, x);
  }

  lemma SameStepTable(db0: Tables, cs1: seq<Applied>, cs2: seq<Applied>)
    requires SameStory(cs1, cs2) && DistinctSteps(db0, cs1) && DistinctSteps(db0, cs2)
    ensures StepTable(cs1) == StepTable(cs2)
  {
    forall id | id in StepTable(cs1) ensures id in StepTable(cs2) && StepTable(cs2)[id] == StepTable(cs1)[id] {
      SameStepRow(db0, cs1, cs2, id);
    }
    forall id | id in StepTable(cs2) ensures id in StepTable(cs1) {
      SameStepRow(db0, cs2, cs1, id);
    }
  }

  lemma SameHasStep(cs1: seq<Applied>, cs2: seq<Applied>, r: Id)
    requires SameStory(cs1, cs2) && HasStep(cs1, r)
    ensures HasStep(cs2, r)
  {
    var a :| a in cs1 && Body(a).StepCompleted? && Get(Body(a).step, RunCol) == Text(r);
    assert Mentions(cs1, a.record.event);
    var b :| b in cs2 && b.record.event == a.record.event;
    assert b in cs2 && Body(b).StepCompleted? && Get(Body(b).step, RunCol) == Text(r);
  }

  lemma SameRun(db0: Tables, runs1: map<Id, Row>, runs2: map<Id, Row>, cs1: seq<Applied>, cs2: seq<Applied>, r: Id)
    requires SameStory(cs1, cs2) && StepsHaveRuns(db0, cs1)
    requires RunDescribed(db0, runs1, cs1, r) && RunDescribed(db0, runs2, cs2, r)
    ensures r in runs1 <==> r in runs2
    ensures r in runs1 ==> runs1[r] == runs2[r]
  {
    if HasStep(cs2, r) { SameHasStep(cs2, cs1, r); }
    if HasStep(cs1, r) { SameHasStep(cs1, cs2, r); }
  }

  /** Confluence: however steps, costs, metrics and other runs' events are interleaved with the
      lifecycle events of each run, and whatever the clock read, the run and step tables end up the
      same. Any number of runs at once; placeholders made for early steps leave no trace. */
  lemma ProjectionIsConfluent(n: nat, db0: Tables, cs1: seq<Applied>, cs2: seq<Applied>)
    requires WellFormed(db0, cs1) && WellFormed(db0, cs2)
    requires Replay(ProjectionConfig(n), db0, cs1).Some? && Replay(ProjectionConfig(n), db0, cs2).Some?
    requires SameStory(cs1, cs2) && StepsHaveRuns(db0, cs1)
    ensures Replay(ProjectionConfig(n), db0, cs1).value.runs == Replay(ProjectionConfig(n), db0, cs2).value.runs
    ensures Replay(ProjectionConfig(n), db0, cs1).value.steps == Replay(ProjectionConfig(n), db0, cs2).value.steps
  {
    SameOutcome(ProjectionConfig(n), db0, cs1, cs2) by { ProjectorProjects(n); }
  }

  lemma SameOutcome(c: Config<Tables>, db0: Tables, cs1: seq<Applied>, cs2: seq<Applied>)
    requires Projects(c)
    requires WellFormed(db0, cs1) && WellFormed(db0, cs2)
    requires Replay(c, db0, cs1).Some? && Replay(c, db0, cs2).Some?
    requires SameStory(cs1, cs2) && StepsHaveRuns(db0, cs1)
    ensures Replay(c, db0, cs1).value.runs == Replay(c, db0, cs2).value.runs
    ensures Replay(c, db0, cs1).value.steps == Replay(c, db0, cs2).value.steps
  {
    ProjectionDescribed(c, db0, cs1);
    ProjectionDescribed(c, db0, cs2);
    SameStepTable(db0, cs1, cs2);
    var runs1, runs2 := Replay(c, db0, cs1).value.runs, Replay(c, db0, cs2).value.runs;
    forall r ensures (r in runs1 <==> r in runs2) && (r in runs1 ==> runs1[r] == runs2[r]) {
      SameRun(db0, runs1, runs2, cs1, cs2, r);
    }
    assert runs1.Keys == runs2.Keys;
  }

  lemma OutcomeColumn(row: Row, outcome: Row, c: Column)
    requires HasOutcome(outcome)
    ensures c in WithOutcome(row, outcome) <==> c in row || c in {StatusCol, OutputCol, FinishedCol, ErrorCol}
    ensures c in WithOutcome(row, outcome) ==>
      WithOutcome(row, outcome)[c] == (if c in {StatusCol, OutputCol, FinishedCol} then Normal(outcome[c])
       else if c == ErrorCol then Normal(Get(outcome, ErrorCol))
       else row[c])
  {
  }

  lemma StartedColumn(db: Tables, run: Row, c: Column)
    requires FullRun(run)
    ensures c in Normalised(StartedRow(db, run)) <==> c in RUN_COLUMNS
    ensures c in RUN_COLUMNS ==>
      Normalised(StartedRow(db, run))[c] == (if c == DeploymentCol then Resolve(db.deployments, run[c])
       else if c == GraphCol then Resolve(db.graphs, run[c])
       else Normal(run[c]))
  {
    var p := StartedRow(db, run);
    StartedRowColumns(db, run);
    assert c in RUN_COLUMNS && c != DeploymentCol && c != GraphCol ==> p[c] == run[c];
  }

  lemma RunRowOfTwo(db0: Tables, s: Event, t: Event)
    requires s.body.ExecutionStarted? && IsTerminal(t.body)
    ensures RunRow(db0, [s, t]) == WithOutcome(Normalised(StartedRow(db0, s.body.run)), Outcome(t.body))
  {
    assert [s, t][..1] == [s];
    assert RunRow(db0, [s]) == Normalised(StartedRow(db0, s.body.run));
  }

  /** The row a finished run ends with: the started event's columns under the outcome's. */
  lemma FinalRow(db0: Tables, s: Event, t: Event, c: Column)
    requires s.body.ExecutionStarted? && FullRun(s.body.run) && IsTerminal(t.body) && HasOutcome(Outcome(t.body))
    ensures c in RunRow(db0, [s, t]) <==> c in RUN_COLUMNS
    ensures c in RUN_COLUMNS ==>
      RunRow(db0, [s, t])[c] == (if c in {StatusCol, OutputCol, FinishedCol} then Normal(Outcome(t.body)[c])
       else if c == ErrorCol then Normal(Get(Outcome(t.body), ErrorCol))
       else if c == DeploymentCol then Resolve(db0.deployments, s.body.run[c])
       else if c == GraphCol then Resolve(db0.graphs, s.body.run[c])
       else Normal(s.body.run[c]))
  {
    RunRowOfTwo(db0, s, t);
    OutcomeColumn(Normalised(StartedRow(db0, s.body.run)), Outcome(t.body), c);
    StartedColumn(db0, s.body.run, c);
  }

  /** The order of a run's own lifecycle events does matter: a started event applied after the
      outcome, as an unguarded replay would, sets the finished run running again. */
  lemma ReplayedStartReopens(db: Tables, s: Event, now: Time, r: Id)
    requires s.body.ExecutionStarted? && Get(s.body.run, IdCol) == Text(r) && Get(s.body.run, StatusCol) == Status(Running)
    ensures Apply(db, s, now).Some? && r in Apply(db, s, now).value.runs
    ensures Get(Apply(db, s, now).value.runs[r], StatusCol) == Status(Running)
  {
  }
}
