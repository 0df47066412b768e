/** What the order of one run's lifecycle events means for the status of its row: when the started
    event is applied before every outcome, a concluded run never starts running again. */
module StatusSafety {
  import opened Events
  import opened Delivery
  import opened Projector
  import opened Confluence

  predicate Concluded(runs: map<Id, Row>, r: Id) {
    r in runs && (Get(runs[r], StatusCol) == Status(Succeeded) || Get(runs[r], StatusCol) == Status(Failed))
  }

  predicate Starts(e: Event, r: Id) {
    e.body.ExecutionStarted? && LifecycleRun(e.body) == Some(r)
  }

  predicate Concludes(e: Event, r: Id) {
    IsTerminal(e.body) && LifecycleRun(e.body) == Some(r)
  }

  /** Lifecycle events as the orchestration service builds them: started events say "running",
      outcomes say "succeeded" or "failed". */
  predicate WellStated(e: Event) {
    && (e.body.ExecutionStarted? ==> LifecycleShape(e) && Get(e.body.run, StatusCol) == Status(Running))
    && (IsTerminal(e.body) ==> LifecycleShape(e) && Concluding(e.body))
  }

  /** What applying `e` does to the status of run `r`: the row is concluded afterwards exactly when it
      was and `e` does not start the run, or it was there and `e` concludes the run. */
  ghost predicate StatusEffect(runs: map<Id, Row>, runs': map<Id, Row>, e: Event, r: Id) {
    && (r in runs ==> r in runs')
    && (Starts(e, r) ==> r in runs')
    && (Concluded(runs', r) <==> (Concluded(runs, r) && !Starts(e, r)) || (r in runs && Concludes(e, r)))
  }

  /** A handler whose effect on run statuses is the projector's. */
  ghost predicate Tracks(c: Config<Tables>) {
    forall db: Tables, e: Event, now: Time, r: Id ::
      WellStated(e) && c.apply(db, e, now).Some? ==> StatusEffect(db.runs, c.apply(db, e, now).value.runs, e, r)
  }

  lemma StartedStatus(db: Tables, run: Row, r: Id)
    requires Get(run, StatusCol) == Status(Running) && Upsert(db, Runs, StartedRow(db, run)).Some?
    ensures var runs' := Upsert(db, Runs, StartedRow(db, run)).value.runs;
      if Get(run, IdCol) == Text(r) then r in runs' && !Concluded(runs', r)
      else (r in runs' <==> r in db.runs) && (r in db.runs ==> runs'[r] == db.runs[r])
  {
    assert Get(StartedRow(db, run), StatusCol) == Status(Running);
  }

  lemma OutcomeStatus(db: Tables, e: Event, r: Id)
    requires IsTerminal(e.body) && WellStated(e) && Finish(db, LifecycleRun(e.body).value, Outcome(e.body)).Some?
    ensures StatusEffect(db.runs, Finish(db, LifecycleRun(e.body).value, Outcome(e.body)).value.runs, e, r)
  {
  }

  lemma PlaceholderStatus(db: Tables, run: Id, e: Event, step: Row, now: Time, r: Id)
    ensures var runs' := EnsureRun(db, run, e, step, now).runs;
      && (r in db.runs ==> r in runs' && runs'[r] == db.runs[r])
      && (Concluded(runs', r) ==> r in db.runs)
  {
    assert Get(PlaceholderRow(run, e, step, now), StatusCol) == Status(Running);
  }

  lemma StepStatus(db: Tables, e: Event, step: Row, now: Time, r: Id)
    requires CompleteStep(db, e, step, now).Some?
    ensures var runs' := CompleteStep(db, e, step, now).value.runs;
      && (r in db.runs ==> r in runs' && runs'[r] == db.runs[r])
      && (Concluded(runs', r) ==> r in db.runs)
  {
    PlaceholderStatus(db, Get(step, RunCol).s, e, StepPayload(step), now, r);
  }

  lemma UnlinkStatus(runs: map<Id, Row>, c: Column, id: Id, r: Id)
    requires c != StatusCol
    ensures StatusKept(runs, Unlink(runs, c, id), r)
  {
  }

  lemma DeleteStatus(db: Tables, id: Id, r: Id)
    ensures StatusKept(db.runs, DeleteDeployment(db, id).runs, r) && StatusKept(db.runs, DeleteGraph(db, id).runs, r)
  {
    UnlinkStatus(db.runs, DeploymentCol, id, r);
    UnlinkStatus(db.runs, GraphCol, id, r);
  }

  predicate StatusKept(runs: map<Id, Row>, runs': map<Id, Row>, r: Id) {
    (r in runs <==> r in runs') && (r in runs ==> Get(runs[r], StatusCol) == Get(runs'[r], StatusCol))
  }

  lemma OtherStatus(db: Tables, e: Event, now: Time)
    requires Aside(e.body) && Apply(db, e, now).Some?
    ensures Apply(db, e, now).value.runs == db.runs
  {
    AsideEffect(db, e, now);
  }

  lemma RegistryStatus(db: Tables, t: Table, row: Row)
    requires (t.Deployments? || t.Graphs?) && Upsert(db, t, row).Some?
    ensures Upsert(db, t, row).value.runs == db.runs
  {
  }

  lemma ProjectorStatus(db: Tables, e: Event, now: Time, r: Id)
    requires WellStated(e) && Apply(db, e, now).Some?
    ensures StatusEffect(db.runs, Apply(db, e, now).value.runs, e, r)
  {
    match e.body
    case ExecutionStarted(run, _) => StartedStatus(db, run, r);
    case ExecutionFinished(_, _) => OutcomeStatus(db, e, r);
    case ExecutionFailed(_, _) => OutcomeStatus(db, e, r);
    case StepCompleted(step) => StepStatus(db, e, step, now, r);
    case DeploymentDeleted(id) => DeleteStatus(db, id, r);
    case GraphDeleted(id) => DeleteStatus(db, id, r);
    case DeploymentCreated(row) => RegistryStatus(db, Deployments, row);
    case GraphCreated(row) => RegistryStatus(db, Graphs, row);
    case _ => OtherStatus(db, e, now);
  }

  lemma ProjectorTracks(n: nat)
    ensures Tracks(ProjectionConfig(n))
  {
    forall db: Tables, e: Event, now: Time, r: Id | WellStated(e) && Apply(db, e, now).Some?
      ensures StatusEffect(db.runs, Apply(db, e, now).value.runs, e, r)
    {
      ProjectorStatus(db, e, now, r);
    }
  }

  /** Exactly when one event reopens a concluded run. */
  lemma ReopensIff(db: Tables, e: Event, now: Time, r: Id)
    requires WellStated(e) && Apply(db, e, now).Some? && Concluded(db.runs, r)
    ensures !Concluded(Apply(db, e, now).value.runs, r) <==> Starts(e, r)
  {
    ProjectorStatus(db, e, now, r);
  }

  // ------------------------------------------------------------------ transactions in order

  ghost predicate AllWellStated(cs: seq<Applied>) {
    forall a :: a in cs ==> WellStated(a.record.event)
  }

  /** No started event of run `r` is applied after one of its outcomes. */
  ghost predicate StartsBeforeOutcomes(cs: seq<Applied>, r: Id) {
    forall i, j :: 0 <= i < j < |cs| && Concludes(cs[i].record.event, r) ==> !Starts(cs[j].record.event, r)
  }

  ghost predicate HasOutcomeOf(cs: seq<Applied>, r: Id) {
    exists i :: 0 <= i < |cs| && Concludes(cs[i].record.event, r)
  }

  lemma LastStatus(c: Config<Tables>, cs: seq<Applied>, r: Id)
    requires Tracks(c) && AllWellStated(cs) && Replay(c, EMPTY, cs).Some? && cs != []
    ensures AllWellStated(cs[..|cs| - 1]) && Replay(c, EMPTY, cs[..|cs| - 1]).Some?
    ensures StatusEffect(Replay(c, EMPTY, cs[..|cs| - 1]).value.runs, Replay(c, EMPTY, cs).value.runs, cs[|cs| - 1].record.event, r)
  {
    var a, db := cs[|cs| - 1], Replay(c, EMPTY, cs[..|cs| - 1]).value;
    assert a in cs;
    assert StatusEffect(db.runs, c.apply(db, a.record.event, a.now).value.runs, a.record.event, r);
  }

  /** A row is concluded only by an outcome of its run. */
  lemma {:induction false} ConcludedByOutcome(c: Config<Tables>, cs: seq<Applied>, r: Id)
    requires Tracks(c) && AllWellStated(cs) && Replay(c, EMPTY, cs).Some?
    ensures Concluded(Replay(c, EMPTY, cs).value.runs, r) ==> HasOutcomeOf(cs, r)
  {
    if cs != [] {
      var before, e := cs[..|cs| - 1], cs[|cs| - 1].record.event;
      LastStatus(c, cs, r);
      ConcludedByOutcome(c, before, r);
      if Concluded(Replay(c, EMPTY, cs).value.runs, r) && !Concludes(e, r) {
        var i :| 0 <= i < |before| && Concludes(before[i].record.event, r);
        assert Concludes(cs[i].record.event, r);
      }
    }
  }

  /** Status safety of a replay: a run that is concluded after some of the transactions stays
      concluded after all of them. */
  lemma {:induction false} ConcludedStays(c: Config<Tables>, cs: seq<Applied>, k: nat, r: Id)
    requires Tracks(c) && AllWellStated(cs) && StartsBeforeOutcomes(cs, r) && Replay(c, EMPTY, cs).Some?
    requires k <= |cs| && Replay(c, EMPTY, cs[..k]).Some? && Concluded(Replay(c, EMPTY, cs[..k]).value.runs, r)
    ensures Concluded(Replay(c, EMPTY, cs).value.runs, r)
  {
    if k == |cs| {
      assert cs[..k] == cs;
    } else {
      var before, e := cs[..|cs| - 1], cs[|cs| - 1].record.event;
      assert before[..k] == cs[..k];
      LastStatus(c, cs, r);
      ConcludedStays(c, before, k, r);
      ConcludedByOutcome(c, before, r);
      var i :| 0 <= i < |before| && Concludes(before[i].record.event, r);
      assert Concludes(cs[i].record.event, r);
    }
  }

  lemma {:induction false} ReplayPrefix<M>(c: Config<M>, m0: M, cs: seq<Applied>, k: nat)
    requires Replay(c, m0, cs).Some? && k <= |cs|
    ensures Replay(c, m0, cs[..k]).Some?
  {
    if k == |cs| {
      assert cs[..k] == cs;
    } else {
      assert cs[..|cs| - 1][..k] == cs[..k];
      ReplayPrefix(c, m0, cs[..|cs| - 1], k);
    }
  }

  lemma {:induction false} RowStays(c: Config<Tables>, cs: seq<Applied>, k: nat, r: Id)
    requires Tracks(c) && AllWellStated(cs) && Replay(c, EMPTY, cs).Some?
    requires k < |cs| && Starts(cs[k].record.event, r)
    ensures r in Replay(c, EMPTY, cs).value.runs
  {
    LastStatus(c, cs, r);
    if k < |cs| - 1 { RowStays(c, cs[..|cs| - 1], k, r); }
  }

  lemma OutcomeLast(c: Config<Tables>, cs: seq<Applied>, i: nat, r: Id)
    requires Tracks(c) && AllWellStated(cs) && Replay(c, EMPTY, cs).Some?
    requires i < |cs| - 1 && Starts(cs[i].record.event, r) && Concludes(cs[|cs| - 1].record.event, r)
    ensures Concluded(Replay(c, EMPTY, cs).value.runs, r)
  {
    LastStatus(c, cs, r);
    RowStays(c, cs[..|cs| - 1], i, r);
  }

  /** Once a run's started event and one of its outcomes have been applied, in that order, its row
      is concluded. */
  lemma StartedAndOutcomeConclude(c: Config<Tables>, cs: seq<Applied>, i: nat, j: nat, r: Id)
    requires Tracks(c) && AllWellStated(cs) && StartsBeforeOutcomes(cs, r) && Replay(c, EMPTY, cs).Some?
    requires i < j < |cs| && Starts(cs[i].record.event, r) && Concludes(cs[j].record.event, r)
    ensures Concluded(Replay(c, EMPTY, cs).value.runs, r)
  {
    var upTo := cs[..j + 1];
    ReplayPrefix(c, EMPTY, cs, j + 1);
    assert upTo[i] == cs[i] && upTo[|upTo| - 1] == cs[j];
    assert AllWellStated(upTo) by { assert forall a :: a in upTo ==> a in cs; }
    OutcomeLast(c, upTo, i, r);
    ConcludedStays(c, cs, j + 1, r);
  }

  // ------------------------------------------------------------------ exactly when a run is reopened

  /** The run table after the first `k` transactions. */
  ghost function RunsAt(c: Config<Tables>, cs: seq<Applied>, k: nat): map<Id, Row>
    requires k <= |cs| && Replay(c, EMPTY, cs).Some?
  {
    ReplayPrefix(c, EMPTY, cs, k);
    Replay(c, EMPTY, cs[..k]).value.runs
  }

  /** Concluded at some point and not at some later one. */
  ghost predicate Reopened(c: Config<Tables>, cs: seq<Applied>, r: Id)
    requires Replay(c, EMPTY, cs).Some?
  {
    exists a: nat, b: nat :: a <= b <= |cs| && Concluded(RunsAt(c, cs, a), r) && !Concluded(RunsAt(c, cs, b), r)
  }

  /** An outcome applied to a present row, and a started event of the run after it. */
  ghost predicate OutcomeThenStart(c: Config<Tables>, cs: seq<Applied>, r: Id)
    requires Replay(c, EMPTY, cs).Some?
  {
    exists i: nat, j: nat :: i < j < |cs| && OutcomeAt(c, cs, r, i) && Starts(cs[j].record.event, r)
  }

  ghost predicate OutcomeAt(c: Config<Tables>, cs: seq<Applied>, r: Id, i: nat)
    requires i < |cs| && Replay(c, EMPTY, cs).Some?
  {
    Concludes(cs[i].record.event, r) && r in RunsAt(c, cs, i)
  }

  lemma StatusAt(c: Config<Tables>, cs: seq<Applied>, r: Id, k: nat)
    requires Tracks(c) && AllWellStated(cs) && Replay(c, EMPTY, cs).Some? && k < |cs|
    ensures StatusEffect(RunsAt(c, cs, k), RunsAt(c, cs, k + 1), cs[k].record.event, r)
  {
    ReplayPrefix(c, EMPTY, cs, k + 1);
    var upTo := cs[..k + 1];
    assert AllWellStated(upTo) by { assert forall a :: a in upTo ==> a in cs; }
    assert upTo[..|upTo| - 1] == cs[..k] && upTo[|upTo| - 1] == cs[k];
    LastStatus(c, upTo, r);
  }

  lemma {:induction false} ConcludedHasOutcome(c: Config<Tables>, cs: seq<Applied>, r: Id, k: nat) returns (i: nat)
    requires Tracks(c) && AllWellStated(cs) && Replay(c, EMPTY, cs).Some? && k <= |cs| && Concluded(RunsAt(c, cs, k), r)
    ensures i < k && OutcomeAt(c, cs, r, i)
  {
    assert cs[..0] == [];
    if k == 0 {
      assert false;
    } else {
      StatusAt(c, cs, r, k - 1);
      if OutcomeAt(c, cs, r, k - 1) { i := k - 1; } else { i := ConcludedHasOutcome(c, cs, r, k - 1); }
    }
  }

  lemma {:induction false} ReopenedByStart(c: Config<Tables>, cs: seq<Applied>, r: Id, a: nat, b: nat) returns (j: nat)
    requires Tracks(c) && AllWellStated(cs) && Replay(c, EMPTY, cs).Some?
    requires a <= b <= |cs| && Concluded(RunsAt(c, cs, a), r) && !Concluded(RunsAt(c, cs, b), r)
    ensures a <= j < b && Starts(cs[j].record.event, r)
  {
    StatusAt(c, cs, r, b - 1);
    if Starts(cs[b - 1].record.event, r) { j := b - 1; } else { j := ReopenedByStart(c, cs, r, a, b - 1); }
  }

  lemma ReopenedNeeds(c: Config<Tables>, cs: seq<Applied>, r: Id)
    requires Tracks(c) && AllWellStated(cs) && Replay(c, EMPTY, cs).Some? && Reopened(c, cs, r)
    ensures OutcomeThenStart(c, cs, r)
  {
    var a: nat, b: nat :| a <= b <= |cs| && Concluded(RunsAt(c, cs, a), r) && !Concluded(RunsAt(c, cs, b), r);
    var i := ConcludedHasOutcome(c, cs, r, a);
    var j := ReopenedByStart(c, cs, r, a, b);
    assert i < j;
  }

  lemma StartReopens(c: Config<Tables>, cs: seq<Applied>, r: Id)
    requires Tracks(c) && AllWellStated(cs) && Replay(c, EMPTY, cs).Some? && OutcomeThenStart(c, cs, r)
    ensures Reopened(c, cs, r)
  {
    var i: nat, j: nat :| i < j < |cs| && OutcomeAt(c, cs, r, i) && Starts(cs[j].record.event, r);
    StatusAt(c, cs, r, i);
    StatusAt(c, cs, r, j);
    assert Concluded(RunsAt(c, cs, i + 1), r) && !Concluded(RunsAt(c, cs, j + 1), r);
  }

  /** A run is concluded at some point of a replay and not at a later one exactly when an outcome was
      applied to its row and one of its started events was applied after that. */
  lemma ReopenedIff(c: Config<Tables>, cs: seq<Applied>, r: Id)
    requires Tracks(c) && AllWellStated(cs) && Replay(c, EMPTY, cs).Some?
    ensures Reopened(c, cs, r) <==> OutcomeThenStart(c, cs, r)
  {
    if Reopened(c, cs, r) {
      ReopenedNeeds(c, cs, r);
    } else if OutcomeThenStart(c, cs, r) {
      StartReopens(c, cs, r);
    }
  }
}
