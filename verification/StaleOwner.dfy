/** Why status safety asks for one owner at a time: a worker that still holds a started event after
    its partition was given to another worker can reopen a concluded run. */
module StaleOwner {
  import opened Events
  import opened Delivery
  import opened Projector
  import opened Confluence
  import opened Protocol
  import opened ProtocolCoverage
  import opened StatusSafety

  const RUNS: TP := TP(AgentExecutions, 0)
  const STEPS: TP := TP(AgentSteps, 0)

  function Fresh(logs: Logs): Node<Tables> {
    Node(logs, Group(World({}, EMPTY, [], map[RUNS := 0, STEPS := 0], [], []), map[RUNS := 0, STEPS := 0], map[]))
  }

  lemma Polls(c: Config<Tables>, n: Node<Tables>, moves0: seq<Move>, s0: Node<Tables>, w: WorkerId, tp: TP, count: nat) returns (moves: seq<Move>, s: Node<Tables>)
    requires Run(c, n, moves0) == Some(s0) && count <= |At(s0.logs, tp)|
    requires Of(s0.group, w).phase.Polling? && Of(s0.group, w).batch == []
    requires tp in Of(s0.group, w).positions && Of(s0.group, w).positions[tp] == 0
    ensures Run(c, n, moves) == Some(s) && moves0 <= moves && s.logs == s0.logs && s.group.world == s0.group.world
    ensures s.group.workers == s0.group.workers[w := Worker(Of(s0.group, w).positions[tp := count], Slice(s0.logs, tp, 0, count), Polling)]
  {
    moves, s := Then(c, n, moves0, s0, Act(w, Fetch(tp, count)));
    assert [] + Slice(s0.logs, tp, 0, count) == Slice(s0.logs, tp, 0, count);
  }

  /** An idle worker takes `count` records of a partition whose committed offset is 0. */
  lemma Takes(c: Config<Tables>, n: Node<Tables>, moves0: seq<Move>, s0: Node<Tables>, w: WorkerId, tp: TP, count: nat) returns (moves: seq<Move>, s: Node<Tables>)
    requires Run(c, n, moves0) == Some(s0) && 1 <= count <= |At(s0.logs, tp)|
    requires Of(s0.group, w).phase.Polling? && Of(s0.group, w).batch == [] && tp !in Of(s0.group, w).positions
    requires tp in s0.group.world.offsets && s0.group.world.offsets[tp] == 0
    ensures Run(c, n, moves) == Some(s) && moves0 <= moves && s.logs == s0.logs && s.group.world == s0.group.world
    ensures s.group.workers == s0.group.workers[w := Worker(Of(s0.group, w).positions[tp := count], Slice(s0.logs, tp, 0, count), Attempting(1))]
  {
    var k := Of(s0.group, w);
    moves, s := Then(c, n, moves0, s0, Act(w, Assign(tp)));
    moves, s := Polls(c, n, moves, s, w, tp, count);
    moves, s := Then(c, n, moves, s, Act(w, Begin));
    assert k.positions[tp := 0][tp := count] == k.positions[tp := count];
  }

  /** Attempt after attempt fails at the lookup. */
  lemma {:induction false} FailsAll(c: Config<Tables>, n: Node<Tables>, moves0: seq<Move>, s0: Node<Tables>, w: WorkerId, i: nat) returns (moves: seq<Move>, s: Node<Tables>)
    requires Run(c, n, moves0) == Some(s0) && 1 <= i <= c.maxRetries
    requires Of(s0.group, w).batch != [] && Of(s0.group, w).phase == Attempting(i)
    ensures Run(c, n, moves) == Some(s) && moves0 <= moves && s.logs == s0.logs && s.group.world == s0.group.world
    ensures s.group.workers == s0.group.workers[w := Of(s0.group, w).(phase := Failing(c.maxRetries, LookupError))]
    decreases c.maxRetries - i
  {
    moves, s := Then(c, n, moves0, s0, Act(w, Lookup(true)));
    if i < c.maxRetries {
      moves, s := Then(c, n, moves, s, Act(w, Retry));
      moves, s := FailsAll(c, n, moves, s, w, i + 1);
    }
  }

  /** A worker whose attempts all fail dead-letters the head of its batch and goes on to the next record. */
  lemma GivesUp(c: Config<Tables>, n: Node<Tables>, moves0: seq<Move>, s0: Node<Tables>, w: WorkerId) returns (moves: seq<Move>, s: Node<Tables>)
    requires Run(c, n, moves0) == Some(s0) && 1 <= c.maxRetries
    requires |Of(s0.group, w).batch| == 2 && Of(s0.group, w).phase == Attempting(1)
    ensures Run(c, n, moves) == Some(s) && moves0 <= moves && s.logs == s0.logs
    ensures s.group.world.model == s0.group.world.model && s.group.world.rows == s0.group.world.rows
    ensures s.group.workers == s0.group.workers[w := Worker(Of(s0.group, w).positions, Of(s0.group, w).batch[1..], Attempting(1))]
  {
    var k := Of(s0.group, w);
    moves, s := FailsAll(c, n, moves0, s0, w, 1);
    moves, s := Then(c, n, moves, s, Act(w, PublishDeadLetter(Fine)));
    moves, s := Then(c, n, moves, s, Act(w, OffsetCommit(Fine)));
    assert s.group.workers == s0.group.workers[w := Worker(k.positions, k.batch[1..], Attempting(1))];
  }

  lemma Finishes(c: Config<Tables>, n: Node<Tables>, moves0: seq<Move>, s0: Node<Tables>, w: WorkerId) returns (moves: seq<Move>, s: Node<Tables>)
    requires Run(c, n, moves0) == Some(s0)
    requires |Of(s0.group, w).batch| == 1 && Of(s0.group, w).phase == Settled(1) && Of(s0.group, w).batch[0].tp != RUNS
    ensures Run(c, n, moves) == Some(s) && moves0 <= moves && s.logs == s0.logs
    ensures s.group.world.model == s0.group.world.model && s.group.world.rows == s0.group.world.rows
    ensures RUNS in s0.group.world.offsets ==> RUNS in s.group.world.offsets && s.group.world.offsets[RUNS] == s0.group.world.offsets[RUNS]
    ensures s.group.workers == s0.group.workers[w := Worker(Of(s0.group, w).positions, [], Polling)]
  {
    moves, s := Then(c, n, moves0, s0, Act(w, OffsetCommit(Fine)));
  }

  /** Worker 0 holds the started event; worker 1 applies the step, dead-letters the started event,
      applies the outcome; then worker 0 commits. `early` is the state before that commit. */
  lemma StaleCommit(c: Config<Tables>, start: Event, outcome: Event, step: Event, db1: Tables, db2: Tables, db3: Tables)
    returns (moves: seq<Move>, early: seq<Move>)
    requires 1 <= c.maxRetries && c.complete(start, []) && c.complete(outcome, []) && c.complete(step, [])
    requires start.eventId != outcome.eventId && start.eventId != step.eventId && outcome.eventId != step.eventId
    requires c.apply(EMPTY, step, 0) == Some(db1) && c.apply(db1, outcome, 0) == Some(db2) && c.apply(db2, start, 0) == Some(db3)
    ensures var n := Fresh(map[RUNS := [start, outcome], STEPS := [step]]);
      && early <= moves
      && Run(c, n, early).Some? && Run(c, n, early).value.group.world.model == db2
      && Run(c, n, moves).Some? && Run(c, n, moves).value.group.world.model == db3
  {
    var n := Fresh(map[RUNS := [start, outcome], STEPS := [step]]);
    var m1, s1 := Takes(c, n, [], n, 0, RUNS, 1);
    var m2, s2 := Handles(c, n, m1, s1, 0);
    var m3, s3 := Takes(c, n, m2, s2, 1, STEPS, 1);
    var m4, s4 := Handles(c, n, m3, s3, 1);
    var m5, s5 := Commits(c, n, m4, s4, 1, db1);
    var m6, s6 := Finishes(c, n, m5, s5, 1);
    var m7, s7 := Takes(c, n, m6, s6, 1, RUNS, 2);
    var m8, s8 := GivesUp(c, n, m7, s7, 1);
    var m9, s9 := Handles(c, n, m8, s8, 1);
    var m10, s10 := Commits(c, n, m9, s9, 1, db2);
    early := m10;
    var m11, s11 := Commits(c, n, m10, s10, 0, db3);
    moves := m11;
  }

  const START: Event := Event("e1", "r", "c", "t", ExecutionStarted(
    map[IdCol := Text("r"), DeploymentCol := Null, GraphCol := Text("g"), StatusCol := Status(Running), InputCol := Dict(map[]),
        OutputCol := Null, StartedCol := Instant(0), FinishedCol := Null, CorrelationCol := Text("c"), TraceCol := Text("t"), ErrorCol := Null],
    RuntimeContext(false, Null, Null, Null)))

  const OUTCOME: Event := Event("e2", "r", "c", "t", ExecutionFinished("r",
    map[StatusCol := Status(Succeeded), OutputCol := Null, FinishedCol := Instant(2), ErrorCol := Null]))

  const STEP: Event := Event("e3", "s", "c", "t", StepCompleted(
    map[IdCol := Text("s"), RunCol := Text("r"), StartedCol := Instant(1), TraceCol := Text("t")]))

  lemma StepMakesRow()
    ensures Apply(EMPTY, STEP, 0).Some? && "r" in Apply(EMPTY, STEP, 0).value.runs
  {
    assert Get(STEP.body.step, RunCol) == Text("r") && Get(STEP.body.step, IdCol) == Text("s");
    OutOfOrderIsTolerated(EMPTY, STEP, 0);
    StepEventEffect(EMPTY, STEP, 0);
  }

  lemma OutcomeConcludes(db: Tables)
    requires "r" in db.runs
    ensures Apply(db, OUTCOME, 0).Some? && Concluded(Apply(db, OUTCOME, 0).value.runs, "r") && WellStated(OUTCOME)
  {
    assert WellStated(OUTCOME) && Concludes(OUTCOME, "r");
    OutOfOrderIsTolerated(db, OUTCOME, 0);
    ProjectorStatus(db, OUTCOME, 0, "r");
  }

  lemma StartedReopens(db: Tables)
    ensures Apply(db, START, 0).Some? && !Concluded(Apply(db, START, 0).value.runs, "r") && WellStated(START)
  {
    assert Get(START.body.run, IdCol) == Text("r") && Get(START.body.run, StatusCol) == Status(Running);
    ReplayedStartReopens(db, START, 0, "r");
  }

  lemma ThreeStates(c: Config<Tables>, retries: nat) returns (db1: Tables, db2: Tables, db3: Tables)
    requires c == ProjectionConfig(retries)
    ensures c.apply(EMPTY, STEP, 0) == Some(db1) && c.apply(db1, OUTCOME, 0) == Some(db2) && c.apply(db2, START, 0) == Some(db3)
    ensures Concluded(db2.runs, "r") && !Concluded(db3.runs, "r") && WellStated(START) && WellStated(OUTCOME)
  {
    StepMakesRow();
    db1 := Apply(EMPTY, STEP, 0).value;
    OutcomeConcludes(db1);
    db2 := Apply(db1, OUTCOME, 0).value;
    StartedReopens(db2);
    db3 := Apply(db2, START, 0).value;
  }

  /** Without single ownership status safety fails, whatever the retry budget: there is a run of the
      projection group, from a fresh state over well-formed topics, in which a run's row is succeeded and
      later running. */
  lemma StaleOwnerReopens(c: Config<Tables>, retries: nat) returns (n: Node<Tables>, moves: seq<Move>, early: seq<Move>)
    requires 1 <= retries && c == ProjectionConfig(retries)
    ensures Init(c, EMPTY, n) && early <= moves
    ensures n.logs == map[RUNS := [START, OUTCOME], STEPS := [STEP]] && WellStated(START) && WellStated(OUTCOME)
    ensures Run(c, n, early).Some? && Concluded(Run(c, n, early).value.group.world.model.runs, "r")
    ensures Run(c, n, moves).Some? && !Concluded(Run(c, n, moves).value.group.world.model.runs, "r")
  {
    n := Fresh(map[RUNS := [START, OUTCOME], STEPS := [STEP]]);
    var db1, db2, db3 := ThreeStates(c, retries);
    moves, early := StaleCommit(c, START, OUTCOME, STEP, db1, db2, db3);
  }
}
