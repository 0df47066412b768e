/** The execution loop as a whole: the API publishes started events, the execution workers run the
    workflow and publish what it publishes, the projection workers build the read model, all over
    the same partition logs. */
module Composition {
  import opened Events
  import opened Delivery
  import opened Projector
  import opened Confluence
  import opened Protocol
  import opened ProtocolSafety
  import opened ProtocolCoverage
  import opened ProtocolOrder
  import opened StatusSafety
  import Workflow

  /** The execution workers keep no rows of their own. */
  datatype Nothing = Nothing

  function RequestOf(e: Event): Workflow.Request
    requires e.body.ExecutionStarted?
  {
    Workflow.Request(e.entityId, e.correlationId, e.traceId, e.body.context)
  }

  /** What a call of the execution handler may have published so far, over every behaviour of the
      gateway and the publisher, and what it has published when it returns. */
  ghost predicate MayPublish(e: Event, out: seq<Event>) {
    e.body.ExecutionStarted? && exists env :: out <= Workflow.RunWorkflow(env, RequestOf(e)).trace
  }

  ghost predicate Handled(e: Event, out: seq<Event>) {
    if e.body.ExecutionStarted? then
      exists env :: Workflow.RunWorkflow(env, RequestOf(e)).ok && Workflow.RunWorkflow(env, RequestOf(e)).trace == out
    else out == []
  }

  ghost function ExecutionConfig(maxRetries: nat): Config<Nothing> {
    Config("execution-consumers", maxRetries, (m, e, now) => Some(m), (e, out) => MayPublish(e, out), (e, out) => Handled(e, out))
  }

  /** `part` is the broker's partitioner. */
  datatype Setup = Setup(part: Value -> nat, execution: Config<Nothing>, projection: Config<Tables>)

  ghost function Platform(maxRetries: nat, part: Value -> nat): Setup {
    Setup(part, ExecutionConfig(maxRetries), ProjectionConfig(maxRetries))
  }

  function Place(u: Setup, e: Event): TP {
    TP(TopicOf(e.body), u.part(DefaultPartitionKey(e)))
  }

  function Append(u: Setup, logs: Logs, e: Event): Logs {
    logs[Place(u, e) := At(logs, Place(u, e)) + [e]]
  }

  datatype Sys = Sys(logs: Logs, execution: Group<Nothing>, projection: Group<Tables>)

  datatype Step =
    | Create(started: Event)
    | Publish(other: Event)
    | Execute(w: WorkerId, does: Label)
    | Project(p: WorkerId, projects: Label)

  /** Identifiers are fresh when they are first used (`uuid4`). */
  ghost predicate FreshId(logs: Logs, id: Id) {
    forall r :: InLog(logs, r) ==> r.event.eventId != id
  }

  ghost predicate FreshRun(logs: Logs, run: Id) {
    forall r :: InLog(logs, r) ==> !Starts(r.event, run)
  }

  ghost predicate CanDo(u: Setup, s: Sys, m: Step) {
    match m
    case Create(e) => e.body.ExecutionStarted? && WellStated(e) && FreshRun(s.logs, e.entityId) && FreshId(s.logs, e.eventId)
    case Publish(e) => LifecycleRun(e.body).None? && !e.body.ExecutionStarted? && FreshId(s.logs, e.eventId)
    case Execute(w, l) => Possible(u.execution, Node(s.logs, s.execution), Act(w, l)) && (l.Emit? ==> FreshId(s.logs, l.event.eventId))
    case Project(w, l) => Possible(u.projection, Node(s.logs, s.projection), Act(w, l))
  }

  /** What the execution workers publish goes to the topics they share with everyone else. */
  ghost function After(u: Setup, s: Sys, m: Step): Sys
    requires CanDo(u, s, m)
  {
    match m
    case Create(e) => s.(logs := Append(u, s.logs, e))
    case Publish(e) => s.(logs := Append(u, s.logs, e))
    case Execute(w, l) =>
      s.(execution := Do(u.execution, s.logs, s.execution, w, l), logs := if l.Emit? then Append(u, s.logs, l.event) else s.logs)
    case Project(w, l) => s.(projection := Do(u.projection, s.logs, s.projection, w, l))
  }

  ghost function RunAll(u: Setup, s: Sys, ms: seq<Step>): Option<Sys> {
    if ms == [] then Some(s)
    else
      match RunAll(u, s, ms[..|ms| - 1])
      case None => None
      case Some(t) => if CanDo(u, t, ms[|ms| - 1]) then Some(After(u, t, ms[|ms| - 1])) else None
  }

  // ------------------------------------------------------------------ each group sees a run of its own

  function ExecutionMove(u: Setup, m: Step): seq<Move> {
    match m
    case Create(e) => [Grow(Place(u, e), e)]
    case Publish(e) => [Grow(Place(u, e), e)]
    case Execute(w, l) => if l.Emit? then [Act(w, l), Grow(Place(u, l.event), l.event)] else [Act(w, l)]
    case Project(_, _) => []
  }

  function ProjectionMove(u: Setup, m: Step): seq<Move> {
    match m
    case Create(e) => [Grow(Place(u, e), e)]
    case Publish(e) => [Grow(Place(u, e), e)]
    case Execute(_, l) => if l.Emit? then [Grow(Place(u, l.event), l.event)] else []
    case Project(w, l) => [Act(w, l)]
  }

  function ExecutionMoves(u: Setup, ms: seq<Step>): seq<Move> {
    if ms == [] then [] else ExecutionMoves(u, ms[..|ms| - 1]) + ExecutionMove(u, ms[|ms| - 1])
  }

  function ProjectionMoves(u: Setup, ms: seq<Step>): seq<Move> {
    if ms == [] then [] else ProjectionMoves(u, ms[..|ms| - 1]) + ProjectionMove(u, ms[|ms| - 1])
  }

  /** Publishing from a handler is a move of the group, and then one of the topic's log. */
  lemma {:induction false} EmitStep(u: Setup, n: Node<Nothing>, moves: seq<Move>, s: Sys, m: Step)
    requires CanDo(u, s, m) && m.Execute? && m.does.Emit? && Run(u.execution, n, moves) == Some(Node(s.logs, s.execution))
    ensures Run(u.execution, n, moves + ExecutionMove(u, m)) == Some(Node(After(u, s, m).logs, After(u, s, m).execution))
  {
    var act, grow := Act(m.w, m.does), Grow(Place(u, m.does.event), m.does.event);
    var ms1, t1 := Then(u.execution, n, moves, Node(s.logs, s.execution), act);
    var ms2, t2 := Then(u.execution, n, ms1, t1, grow);
    assert moves + [act, grow] == moves + [act] + [grow];
  }

  lemma {:induction false} ExecutionStep(u: Setup, n: Node<Nothing>, moves: seq<Move>, s: Sys, m: Step)
    requires CanDo(u, s, m) && Run(u.execution, n, moves) == Some(Node(s.logs, s.execution))
    ensures Run(u.execution, n, moves + ExecutionMove(u, m)) == Some(Node(After(u, s, m).logs, After(u, s, m).execution))
  {
    if m.Project? {
      assert moves + [] == moves;
    } else if m.Execute? && m.does.Emit? {
      EmitStep(u, n, moves, s, m);
    } else {
      var ms1, t1 := Then(u.execution, n, moves, Node(s.logs, s.execution), ExecutionMove(u, m)[0]);
    }
  }

  lemma {:induction false} ProjectionStep(u: Setup, n: Node<Tables>, moves: seq<Move>, s: Sys, m: Step)
    requires CanDo(u, s, m) && Run(u.projection, n, moves) == Some(Node(s.logs, s.projection))
    ensures Run(u.projection, n, moves + ProjectionMove(u, m)) == Some(Node(After(u, s, m).logs, After(u, s, m).projection))
  {
    if m.Execute? && !m.does.Emit? {
      assert moves + [] == moves;
    } else {
      var ms1, t1 := Then(u.projection, n, moves, Node(s.logs, s.projection), ProjectionMove(u, m)[0]);
    }
  }

  /** The composed system, seen by one consumer group, is a run of that group's protocol. */
  lemma {:induction false} GroupsRun(u: Setup, s0: Sys, ms: seq<Step>)
    requires RunAll(u, s0, ms).Some?
    ensures var s := RunAll(u, s0, ms).value;
      && Run(u.execution, Node(s0.logs, s0.execution), ExecutionMoves(u, ms)) == Some(Node(s.logs, s.execution))
      && Run(u.projection, Node(s0.logs, s0.projection), ProjectionMoves(u, ms)) == Some(Node(s.logs, s.projection))
  {
    if ms != [] {
      var before := ms[..|ms| - 1];
      GroupsRun(u, s0, before);
      var t := RunAll(u, s0, before).value;
      ExecutionStep(u, Node(s0.logs, s0.execution), ExecutionMoves(u, before), t, ms[|ms| - 1]);
      ProjectionStep(u, Node(s0.logs, s0.projection), ProjectionMoves(u, before), t, ms[|ms| - 1]);
    }
  }

  // ------------------------------------------------------------------ what the topics may hold

  /** The started event of a run, before offset `o` of the partition it shares with its outcomes. */
  ghost predicate StartedBefore(logs: Logs, run: Id, o: nat) {
    exists s :: InLog(logs, s) && Starts(s.event, run) && s.offset < o
  }

  ghost predicate LoggedOk(u: Setup, logs: Logs, r: Record) {
    && r.tp == Place(u, r.event)
    && WellStated(r.event)
    && (IsTerminal(r.event.body) ==> StartedBefore(logs, r.event.entityId, r.offset))
  }

  ghost predicate LogOk(u: Setup, logs: Logs) {
    && (forall r :: InLog(logs, r) ==> LoggedOk(u, logs, r))
    && (forall r, s :: InLog(logs, r) && InLog(logs, s) && r.event.eventId == s.event.eventId ==> r == s)
    && (forall r, s, run :: InLog(logs, r) && InLog(logs, s) && Starts(r.event, run) && Starts(s.event, run) ==> r == s)
  }

  lemma AppendInLog(u: Setup, logs: Logs, e: Event, r: Record)
    ensures InLog(Append(u, logs, e), r) <==> InLog(logs, r) || r == Record(Place(u, e), |At(logs, Place(u, e))|, e)
  {
  }

  ghost predicate KnownRun(logs: Logs, run: Id) {
    exists s :: InLog(logs, s) && Starts(s.event, run)
  }

  lemma AppendOk(u: Setup, logs: Logs, e: Event)
    requires LogOk(u, logs) && FreshId(logs, e.eventId) && WellStated(e)
    requires e.body.ExecutionStarted? ==> FreshRun(logs, e.entityId)
    requires IsTerminal(e.body) ==> KnownRun(logs, e.entityId)
    ensures LogOk(u, Append(u, logs, e))
  {
    var logs' := Append(u, logs, e);
    var last := Record(Place(u, e), |At(logs, Place(u, e))|, e);
    forall r | InLog(logs', r) ensures LoggedOk(u, logs', r) {
      AppendInLog(u, logs, e, r);
      if r != last {
        assert LoggedOk(u, logs, r);
        StartedBeforeGrows(u, logs, e, r);
      } else if IsTerminal(e.body) {
        OutcomeAtEnd(u, logs, e);
      }
    }
    forall r, s | InLog(logs', r) && InLog(logs', s) && r.event.eventId == s.event.eventId ensures r == s {
      AppendInLog(u, logs, e, r);
      AppendInLog(u, logs, e, s);
    }
    forall r, s, run | InLog(logs', r) && InLog(logs', s) && Starts(r.event, run) && Starts(s.event, run) ensures r == s {
      AppendInLog(u, logs, e, r);
      AppendInLog(u, logs, e, s);
    }
  }

  lemma StartedBeforeGrows(u: Setup, logs: Logs, e: Event, r: Record)
    requires LoggedOk(u, logs, r)
    ensures LoggedOk(u, Append(u, logs, e), r)
  {
    if IsTerminal(r.event.body) {
      var s :| InLog(logs, s) && Starts(s.event, r.event.entityId) && s.offset < r.offset;
      AppendInLog(u, logs, e, s);
    }
  }

  /** Started and terminal events of one run share a partition, so an outcome lands after the start. */
  lemma OutcomeAtEnd(u: Setup, logs: Logs, e: Event)
    requires LogOk(u, logs) && WellStated(e) && IsTerminal(e.body) && KnownRun(logs, e.entityId)
    ensures StartedBefore(Append(u, logs, e), e.entityId, |At(logs, Place(u, e))|)
  {
    var s :| InLog(logs, s) && Starts(s.event, e.entityId);
    assert LoggedOk(u, logs, s);
    LifecycleKey(e);
    LifecycleKey(s.event);
    AppendInLog(u, logs, e, s);
  }

  // ------------------------------------------------------------------ the workflow's publications

  /** A handler that only publishes for the run it was started for, and returns only after an outcome. */
  ghost predicate Executes(x: Config<Nothing>) {
    && (forall e, out, d :: x.mayEmit(e, out) && d in out ==> EmittedFor(d, e))
    && (forall e, out :: x.complete(e, out) && e.body.ExecutionStarted? ==> Workflow.HasTerminal(out, e.entityId))
  }

  predicate EmittedFor(d: Event, e: Event) {
    e.body.ExecutionStarted? && !d.body.ExecutionStarted? &&
    (IsTerminal(d.body) ==> WellStated(d) && d.entityId == e.entityId)
  }

  lemma WorkflowExecutes(n: nat)
    ensures Executes(ExecutionConfig(n))
  {
    forall e, out: seq<Event>, d | MayPublish(e, out) && d in out ensures EmittedFor(d, e) {
      var env :| out <= Workflow.RunWorkflow(env, RequestOf(e)).trace;
      Workflow.LifecycleOfTrace(env, RequestOf(e), d);
    }
    forall e, out | Handled(e, out) && e.body.ExecutionStarted? ensures Workflow.HasTerminal(out, e.entityId) {
      var env :| Workflow.RunWorkflow(env, RequestOf(e)).ok && Workflow.RunWorkflow(env, RequestOf(e)).trace == out;
      Workflow.ReturnPublishesTerminal(env, RequestOf(e));
    }
  }

  /** Whatever an execution worker publishes on a started event belongs to that event: its correlation
      and trace ids, its run, the agent its costs go to, and validation only if it was asked for. */
  lemma PublishedFor(e: Event, out: seq<Event>, d: Event)
    requires MayPublish(e, out) && d in out
    ensures d.correlationId == e.correlationId && d.traceId == e.traceId
    ensures d.body.StepCompleted? ==> Get(d.body.step, RunCol) == Text(e.entityId)
    ensures d.body.StepCompleted? && Get(d.body.step, StepNameCol) == Text("validator") ==> e.body.context.requireValidation
    ensures d.body.CostRecorded? ==> Get(d.body.cost, RunCol) == Text(e.entityId) && Get(d.body.cost, AgentCol) == e.body.context.agentId
  {
    var env :| out <= Workflow.RunWorkflow(env, RequestOf(e)).trace;
    Workflow.EventsAreProper(env, RequestOf(e), d);
  }

  /** Everything the execution workers have published is in the topics. */
  ghost predicate Echoed(s: Sys) {
    forall e :: e in s.execution.world.published ==> exists r :: InLog(s.logs, r) && r.event == e
  }

  ghost predicate Start(u: Setup, s: Sys) {
    && Executes(u.execution) && Tracks(u.projection)
    && Init(u.execution, Nothing, Node(s.logs, s.execution))
    && Init(u.projection, EMPTY, Node(s.logs, s.projection))
    && LogOk(u, s.logs)
  }

  ghost predicate Healthy(u: Setup, s: Sys) {
    LogOk(u, s.logs) && Echoed(s) && Sound(u.execution, Nothing, s.logs, s.execution)
  }

  lemma EchoedAppend(u: Setup, logs: Logs, x: Event, e: Event)
    requires x == e || exists r :: InLog(logs, r) && r.event == x
    ensures exists r :: InLog(Append(u, logs, e), r) && r.event == x
  {
    var last := Record(Place(u, e), |At(logs, Place(u, e))|, e);
    AppendInLog(u, logs, e, last);
    if x != e {
      var r :| InLog(logs, r) && r.event == x;
      AppendInLog(u, logs, e, r);
    }
  }

  lemma EmitOk(u: Setup, s: Sys, w: WorkerId, e: Event)
    requires Executes(u.execution) && Healthy(u, s) && CanDo(u, s, Execute(w, Emit(e)))
    ensures LogOk(u, Append(u, s.logs, e))
  {
    var k := Of(s.execution, w);
    assert WorkerOk(u.execution, s.logs, s.execution.world, k);
    var head := k.batch[0];
    assert InLog(s.logs, head);
    assert e in k.phase.emitted + [e];
    assert EmittedFor(e, head.event);
    assert LoggedOk(u, s.logs, head);
    AppendOk(u, s.logs, e);
  }

  lemma QuietWorld(u: Setup, s: Sys, w: WorkerId, l: Label)
    requires InProgress(Of(s.execution, w)) && Enabled(u.execution, s.logs, s.execution, w, l)
    ensures Do(u.execution, s.logs, s.execution, w, l).world.published ==
      s.execution.world.published + if l.Emit? then [l.event] else []
  {
  }

  lemma TopicsStep(u: Setup, s: Sys, m: Step)
    requires Executes(u.execution) && Healthy(u, s) && CanDo(u, s, m)
    ensures LogOk(u, After(u, s, m).logs) && Echoed(After(u, s, m))
  {
    var t := After(u, s, m);
    match m
    case Create(e) =>
      AppendOk(u, s.logs, e);
      forall x | x in t.execution.world.published ensures exists r :: InLog(t.logs, r) && r.event == x { EchoedAppend(u, s.logs, x, e); }
    case Publish(e) =>
      AppendOk(u, s.logs, e);
      forall x | x in t.execution.world.published ensures exists r :: InLog(t.logs, r) && r.event == x { EchoedAppend(u, s.logs, x, e); }
    case Execute(w, l) =>
      QuietWorld(u, s, w, l);
      if l.Emit? {
        EmitOk(u, s, w, l.event);
        forall x | x in t.execution.world.published ensures exists r :: InLog(t.logs, r) && r.event == x {
          EchoedAppend(u, s.logs, x, l.event);
        }
      }
    case Project(_, _) =>
  }

  lemma {:induction false} RunIsHealthy(u: Setup, s0: Sys, ms: seq<Step>)
    requires Start(u, s0) && RunAll(u, s0, ms).Some?
    ensures Healthy(u, RunAll(u, s0, ms).value)
  {
    GroupsRun(u, s0, ms);
    RunIsSound(u.execution, Nothing, Node(s0.logs, s0.execution), ExecutionMoves(u, ms));
    if ms != [] {
      RunIsHealthy(u, s0, ms[..|ms| - 1]);
      TopicsStep(u, RunAll(u, s0, ms[..|ms| - 1]).value, ms[|ms| - 1]);
    }
  }

  // ------------------------------------------------------------------ no orphaned execution

  /** An outcome of the run that `r` starts follows it in its partition. */
  ghost predicate Answered(logs: Logs, r: Record) {
    exists t :: InLog(logs, t) && Concludes(t.event, r.event.entityId) && t.tp == r.tp && r.offset < t.offset
  }

  lemma OutcomeAnswers(u: Setup, logs: Logs, r: Record, t: Record)
    requires LogOk(u, logs) && InLog(logs, r) && InLog(logs, t)
    requires r.event.body.ExecutionStarted? && Concludes(t.event, r.event.entityId)
    ensures t.tp == r.tp && r.offset < t.offset
  {
    assert LoggedOk(u, logs, r) && LoggedOk(u, logs, t);
    LifecycleKey(r.event);
    LifecycleKey(t.event);
    var s :| InLog(logs, s) && Starts(s.event, t.event.entityId) && s.offset < t.offset;
    assert Starts(r.event, t.event.entityId);
  }

  lemma ProcessedIsAnswered(u: Setup, s: Sys, r: Record)
    requires Executes(u.execution) && Healthy(u, s) && InLog(s.logs, r) && r.event.body.ExecutionStarted?
    requires IsProcessed(u.execution, s.execution.world, r.event)
    ensures Answered(s.logs, r)
  {
    var world := s.execution.world;
    assert Committed(world.commits, r.event.eventId);
    var a :| a in world.commits && a.record.event.eventId == r.event.eventId;
    assert a.record == r;
    var x :| x in a.out && IsTerminal(x.body) && LifecycleRun(x.body) == Some(r.event.entityId);
    assert x in world.published;
    var t :| InLog(s.logs, t) && t.event == x;
    OutcomeAnswers(u, s.logs, r, t);
  }

  /** No orphaned execution: whatever gateway, publisher, database and broker do, and wherever
      workers die, once the execution group has marked a started event as processed an outcome of
      its run is in the topic, after the started event in the same partition; and once the group's
      committed offset has passed it, that holds or the started event is in the dead-letter queue. */
  lemma NoOrphan(u: Setup, s0: Sys, ms: seq<Step>, r: Record)
    requires Start(u, s0) && RunAll(u, s0, ms).Some?
    requires InLog(RunAll(u, s0, ms).value.logs, r) && r.event.body.ExecutionStarted?
    ensures var s := RunAll(u, s0, ms).value;
      var g := s.execution;
      && (IsProcessed(u.execution, g.world, r.event) ==> Answered(s.logs, r))
      && (r.tp in g.world.offsets && r.tp in g.floor && g.floor[r.tp] <= r.offset < g.world.offsets[r.tp] ==>
            Answered(s.logs, r) || Buried(u.execution, g.world, r.event))
  {
    var s := RunAll(u, s0, ms).value;
    RunIsHealthy(u, s0, ms);
    if IsProcessed(u.execution, s.execution.world, r.event) { ProcessedIsAnswered(u, s, r); }
    var g := s.execution;
    if r.tp in g.world.offsets && r.tp in g.floor && g.floor[r.tp] <= r.offset < g.world.offsets[r.tp] {
      GroupsRun(u, s0, ms);
      NoLossAboveFloor(u.execution, Nothing, Node(s0.logs, s0.execution), ExecutionMoves(u, ms), r.tp, r.offset);
    }
  }

  // ------------------------------------------------------------------ status safety, end to end

  function Partition(u: Setup, run: Id): TP {
    TP(AgentExecutions, u.part(Text(run)))
  }

  ghost predicate SingleOwner(u: Setup, s0: Sys, ms: seq<Step>, run: Id) {
    OrderlyRun(u.projection, Node(s0.logs, s0.projection), ProjectionMoves(u, ms), Partition(u, run))
  }

  lemma PartitionOf(u: Setup, logs: Logs, r: Record, run: Id)
    requires LoggedOk(u, logs, r) && (Starts(r.event, run) || Concludes(r.event, run))
    ensures r.tp == Partition(u, run) && r.event.entityId == run
  {
    LifecycleKey(r.event);
  }

  lemma StartPrecedes(u: Setup, logs: Logs, r: Record, t: Record, run: Id)
    requires LogOk(u, logs) && InLog(logs, r) && InLog(logs, t) && Concludes(t.event, run)
    ensures Starts(r.event, run) ==> r.tp == t.tp == Partition(u, run) && r.offset < t.offset
  {
    assert LoggedOk(u, logs, r) && LoggedOk(u, logs, t);
    if Starts(r.event, run) {
      PartitionOf(u, logs, r, run);
      OutcomeAnswers(u, logs, r, t);
    }
  }

  lemma LogOrderIsApplyOrder(u: Setup, logs: Logs, cs: seq<Applied>, run: Id)
    requires LogOk(u, logs) && Increasing(cs, Partition(u, run))
    requires forall a :: a in cs ==> InLog(logs, a.record)
    ensures StartsBeforeOutcomes(cs, run) && AllWellStated(cs)
  {
    forall i, j | 0 <= i < j < |cs| && Concludes(cs[i].record.event, run) ensures !Starts(cs[j].record.event, run) {
      assert cs[i] in cs && cs[j] in cs;
      StartPrecedes(u, logs, cs[j].record, cs[i].record, run);
    }
    forall a | a in cs ensures WellStated(a.record.event) {
      assert LoggedOk(u, logs, a.record);
    }
  }

  /** The books of the projection group in any reachable state. */
  lemma ProjectionBooks(u: Setup, s0: Sys, ms: seq<Step>, run: Id)
    requires Start(u, s0) && RunAll(u, s0, ms).Some? && SingleOwner(u, s0, ms, run)
    ensures var s := RunAll(u, s0, ms).value;
      var world := s.projection.world;
      && Healthy(u, s)
      && Replay(u.projection, EMPTY, world.commits) == Some(world.model)
      && AllWellStated(world.commits)
      && StartsBeforeOutcomes(world.commits, run)
      && forall a :: a in world.commits ==> InLog(s.logs, a.record)
  {
    RunIsHealthy(u, s0, ms);
    GroupsRun(u, s0, ms);
    var n, moves := Node(s0.logs, s0.projection), ProjectionMoves(u, ms);
    InOrderFold(u.projection, EMPTY, n, moves, Partition(u, run));
    ExactlyOnceEffect(u.projection, EMPTY, n, moves);
    var s := RunAll(u, s0, ms).value;
    LogOrderIsApplyOrder(u, s.logs, s.projection.world.commits, run);
  }

  lemma {:induction false} CommitsOnlyGrow(u: Setup, s0: Sys, ms: seq<Step>, k: nat)
    requires RunAll(u, s0, ms).Some? && k <= |ms|
    ensures RunAll(u, s0, ms[..k]).Some?
    ensures RunAll(u, s0, ms[..k]).value.projection.world.commits <= RunAll(u, s0, ms).value.projection.world.commits
  {
    if k == |ms| {
      assert ms[..k] == ms;
    } else {
      var before := ms[..|ms| - 1];
      assert before[..k] == ms[..k];
      CommitsOnlyGrow(u, s0, before, k);
      var t, m := RunAll(u, s0, before).value, ms[|ms| - 1];
      if m.Project? { StepGrows(u.projection, t.logs, t.projection, m.p, m.projects); }
    }
  }

  lemma {:induction false} OwnerSoFar(u: Setup, s0: Sys, ms: seq<Step>, k: nat, run: Id)
    requires SingleOwner(u, s0, ms, run) && k <= |ms|
    ensures SingleOwner(u, s0, ms[..k], run)
  {
    if k == |ms| {
      assert ms[..k] == ms;
    } else {
      var before, more := ms[..|ms| - 1], ProjectionMove(u, ms[|ms| - 1]);
      var moves := ProjectionMoves(u, ms);
      assert before[..k] == ms[..k];
      assert moves == ProjectionMoves(u, before) + more && |more| <= 1;
      if more == [] {
        assert moves == ProjectionMoves(u, before);
      } else {
        assert moves[..|moves| - 1] == ProjectionMoves(u, before);
      }
      OwnerSoFar(u, s0, before, k, run);
    }
  }

  /** End-to-end status safety: from any reachable state to any later one, a projection with one
      owner of the run's partition at a time never takes the run's row from succeeded or failed back
      to running, nor drops it. */
  lemma StatusIsSafe(u: Setup, s0: Sys, ms: seq<Step>, k: nat, run: Id)
    requires Start(u, s0) && RunAll(u, s0, ms).Some? && SingleOwner(u, s0, ms, run) && k <= |ms|
    ensures RunAll(u, s0, ms[..k]).Some?
    ensures Concluded(RunAll(u, s0, ms[..k]).value.projection.world.model.runs, run) ==>
      Concluded(RunAll(u, s0, ms).value.projection.world.model.runs, run)
  {
    CommitsOnlyGrow(u, s0, ms, k);
    OwnerSoFar(u, s0, ms, k, run);
    ProjectionBooks(u, s0, ms, run);
    ProjectionBooks(u, s0, ms[..k], run);
    var early, late := RunAll(u, s0, ms[..k]).value.projection.world, RunAll(u, s0, ms).value.projection.world;
    assert late.commits[..|early.commits|] == early.commits;
    if Concluded(early.model.runs, run) { ConcludedStays(u.projection, late.commits, |early.commits|, run); }
  }

  /** Whoever owns the partition: in any reachable state, a run's row has been concluded and later not
      concluded exactly when the projection applied an outcome to the row and a started event of the run
      after it. */
  lemma RowReopenedIff(u: Setup, s0: Sys, ms: seq<Step>, run: Id)
    requires Start(u, s0) && RunAll(u, s0, ms).Some?
    ensures var cs := RunAll(u, s0, ms).value.projection.world.commits;
      Replay(u.projection, EMPTY, cs).Some? && (Reopened(u.projection, cs, run) <==> OutcomeThenStart(u.projection, cs, run))
  {
    RunIsHealthy(u, s0, ms);
    GroupsRun(u, s0, ms);
    ExactlyOnceEffect(u.projection, EMPTY, Node(s0.logs, s0.projection), ProjectionMoves(u, ms));
    var s := RunAll(u, s0, ms).value;
    var cs := s.projection.world.commits;
    forall a | a in cs ensures WellStated(a.record.event) { assert LoggedOk(u, s.logs, a.record); }
    ReopenedIff(u.projection, cs, run);
  }

  // ------------------------------------------------------------------ the loop closes

  ghost predicate ProjectionBuriedOne(u: Setup, s: Sys, run: Id) {
    exists r :: InLog(s.logs, r) && (Starts(r.event, run) || Concludes(r.event, run)) && Buried(u.projection, s.projection.world, r.event)
  }

  lemma IndexOf(u: Setup, logs: Logs, cs: seq<Applied>, r: Record) returns (i: nat)
    requires LogOk(u, logs) && InLog(logs, r) && Committed(cs, r.event.eventId)
    requires forall a :: a in cs ==> InLog(logs, a.record)
    ensures i < |cs| && cs[i].record == r
  {
    var a :| a in cs && a.record.event.eventId == r.event.eventId;
    i :| i < |cs| && cs[i] == a;
  }

  lemma BothApplied(u: Setup, logs: Logs, world: World<Tables>, r: Record, t: Record, run: Id)
    requires Tracks(u.projection) && LogOk(u, logs) && Replay(u.projection, EMPTY, world.commits) == Some(world.model)
    requires AllWellStated(world.commits) && StartsBeforeOutcomes(world.commits, run)
    requires forall a :: a in world.commits ==> InLog(logs, a.record)
    requires InLog(logs, r) && Starts(r.event, run) && Committed(world.commits, r.event.eventId)
    requires InLog(logs, t) && Concludes(t.event, run) && Committed(world.commits, t.event.eventId)
    ensures Concluded(world.model.runs, run)
  {
    var i := IndexOf(u, logs, world.commits, r);
    var j := IndexOf(u, logs, world.commits, t);
    StartedAndOutcomeConclude(u.projection, world.commits, i, j, run);
  }

  /** The projection has reached the end of `tp`, having started no later than offset `from`. */
  ghost predicate CaughtUp(s: Sys, tp: TP, from: nat) {
    var p := s.projection;
    tp in p.world.offsets && p.world.offsets[tp] == |At(s.logs, tp)| && tp in p.floor && p.floor[tp] <= from
  }

  lemma AppliedOrBuried(u: Setup, s0: Sys, ms: seq<Step>, r: Record, from: nat)
    requires Start(u, s0) && RunAll(u, s0, ms).Some?
    requires var s := RunAll(u, s0, ms).value; CaughtUp(s, r.tp, from) && InLog(s.logs, r) && from <= r.offset
    ensures var world := RunAll(u, s0, ms).value.projection.world;
      Buried(u.projection, world, r.event) || Committed(world.commits, r.event.eventId)
  {
    GroupsRun(u, s0, ms);
    MissingIsAccounted(u.projection, EMPTY, Node(s0.logs, s0.projection), ProjectionMoves(u, ms), r.tp, r.offset);
  }

  /** When the execution group has processed a started event and the projection has caught up with
      its partition, the run's row is succeeded or failed, unless the projection dead-lettered one
      of the run's own lifecycle events. */
  lemma CaughtUpIsConcluded(u: Setup, s0: Sys, ms: seq<Step>, r: Record)
    requires Start(u, s0) && RunAll(u, s0, ms).Some? && r.event.body.ExecutionStarted?
    requires SingleOwner(u, s0, ms, r.event.entityId)
    requires var s := RunAll(u, s0, ms).value;
      InLog(s.logs, r) && IsProcessed(u.execution, s.execution.world, r.event) && CaughtUp(s, r.tp, r.offset)
    ensures var s := RunAll(u, s0, ms).value;
      Concluded(s.projection.world.model.runs, r.event.entityId) || ProjectionBuriedOne(u, s, r.event.entityId)
  {
    var s, run := RunAll(u, s0, ms).value, r.event.entityId;
    NoOrphan(u, s0, ms, r);
    ProjectionBooks(u, s0, ms, run);
    var t :| InLog(s.logs, t) && Concludes(t.event, run) && t.tp == r.tp && r.offset < t.offset;
    assert LoggedOk(u, s.logs, r) && Starts(r.event, run);
    AppliedOrBuried(u, s0, ms, r, r.offset);
    AppliedOrBuried(u, s0, ms, t, r.offset);
    if !ProjectionBuriedOne(u, s, run) { BothApplied(u, s.logs, s.projection.world, r, t, run); }
  }

  /** The deployed consumer groups meet the hypotheses of the theorems above. */
  lemma PlatformStarts(n: nat, part: Value -> nat, s: Sys)
    requires Init(ExecutionConfig(n), Nothing, Node(s.logs, s.execution))
    requires Init(ProjectionConfig(n), EMPTY, Node(s.logs, s.projection))
    requires LogOk(Platform(n, part), s.logs)
    ensures Start(Platform(n, part), s)
  {
    WorkflowExecutes(n);
    ProjectorTracks(n);
  }
}
