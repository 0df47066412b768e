/** Safety of every run of a consumer group, with no assumption on who owns a partition when. */
module ProtocolSafety {
  import opened Events
  import opened Delivery
  import opened Protocol

  // ------------------------------------------------------------------ exactly-once effect

  ghost predicate WorkerOk<M>(c: Config<M>, logs: Logs, world: World<M>, k: Worker) {
    && InProgress(k)
    && (forall r :: r in k.batch ==> InLog(logs, r))
    && (!k.phase.Polling? ==> 1 <= k.phase.n <= c.maxRetries)
    && (k.phase.Settled? ==> IsProcessed(c, world, k.batch[0].event))
    && (k.phase.DeadLettered? ==> Buried(c, world, k.batch[0].event))
    && (k.phase.Handling? || k.phase.Staged? ==> forall e :: e in k.phase.emitted ==> e in world.published)
    && (k.phase.Staged? ==> c.complete(k.batch[0].event, k.phase.emitted))
  }

  ghost predicate CommitsOk<M>(c: Config<M>, logs: Logs, world: World<M>) {
    forall a :: a in world.commits ==>
      InLog(logs, a.record) && c.complete(a.record.event, a.out) && forall e :: e in a.out ==> e in world.published
  }

  ghost predicate LettersOk<M>(c: Config<M>, world: World<M>) {
    forall d :: d in world.dlq ==> d.group == c.group && d.retryCount == c.maxRetries
  }

  ghost predicate Sound<M>(c: Config<M>, m0: M, logs: Logs, g: Group<M>) {
    && ExactlyOnce(c, m0, g.world)
    && CommitsOk(c, logs, g.world)
    && LettersOk(c, g.world)
    && forall w :: WorkerOk(c, logs, g.world, Of(g, w))
  }

  /** What a step may do to the database and the topics: they only grow. */
  ghost predicate WorldGrows<M>(w: World<M>, w': World<M>) {
    && w.rows <= w'.rows
    && w.commits <= w'.commits
    && w.dlq <= w'.dlq
    && w.published <= w'.published
    && w.offsets.Keys <= w'.offsets.Keys
  }

  lemma StepGrows<M>(c: Config<M>, logs: Logs, g: Group<M>, w: WorkerId, l: Label)
    requires InProgress(Of(g, w)) && Enabled(c, logs, g, w, l)
    ensures WorldGrows(g.world, Do(c, logs, g, w, l).world)
    ensures forall v :: v != w ==> Of(Do(c, logs, g, w, l), v) == Of(g, v)
  {
  }

  lemma OtherWorkersOk<M>(c: Config<M>, logs: Logs, world: World<M>, world': World<M>, k: Worker)
    requires WorkerOk(c, logs, world, k) && WorldGrows(world, world')
    ensures WorkerOk(c, logs, world', k)
  {
    if k.phase.DeadLettered? {
      var d :| d in world.dlq && d.event == k.batch[0].event && d.group == c.group;
      assert d in world'.dlq;
    }
  }

  lemma FetchOk<M>(c: Config<M>, logs: Logs, g: Group<M>, w: WorkerId, from: TP, count: nat)
    requires WorkerOk(c, logs, g.world, Of(g, w)) && Enabled(c, logs, g, w, Fetch(from, count))
    ensures WorkerOk(c, logs, g.world, Of(Do(c, logs, g, w, Fetch(from, count)), w))
  {
    var k := Of(g, w);
    var rs := Slice(logs, from, k.positions[from], count);
    assert Of(Do(c, logs, g, w, Fetch(from, count)), w).batch == k.batch + rs;
  }

  lemma CommitterOk<M>(c: Config<M>, logs: Logs, g: Group<M>, w: WorkerId, l: Label)
    requires WorkerOk(c, logs, g.world, Of(g, w)) && Enabled(c, logs, g, w, l) && (l.DbCommit? || l.OffsetCommit? || l.PublishDeadLetter?)
    ensures WorkerOk(c, logs, Do(c, logs, g, w, l).world, Of(Do(c, logs, g, w, l), w))
  {
    var k, g' := Of(g, w), Do(c, logs, g, w, l);
    if l.PublishDeadLetter? && l.fault.Fine? {
      var d := DeadLetter(k.batch[0].tp.topic, c.group, k.phase.n, k.phase.error, k.batch[0].event);
      assert d in g'.world.dlq;
    }
  }

  lemma ActorOk<M>(c: Config<M>, m0: M, logs: Logs, g: Group<M>, w: WorkerId, l: Label)
    requires 1 <= c.maxRetries && Sound(c, m0, logs, g) && Enabled(c, logs, g, w, l)
    requires WorkerOk(c, logs, g.world, Of(g, w))
    ensures WorkerOk(c, logs, Do(c, logs, g, w, l).world, Of(Do(c, logs, g, w, l), w))
  {
    if l.Fetch? {
      FetchOk(c, logs, g, w, l.from, l.count);
    } else if l.DbCommit? || l.OffsetCommit? || l.PublishDeadLetter? {
      CommitterOk(c, logs, g, w, l);
    }
  }

  /** Only a database commit touches the read model. */
  lemma QuietStep<M>(c: Config<M>, logs: Logs, g: Group<M>, w: WorkerId, l: Label)
    requires InProgress(Of(g, w)) && Enabled(c, logs, g, w, l) && !l.DbCommit?
    ensures var world' := Do(c, logs, g, w, l).world;
      && world'.commits == g.world.commits
      && world'.model == g.world.model
      && (forall id :: (c.group, id) in world'.rows <==> (c.group, id) in g.world.rows)
  {
  }

  lemma LettersStep<M>(c: Config<M>, logs: Logs, g: Group<M>, w: WorkerId, l: Label)
    requires LettersOk(c, g.world) && WorkerOk(c, logs, g.world, Of(g, w)) && Enabled(c, logs, g, w, l)
    ensures LettersOk(c, Do(c, logs, g, w, l).world)
  {
  }

  lemma CommitStep<M>(c: Config<M>, m0: M, logs: Logs, g: Group<M>, w: WorkerId, f: Fault, now: Time)
    requires ExactlyOnce(c, m0, g.world) && CommitsOk(c, logs, g.world)
    requires WorkerOk(c, logs, g.world, Of(g, w)) && Enabled(c, logs, g, w, DbCommit(f, now))
    ensures ExactlyOnce(c, m0, Do(c, logs, g, w, DbCommit(f, now)).world)
    ensures CommitsOk(c, logs, Do(c, logs, g, w, DbCommit(f, now)).world)
  {
    var k := Of(g, w);
    if Flush(c, g.world, k.batch[0], now, k.phase.emitted).Some? {
      FlushKeepsExactlyOnce(c, m0, g.world, k.batch[0], now, k.phase.emitted);
    }
  }

  lemma WorldOk<M>(c: Config<M>, m0: M, logs: Logs, g: Group<M>, w: WorkerId, l: Label)
    requires Sound(c, m0, logs, g) && Enabled(c, logs, g, w, l)
    requires WorkerOk(c, logs, g.world, Of(g, w))
    ensures var world' := Do(c, logs, g, w, l).world;
      ExactlyOnce(c, m0, world') && CommitsOk(c, logs, world') && LettersOk(c, world')
  {
    LettersStep(c, logs, g, w, l);
    if l.DbCommit? {
      CommitStep(c, m0, logs, g, w, l.fault, l.now);
    } else {
      var world' := Do(c, logs, g, w, l).world;
      QuietStep(c, logs, g, w, l);
      SameBooks(c, m0, g.world, world');
      StepGrows(c, logs, g, w, l);
    }
  }

  lemma SoundStep<M>(c: Config<M>, m0: M, logs: Logs, g: Group<M>, w: WorkerId, l: Label)
    requires 1 <= c.maxRetries && Sound(c, m0, logs, g) && Enabled(c, logs, g, w, l)
    requires InProgress(Of(g, w))
    ensures Sound(c, m0, logs, Do(c, logs, g, w, l))
  {
    var g' := Do(c, logs, g, w, l);
    assert WorkerOk(c, logs, g.world, Of(g, w));
    WorldOk(c, m0, logs, g, w, l);
    ActorOk(c, m0, logs, g, w, l);
    StepGrows(c, logs, g, w, l);
    forall v ensures WorkerOk(c, logs, g'.world, Of(g', v)) {
      if v != w {
        assert WorkerOk(c, logs, g.world, Of(g, v));
        OtherWorkersOk(c, logs, g.world, g'.world, Of(g, v));
      }
    }
  }

  lemma SoundGrow<M>(c: Config<M>, m0: M, logs: Logs, logs': Logs, g: Group<M>)
    requires Sound(c, m0, logs, g) && Extends(logs, logs')
    ensures Sound(c, m0, logs', g)
  {
    forall v ensures WorkerOk(c, logs', g.world, Of(g, v)) {
      assert WorkerOk(c, logs, g.world, Of(g, v));
    }
  }

  lemma {:induction false} RunIsSound<M>(c: Config<M>, m0: M, n: Node<M>, moves: seq<Move>)
    requires Init(c, m0, n) && Run(c, n, moves).Some?
    ensures Sound(c, m0, Run(c, n, moves).value.logs, Run(c, n, moves).value.group)
  {
    if moves == [] {
      assert n.group.world.commits == [];
    } else {
      var before := moves[..|moves| - 1];
      RunIsSound(c, m0, n, before);
      var s := Run(c, n, before).value;
      match moves[|moves| - 1]
      case Grow(tp, e) =>
        ExtendsAt(s.logs, tp, e);
        SoundGrow(c, m0, s.logs, s.logs[tp := At(s.logs, tp) + [e]], s.group);
      case Act(w, l) => SoundStep(c, m0, s.logs, s.group, w, l);
    }
  }

  /** Exactly-once effect: for any number of workers racing on the same records, crashes between
      any two awaits and arbitrary redelivery, the read model is the fold of the handler over a
      duplicate-free sequence of logged records whose ids are exactly the group's rows in
      `processed_events`; every dead letter carries the full retry count. */
  lemma ExactlyOnceEffect<M>(c: Config<M>, m0: M, n: Node<M>, moves: seq<Move>)
    requires Init(c, m0, n) && Run(c, n, moves).Some?
    ensures var s := Run(c, n, moves).value;
      && Replay(c, m0, s.group.world.commits) == Some(s.group.world.model)
      && DistinctIds(s.group.world.commits)
      && (forall id :: (c.group, id) in s.group.world.rows <==> Committed(s.group.world.commits, id))
      && (forall a :: a in s.group.world.commits ==> InLog(s.logs, a.record))
      && (forall d :: d in s.group.world.dlq ==> d.retryCount == c.maxRetries)
  {
    RunIsSound(c, m0, n, moves);
  }

  /** A marker certifies its handler call: everything a completed call publishes was published
      before the marker became visible. */
  lemma MarkerCertifiesOutput<M>(c: Config<M>, m0: M, n: Node<M>, moves: seq<Move>, e: Event)
    requires Init(c, m0, n) && Run(c, n, moves).Some?
    requires IsProcessed(c, Run(c, n, moves).value.group.world, e)
    ensures var world := Run(c, n, moves).value.group.world;
      exists a :: a in world.commits && a.record.event.eventId == e.eventId && c.complete(a.record.event, a.out)
        && forall x :: x in a.out ==> x in world.published
  {
    RunIsSound(c, m0, n, moves);
  }
}
