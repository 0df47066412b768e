/** Log order. When a partition has one owner at a time and is handed over only between records
    (or by a crash), its records are applied in log order. The argument follows one partition. */
module ProtocolOrder {
  import opened Events
  import opened Delivery
  import opened Protocol
  import opened ProtocolSafety
  import opened ProtocolCoverage

  /** The offsets of partition `tp` still in the batch. */
  function Mine(batch: seq<Record>, tp: TP): seq<nat> {
    if batch == [] then []
    else (if batch[0].tp == tp then [batch[0].offset] else []) + Mine(batch[1..], tp)
  }

  predicate Interested(k: Worker, tp: TP) {
    tp in k.positions || Mine(k.batch, tp) != []
  }

  /** Single ownership of `tp`: it is assigned only when nobody holds or still works on it, and
      revoked only from a worker with no record of it in flight. Crashes are unrestricted. */
  ghost predicate Orderly<M>(g: Group<M>, w: WorkerId, l: Label, tp: TP) {
    && (l == Assign(tp) ==> forall v :: !Interested(Of(g, v), tp))
    && (l == Revoke(tp) ==> Mine(Of(g, w).batch, tp) == [])
  }

  ghost predicate OrderlyMove<M>(n: Node<M>, m: Move, tp: TP) {
    m.Act? ==> Orderly(n.group, m.w, m.does, tp)
  }

  ghost predicate OrderlyRun<M>(c: Config<M>, n: Node<M>, moves: seq<Move>, tp: TP) {
    moves == [] ||
    (var before := moves[..|moves| - 1];
     && OrderlyRun(c, n, before, tp)
     && (Run(c, n, before).Some? ==> OrderlyMove(Run(c, n, before).value, moves[|moves| - 1], tp)))
  }

  lemma {:induction false} MineAppends(a: seq<Record>, b: seq<Record>, tp: TP)
    ensures Mine(a + b, tp) == Mine(a, tp) + Mine(b, tp)
  {
    if a == [] {
      assert a + b == b;
    } else {
      MineAppends(a[1..], b, tp);
      assert (a + b)[1..] == a[1..] + b;
    }
  }

  lemma {:induction false} MineOfSlice(rs: seq<Record>, t: TP, p: nat, tp: TP)
    requires forall i :: 0 <= i < |rs| ==> rs[i].tp == t && rs[i].offset == p + i
    ensures t != tp ==> Mine(rs, tp) == []
    ensures t == tp ==> |Mine(rs, tp)| == |rs| && forall j :: 0 <= j < |rs| ==> Mine(rs, tp)[j] == p + j
  {
    if rs != [] { MineOfSlice(rs[1..], t, p + 1, tp); }
  }

  /** The next offset the worker has to settle. */
  function Cursor(k: Worker, tp: TP): int {
    if tp in k.positions then k.positions[tp] - |Mine(k.batch, tp)| else 0
  }

  /** The worker's records of `tp` run without gaps from the cursor to its position. */
  ghost predicate InSequence(k: Worker, tp: TP) {
    && (Mine(k.batch, tp) != [] ==> tp in k.positions)
    && 0 <= Cursor(k, tp)
    && forall j :: 0 <= j < |Mine(k.batch, tp)| ==> Mine(k.batch, tp)[j] == Cursor(k, tp) + j
  }

  ghost predicate CommitsUpTo(commits: seq<Applied>, tp: TP, bound: int) {
    forall a :: a in commits && a.record.tp == tp ==> a.record.offset <= bound
  }

  ghost predicate OwnerOk<M>(world: World<M>, k: Worker, tp: TP) {
    && InSequence(k, tp)
    && (tp in k.positions ==> CommitsUpTo(world.commits, tp, Cursor(k, tp)))
    && (tp in k.positions && tp in world.offsets ==> Cursor(k, tp) <= world.offsets[tp])
  }

  ghost predicate Increasing(commits: seq<Applied>, tp: TP) {
    forall i, j :: 0 <= i < j < |commits| && commits[i].record.tp == tp && commits[j].record.tp == tp ==>
      commits[i].record.offset < commits[j].record.offset
  }

  ghost predicate SoleOwner<M>(g: Group<M>, tp: TP) {
    forall v, w :: v != w && Interested(Of(g, v), tp) ==> !Interested(Of(g, w), tp)
  }

  lemma SoleOwnerStep<M>(g: Group<M>, g': Group<M>, w: WorkerId, tp: TP)
    requires SoleOwner(g, tp)
    requires forall v :: v != w ==> Of(g', v) == Of(g, v)
    requires Interested(Of(g', w), tp) ==> Interested(Of(g, w), tp) || forall v :: !Interested(Of(g, v), tp)
    ensures SoleOwner(g', tp)
  {
    forall v: WorkerId, u: WorkerId | v != u && Interested(Of(g', v), tp) ensures !Interested(Of(g', u), tp) {
      if v != w && u != w {
        assert Interested(Of(g, v), tp);
      }
    }
  }

  ghost predicate Ordered<M>(g: Group<M>, tp: TP) {
    && SoleOwner(g, tp)
    && (forall w :: OwnerOk(g.world, Of(g, w), tp))
    && (tp in g.world.offsets ==> CommitsUpTo(g.world.commits, tp, g.world.offsets[tp]))
    && Increasing(g.world.commits, tp)
  }

  /** A step by a worker with no interest in `tp` leaves its offset and its transactions alone. */
  lemma BystanderStep<M>(c: Config<M>, logs: Logs, g: Group<M>, w: WorkerId, l: Label, tp: TP)
    requires InProgress(Of(g, w)) && Enabled(c, logs, g, w, l)
    requires Of(g, w).batch == [] || Of(g, w).batch[0].tp != tp
    ensures var w' := Do(c, logs, g, w, l).world;
      && (tp in w'.offsets <==> tp in g.world.offsets)
      && (tp in w'.offsets ==> w'.offsets[tp] == g.world.offsets[tp])
      && (w'.commits == g.world.commits || exists a: Applied :: a.record.tp != tp && w'.commits == g.world.commits + [a])
  {
    var k, g' := Of(g, w), Do(c, logs, g, w, l);
    if l.DbCommit? && g'.world.commits != g.world.commits {
      var a := Applied(k.batch[0], l.now, k.phase.emitted);
      assert a.record.tp != tp && g'.world.commits == g.world.commits + [a];
    }
  }

  /** Work on the head record of `tp`. */
  lemma HeadOfMine(k: Worker, tp: TP)
    requires k.batch != []
    ensures k.batch[0].tp == tp ==> Mine(k.batch, tp) == [k.batch[0].offset] + Mine(k.batch[1..], tp)
    ensures k.batch[0].tp != tp ==> Mine(k.batch, tp) == Mine(k.batch[1..], tp)
    ensures Mine(Finish(k).batch, tp) == Mine(k.batch[1..], tp)
    ensures Finish(k).positions == k.positions
  {
    if |k.batch| == 1 {
      assert k.batch[1..] == [];
    }
  }

  lemma SamePlace(logs: Logs, r: Record, s: Record)
    requires InLog(logs, r) && InLog(logs, s) && r.tp == s.tp
    ensures r.offset == s.offset ==> r.event == s.event
  {
  }

  /** The transaction of the head record comes after every earlier one of its partition. */
  lemma CommitIsNewest<M>(c: Config<M>, m0: M, logs: Logs, g: Group<M>, k: Worker, tp: TP)
    requires Sound(c, m0, logs, g) && OwnerOk(g.world, k, tp)
    requires k.batch != [] && k.batch[0].tp == tp && InLog(logs, k.batch[0])
    requires !IsProcessed(c, g.world, k.batch[0].event)
    ensures forall a :: a in g.world.commits && a.record.tp == tp ==> a.record.offset < k.batch[0].offset
    ensures k.batch[0].offset == Cursor(k, tp)
  {
    HeadOfMine(k, tp);
    assert Mine(k.batch, tp)[0] == Cursor(k, tp) + 0;
    forall a | a in g.world.commits && a.record.tp == tp ensures a.record.offset < k.batch[0].offset {
      assert a.record.offset <= Cursor(k, tp);
      assert Committed(g.world.commits, a.record.event.eventId);
      assert InLog(logs, a.record);
      SamePlace(logs, a.record, k.batch[0]);
    }
  }

  lemma NotInterested<M>(world: World<M>, k: Worker, tp: TP)
    requires !Interested(k, tp)
    ensures OwnerOk(world, k, tp)
  {
  }

  lemma AppendNewest(commits: seq<Applied>, a: Applied, tp: TP)
    requires Increasing(commits, tp) && a.record.tp == tp
    requires forall b :: b in commits && b.record.tp == tp ==> b.record.offset < a.record.offset
    ensures Increasing(commits + [a], tp)
    ensures CommitsUpTo(commits + [a], tp, a.record.offset)
  {
  }

  lemma DbCommitOrdered<M>(c: Config<M>, m0: M, logs: Logs, g: Group<M>, w: WorkerId, f: Fault, now: Time, tp: TP)
    requires Sound(c, m0, logs, g) && Ordered(g, tp)
    requires InProgress(Of(g, w)) && Enabled(c, logs, g, w, DbCommit(f, now))
    requires Of(g, w).batch[0].tp == tp
    ensures Ordered(Do(c, logs, g, w, DbCommit(f, now)), tp)
  {
    var k, g' := Of(g, w), Do(c, logs, g, w, DbCommit(f, now));
    assert WorkerOk(c, logs, g.world, k) && OwnerOk(g.world, k, tp);
    assert Interested(k, tp) by { HeadOfMine(k, tp); }
    StepGrows(c, logs, g, w, DbCommit(f, now));
    var k' := Of(g', w);
    assert k'.batch == k.batch && k'.positions == k.positions;
    SoleOwnerStep(g, g', w, tp);
    assert g'.world.offsets == g.world.offsets;
    if Flush(c, g.world, k.batch[0], now, k.phase.emitted).Some? && !f.Lost? {
      var a := Applied(k.batch[0], now, k.phase.emitted);
      CommitIsNewest(c, m0, logs, g, k, tp);
      HeadOfMine(k, tp);
      assert tp in k.positions;
      AppendNewest(g.world.commits, a, tp);
      assert g'.world.commits == g.world.commits + [a];
    } else {
      assert g'.world.commits == g.world.commits;
    }
    assert OwnerOk(g'.world, k', tp);
    forall v | v != w ensures OwnerOk(g'.world, Of(g', v), tp) {
      NotInterested(g'.world, Of(g, v), tp);
    }
  }

  lemma OffsetCommitOrdered<M>(c: Config<M>, logs: Logs, g: Group<M>, w: WorkerId, f: Fault, tp: TP)
    requires Ordered(g, tp)
    requires InProgress(Of(g, w)) && Enabled(c, logs, g, w, OffsetCommit(f))
    requires Of(g, w).batch[0].tp == tp
    ensures Ordered(Do(c, logs, g, w, OffsetCommit(f)), tp)
  {
    var k, g' := Of(g, w), Do(c, logs, g, w, OffsetCommit(f));
    assert OwnerOk(g.world, k, tp);
    HeadOfMine(k, tp);
    assert Mine(k.batch, tp)[0] == Cursor(k, tp) + 0;
    assert Interested(k, tp);
    forall v ensures OwnerOk(g'.world, Of(g', v), tp) {
      assert OwnerOk(g.world, Of(g, v), tp);
      if v != w {
        assert !Interested(Of(g, v), tp);
      } else if Of(g', w) == Finish(k) {
        forall j | 0 <= j < |Mine(Finish(k).batch, tp)| ensures Mine(Finish(k).batch, tp)[j] == Cursor(Finish(k), tp) + j {
          assert Mine(k.batch, tp)[j + 1] == Cursor(k, tp) + j + 1;
        }
      }
    }
    StepGrows(c, logs, g, w, OffsetCommit(f));
    SoleOwnerStep(g, g', w, tp);
  }

  ghost predicate QueueAdvance(k: Worker, k': Worker, tp: TP) {
    && (Interested(k', tp) ==> Interested(k, tp))
    && InSequence(k', tp)
    && (tp in k'.positions ==> tp in k.positions && Cursor(k', tp) == Cursor(k, tp))
  }

  lemma FetchInSequence(k: Worker, rs: seq<Record>, from: TP, tp: TP)
    requires InSequence(k, tp) && from in k.positions
    requires from == tp ==> Mine(k.batch, tp) == []
    requires forall i :: 0 <= i < |rs| ==> rs[i].tp == from && rs[i].offset == k.positions[from] + i
    ensures QueueAdvance(k, k.(batch := k.batch + rs, positions := k.positions[from := k.positions[from] + |rs|]), tp)
  {
    MineAppends(k.batch, rs, tp);
    MineOfSlice(rs, from, k.positions[from], tp);
  }

  lemma {:induction false} NotMine(batch: seq<Record>, tp: TP)
    requires forall r :: r in batch ==> r.tp != tp
    ensures Mine(batch, tp) == []
  {
    if batch != [] { NotMine(batch[1..], tp); }
  }

  /** Queue changes of the acting worker that are not about a record of `tp` in progress. */
  lemma QueueOrdered<M>(c: Config<M>, logs: Logs, g: Group<M>, w: WorkerId, l: Label, tp: TP)
    requires OwnerOk(g.world, Of(g, w), tp) && Orderly(g, w, l, tp)
    requires InProgress(Of(g, w)) && Enabled(c, logs, g, w, l) && l != Assign(tp)
    requires (l.DbCommit? || l.OffsetCommit?) ==> Of(g, w).batch[0].tp != tp
    ensures QueueAdvance(Of(g, w), Of(Do(c, logs, g, w, l), w), tp)
  {
    var k, k' := Of(g, w), Of(Do(c, logs, g, w, l), w);
    if l.Fetch? {
      if l.from == tp { NotMine(k.batch, tp); }
      FetchInSequence(k, Slice(logs, l.from, k.positions[l.from], l.count), l.from, tp);
    } else if l.OffsetCommit? {
      HeadOfMine(k, tp);
      assert k' == IDLE || (k'.batch == k.batch && k'.positions == k.positions) || k' == Finish(k);
    } else if KeepsQueue(l) {
      QueueStep(c, logs, g, w, l);
    } else {
      assert k'.batch == k.batch;
      assert tp in k'.positions ==> tp in k.positions && k'.positions[tp] == k.positions[tp];
    }
  }

  lemma AssignOrdered<M>(c: Config<M>, logs: Logs, g: Group<M>, w: WorkerId, tp: TP)
    requires Ordered(g, tp) && Orderly(g, w, Assign(tp), tp) && CommitsOk(c, logs, g.world)
    requires InProgress(Of(g, w)) && Enabled(c, logs, g, w, Assign(tp))
    ensures Ordered(Do(c, logs, g, w, Assign(tp)), tp)
  {
    var k, g' := Of(g, w), Do(c, logs, g, w, Assign(tp));
    StepGrows(c, logs, g, w, Assign(tp));
    assert !Interested(k, tp);
    SoleOwnerStep(g, g', w, tp);
    assert forall a :: a in g.world.commits ==> InLog(logs, a.record);
    forall v ensures OwnerOk(g'.world, Of(g', v), tp) {
      assert OwnerOk(g.world, Of(g, v), tp);
    }
  }

  lemma QuietOrdered<M>(c: Config<M>, logs: Logs, g: Group<M>, w: WorkerId, l: Label, tp: TP)
    requires Ordered(g, tp) && Orderly(g, w, l, tp)
    requires InProgress(Of(g, w)) && Enabled(c, logs, g, w, l) && l != Assign(tp)
    requires (l.DbCommit? || l.OffsetCommit?) ==> Of(g, w).batch[0].tp != tp
    ensures Ordered(Do(c, logs, g, w, l), tp)
  {
    var g' := Do(c, logs, g, w, l);
    StepGrows(c, logs, g, w, l);
    assert OwnerOk(g.world, Of(g, w), tp);
    QueueOrdered(c, logs, g, w, l, tp);
    WorldQuietOn(c, logs, g, w, l, tp);
    SoleOwnerStep(g, g', w, tp);
    forall v ensures OwnerOk(g'.world, Of(g', v), tp) {
      assert OwnerOk(g.world, Of(g, v), tp);
    }
  }

  lemma WorldQuietOn<M>(c: Config<M>, logs: Logs, g: Group<M>, w: WorkerId, l: Label, tp: TP)
    requires InProgress(Of(g, w)) && Enabled(c, logs, g, w, l)
    requires (l.DbCommit? || l.OffsetCommit?) ==> Of(g, w).batch[0].tp != tp
    ensures var w' := Do(c, logs, g, w, l).world;
      && (tp in w'.offsets <==> tp in g.world.offsets)
      && (tp in w'.offsets ==> w'.offsets[tp] == g.world.offsets[tp])
      && (forall a :: a in w'.commits && a.record.tp == tp ==> a in g.world.commits)
      && (Increasing(g.world.commits, tp) ==> Increasing(w'.commits, tp))
  {
    if l.DbCommit? || l.OffsetCommit? {
      BystanderStep(c, logs, g, w, l, tp);
    }
  }

  lemma OrderedStep<M>(c: Config<M>, m0: M, logs: Logs, g: Group<M>, w: WorkerId, l: Label, tp: TP)
    requires Sound(c, m0, logs, g) && Ordered(g, tp) && Orderly(g, w, l, tp)
    requires InProgress(Of(g, w)) && Enabled(c, logs, g, w, l)
    ensures Ordered(Do(c, logs, g, w, l), tp)
  {
    var k := Of(g, w);
    if l.DbCommit? && k.batch[0].tp == tp {
      DbCommitOrdered(c, m0, logs, g, w, l.fault, l.now, tp);
    } else if l.OffsetCommit? && k.batch[0].tp == tp {
      OffsetCommitOrdered(c, logs, g, w, l.fault, tp);
    } else if l == Assign(tp) {
      AssignOrdered(c, logs, g, w, tp);
    } else {
      QuietOrdered(c, logs, g, w, l, tp);
    }
  }

  lemma {:induction false} RunIsOrdered<M>(c: Config<M>, m0: M, n: Node<M>, moves: seq<Move>, tp: TP)
    requires Init(c, m0, n) && Run(c, n, moves).Some? && OrderlyRun(c, n, moves, tp)
    ensures Ordered(Run(c, n, moves).value.group, tp)
  {
    if moves == [] {
      assert forall w :: Of(n.group, w) == IDLE;
    } else {
      var before := moves[..|moves| - 1];
      RunIsOrdered(c, m0, n, before, tp);
      RunIsSound(c, m0, n, before);
      var s := Run(c, n, before).value;
      var last := moves[|moves| - 1];
      if last.Act? {
        OrderedStep(c, m0, s.logs, s.group, last.w, last.does, tp);
      }
    }
  }

  /** The record at offset `o` is dead-lettered, or its id has been applied. */
  ghost predicate Accounted<M>(c: Config<M>, logs: Logs, world: World<M>, tp: TP, o: nat) {
    && o < |At(logs, tp)|
    && (Buried(c, world, At(logs, tp)[o]) || Committed(world.commits, At(logs, tp)[o].eventId))
  }

  lemma MissingIsAccounted<M>(c: Config<M>, m0: M, n: Node<M>, moves: seq<Move>, tp: TP, o: nat)
    requires Init(c, m0, n) && Run(c, n, moves).Some?
    requires var s := Run(c, n, moves).value;
      tp in s.group.world.offsets && tp in s.group.floor && s.group.floor[tp] <= o < s.group.world.offsets[tp]
    ensures var s := Run(c, n, moves).value; Accounted(c, s.logs, s.group.world, tp, o)
  {
    NoLossAboveFloor(c, m0, n, moves, tp, o);
    ExactlyOnceEffect(c, m0, n, moves);
  }

  /** Refinement to an in-order fold: with one owner at a time the transactions of a partition are
      a subsequence of its log in log order, and a record between the floor and the committed
      offset that is missing from them is a duplicate id or is in the dead-letter queue. */
  lemma InOrderFold<M>(c: Config<M>, m0: M, n: Node<M>, moves: seq<Move>, tp: TP)
    requires Init(c, m0, n) && Run(c, n, moves).Some? && OrderlyRun(c, n, moves, tp)
    ensures var s := Run(c, n, moves).value;
      var world := s.group.world;
      && Increasing(world.commits, tp)
      && (forall a :: a in world.commits && a.record.tp == tp ==>
            a.record.offset < |At(s.logs, tp)| && At(s.logs, tp)[a.record.offset] == a.record.event)
      && Replay(c, m0, world.commits) == Some(world.model)
      && (tp in world.offsets && tp in s.group.floor ==>
            forall o :: s.group.floor[tp] <= o < world.offsets[tp] ==> Accounted(c, s.logs, world, tp, o))
  {
    RunIsOrdered(c, m0, n, moves, tp);
    ExactlyOnceEffect(c, m0, n, moves);
    var s := Run(c, n, moves).value;
    forall a | a in s.group.world.commits && a.record.tp == tp
      ensures a.record.offset < |At(s.logs, tp)| && At(s.logs, tp)[a.record.offset] == a.record.event
    {
      assert InLog(s.logs, a.record);
    }
    if tp in s.group.world.offsets && tp in s.group.floor {
      forall o | s.group.floor[tp] <= o < s.group.world.offsets[tp]
        ensures Accounted(c, s.logs, s.group.world, tp, o)
      {
        MissingIsAccounted(c, m0, n, moves, tp, o);
      }
    }
  }
}
