/** No record below the committed offset is lost, whoever commits it: a stale worker, a worker
    whose partition was revoked, or a worker that restarted. The argument follows one partition. */
module ProtocolCoverage {
  import opened Events
  import opened Delivery
  import opened Protocol
  import opened ProtocolSafety

  ghost predicate DoneAt<M>(c: Config<M>, logs: Logs, world: World<M>, tp: TP, o: nat) {
    o < |At(logs, tp)| && Done(c, world, At(logs, tp)[o])
  }

  /** Offset `o` is among the first `lim` records of the batch. */
  ghost predicate Pending(batch: seq<Record>, lim: nat, tp: TP, o: nat) {
    exists i :: 0 <= i < lim && i < |batch| && batch[i].tp == tp && batch[i].offset == o
  }

  ghost predicate Covered<M>(c: Config<M>, logs: Logs, world: World<M>, batch: seq<Record>, lim: nat, tp: TP, from: nat, upTo: nat) {
    forall o :: from <= o < upTo ==> DoneAt(c, logs, world, tp, o) || Pending(batch, lim, tp, o)
  }

  ghost predicate WorkerCovers<M>(c: Config<M>, logs: Logs, floor: map<TP, nat>, world: World<M>, k: Worker, tp: TP) {
    && (tp in k.positions ==> tp in floor && Covered(c, logs, world, k.batch, |k.batch|, tp, floor[tp], k.positions[tp]))
    && (forall i :: 0 <= i < |k.batch| && k.batch[i].tp == tp ==>
          tp in floor && Covered(c, logs, world, k.batch, i, tp, floor[tp], k.batch[i].offset))
  }

  ghost predicate OffsetCovered<M>(c: Config<M>, logs: Logs, g: Group<M>, tp: TP) {
    tp in g.world.offsets ==>
      tp in g.floor && forall o :: g.floor[tp] <= o < g.world.offsets[tp] ==> DoneAt(c, logs, g.world, tp, o)
  }

  ghost predicate Covers<M>(c: Config<M>, logs: Logs, g: Group<M>, tp: TP) {
    && OffsetCovered(c, logs, g, tp)
    && forall w :: WorkerCovers(c, logs, g.floor, g.world, Of(g, w), tp)
  }

  /** What makes a reset raise the floor rather than lower it. */
  ghost predicate PositionsInLog<M>(logs: Logs, g: Group<M>, tp: TP) {
    && (tp in g.floor && tp !in g.world.offsets ==> g.floor[tp] <= |At(logs, tp)|)
    && forall w :: tp in Of(g, w).positions && tp !in g.world.offsets ==> Of(g, w).positions[tp] <= |At(logs, tp)|
  }

  lemma DoneGrows<M>(c: Config<M>, logs: Logs, logs': Logs, w: World<M>, w': World<M>, tp: TP, o: nat)
    requires Extends(logs, logs') && WorldGrows(w, w') && DoneAt(c, logs, w, tp, o)
    ensures DoneAt(c, logs', w', tp, o)
  {
    var e := At(logs, tp)[o];
    if Buried(c, w, e) {
      var d :| d in w.dlq && d.event == e && d.group == c.group;
      assert d in w'.dlq;
    }
  }

  lemma CoveredGrows<M>(c: Config<M>, logs: Logs, logs': Logs, w: World<M>, w': World<M>, batch: seq<Record>, lim: nat, tp: TP, from: nat, from': nat, upTo: nat)
    requires Extends(logs, logs') && WorldGrows(w, w') && from <= from'
    requires Covered(c, logs, w, batch, lim, tp, from, upTo)
    ensures Covered(c, logs', w', batch, lim, tp, from', upTo)
  {
    forall o | from' <= o < upTo ensures DoneAt(c, logs', w', tp, o) || Pending(batch, lim, tp, o) {
      if DoneAt(c, logs, w, tp, o) { DoneGrows(c, logs, logs', w, w', tp, o); }
    }
  }

  /** A floor that moves up, a log and a world that grow keep an idle-standing worker covered. */
  ghost predicate FloorRises(floor: map<TP, nat>, floor': map<TP, nat>, tp: TP) {
    tp in floor ==> tp in floor' && floor[tp] <= floor'[tp]
  }

  lemma WorkerCoversGrows<M>(c: Config<M>, logs: Logs, logs': Logs, floor: map<TP, nat>, floor': map<TP, nat>, w: World<M>, w': World<M>, k: Worker, tp: TP)
    requires Extends(logs, logs') && WorldGrows(w, w') && FloorRises(floor, floor', tp)
    requires WorkerCovers(c, logs, floor, w, k, tp)
    ensures WorkerCovers(c, logs', floor', w', k, tp)
  {
    if tp in k.positions {
      CoveredGrows(c, logs, logs', w, w', k.batch, |k.batch|, tp, floor[tp], floor'[tp], k.positions[tp]);
    }
    forall i | 0 <= i < |k.batch| && k.batch[i].tp == tp
      ensures tp in floor' && Covered(c, logs', w', k.batch, i, tp, floor'[tp], k.batch[i].offset)
    {
      CoveredGrows(c, logs, logs', w, w', k.batch, i, tp, floor[tp], floor'[tp], k.batch[i].offset);
    }
  }

  /** Taking a settled record off the batch. */
  lemma FinishCovers<M>(c: Config<M>, logs: Logs, floor: map<TP, nat>, world: World<M>, k: Worker, tp: TP)
    requires k.batch != [] && WorkerCovers(c, logs, floor, world, k, tp)
    requires InLog(logs, k.batch[0]) && Done(c, world, k.batch[0].event)
    ensures WorkerCovers(c, logs, floor, world, Finish(k), tp)
  {
    var rest := k.batch[1..];
    forall lim: nat, from: nat, upTo: nat | 1 <= lim <= |k.batch| && Covered(c, logs, world, k.batch, lim, tp, from, upTo)
      ensures Covered(c, logs, world, rest, lim - 1, tp, from, upTo)
    {
      forall o | from <= o < upTo ensures DoneAt(c, logs, world, tp, o) || Pending(rest, lim - 1, tp, o) {
        if !DoneAt(c, logs, world, tp, o) {
          var i :| 0 <= i < lim && i < |k.batch| && k.batch[i].tp == tp && k.batch[i].offset == o;
          assert i > 0 && rest[i - 1] == k.batch[i];
        }
      }
    }
    assert Finish(k).batch == rest;
  }

  lemma PendingExtends(batch: seq<Record>, rs: seq<Record>, lim: nat, tp: TP, o: nat)
    requires lim <= |batch| && Pending(batch, lim, tp, o)
    ensures Pending(batch + rs, lim, tp, o)
  {
    var j :| 0 <= j < lim && j < |batch| && batch[j].tp == tp && batch[j].offset == o;
    assert (batch + rs)[j] == batch[j];
  }

  lemma AppendCovered<M>(c: Config<M>, logs: Logs, world: World<M>, batch: seq<Record>, rs: seq<Record>, lim: nat, tp: TP, from: nat, upTo: nat)
    requires lim <= |batch| && Covered(c, logs, world, batch, lim, tp, from, upTo)
    ensures Covered(c, logs, world, batch + rs, lim, tp, from, upTo)
  {
    forall o | from <= o < upTo ensures DoneAt(c, logs, world, tp, o) || Pending(batch + rs, lim, tp, o) {
      if !DoneAt(c, logs, world, tp, o) { PendingExtends(batch, rs, lim, tp, o); }
    }
  }

  /** After fetching `rs` from position `p`, the first `j` of them extend the covered range. */
  lemma FetchedCovered<M>(c: Config<M>, logs: Logs, world: World<M>, batch: seq<Record>, rs: seq<Record>, j: nat, tp: TP, from: nat, p: nat)
    requires j <= |rs| && Covered(c, logs, world, batch, |batch|, tp, from, p)
    requires forall i :: 0 <= i < |rs| ==> rs[i].tp == tp && rs[i].offset == p + i
    ensures Covered(c, logs, world, batch + rs, |batch| + j, tp, from, p + j)
  {
    AppendCovered(c, logs, world, batch, rs, |batch|, tp, from, p);
    forall o | from <= o < p + j ensures DoneAt(c, logs, world, tp, o) || Pending(batch + rs, |batch| + j, tp, o) {
      if o >= p {
        assert (batch + rs)[|batch| + (o - p)] == rs[o - p];
      } else if !DoneAt(c, logs, world, tp, o) {
        assert Pending(batch + rs, |batch|, tp, o);
      }
    }
  }

  lemma FetchCovers<M>(c: Config<M>, logs: Logs, floor: map<TP, nat>, world: World<M>, k: Worker, from: TP, count: nat, tp: TP)
    requires WorkerCovers(c, logs, floor, world, k, tp)
    requires from in k.positions && k.positions[from] + count <= |At(logs, from)|
    ensures var rs := Slice(logs, from, k.positions[from], count);
      WorkerCovers(c, logs, floor, world, k.(batch := k.batch + rs, positions := k.positions[from := k.positions[from] + count]), tp)
  {
    var rs := Slice(logs, from, k.positions[from], count);
    var batch, n := k.batch + rs, |k.batch|;
    forall i | 0 <= i < |batch| && batch[i].tp == tp
      ensures tp in floor && Covered(c, logs, world, batch, i, tp, floor[tp], batch[i].offset)
    {
      if i < n {
        AppendCovered(c, logs, world, k.batch, rs, i, tp, floor[tp], k.batch[i].offset);
      } else {
        FetchedCovered(c, logs, world, k.batch, rs, i - n, tp, floor[tp], k.positions[tp]);
      }
    }
    if tp in k.positions {
      if tp == from {
        FetchedCovered(c, logs, world, k.batch, rs, count, tp, floor[tp], k.positions[tp]);
      } else {
        AppendCovered(c, logs, world, k.batch, rs, n, tp, floor[tp], k.positions[tp]);
        forall o | floor[tp] <= o < k.positions[tp] ensures DoneAt(c, logs, world, tp, o) || Pending(batch, |batch|, tp, o) {
          assert Pending(batch, n, tp, o) ==> Pending(batch, |batch|, tp, o);
        }
      }
    }
  }

  lemma FloorStep<M>(c: Config<M>, logs: Logs, g: Group<M>, w: WorkerId, l: Label, tp: TP)
    requires PositionsInLog(logs, g, tp) && InProgress(Of(g, w)) && Enabled(c, logs, g, w, l)
    requires tp in g.world.offsets ==> tp in g.floor
    ensures FloorRises(g.floor, Do(c, logs, g, w, l).floor, tp)
    ensures tp in g.world.offsets ==> Do(c, logs, g, w, l).floor[tp] == g.floor[tp]
    ensures PositionsInLog(logs, Do(c, logs, g, w, l), tp)
  {
    var g' := Do(c, logs, g, w, l);
    StepGrows(c, logs, g, w, l);
    forall v | tp in Of(g', v).positions && tp !in g'.world.offsets ensures Of(g', v).positions[tp] <= |At(logs, tp)| {
      assert tp in Of(g, v).positions || l == Assign(tp);
    }
  }

  /** Steps that neither move a position nor touch the batch, unless they end the worker. */
  predicate KeepsQueue(l: Label) {
    !l.Assign? && !l.Revoke? && !l.Fetch? && !l.OffsetCommit?
  }

  lemma QueueStep<M>(c: Config<M>, logs: Logs, g: Group<M>, w: WorkerId, l: Label)
    requires InProgress(Of(g, w)) && Enabled(c, logs, g, w, l) && KeepsQueue(l)
    ensures var k, k' := Of(g, w), Of(Do(c, logs, g, w, l), w);
      k' == IDLE || (k'.batch == k.batch && k'.positions == k.positions)
  {
  }

  lemma SameQueueCovers<M>(c: Config<M>, logs: Logs, floor: map<TP, nat>, world: World<M>, k: Worker, k': Worker, tp: TP)
    requires WorkerCovers(c, logs, floor, world, k, tp)
    requires k' == IDLE || (k'.batch == k.batch && (tp in k'.positions ==> tp in k.positions && k'.positions[tp] == k.positions[tp]))
    ensures WorkerCovers(c, logs, floor, world, k', tp)
  {
  }

  /** A partition newly assigned starts at the committed offset or, after a reset, at the floor. */
  lemma AssignCovers<M>(c: Config<M>, logs: Logs, g: Group<M>, w: WorkerId, t: TP, tp: TP)
    requires Covers(c, logs, g, tp) && PositionsInLog(logs, g, tp)
    requires InProgress(Of(g, w)) && Enabled(c, logs, g, w, Assign(t))
    ensures var g' := Do(c, logs, g, w, Assign(t)); WorkerCovers(c, logs, g'.floor, g'.world, Of(g', w), tp)
  {
    var k, g' := Of(g, w), Do(c, logs, g, w, Assign(t));
    FloorStep(c, logs, g, w, Assign(t), tp);
    assert WorkerCovers(c, logs, g.floor, g.world, k, tp);
    WorkerCoversGrows(c, logs, logs, g.floor, g'.floor, g.world, g'.world, k, tp);
    if t == tp {
      var k' := Of(g', w);
      forall o | g'.floor[tp] <= o < k'.positions[tp] ensures DoneAt(c, logs, g'.world, tp, o) {
        assert DoneAt(c, logs, g.world, tp, o);
      }
    }
  }

  lemma ActorCovers<M>(c: Config<M>, logs: Logs, g: Group<M>, w: WorkerId, l: Label, tp: TP)
    requires Covers(c, logs, g, tp) && PositionsInLog(logs, g, tp)
    requires WorkerOk(c, logs, g.world, Of(g, w)) && Enabled(c, logs, g, w, l)
    ensures var g' := Do(c, logs, g, w, l); WorkerCovers(c, logs, g'.floor, g'.world, Of(g', w), tp)
  {
    var k, g' := Of(g, w), Do(c, logs, g, w, l);
    assert WorkerCovers(c, logs, g.floor, g.world, k, tp);
    if l.Assign? {
      AssignCovers(c, logs, g, w, l.tp, tp);
    } else if l.Fetch? {
      FetchCovers(c, logs, g.floor, g.world, k, l.from, l.count, tp);
    } else {
      StepGrows(c, logs, g, w, l);
      FloorStep(c, logs, g, w, l, tp);
      WorkerCoversGrows(c, logs, logs, g.floor, g'.floor, g.world, g'.world, k, tp);
      if l.OffsetCommit? {
        OtherWorkersOk(c, logs, g.world, g'.world, k);
        FinishCovers(c, logs, g'.floor, g'.world, k, tp);
        SameQueueCovers(c, logs, g'.floor, g'.world, k, IDLE, tp);
      } else {
        if KeepsQueue(l) { QueueStep(c, logs, g, w, l); }
        SameQueueCovers(c, logs, g'.floor, g'.world, k, Of(g', w), tp);
      }
    }
  }

  /** The commit of a settled record: everything below it was covered. */
  lemma CommittedRecordCovers<M>(c: Config<M>, logs: Logs, floor: map<TP, nat>, world: World<M>, k: Worker, tp: TP, o: nat)
    requires WorkerCovers(c, logs, floor, world, k, tp) && k.batch != []
    requires k.batch[0].tp == tp && InLog(logs, k.batch[0]) && Done(c, world, k.batch[0].event)
    requires tp in floor && floor[tp] <= o <= k.batch[0].offset
    ensures DoneAt(c, logs, world, tp, o)
  {
    assert Covered(c, logs, world, k.batch, 0, tp, floor[tp], k.batch[0].offset);
    if o < k.batch[0].offset {
      assert DoneAt(c, logs, world, tp, o) || Pending(k.batch, 0, tp, o);
    }
  }

  lemma OffsetStep<M>(c: Config<M>, logs: Logs, g: Group<M>, w: WorkerId, l: Label, tp: TP)
    requires Covers(c, logs, g, tp) && PositionsInLog(logs, g, tp)
    requires WorkerOk(c, logs, g.world, Of(g, w)) && Enabled(c, logs, g, w, l)
    ensures OffsetCovered(c, logs, Do(c, logs, g, w, l), tp)
  {
    var k, g' := Of(g, w), Do(c, logs, g, w, l);
    StepGrows(c, logs, g, w, l);
    FloorStep(c, logs, g, w, l, tp);
    assert WorkerCovers(c, logs, g.floor, g.world, k, tp);
    if tp in g'.world.offsets {
      if l.OffsetCommit? && k.batch[0].tp == tp && g'.world.offsets[tp] == k.batch[0].offset + 1 {
        forall o | g'.floor[tp] <= o < g'.world.offsets[tp] ensures DoneAt(c, logs, g'.world, tp, o) {
          CommittedRecordCovers(c, logs, g.floor, g.world, k, tp, o);
          DoneGrows(c, logs, logs, g.world, g'.world, tp, o);
        }
      } else {
        forall o | g'.floor[tp] <= o < g'.world.offsets[tp] ensures DoneAt(c, logs, g'.world, tp, o) {
          DoneGrows(c, logs, logs, g.world, g'.world, tp, o);
        }
      }
    }
  }

  lemma CoversStep<M>(c: Config<M>, m0: M, logs: Logs, g: Group<M>, w: WorkerId, l: Label, tp: TP)
    requires 1 <= c.maxRetries && Covers(c, logs, g, tp) && PositionsInLog(logs, g, tp) && Sound(c, m0, logs, g)
    requires Enabled(c, logs, g, w, l) && InProgress(Of(g, w))
    ensures Covers(c, logs, Do(c, logs, g, w, l), tp)
    ensures PositionsInLog(logs, Do(c, logs, g, w, l), tp)
  {
    var g' := Do(c, logs, g, w, l);
    assert WorkerOk(c, logs, g.world, Of(g, w));
    StepGrows(c, logs, g, w, l);
    FloorStep(c, logs, g, w, l, tp);
    OffsetStep(c, logs, g, w, l, tp);
    ActorCovers(c, logs, g, w, l, tp);
    forall v ensures WorkerCovers(c, logs, g'.floor, g'.world, Of(g', v), tp) {
      if v != w {
        assert WorkerCovers(c, logs, g.floor, g.world, Of(g, v), tp);
        WorkerCoversGrows(c, logs, logs, g.floor, g'.floor, g.world, g'.world, Of(g, v), tp);
      }
    }
  }

  lemma CoversGrow<M>(c: Config<M>, logs: Logs, logs': Logs, g: Group<M>, tp: TP)
    requires Covers(c, logs, g, tp) && PositionsInLog(logs, g, tp) && Extends(logs, logs')
    ensures Covers(c, logs', g, tp) && PositionsInLog(logs', g, tp)
  {
    if tp in g.world.offsets {
      forall o | g.floor[tp] <= o < g.world.offsets[tp] ensures DoneAt(c, logs', g.world, tp, o) {
        DoneGrows(c, logs, logs', g.world, g.world, tp, o);
      }
    }
    forall v ensures WorkerCovers(c, logs', g.floor, g.world, Of(g, v), tp) {
      WorkerCoversGrows(c, logs, logs', g.floor, g.floor, g.world, g.world, Of(g, v), tp);
    }
  }

  lemma {:induction false} RunCovers<M>(c: Config<M>, m0: M, n: Node<M>, moves: seq<Move>, tp: TP)
    requires Init(c, m0, n) && Run(c, n, moves).Some?
    ensures var s := Run(c, n, moves).value;
      && Covers(c, s.logs, s.group, tp)
      && PositionsInLog(s.logs, s.group, tp)
      && (tp in n.group.world.offsets ==> tp in s.group.world.offsets && tp in s.group.floor && s.group.floor[tp] == n.group.world.offsets[tp])
  {
    if moves != [] {
      var before := moves[..|moves| - 1];
      RunCovers(c, m0, n, before, tp);
      RunIsSound(c, m0, n, before);
      var s := Run(c, n, before).value;
      match moves[|moves| - 1]
      case Grow(t, e) =>
        ExtendsAt(s.logs, t, e);
        CoversGrow(c, s.logs, s.logs[t := At(s.logs, t) + [e]], s.group, tp);
      case Act(w, l) =>
        CoversStep(c, m0, s.logs, s.group, w, l, tp);
        StepGrows(c, s.logs, s.group, w, l);
        FloorStep(c, s.logs, s.group, w, l, tp);
    }
  }

  /** No loss under rebalance: in every reachable state each record between the floor and the
      committed offset is processed or dead-lettered. */
  lemma NoLossAboveFloor<M>(c: Config<M>, m0: M, n: Node<M>, moves: seq<Move>, tp: TP, o: nat)
    requires Init(c, m0, n) && Run(c, n, moves).Some?
    requires var s := Run(c, n, moves).value;
      tp in s.group.world.offsets && tp in s.group.floor && s.group.floor[tp] <= o < s.group.world.offsets[tp]
    ensures var s := Run(c, n, moves).value;
      o < |At(s.logs, tp)| && Done(c, s.group.world, At(s.logs, tp)[o])
  {
    RunCovers(c, m0, n, moves, tp);
    var s := Run(c, n, moves).value;
    assert DoneAt(c, s.logs, s.group.world, tp, o);
  }

  // ------------------------------------------------------------------ when the guarantee covers every record

  /** Where a worker that is assigned `tp` right now starts reading. */
  function StartPosition<M>(n: Node<M>, tp: TP): nat {
    if tp in n.group.world.offsets then n.group.world.offsets[tp] else |At(n.logs, tp)|
  }

  ghost predicate Lossless<M>(c: Config<M>, n: Node<M>, moves: seq<Move>, tp: TP) {
    Run(c, n, moves).Some? ==>
      var s := Run(c, n, moves).value;
      tp in s.group.world.offsets ==>
        forall o :: StartPosition(n, tp) <= o < s.group.world.offsets[tp] ==> DoneAt(c, s.logs, s.group.world, tp, o)
  }

  lemma Then<M>(c: Config<M>, n: Node<M>, moves: seq<Move>, s: Node<M>, m: Move) returns (moves': seq<Move>, s': Node<M>)
    requires Run(c, n, moves) == Some(s) && Possible(c, s, m)
    ensures moves' == moves + [m] && s' == Next(c, s, m)
    ensures Run(c, n, moves') == Some(s')
  {
    moves', s' := moves + [m], Next(c, s, m);
    assert moves'[..|moves'| - 1] == moves;
  }

  /** Worker 0 joins, sees `e0`, and dies before its first offset commit. */
  lemma SeesAndDies<M>(c: Config<M>, n: Node<M>, tp: TP, e0: Event) returns (moves: seq<Move>, s: Node<M>)
    requires n.group.workers == map[] && tp !in n.group.world.offsets
    ensures Run(c, n, moves) == Some(s)
    ensures At(s.logs, tp) == At(n.logs, tp) + [e0]
    ensures s.group.world == n.group.world && Of(s.group, 0) == IDLE
  {
    moves, s := Then(c, n, [], n, Act(0, Assign(tp)));
    moves, s := Then(c, n, moves, s, Grow(tp, e0));
    moves, s := Then(c, n, moves, s, Act(0, Fetch(tp, 1)));
    moves, s := Then(c, n, moves, s, Act(0, Crash));
  }

  /** An idle worker without a committed offset to return to starts at the log end, past
      everything before `e1`, and begins on `e1`. */
  lemma RestartsAtEnd<M>(c: Config<M>, n: Node<M>, moves0: seq<Move>, s0: Node<M>, tp: TP, e1: Event) returns (moves: seq<Move>, s: Node<M>)
    requires Run(c, n, moves0) == Some(s0)
    requires Of(s0.group, 0) == IDLE && tp !in s0.group.world.offsets
    ensures Run(c, n, moves) == Some(s)
    ensures At(s.logs, tp) == At(s0.logs, tp) + [e1]
    ensures s.group.world == s0.group.world
    ensures tp in Of(s.group, 0).positions && Of(s.group, 0).phase == Attempting(1)
    ensures Of(s.group, 0).batch == [Record(tp, |At(s0.logs, tp)|, e1)]
  {
    moves, s := Then(c, n, moves0, s0, Act(0, Assign(tp)));
    moves, s := Then(c, n, moves, s, Grow(tp, e1));
    moves, s := Then(c, n, moves, s, Act(0, Fetch(tp, 1)));
    moves, s := Then(c, n, moves, s, Act(0, Begin));
  }

  /** A worker about to look up the head of its batch gets as far as the database commit, up to which
      nothing is shared. */
  lemma Handles<M>(c: Config<M>, n: Node<M>, moves0: seq<Move>, s0: Node<M>, w: WorkerId) returns (moves: seq<Move>, s: Node<M>)
    requires Run(c, n, moves0) == Some(s0)
    requires Of(s0.group, w).batch != [] && Of(s0.group, w).phase == Attempting(1)
    requires c.complete(Of(s0.group, w).batch[0].event, []) && !IsProcessed(c, s0.group.world, Of(s0.group, w).batch[0].event)
    ensures Run(c, n, moves) == Some(s) && moves0 <= moves && s.logs == s0.logs && s.group.world == s0.group.world
    ensures s.group.workers == s0.group.workers[w := Of(s0.group, w).(phase := Staged(1, []))]
  {
    moves, s := Then(c, n, moves0, s0, Act(w, Lookup(false)));
    moves, s := Then(c, n, moves, s, Act(w, HandlerReturns));
    assert s.group.workers == s0.group.workers[w := Of(s0.group, w).(phase := Staged(1, []))];
  }

  lemma Commits<M>(c: Config<M>, n: Node<M>, moves0: seq<Move>, s0: Node<M>, w: WorkerId, m: M) returns (moves: seq<Move>, s: Node<M>)
    requires Run(c, n, moves0) == Some(s0)
    requires Of(s0.group, w).batch != [] && Of(s0.group, w).phase == Staged(1, [])
    requires !IsProcessed(c, s0.group.world, Of(s0.group, w).batch[0].event)
    requires c.apply(s0.group.world.model, Of(s0.group, w).batch[0].event, 0) == Some(m)
    ensures Run(c, n, moves) == Some(s) && moves == moves0 + [Act(w, DbCommit(Fine, 0))] && s.logs == s0.logs
    ensures s.group.world.model == m && s.group.world.rows == s0.group.world.rows + {(c.group, Of(s0.group, w).batch[0].event.eventId)}
    ensures s.group.world.offsets == s0.group.world.offsets && s.group.world.dlq == s0.group.world.dlq
    ensures s.group.workers == s0.group.workers[w := Of(s0.group, w).(phase := Settled(1))]
  {
    moves, s := Then(c, n, moves0, s0, Act(w, DbCommit(Fine, 0)));
  }

  /** A worker on its first attempt settles its only record when nothing fails. */
  lemma Settles<M>(c: Config<M>, n: Node<M>, moves0: seq<Move>, s0: Node<M>, r: Record) returns (moves: seq<Move>, s: Node<M>)
    requires Run(c, n, moves0) == Some(s0)
    requires Of(s0.group, 0).batch == [r] && Of(s0.group, 0).phase == Attempting(1) && r.tp in Of(s0.group, 0).positions
    requires !IsProcessed(c, s0.group.world, r.event)
    requires c.complete(r.event, []) && c.apply(s0.group.world.model, r.event, 0).Some?
    ensures Run(c, n, moves) == Some(s) && s.logs == s0.logs
    ensures r.tp in s.group.world.offsets && s.group.world.offsets[r.tp] == r.offset + 1
    ensures s.group.world.rows == s0.group.world.rows + {(c.group, r.event.eventId)}
    ensures s.group.world.dlq == s0.group.world.dlq
  {
    moves, s := Handles(c, n, moves0, s0, 0);
    moves, s := Commits(c, n, moves, s, 0, c.apply(s0.group.world.model, r.event, 0).value);
    moves, s := Then(c, n, moves, s, Act(0, OffsetCommit(Fine)));
  }

  lemma RestartSkips<M>(c: Config<M>, m0: M, n: Node<M>, tp: TP, e0: Event, e1: Event) returns (moves: seq<Move>)
    requires Init(c, m0, n) && tp !in n.group.world.offsets
    requires e0.eventId != e1.eventId && c.complete(e1, []) && c.apply(m0, e1, 0).Some?
    ensures !Lossless(c, n, moves, tp)
  {
    var end := |At(n.logs, tp)|;
    var m1, s1 := SeesAndDies(c, n, tp, e0);
    var m2, s2 := RestartsAtEnd(c, n, m1, s1, tp, e1);
    assert !IsProcessed(c, s2.group.world, e1);
    var m3, s3 := Settles(c, n, m2, s2, Record(tp, end + 1, e1));
    moves := m3;
    assert At(s3.logs, tp)[end] == e0;
    assert !IsProcessed(c, s3.group.world, e0);
    assert !DoneAt(c, s3.logs, s3.group.world, tp, end);
  }

  /** Every record from the first reading position on is safe in every run exactly when the group
      had a committed offset for the partition before it started: with `auto_offset_reset="latest"`
      a crash before the first commit restarts the group at the log end. */
  lemma LosslessIff<M>(c: Config<M>, m0: M, n: Node<M>, tp: TP, e0: Event, e1: Event)
    requires Init(c, m0, n)
    requires e0.eventId != e1.eventId && c.complete(e1, []) && c.apply(m0, e1, 0).Some?
    ensures (forall moves :: Lossless(c, n, moves, tp)) <==> tp in n.group.world.offsets
  {
    if tp in n.group.world.offsets {
      forall moves ensures Lossless(c, n, moves, tp) {
        if Run(c, n, moves).Some? { RunCovers(c, m0, n, moves, tp); }
      }
    } else {
      var moves := RestartSkips(c, m0, n, tp, e0, e1);
      assert !Lossless(c, n, moves, tp);
    }
  }
}
