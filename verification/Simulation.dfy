/** The delivery function that the worker's code is proved against is one interleaving of the
    transition system: what holds in every run of the system holds of the code's deliveries. */
module Simulation {
  import opened Events
  import opened Delivery
  import opened Protocol
  import opened ProtocolCoverage

  /** The handler publishes what the group's handler may publish. */
  ghost predicate PlanFits<M>(c: Config<M>, e: Event, a: Attempt) {
    && (forall m :: 1 <= m <= |a.out| ==> c.mayEmit(e, a.out[..m]))
    && (!a.handlerRaises ==> c.complete(e, a.out))
  }

  ghost predicate AtAttempt<M>(s: Node<M>, w: WorkerId, k: Worker, i: nat) {
    k.batch != [] && Of(s.group, w) == k.(phase := Attempting(i))
  }

  /** The run so far is extended, and only worker `w` has moved. */
  ghost predicate Continues<M>(c: Config<M>, n: Node<M>, moves: seq<Move>, s: Node<M>, s0: Node<M>, w: WorkerId) {
    && Run(c, n, moves) == Some(s)
    && s.logs == s0.logs
    && s.group.floor == s0.group.floor
    && forall v :: v != w ==> Of(s.group, v) == Of(s0.group, v)
  }

  lemma {:induction false} EmitAll<M>(c: Config<M>, n: Node<M>, moves0: seq<Move>, s0: Node<M>, w: WorkerId, k: Worker, i: nat, out: seq<Event>)
    returns (moves: seq<Move>, s: Node<M>)
    requires Run(c, n, moves0) == Some(s0)
    requires k.batch != [] && Of(s0.group, w) == k.(phase := Handling(i, []))
    requires forall m :: 1 <= m <= |out| ==> c.mayEmit(k.batch[0].event, out[..m])
    ensures Continues(c, n, moves, s, s0, w)
    ensures Of(s.group, w) == k.(phase := Handling(i, out))
    ensures s.group.world == s0.group.world.(published := s0.group.world.published + out)
    decreases |out|
  {
    if out == [] {
      moves, s := moves0, s0;
      assert s0.group.world.published + [] == s0.group.world.published;
    } else {
      var shorter := out[..|out| - 1];
      assert forall m :: 1 <= m <= |shorter| ==> shorter[..m] == out[..m];
      moves, s := EmitAll(c, n, moves0, s0, w, k, i, shorter);
      var last := out[|out| - 1];
      assert shorter + [last] == out == out[..|out|];
      moves, s := Then(c, n, moves, s, Act(w, Emit(last)));
      assert s0.group.world.published + shorter + [last] == s0.group.world.published + out;
    }
  }

  /** The offset commit at the end of an attempt. */
  lemma CommitIsRun<M>(c: Config<M>, n: Node<M>, moves0: seq<Move>, s0: Node<M>, w: WorkerId, k: Worker, f: Fault)
    returns (moves: seq<Move>, s: Node<M>)
    requires Run(c, n, moves0) == Some(s0)
    requires k.batch != [] && Of(s0.group, w) == k && (k.phase.Settled? || k.phase.DeadLettered?)
    ensures Continues(c, n, moves, s, s0, w)
    ensures var (world, ok) := CommitOffset(s0.group.world, k.positions.Keys, k.batch[0], f);
      && s.group.world == world
      && Of(s.group, w) == if ok then Finish(k) else if k.phase.Settled? then k.(phase := Failing(k.phase.n, OffsetError)) else IDLE
  {
    moves, s := Then(c, n, moves0, s0, Act(w, OffsetCommit(f)));
  }

  /** The database part of an attempt whose handler has returned. */
  lemma FlushIsRun<M>(c: Config<M>, n: Node<M>, moves0: seq<Move>, s0: Node<M>, w: WorkerId, k: Worker, i: nat, a: Attempt)
    returns (moves: seq<Move>, s: Node<M>)
    requires Run(c, n, moves0) == Some(s0)
    requires k.batch != [] && Of(s0.group, w) == k.(phase := Staged(i, a.out))
    ensures Continues(c, n, moves, s, s0, w)
    ensures match Flush(c, s0.group.world, k.batch[0], a.now, a.out)
      case None => s.group.world == s0.group.world && Of(s.group, w) == k.(phase := Failing(i, IntegrityError))
      case Some(flushed) =>
        if a.db.Lost? then s.group.world == s0.group.world && Of(s.group, w) == k.(phase := Failing(i, DatabaseError))
        else s.group.world == flushed && Of(s.group, w) == k.(phase := if a.db.Fine? then Settled(i) else Failing(i, DatabaseError))
  {
    moves, s := Then(c, n, moves0, s0, Act(w, DbCommit(a.db, a.now)));
  }

  /** One pass through the `try` block. */
  lemma TryIsRun<M>(c: Config<M>, n: Node<M>, moves0: seq<Move>, s0: Node<M>, w: WorkerId, k: Worker, i: nat, a: Attempt)
    returns (moves: seq<Move>, s: Node<M>)
    requires Run(c, n, moves0) == Some(s0) && AtAttempt(s0, w, k, i)
    requires PlanFits(c, k.batch[0].event, a)
    ensures Continues(c, n, moves, s, s0, w)
    ensures var t := Try(c, k.positions.Keys, k.batch[0], a, s0.group.world);
      && s.group.world == t.world
      && Of(s.group, w) == if t.error.None? then Finish(k) else k.(phase := Failing(i, t.error.value))
  {
    moves, s := Then(c, n, moves0, s0, Act(w, Lookup(a.lookupRaises)));
    assert Continues(c, n, moves, s, s0, w);
    if !a.lookupRaises {
      if IsProcessed(c, s0.group.world, k.batch[0].event) {
        moves, s := CommitIsRun(c, n, moves, s, w, k.(phase := Settled(i)), a.offset);
      } else {
        moves, s := EmitAll(c, n, moves, s, w, k, i, a.out);
        assert Continues(c, n, moves, s, s0, w);
        if a.handlerRaises {
          moves, s := Then(c, n, moves, s, Act(w, HandlerRaises));
        } else {
          moves, s := Then(c, n, moves, s, Act(w, HandlerReturns));
          assert Continues(c, n, moves, s, s0, w);
          moves, s := FlushIsRun(c, n, moves, s, w, k, i, a);
          if Of(s.group, w).phase.Settled? {
            moves, s := CommitIsRun(c, n, moves, s, w, k.(phase := Settled(i)), a.offset);
          }
        }
      }
    }
  }

  /** The `except` block of the last attempt. */
  lemma GiveUpIsRun<M>(c: Config<M>, n: Node<M>, moves0: seq<Move>, s0: Node<M>, w: WorkerId, k: Worker, i: nat, error: Failure, f: Finale)
    returns (moves: seq<Move>, s: Node<M>)
    requires Run(c, n, moves0) == Some(s0) && k.batch != []
    requires Of(s0.group, w) == k.(phase := Failing(i, error)) && i >= c.maxRetries
    ensures Continues(c, n, moves, s, s0, w)
    ensures var (world, ending) := GiveUp(c, k.positions.Keys, k.batch[0], i, error, f, s0.group.world);
      && s.group.world == world
      && Of(s.group, w) == if ending.Returned? then Finish(k) else IDLE
  {
    moves, s := Then(c, n, moves0, s0, Act(w, PublishDeadLetter(f.dlq)));
    if f.dlq.Fine? {
      moves, s := CommitIsRun(c, n, moves, s, w, k.(phase := DeadLettered(i)), f.offset);
    }
  }

  /** Every delivery, under every schedule of failures, is a run of the transition system that ends
      with the record taken off the batch, or with the worker gone when the delivery raises. */
  lemma {:induction false} DeliveryIsRun<M>(c: Config<M>, n: Node<M>, moves0: seq<Move>, s0: Node<M>, w: WorkerId, k: Worker, i: nat, plan: nat -> Attempt, f: Finale)
    returns (moves: seq<Move>, s: Node<M>)
    requires Run(c, n, moves0) == Some(s0) && AtAttempt(s0, w, k, i) && 1 <= i <= c.maxRetries
    requires forall j :: PlanFits(c, k.batch[0].event, plan(j))
    ensures Continues(c, n, moves, s, s0, w)
    ensures var d := Deliver(c, k.positions.Keys, k.batch[0], plan, f, s0.group.world, i);
      && s.group.world == d.world
      && Of(s.group, w) == if d.ending.Returned? then Finish(k) else IDLE
    decreases c.maxRetries + 1 - i
  {
    moves, s := TryIsRun(c, n, moves0, s0, w, k, i, plan(i));
    var t := Try(c, k.positions.Keys, k.batch[0], plan(i), s0.group.world);
    if t.error.Some? {
      if i >= c.maxRetries {
        moves, s := GiveUpIsRun(c, n, moves, s, w, k, i, t.error.value, f);
      } else {
        moves, s := Then(c, n, moves, s, Act(w, Retry));
        moves, s := DeliveryIsRun(c, n, moves, s, w, k, i + 1, plan, f);
      }
    }
  }
}
