/** The worker object itself: `BaseConsumerWorker` with its poll loop and retry loop, proved against
    the specification functions of `Delivery`. */
module Consumer {
  import opened Events
  import opened Delivery

  /** How the deliveries of a run may fail: one plan and one finale per record, by position. */
  datatype Schedule = Schedule(plan: nat -> nat -> Attempt, finale: nat -> Finale)

  /** Records in poll order until one delivery raises. */
  function DeliverAll<M>(c: Config<M>, owned: set<TP>, rs: seq<Record>, s: Schedule, w: World<M>): Delivered<M> {
    if rs == [] then Delivered(w, 0, Returned)
    else
      var d := DeliverAll(c, owned, rs[..|rs| - 1], s, w);
      if d.ending.Raised? then d
      else
        var k := |rs| - 1;
        var e := Deliver(c, owned, rs[k], s.plan(k), s.finale(k), d.world, 1);
        e.(calls := d.calls + e.calls)
  }

  function Flatten(polls: seq<seq<Record>>): seq<Record> {
    if polls == [] then [] else Flatten(polls[..|polls| - 1]) + polls[|polls| - 1]
  }

  /** How many records the first `n` polls hold. */
  function Before(polls: seq<seq<Record>>, n: nat): nat
    requires n <= |polls|
  {
    if n == 0 then 0 else Before(polls, n - 1) + |polls[n - 1]|
  }

  /** `rs` are the records of the polls, in order, each once. */
  ghost predicate InPollOrder(polls: seq<seq<Record>>, rs: seq<Record>) {
    && |rs| == Before(polls, |polls|)
    && forall i, j :: 0 <= i < |polls| && 0 <= j < |polls[i]| ==> ItemAt(polls, rs, i, j)
  }

  predicate ItemAt(polls: seq<seq<Record>>, rs: seq<Record>, i: nat, j: nat)
    requires i < |polls| && j < |polls[i]|
  {
    Before(polls, i) + j < |rs| && rs[Before(polls, i) + j] == polls[i][j]
  }

  lemma {:induction false} BeforePrefix(polls: seq<seq<Record>>, k: nat, n: nat)
    requires n <= k <= |polls|
    ensures Before(polls[..k], n) == Before(polls, n)
  {
    if n > 0 { BeforePrefix(polls, k, n - 1); }
  }

  lemma {:induction false} FlattenInOrder(polls: seq<seq<Record>>)
    ensures InPollOrder(polls, Flatten(polls))
  {
    if polls != [] {
      var n := |polls| - 1;
      var init, rs := polls[..n], Flatten(polls);
      FlattenInOrder(init);
      BeforePrefix(polls, n, n);
      forall i, j | 0 <= i < |polls| && 0 <= j < |polls[i]| ensures ItemAt(polls, rs, i, j) {
        if i < n {
          BeforePrefix(polls, n, i);
          assert ItemAt(init, Flatten(init), i, j);
        }
      }
    }
  }

  /** Every position belongs to one record of one poll. */
  lemma {:induction false} Located(polls: seq<seq<Record>>, n: nat, k: nat) returns (i: nat, j: nat)
    requires n <= |polls| && k < Before(polls, n)
    ensures i < n && j < |polls[i]| && k == Before(polls, i) + j
  {
    if k < Before(polls, n - 1) { i, j := Located(polls, n - 1, k); } else { i, j := n - 1, k - Before(polls, n - 1); }
  }

  /** So the polls leave no choice. */
  lemma PollOrderIsUnique(polls: seq<seq<Record>>, rs: seq<Record>, others: seq<Record>)
    requires InPollOrder(polls, rs) && InPollOrder(polls, others)
    ensures rs == others
  {
    forall k | 0 <= k < |rs| ensures rs[k] == others[k] {
      var i, j := Located(polls, |polls|, k);
      assert ItemAt(polls, rs, i, j) && ItemAt(polls, others, i, j);
    }
  }

  lemma {:induction false} RaisedStays<M>(c: Config<M>, owned: set<TP>, rs: seq<Record>, more: seq<Record>, s: Schedule, w: World<M>)
    requires DeliverAll(c, owned, rs, s, w).ending.Raised?
    ensures DeliverAll(c, owned, rs + more, s, w) == DeliverAll(c, owned, rs, s, w)
  {
    if more == [] {
      assert rs + more == rs;
    } else {
      RaisedStays(c, owned, rs, more[..|more| - 1], s, w);
      assert (rs + more)[..|rs + more| - 1] == rs + more[..|more| - 1];
    }
  }

  /** One more record after a run that has not raised. */
  lemma OneMoreRecord<M>(c: Config<M>, owned: set<TP>, done: seq<Record>, r: Record, s: Schedule, w: World<M>)
    requires DeliverAll(c, owned, done, s, w).ending.Returned?
    ensures var d := DeliverAll(c, owned, done, s, w);
      var e := Deliver(c, owned, r, s.plan(|done|), s.finale(|done|), d.world, 1);
      DeliverAll(c, owned, done + [r], s, w) == e.(calls := d.calls + e.calls)
  {
    assert (done + [r])[..|done + [r]| - 1] == done;
  }

  lemma RaisedInBatch<M>(c: Config<M>, owned: set<TP>, done: seq<Record>, records: seq<Record>, k: nat, s: Schedule, w: World<M>)
    requires k <= |records| && DeliverAll(c, owned, done + records[..k], s, w).ending.Raised?
    ensures DeliverAll(c, owned, done + records, s, w) == DeliverAll(c, owned, done + records[..k], s, w)
  {
    assert done + records == done + records[..k] + records[k..];
    RaisedStays(c, owned, done + records[..k], records[k..], s, w);
  }

  lemma {:induction false} FlattenPrefix(polls: seq<seq<Record>>, k: nat)
    requires k <= |polls|
    ensures Flatten(polls[..k]) <= Flatten(polls)
  {
    if k == |polls| {
      assert polls[..k] == polls;
    } else {
      FlattenPrefix(polls[..|polls| - 1], k);
      assert polls[..|polls| - 1][..k] == polls[..k];
    }
  }

  /** `picked` keeps the order of `rs` and takes every position at most once. */
  predicate Subsequence(picked: seq<Record>, rs: seq<Record>) {
    if rs == [] then picked == []
    else
      var k := |rs| - 1;
      Subsequence(picked, rs[..k]) ||
      (picked != [] && picked[|picked| - 1] == rs[k] && Subsequence(picked[..|picked| - 1], rs[..k]))
  }

  function Records(commits: seq<Applied>): (rs: seq<Record>)
    ensures |rs| == |commits|
  {
    seq(|commits|, i requires 0 <= i < |commits| => commits[i].record)
  }

  lemma {:induction false} RunIsMonotone<M>(c: Config<M>, owned: set<TP>, rs: seq<Record>, s: Schedule, w: World<M>)
    ensures var v := DeliverAll(c, owned, rs, s, w).world;
      w.commits <= v.commits && w.rows <= v.rows && w.dlq <= v.dlq
  {
    if rs != [] {
      var k := |rs| - 1;
      RunIsMonotone(c, owned, rs[..k], s, w);
      var d := DeliverAll(c, owned, rs[..k], s, w);
      DeliveryAppliesOnce(c, owned, rs[k], s.plan(k), s.finale(k), d.world, 1);
      DoneIsStable(c, owned, rs[k], s.plan(k), s.finale(k), d.world, 1);
    }
  }

  /** Over a whole run the read model stays the replay of transactions with distinct ids, and the
      handler is called at most `max_retries` times per record. */
  lemma {:induction false} RunIsExactlyOnce<M>(c: Config<M>, m0: M, owned: set<TP>, rs: seq<Record>, s: Schedule, w: World<M>)
    requires 1 <= c.maxRetries
    requires ExactlyOnce(c, m0, w)
    ensures ExactlyOnce(c, m0, DeliverAll(c, owned, rs, s, w).world)
    ensures DeliverAll(c, owned, rs, s, w).calls <= c.maxRetries * |rs|
  {
    if rs != [] {
      var k := |rs| - 1;
      RunIsExactlyOnce(c, m0, owned, rs[..k], s, w);
      var d := DeliverAll(c, owned, rs[..k], s, w);
      OneMore(c.maxRetries, k);
      if d.ending.Returned? {
        DeliveryIsExactlyOnce(c, m0, owned, rs[k], s.plan(k), s.finale(k), d.world, 1);
        RetryIsBounded(c, owned, rs[k], s.plan(k), s.finale(k), d.world, 1);
      }
    }
  }

  /** The transactions of a run are a subsequence, in order, of the records it was given. */
  lemma {:induction false} RunIsInOrder<M>(c: Config<M>, owned: set<TP>, rs: seq<Record>, s: Schedule, w: World<M>)
    ensures w.commits <= DeliverAll(c, owned, rs, s, w).world.commits
    ensures Subsequence(Records(DeliverAll(c, owned, rs, s, w).world.commits[|w.commits|..]), rs)
  {
    RunIsMonotone(c, owned, rs, s, w);
    if rs != [] {
      var k := |rs| - 1;
      RunIsInOrder(c, owned, rs[..k], s, w);
      var d := DeliverAll(c, owned, rs[..k], s, w);
      if d.ending.Returned? {
        var e := Deliver(c, owned, rs[k], s.plan(k), s.finale(k), d.world, 1);
        DeliveryAppliesOnce(c, owned, rs[k], s.plan(k), s.finale(k), d.world, 1);
        var before, after := d.world.commits[|w.commits|..], e.world.commits[|w.commits|..];
        if after != before {
          assert Records(after)[..|after| - 1] == Records(before);
          assert Records(after)[|after| - 1] == rs[k];
        }
      }
    }
  }

  /** When a run returns normally, every record it was given is processed or dead-lettered. */
  lemma {:induction false} RunSettles<M>(c: Config<M>, owned: set<TP>, rs: seq<Record>, s: Schedule, w: World<M>)
    requires 1 <= c.maxRetries
    requires DeliverAll(c, owned, rs, s, w).ending.Returned?
    ensures forall r :: r in rs ==> Done(c, DeliverAll(c, owned, rs, s, w).world, r.event)
  {
    if rs != [] {
      var k := |rs| - 1;
      RunSettles(c, owned, rs[..k], s, w);
      var d := DeliverAll(c, owned, rs[..k], s, w);
      var e := Deliver(c, owned, rs[k], s.plan(k), s.finale(k), d.world, 1);
      DoneIsStable(c, owned, rs[k], s.plan(k), s.finale(k), d.world, 1);
      ReturnSettles(c, owned, rs[k], s.plan(k), s.finale(k), d.world, 1);
      forall r | r in rs && r != rs[k] ensures Done(c, e.world, r.event) {
        assert r in rs[..k];
        assert Done(c, d.world, r.event);
      }
    }
  }

  /** Delivering the polls in order, whatever list that is, leaves every polled record processed or
      dead-lettered. */
  lemma AllPolls<M>(c: Config<M>, owned: set<TP>, polls: seq<seq<Record>>, s: Schedule, w: World<M>)
    ensures forall rs :: InPollOrder(polls, rs) ==> rs == Flatten(polls)
    ensures var d := DeliverAll(c, owned, Flatten(polls), s, w);
      1 <= c.maxRetries && d.ending.Returned? ==>
        forall i, j :: 0 <= i < |polls| && 0 <= j < |polls[i]| ==> Done(c, d.world, polls[i][j].event)
  {
    var all := Flatten(polls);
    FlattenInOrder(polls);
    forall rs | InPollOrder(polls, rs) ensures rs == all { PollOrderIsUnique(polls, rs, all); }
    var d := DeliverAll(c, owned, all, s, w);
    if 1 <= c.maxRetries && d.ending.Returned? {
      RunSettles(c, owned, all, s, w);
      forall i, j | 0 <= i < |polls| && 0 <= j < |polls[i]| ensures Done(c, d.world, polls[i][j].event) {
        assert ItemAt(polls, all, i, j);
        assert polls[i][j] in all;
      }
    }
  }

  lemma OneMore(a: nat, k: nat)
    ensures a * (k + 1) == a * k + a
  {
  }

  /** The database, the group's offsets, the dead-letter queue and the topics. */
  class Cluster<M> {
    var rows: set<(string, Id)>
    var model: M
    var commits: seq<Applied>
    var offsets: map<TP, nat>
    var dlq: seq<DeadLetter>
    var published: seq<Event>

    function View(): World<M>
      reads this
    {
      World(rows, model, commits, offsets, dlq, published)
    }

    constructor (m: M)
      ensures View() == World({}, m, [], map[], [], [])
    {
      rows, model, commits, offsets, dlq, published := {}, m, [], map[], [], [];
    }
  }

  class BaseConsumerWorker<!M> {
    const config: Config<M>
    const cluster: Cluster<M>
    var assignment: set<TP>
    var connected: bool
    var shutdown: bool
    var handlerCalls: nat

    constructor (c: Config<M>, k: Cluster<M>)
      ensures config == c && cluster == k
      ensures assignment == {} && !connected && !shutdown && handlerCalls == 0
    {
      config, cluster, assignment := c, k, {};
      connected, shutdown, handlerCalls := false, false, 0;
    }

    method Start(topicPartitions: set<TP>)
      modifies this`assignment, this`connected
      ensures connected
      ensures assignment == if old(connected) then old(assignment) else topicPartitions
    {
      if !connected {
        assignment, connected := topicPartitions, true;
      }
    }

    method Stop()
      modifies this`assignment, this`connected, this`shutdown
      ensures !connected && shutdown
      ensures assignment == if old(connected) then {} else old(assignment)
    {
      shutdown := true;
      if connected {
        assignment, connected := {}, false;
      }
    }

    method Commit(r: Record, f: Fault) returns (ok: bool)
      modifies cluster`offsets
      ensures (cluster.View(), ok) == CommitOffset(old(cluster.View()), assignment, r, f)
    {
      if r.tp !in assignment { return true; }
      if f.Lost? { return false; }
      cluster.offsets := cluster.offsets[r.tp := r.offset + 1];
      return f.Fine?;
    }

    method PublishDlq(r: Record, attempt: nat, error: Failure, f: Fault) returns (ok: bool)
      modifies cluster`dlq
      ensures cluster.View() == if f.Lost? then old(cluster.View()) else Bury(config, old(cluster.View()), r, attempt, error)
      ensures ok == f.Fine?
    {
      if f.Lost? { return false; }
      var letter := DeadLetter(r.tp.topic, config.group, attempt, error, r.event);
      cluster.dlq := cluster.dlq + [letter];
      return f.Fine?;
    }

    /** One pass through the `try` block. */
    method TryOnce(r: Record, a: Attempt) returns (error: Option<Failure>)
      modifies cluster, this`handlerCalls
      ensures var t := Try(config, assignment, r, a, old(cluster.View()));
        cluster.View() == t.world && handlerCalls == old(handlerCalls) + t.calls && error == t.error
    {
      if a.lookupRaises { return Some(LookupError); }
      if (config.group, r.event.eventId) in cluster.rows {
        var ok := Commit(r, a.offset);
        return if ok then None else Some(OffsetError);
      }
      handlerCalls := handlerCalls + 1;
      cluster.published := cluster.published + a.out;
      if a.handlerRaises { return Some(HandlerError); }
      var flushed := config.apply(cluster.model, r.event, a.now);
      if flushed.None? { return Some(IntegrityError); }
      if a.db.Lost? { return Some(DatabaseError); }
      cluster.rows := cluster.rows + {(config.group, r.event.eventId)};
      cluster.model := flushed.value;
      cluster.commits := cluster.commits + [Applied(r, a.now, a.out)];
      if a.db.Landed? { return Some(DatabaseError); }
      var ok := Commit(r, a.offset);
      return if ok then None else Some(OffsetError);
    }

    method ProcessRecord(r: Record, plan: nat -> Attempt, f: Finale) returns (ending: Ending)
      modifies cluster, this`handlerCalls
      ensures handlerCalls >= old(handlerCalls)
      ensures Delivered(cluster.View(), handlerCalls - old(handlerCalls), ending)
        == Deliver(config, assignment, r, plan, f, old(cluster.View()), 1)
    {
      var attempt := 1;
      ghost var start := cluster.View();
      while attempt <= config.maxRetries
        invariant 1 <= attempt <= config.maxRetries + 1
        invariant handlerCalls >= old(handlerCalls)
        invariant assignment == old(assignment)
        invariant attempt == 1 || config.maxRetries >= 1
        invariant attempt <= config.maxRetries || config.maxRetries == 0
        invariant var whole := Deliver(config, assignment, r, plan, f, start, 1);
          var rest := Deliver(config, assignment, r, plan, f, cluster.View(), attempt);
          whole == rest.(calls := handlerCalls - old(handlerCalls) + rest.calls)
      {
        var error := TryOnce(r, plan(attempt));
        if error.None? { return Returned; }
        if attempt >= config.maxRetries {
          var buried := PublishDlq(r, attempt, error.value, f.dlq);
          if !buried { return Raised; }
          var ok := Commit(r, f.offset);
          return if ok then Returned else Raised;
        }
        attempt := attempt + 1;
      }
      return Returned;
    }

    /** One record of a run; `done` are the records before it. */
    method NextRecord(r: Record, position: nat, s: Schedule, ghost done: seq<Record>, ghost start: World<M>, ghost calls: nat)
      returns (ending: Ending)
      requires position == |done|
      requires DeliverAll(config, assignment, done, s, start) == Delivered(cluster.View(), calls, Returned)
      modifies cluster, this`handlerCalls
      ensures handlerCalls >= old(handlerCalls)
      ensures DeliverAll(config, assignment, done + [r], s, start)
        == Delivered(cluster.View(), calls + handlerCalls - old(handlerCalls), ending)
    {
      OneMoreRecord(config, assignment, done, r, s, start);
      ending := ProcessRecord(r, s.plan(position), s.finale(position));
    }

    /** The records of one poll, in order; `done` are the records of the polls before it. */
    method ConsumeBatch(records: seq<Record>, first: nat, s: Schedule, ghost done: seq<Record>, ghost start: World<M>, ghost calls: nat)
      returns (ending: Ending)
      requires first == |done|
      requires DeliverAll(config, assignment, done, s, start) == Delivered(cluster.View(), calls, Returned)
      modifies cluster, this`handlerCalls
      ensures handlerCalls >= old(handlerCalls)
      ensures DeliverAll(config, assignment, done + records, s, start)
        == Delivered(cluster.View(), calls + handlerCalls - old(handlerCalls), ending)
    {
      var i := 0;
      ending := Returned;
      assert done + records[..0] == done;
      while i < |records|
        invariant 0 <= i <= |records|
        invariant ending.Returned?
        invariant handlerCalls >= old(handlerCalls)
        invariant DeliverAll(config, assignment, done + records[..i], s, start)
          == Delivered(cluster.View(), calls + handlerCalls - old(handlerCalls), Returned)
      {
        assert done + records[..i + 1] == done + records[..i] + [records[i]];
        ending := NextRecord(records[i], first + i, s, done + records[..i], start, calls + handlerCalls - old(handlerCalls));
        i := i + 1;
        if ending.Raised? {
          RaisedInBatch(config, assignment, done, records, i, s, start);
          return;
        }
      }
      assert records[..i] == records;
    }

    /** The poll loop over the batches the broker hands out; the consumer is stopped on every way
        out of it. */
    method RunForever(topicPartitions: set<TP>, polls: seq<seq<Record>>, s: Schedule) returns (ending: Ending)
      requires !connected
      modifies this, cluster
      ensures handlerCalls >= old(handlerCalls)
      ensures Delivered(cluster.View(), handlerCalls - old(handlerCalls), ending)
        == DeliverAll(config, topicPartitions, if old(shutdown) then [] else Flatten(polls), s, old(cluster.View()))
      ensures !old(shutdown) ==>
        forall rs :: InPollOrder(polls, rs) ==>
          DeliverAll(config, topicPartitions, rs, s, old(cluster.View())) == Delivered(cluster.View(), handlerCalls - old(handlerCalls), ending)
      ensures !old(shutdown) && 1 <= config.maxRetries && ending.Returned? ==>
        forall i, j :: 0 <= i < |polls| && 0 <= j < |polls[i]| ==> Done(config, cluster.View(), polls[i][j].event)
      ensures old(shutdown) ==> cluster.View() == old(cluster.View())
      ensures !connected && shutdown && assignment == {}
    {
      AllPolls(config, topicPartitions, polls, s, cluster.View());
      Start(topicPartitions);
      ghost var start := cluster.View();
      var poll, position := 0, 0;
      ending := Returned;
      while !shutdown && poll < |polls|
        invariant 0 <= poll <= |polls|
        invariant connected && assignment == topicPartitions
        invariant shutdown == old(shutdown)
        invariant shutdown ==> poll == 0
        invariant position == |Flatten(polls[..poll])|
        invariant handlerCalls >= old(handlerCalls)
        invariant ending.Returned?
        invariant DeliverAll(config, topicPartitions, Flatten(polls[..poll]), s, start)
          == Delivered(cluster.View(), handlerCalls - old(handlerCalls), Returned)
      {
        ghost var upTo := polls[..poll + 1];
        assert upTo[..|upTo| - 1] == polls[..poll];
        ending := ConsumeBatch(polls[poll], position, s, Flatten(polls[..poll]), start, handlerCalls - old(handlerCalls));
        position, poll := position + |polls[poll]|, poll + 1;
        if ending.Raised? {
          ghost var done, all := Flatten(upTo), Flatten(polls);
          FlattenPrefix(polls, poll);
          assert all == done + all[|done|..];
          RaisedStays(config, topicPartitions, done, all[|done|..], s, start);
          Stop();
          return;
        }
      }
      assert !shutdown ==> polls[..poll] == polls;
      Stop();
    }
  }
}
