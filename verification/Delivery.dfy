/** One delivery of one record: what `BaseConsumerWorker._process_record` does to the database,
    the consumer group's offsets, the dead-letter queue and the topics its handler publishes to,
    for every schedule of failures. */
module Delivery {
  import opened Events

  datatype TP = TP(topic: Topic, partition: nat)

  datatype Record = Record(tp: TP, offset: nat, event: Event)

  /** How an awaited operation may end: it works, it raises without effect, or it takes effect
      and raises all the same (the acknowledgement is lost). */
  datatype Fault = Fine | Lost | Landed

  datatype Failure = LookupError | HandlerError | IntegrityError | DatabaseError | OffsetError

  datatype DeadLetter = DeadLetter(topic: Topic, group: string, retryCount: nat, error: Failure, event: Event)

  /** One committed transaction: the record, the clock the handler read, and what the handler
      had published by then. */
  datatype Applied = Applied(record: Record, now: Time, out: seq<Event>)

  /** `rows` are the (consumer_group, event_id) pairs of `processed_events`; `commits` is the
      history of this group's committed transactions. */
  datatype World<M> = World(
    rows: set<(string, Id)>,
    model: M,
    commits: seq<Applied>,
    offsets: map<TP, nat>,
    dlq: seq<DeadLetter>,
    published: seq<Event>)

  /** A consumer group: `apply` is the handler's effect on the read model (`None` when the
      transaction cannot be flushed), `mayEmit`/`complete` describe what a handler call may have
      published so far and when it may return normally. */
  datatype Config<!M> = Config(
    group: string,
    maxRetries: nat,
    apply: (M, Event, Time) -> Option<M>,
    mayEmit: (Event, seq<Event>) -> bool,
    complete: (Event, seq<Event>) -> bool)

  predicate IsProcessed<M>(c: Config<M>, w: World<M>, e: Event) {
    (c.group, e.eventId) in w.rows
  }

  ghost predicate Buried<M>(c: Config<M>, w: World<M>, e: Event) {
    exists d :: d in w.dlq && d.event == e && d.group == c.group
  }

  ghost predicate Done<M>(c: Config<M>, w: World<M>, e: Event) {
    IsProcessed(c, w, e) || Buried(c, w, e)
  }

  /** Flushing the session: handler effects and marker in one transaction, refused as a whole if
      the marker exists already or the effects break a constraint. */
  function Flush<M>(c: Config<M>, w: World<M>, r: Record, now: Time, out: seq<Event>): Option<World<M>> {
    if IsProcessed(c, w, r.event) then None
    else
      match c.apply(w.model, r.event, now)
      case None => None
      case Some(m) => Some(w.(rows := w.rows + {(c.group, r.event.eventId)}, model := m, commits := w.commits + [Applied(r, now, out)]))
  }

  function SetOffset<M>(w: World<M>, r: Record): World<M> {
    w.(offsets := w.offsets[r.tp := r.offset + 1])
  }

  function Bury<M>(c: Config<M>, w: World<M>, r: Record, attempt: nat, error: Failure): World<M> {
    w.(dlq := w.dlq + [DeadLetter(r.tp.topic, c.group, attempt, error, r.event)])
  }

  /** `_commit`: does nothing, and cannot fail, when the partition is not assigned. */
  function CommitOffset<M>(w: World<M>, owned: set<TP>, r: Record, f: Fault): (World<M>, bool) {
    if r.tp !in owned then (w, true)
    else if f.Lost? then (w, false)
    else (SetOffset(w, r), f.Fine?)
  }

  /** What happens during one attempt: does the lookup raise, what does the handler publish and
      does it raise, and how do the database commit and the offset commit end. */
  datatype Attempt = Attempt(lookupRaises: bool, out: seq<Event>, handlerRaises: bool, now: Time, db: Fault, offset: Fault)

  datatype Finale = Finale(dlq: Fault, offset: Fault)

  datatype AttemptEnd<M> = AttemptEnd(world: World<M>, calls: nat, error: Option<Failure>)

  /** The body of the `try` block. `error == None` means `_process_record` returns. */
  function Try<M>(c: Config<M>, owned: set<TP>, r: Record, a: Attempt, w: World<M>): AttemptEnd<M> {
    if a.lookupRaises then AttemptEnd(w, 0, Some(LookupError))
    else if IsProcessed(c, w, r.event) then
      var (w1, ok) := CommitOffset(w, owned, r, a.offset);
      AttemptEnd(w1, 0, if ok then None else Some(OffsetError))
    else
      var w1 := w.(published := w.published + a.out);
      if a.handlerRaises then AttemptEnd(w1, 1, Some(HandlerError))
      else
        match Flush(c, w1, r, a.now, a.out)
        case None => AttemptEnd(w1, 1, Some(IntegrityError))
        case Some(w2) =>
          if a.db.Lost? then AttemptEnd(w1, 1, Some(DatabaseError))
          else if a.db.Landed? then AttemptEnd(w2, 1, Some(DatabaseError))
          else
            var (w3, ok) := CommitOffset(w2, owned, r, a.offset);
            AttemptEnd(w3, 1, if ok then None else Some(OffsetError))
  }

  datatype Ending = Returned | Raised

  datatype Delivered<M> = Delivered(world: World<M>, calls: nat, ending: Ending)

  /** The `except` block of the last attempt: dead-letter, then commit the offset; whatever
      raises here leaves `_process_record`. */
  function GiveUp<M>(c: Config<M>, owned: set<TP>, r: Record, n: nat, error: Failure, f: Finale, w: World<M>): (World<M>, Ending) {
    if f.dlq.Lost? then (w, Raised)
    else
      var w1 := Bury(c, w, r, n, error);
      if f.dlq.Landed? then (w1, Raised)
      else
        var (w2, ok) := CommitOffset(w1, owned, r, f.offset);
        (w2, if ok then Returned else Raised)
  }

  /** Attempts `n`, `n + 1`, ..., `maxRetries`. */
  function Deliver<M>(c: Config<M>, owned: set<TP>, r: Record, plan: nat -> Attempt, f: Finale, w: World<M>, n: nat): Delivered<M>
    decreases c.maxRetries + 1 - n
  {
    if n > c.maxRetries then Delivered(w, 0, Returned)
    else
      var t := Try(c, owned, r, plan(n), w);
      match t.error
      case None => Delivered(t.world, t.calls, Returned)
      case Some(error) =>
        if n >= c.maxRetries then
          var (w2, ending) := GiveUp(c, owned, r, n, error, f, t.world);
          Delivered(w2, t.calls, ending)
        else
          var d := Deliver(c, owned, r, plan, f, t.world, n + 1);
          d.(calls := t.calls + d.calls)
  }

  // ------------------------------------------------------------------ what one delivery guarantees

  /** The group's bookkeeping: the read model is the replay of the committed transactions, whose
      event ids are distinct and are exactly the group's markers. */
  function Replay<M>(c: Config<M>, m0: M, commits: seq<Applied>): Option<M> {
    if commits == [] then Some(m0)
    else
      match Replay(c, m0, commits[..|commits| - 1])
      case None => None
      case Some(m) => c.apply(m, commits[|commits| - 1].record.event, commits[|commits| - 1].now)
  }

  ghost predicate DistinctIds(commits: seq<Applied>) {
    forall i, j :: 0 <= i < j < |commits| ==> commits[i].record.event.eventId != commits[j].record.event.eventId
  }

  /** Some committed transaction carries this event id. */
  ghost predicate Committed(commits: seq<Applied>, id: Id) {
    exists a :: a in commits && a.record.event.eventId == id
  }

  ghost predicate MarkersMatch<M>(c: Config<M>, w: World<M>) {
    forall id :: (c.group, id) in w.rows <==> Committed(w.commits, id)
  }

  ghost predicate ExactlyOnce<M>(c: Config<M>, m0: M, w: World<M>) {
    && Replay(c, m0, w.commits) == Some(w.model)
    && DistinctIds(w.commits)
    && MarkersMatch(c, w)
  }

  lemma ReplayLast<M>(c: Config<M>, m0: M, commits: seq<Applied>, a: Applied)
    requires Replay(c, m0, commits).Some?
    ensures Replay(c, m0, commits + [a]) == c.apply(Replay(c, m0, commits).value, a.record.event, a.now)
  {
    assert (commits + [a])[..|commits|] == commits;
  }

  lemma CommittedLast(commits: seq<Applied>, a: Applied, id: Id)
    ensures Committed(commits + [a], id) <==> Committed(commits, id) || a.record.event.eventId == id
  {
    assert a in commits + [a];
    if Committed(commits, id) {
      var x :| x in commits && x.record.event.eventId == id;
      assert x in commits + [a];
    }
  }

  lemma DistinctLast(commits: seq<Applied>, a: Applied)
    requires DistinctIds(commits) && !Committed(commits, a.record.event.eventId)
    ensures DistinctIds(commits + [a])
  {
    forall i | 0 <= i < |commits| ensures commits[i].record.event.eventId != a.record.event.eventId {
      assert commits[i] in commits;
    }
  }

  lemma FlushKeepsExactlyOnce<M>(c: Config<M>, m0: M, w: World<M>, r: Record, now: Time, out: seq<Event>)
    requires ExactlyOnce(c, m0, w)
    requires Flush(c, w, r, now, out).Some?
    ensures ExactlyOnce(c, m0, Flush(c, w, r, now, out).value)
  {
    var a := Applied(r, now, out);
    var w' := Flush(c, w, r, now, out).value;
    ReplayLast(c, m0, w.commits, a);
    DistinctLast(w.commits, a);
    forall id ensures (c.group, id) in w'.rows <==> Committed(w'.commits, id) {
      CommittedLast(w.commits, a, id);
    }
  }

  /** Bookkeeping only looks at the read model, the transactions and this group's markers. */
  lemma SameBooks<M>(c: Config<M>, m0: M, w: World<M>, w': World<M>)
    requires ExactlyOnce(c, m0, w)
    requires w'.commits == w.commits && w'.model == w.model
    requires forall id :: (c.group, id) in w'.rows <==> (c.group, id) in w.rows
    ensures ExactlyOnce(c, m0, w')
  {
  }

  /** An attempt adds exactly one flushed transaction, or none. */
  lemma TryShape<M>(c: Config<M>, owned: set<TP>, r: Record, a: Attempt, w: World<M>)
    ensures var t, w1 := Try(c, owned, r, a, w), w.(published := w.published + a.out);
      var v := if IsProcessed(c, t.world, r.event) && !IsProcessed(c, w, r.event) then Flush(c, w1, r, a.now, a.out) else Some(w);
      && v.Some?
      && t.world.rows == v.value.rows && t.world.commits == v.value.commits && t.world.model == v.value.model
      && t.world.dlq == w.dlq
      && t.calls <= 1
  {
  }

  lemma TryKeepsExactlyOnce<M>(c: Config<M>, m0: M, owned: set<TP>, r: Record, a: Attempt, w: World<M>)
    requires ExactlyOnce(c, m0, w)
    ensures ExactlyOnce(c, m0, Try(c, owned, r, a, w).world)
  {
    TryShape(c, owned, r, a, w);
    var w', w1 := Try(c, owned, r, a, w).world, w.(published := w.published + a.out);
    if IsProcessed(c, w', r.event) && !IsProcessed(c, w, r.event) {
      SameBooks(c, m0, w, w1);
      FlushKeepsExactlyOnce(c, m0, w1, r, a.now, a.out);
      SameBooks(c, m0, Flush(c, w1, r, a.now, a.out).value, w');
    } else {
      SameBooks(c, m0, w, w');
    }
  }

  /** Whatever fails and however often the record is retried, the read model stays the replay of
      transactions with distinct ids that match the markers. */
  lemma {:induction false} DeliveryIsExactlyOnce<M>(c: Config<M>, m0: M, owned: set<TP>, r: Record, plan: nat -> Attempt, f: Finale, w: World<M>, n: nat)
    requires ExactlyOnce(c, m0, w)
    ensures ExactlyOnce(c, m0, Deliver(c, owned, r, plan, f, w, n).world)
    decreases c.maxRetries + 1 - n
  {
    if n <= c.maxRetries {
      var t := Try(c, owned, r, plan(n), w);
      TryKeepsExactlyOnce(c, m0, owned, r, plan(n), w);
      if t.error.Some? {
        if n < c.maxRetries {
          DeliveryIsExactlyOnce(c, m0, owned, r, plan, f, t.world, n + 1);
        } else {
          SameBooks(c, m0, t.world, GiveUp(c, owned, r, n, t.error.value, f, t.world).0);
        }
      }
    }
  }

  /** The handler's effect enters the read model at most once, together with its marker, and not
      at all when the marker was there already. */
  lemma {:induction false} DeliveryAppliesOnce<M>(c: Config<M>, owned: set<TP>, r: Record, plan: nat -> Attempt, f: Finale, w: World<M>, n: nat)
    ensures AppliedOnce(c, r, plan, w, Deliver(c, owned, r, plan, f, w, n).world, n)
    decreases c.maxRetries + 1 - n
  {
    if n <= c.maxRetries {
      var t := Try(c, owned, r, plan(n), w);
      TryShape(c, owned, r, plan(n), w);
      if t.error.Some? && n < c.maxRetries {
        DeliveryAppliesOnce(c, owned, r, plan, f, t.world, n + 1);
      }
    }
  }

  /** From `w` to `v`, either the marker appeared together with one transaction, that of some
      attempt from `n` on, or nothing was applied. */
  ghost predicate AppliedOnce<M>(c: Config<M>, r: Record, plan: nat -> Attempt, w: World<M>, v: World<M>, n: nat) {
    && w.rows <= v.rows
    && if !IsProcessed(c, w, r.event) && IsProcessed(c, v, r.event) then
         exists k :: n <= k <= c.maxRetries && v.commits == w.commits + [Applied(r, plan(k).now, plan(k).out)] &&
           Some(v.model) == c.apply(w.model, r.event, plan(k).now)
       else v.commits == w.commits && v.model == w.model
  }

  /** Bounded retry: at most `maxRetries` handler calls, at most one dead letter and only after
      the last attempt, with the full retry count and the untouched event. */
  lemma {:induction false} RetryIsBounded<M>(c: Config<M>, owned: set<TP>, r: Record, plan: nat -> Attempt, f: Finale, w: World<M>, n: nat)
    requires 1 <= n <= c.maxRetries
    ensures Deliver(c, owned, r, plan, f, w, n).calls <= c.maxRetries + 1 - n
    ensures var d := Deliver(c, owned, r, plan, f, w, n).world.dlq;
      d == w.dlq || exists error :: d == w.dlq + [DeadLetter(r.tp.topic, c.group, c.maxRetries, error, r.event)]
    decreases c.maxRetries + 1 - n
  {
    if n < c.maxRetries {
      RetryIsBounded(c, owned, r, plan, f, Try(c, owned, r, plan(n), w).world, n + 1);
    }
  }

  /** The queue `after` has one letter more than `before`, which names `error`. */
  predicate LetterAdded(before: seq<DeadLetter>, after: seq<DeadLetter>, error: Failure) {
    |after| == |before| + 1 && after[..|before|] == before && after[|before|].error == error
  }

  /** A dead letter names what the last attempt failed with, made in some world `v`. */
  lemma {:induction false} LetterNamesLastFailure<M>(c: Config<M>, owned: set<TP>, r: Record, plan: nat -> Attempt, f: Finale, w: World<M>, n: nat)
    returns (v: World<M>)
    requires 1 <= n <= c.maxRetries
    ensures var d, last := Deliver(c, owned, r, plan, f, w, n).world.dlq, Try(c, owned, r, plan(c.maxRetries), v).error;
      d == w.dlq || (last.Some? && LetterAdded(w.dlq, d, last.value))
    decreases c.maxRetries + 1 - n
  {
    if n < c.maxRetries { v := LetterNamesLastFailure(c, owned, r, plan, f, Try(c, owned, r, plan(n), w).world, n + 1); } else { v := w; }
  }

  /** A normal return settles the record: it is processed or dead-lettered, and its offset is
      committed exactly when the partition is still assigned. */
  lemma {:induction false} ReturnSettles<M>(c: Config<M>, owned: set<TP>, r: Record, plan: nat -> Attempt, f: Finale, w: World<M>, n: nat)
    requires 1 <= n <= c.maxRetries
    requires Deliver(c, owned, r, plan, f, w, n).ending.Returned?
    ensures Done(c, Deliver(c, owned, r, plan, f, w, n).world, r.event)
    ensures Deliver(c, owned, r, plan, f, w, n).world.offsets ==
      if r.tp in owned then w.offsets[r.tp := r.offset + 1] else w.offsets
    decreases c.maxRetries + 1 - n
  {
    var t := Try(c, owned, r, plan(n), w);
    if t.error.Some? {
      if n < c.maxRetries {
        ReturnSettles(c, owned, r, plan, f, t.world, n + 1);
      } else {
        var letter := DeadLetter(r.tp.topic, c.group, n, t.error.value, r.event);
        assert letter in Bury(c, t.world, r, n, t.error.value).dlq;
      }
    }
  }

  lemma GiveUpMovesOnlyWhenDone<M>(c: Config<M>, owned: set<TP>, r: Record, n: nat, error: Failure, f: Finale, w: World<M>)
    ensures var w' := GiveUp(c, owned, r, n, error, f, w).0;
      w'.offsets == w.offsets || (r.tp in owned && w'.offsets == w.offsets[r.tp := r.offset + 1] && Buried(c, w', r.event))
    ensures w.rows == GiveUp(c, owned, r, n, error, f, w).0.rows && w.dlq <= GiveUp(c, owned, r, n, error, f, w).0.dlq
  {
    if !f.dlq.Lost? {
      var letter := DeadLetter(r.tp.topic, c.group, n, error, r.event);
      assert letter in Bury(c, w, r, n, error).dlq;
    }
  }

  /** Whenever the offset moves, in a returning or a raising delivery, it moves to just past the
      record, and only once the record is processed or dead-lettered. */
  lemma {:induction false} OffsetMovesOnlyWhenDone<M>(c: Config<M>, owned: set<TP>, r: Record, plan: nat -> Attempt, f: Finale, w: World<M>, n: nat)
    requires Deliver(c, owned, r, plan, f, w, n).world.offsets != w.offsets
    ensures Deliver(c, owned, r, plan, f, w, n).world.offsets == w.offsets[r.tp := r.offset + 1]
    ensures r.tp in owned
    ensures Done(c, Deliver(c, owned, r, plan, f, w, n).world, r.event)
    decreases c.maxRetries + 1 - n
  {
    if n <= c.maxRetries {
      var t := Try(c, owned, r, plan(n), w);
      if t.error.Some? {
        if n < c.maxRetries {
          if Deliver(c, owned, r, plan, f, t.world, n + 1).world.offsets != t.world.offsets {
            OffsetMovesOnlyWhenDone(c, owned, r, plan, f, t.world, n + 1);
          } else {
            DoneIsStable(c, owned, r, plan, f, t.world, n + 1);
          }
        } else {
          GiveUpMovesOnlyWhenDone(c, owned, r, n, t.error.value, f, t.world);
        }
      }
    }
  }

  lemma {:induction false} DoneIsStable<M>(c: Config<M>, owned: set<TP>, r: Record, plan: nat -> Attempt, f: Finale, w: World<M>, n: nat)
    ensures w.rows <= Deliver(c, owned, r, plan, f, w, n).world.rows
    ensures w.dlq <= Deliver(c, owned, r, plan, f, w, n).world.dlq
    decreases c.maxRetries + 1 - n
  {
    if n < c.maxRetries {
      DoneIsStable(c, owned, r, plan, f, Try(c, owned, r, plan(n), w).world, n + 1);
    }
  }

  /** Does some attempt from `n` on get through? Once the marker is in place an attempt needs only
      the lookup and the offset commit; before that it needs the handler and the transaction too. */
  predicate GetsThrough<M>(c: Config<M>, owned: set<TP>, r: Record, plan: nat -> Attempt, w: World<M>, n: nat)
    decreases c.maxRetries + 1 - n
  {
    n <= c.maxRetries &&
    var a := plan(n);
    var offsetFine := r.tp !in owned || a.offset.Fine?;
    var handled := !a.lookupRaises && !a.handlerRaises && c.apply(w.model, r.event, a.now).Some?;
    if IsProcessed(c, w, r.event) then
      (!a.lookupRaises && offsetFine) || GetsThrough(c, owned, r, plan, w, n + 1)
    else if handled && !a.db.Lost? then
      (a.db.Fine? && offsetFine) ||
      GetsThrough(c, owned, r, plan, WithMarker(c, w, r), n + 1)
    else GetsThrough(c, owned, r, plan, w, n + 1)
  }

  lemma {:induction false} GetsThroughFrame<M>(c: Config<M>, owned: set<TP>, r: Record, plan: nat -> Attempt, w: World<M>, v: World<M>, n: nat)
    requires IsProcessed(c, w, r.event) <==> IsProcessed(c, v, r.event)
    requires !IsProcessed(c, w, r.event) ==> w.model == v.model
    ensures GetsThrough(c, owned, r, plan, w, n) == GetsThrough(c, owned, r, plan, v, n)
    decreases c.maxRetries + 1 - n
  {
    if n <= c.maxRetries {
      GetsThroughFrame(c, owned, r, plan, w, v, n + 1);
      GetsThroughFrame(c, owned, r, plan, WithMarker(c, w, r), WithMarker(c, v, r), n + 1);
    }
  }

  function WithMarker<M>(c: Config<M>, w: World<M>, r: Record): World<M> {
    w.(rows := w.rows + {(c.group, r.event.eventId)})
  }

  /** One attempt either returns, or leaves a state from which the rest gets through just as it
      would from here, with the marker added if the transaction took effect. */
  lemma AttemptOrRest<M>(c: Config<M>, owned: set<TP>, r: Record, plan: nat -> Attempt, w: World<M>, n: nat)
    requires n <= c.maxRetries
    ensures var t := Try(c, owned, r, plan(n), w);
      && t.world.dlq == w.dlq
      && (GetsThrough(c, owned, r, plan, w, n) <==> t.error.None? || GetsThrough(c, owned, r, plan, t.world, n + 1))
  {
    var a := plan(n);
    var t := Try(c, owned, r, a, w);
    if IsProcessed(c, w, r.event) || !IsProcessed(c, t.world, r.event) {
      GetsThroughFrame(c, owned, r, plan, t.world, w, n + 1);
    } else {
      GetsThroughFrame(c, owned, r, plan, t.world, WithMarker(c, w, r), n + 1);
    }
  }

  lemma {:induction false} DeadLetteredByRetries<M>(c: Config<M>, owned: set<TP>, r: Record, plan: nat -> Attempt, f: Finale, w: World<M>, n: nat)
    requires 1 <= n <= c.maxRetries
    ensures (|Deliver(c, owned, r, plan, f, w, n).world.dlq| > |w.dlq|) <==> (!GetsThrough(c, owned, r, plan, w, n) && !f.dlq.Lost?)
    ensures GetsThrough(c, owned, r, plan, w, n) ==> Deliver(c, owned, r, plan, f, w, n).ending.Returned?
    decreases c.maxRetries + 1 - n
  {
    var t := Try(c, owned, r, plan(n), w);
    AttemptOrRest(c, owned, r, plan, w, n);
    if t.error.Some? {
      if n < c.maxRetries {
        DeadLetteredByRetries(c, owned, r, plan, f, t.world, n + 1);
      } else {
        assert !GetsThrough(c, owned, r, plan, t.world, n + 1);
      }
    }
  }

  // ------------------------------------------------------------------ the same, on the schedule

  /** The attempt's transaction takes effect, unless the marker was there before. */
  predicate Marks<M>(c: Config<M>, r: Record, a: Attempt, w: World<M>) {
    !a.lookupRaises && !a.handlerRaises && c.apply(w.model, r.event, a.now).Some? && !a.db.Lost?
  }

  /** The event was processed before the delivery or by one of the attempts `n`, ..., `k - 1`. */
  ghost predicate MarkedBefore<M>(c: Config<M>, r: Record, plan: nat -> Attempt, w: World<M>, n: nat, k: nat) {
    IsProcessed(c, w, r.event) || exists j :: n <= j < k && Marks(c, r, plan(j), w)
  }

  /** The attempt ends the delivery without an error. */
  predicate Passes<M>(c: Config<M>, owned: set<TP>, r: Record, a: Attempt, w: World<M>, marked: bool) {
    && (if marked then !a.lookupRaises else Marks(c, r, a, w) && a.db.Fine?)
    && (r.tp !in owned || a.offset.Fine?)
  }

  ghost predicate SomePasses<M>(c: Config<M>, owned: set<TP>, r: Record, plan: nat -> Attempt, w: World<M>, n: nat) {
    exists k :: n <= k <= c.maxRetries && Passes(c, owned, r, plan(k), w, MarkedBefore(c, r, plan, w, n, k))
  }

  lemma {:induction false} GetsThroughIff<M>(c: Config<M>, owned: set<TP>, r: Record, plan: nat -> Attempt, w: World<M>, n: nat)
    ensures GetsThrough(c, owned, r, plan, w, n) <==> SomePasses(c, owned, r, plan, w, n)
    decreases c.maxRetries + 1 - n
  {
    if n <= c.maxRetries {
      var marks := !IsProcessed(c, w, r.event) && Marks(c, r, plan(n), w);
      var v := if marks then WithMarker(c, w, r) else w;
      GetsThroughIff(c, owned, r, plan, v, n + 1);
      MarkedNext(c, r, plan, w, n);
      forall k | n < k <= c.maxRetries
        ensures Passes(c, owned, r, plan(k), w, MarkedBefore(c, r, plan, w, n, k)) <==> Passes(c, owned, r, plan(k), v, MarkedBefore(c, r, plan, v, n + 1, k))
      {
      }
    }
  }

  /** What attempt `n` leaves for the later ones. */
  lemma MarkedNext<M>(c: Config<M>, r: Record, plan: nat -> Attempt, w: World<M>, n: nat)
    ensures var v := if !IsProcessed(c, w, r.event) && Marks(c, r, plan(n), w) then WithMarker(c, w, r) else w;
      forall k :: n < k ==> (MarkedBefore(c, r, plan, w, n, k) <==> MarkedBefore(c, r, plan, v, n + 1, k))
  {
    forall k | n < k && MarkedBefore(c, r, plan, w, n, k) && !IsProcessed(c, w, r.event) && !Marks(c, r, plan(n), w)
      ensures MarkedBefore(c, r, plan, w, n + 1, k)
    {
      var j :| n <= j < k && Marks(c, r, plan(j), w);
    }
  }

  /** When no attempt passes, all of them are made, and the event ends processed exactly when it was
      before or some attempt's transaction took effect. */
  lemma {:induction false} ProcessedIff<M>(c: Config<M>, owned: set<TP>, r: Record, plan: nat -> Attempt, f: Finale, w: World<M>, n: nat)
    requires 1 <= n <= c.maxRetries && !GetsThrough(c, owned, r, plan, w, n)
    ensures IsProcessed(c, Deliver(c, owned, r, plan, f, w, n).world, r.event) <==> MarkedBefore(c, r, plan, w, n, c.maxRetries + 1)
    decreases c.maxRetries + 1 - n
  {
    var t := Try(c, owned, r, plan(n), w);
    AttemptOrRest(c, owned, r, plan, w, n);
    MarkedNext(c, r, plan, w, n);
    if n < c.maxRetries {
      ProcessedIff(c, owned, r, plan, f, t.world, n + 1);
      MarkedFrame(c, r, plan, t.world, if !IsProcessed(c, w, r.event) && Marks(c, r, plan(n), w) then WithMarker(c, w, r) else w, n + 1, c.maxRetries + 1);
    }
  }

  lemma MarkedFrame<M>(c: Config<M>, r: Record, plan: nat -> Attempt, w: World<M>, v: World<M>, n: nat, k: nat)
    requires IsProcessed(c, w, r.event) <==> IsProcessed(c, v, r.event)
    requires !IsProcessed(c, w, r.event) ==> w.model == v.model
    ensures MarkedBefore(c, r, plan, w, n, k) <==> MarkedBefore(c, r, plan, v, n, k)
  {
    if !IsProcessed(c, w, r.event) { assert forall j :: Marks(c, r, plan(j), w) <==> Marks(c, r, plan(j), v); }
  }

  /** A record is dead-lettered exactly when none of the attempts passes and the dead-letter publish
      takes effect. */
  lemma DeadLetteredIff<M>(c: Config<M>, owned: set<TP>, r: Record, plan: nat -> Attempt, f: Finale, w: World<M>, n: nat)
    requires 1 <= n <= c.maxRetries
    ensures (|Deliver(c, owned, r, plan, f, w, n).world.dlq| > |w.dlq|) <==> (!SomePasses(c, owned, r, plan, w, n) && !f.dlq.Lost?)
    ensures SomePasses(c, owned, r, plan, w, n) ==> Deliver(c, owned, r, plan, f, w, n).ending.Returned?
  {
    GetsThroughIff(c, owned, r, plan, w, n);
    DeadLetteredByRetries(c, owned, r, plan, f, w, n);
  }

  /** An event ends processed and dead-lettered by the same delivery exactly when, besides, it was
      processed before or the transaction of some attempt took effect: the offset commit, or the
      acknowledgement of the transaction, failed inside the `try`. */
  lemma ProcessedAndDeadLetteredIff<M>(c: Config<M>, owned: set<TP>, r: Record, plan: nat -> Attempt, f: Finale, w: World<M>, n: nat)
    requires 1 <= n <= c.maxRetries
    ensures (IsProcessed(c, Deliver(c, owned, r, plan, f, w, n).world, r.event) && |Deliver(c, owned, r, plan, f, w, n).world.dlq| > |w.dlq|) <==>
      !SomePasses(c, owned, r, plan, w, n) && !f.dlq.Lost? && MarkedBefore(c, r, plan, w, n, c.maxRetries + 1)
  {
    DeadLetteredIff(c, owned, r, plan, f, w, n);
    GetsThroughIff(c, owned, r, plan, w, n);
    if !GetsThrough(c, owned, r, plan, w, n) { ProcessedIff(c, owned, r, plan, f, w, n); }
  }

  /** The handler and its transaction work, and every offset commit raises. */
  function OffsetsFail(now: Time): nat -> Attempt {
    (k: nat) => Attempt(false, [], false, now, Fine, Lost)
  }

  /** It happens: a handler that succeeds at once, while every offset commit of the retry loop raises. */
  lemma ProcessedYetDeadLettered<M>(c: Config<M>, owned: set<TP>, r: Record, w: World<M>, now: Time)
    requires 1 <= c.maxRetries && r.tp in owned && !IsProcessed(c, w, r.event) && c.apply(w.model, r.event, now).Some?
    ensures var d := Deliver(c, owned, r, OffsetsFail(now), Finale(Fine, Fine), w, 1);
      d.ending.Returned? && IsProcessed(c, d.world, r.event) && Buried(c, d.world, r.event)
  {
    var plan, f := OffsetsFail(now), Finale(Fine, Fine);
    assert Marks(c, r, plan(1), w);
    ProcessedAndDeadLetteredIff(c, owned, r, plan, f, w, 1);
    RetryIsBounded(c, owned, r, plan, f, w, 1);
    FinaleReturns(c, owned, r, plan, f, w, 1);
    var d := Deliver(c, owned, r, plan, f, w, 1).world.dlq;
    var error :| d == w.dlq + [DeadLetter(r.tp.topic, c.group, c.maxRetries, error, r.event)];
    assert d[|w.dlq|] in d;
  }

  /** With a finale that works, every delivery returns. */
  lemma {:induction false} FinaleReturns<M>(c: Config<M>, owned: set<TP>, r: Record, plan: nat -> Attempt, f: Finale, w: World<M>, n: nat)
    requires f.dlq.Fine? && f.offset.Fine?
    ensures Deliver(c, owned, r, plan, f, w, n).ending.Returned?
    decreases c.maxRetries + 1 - n
  {
    if n < c.maxRetries { FinaleReturns(c, owned, r, plan, f, Try(c, owned, r, plan(n), w).world, n + 1); }
  }

  /** Without retries the loop body never runs: the record is silently passed over, neither
      processed nor dead-lettered, so settling on return needs `max_retries >= 1`. */
  lemma NoRetriesNoSettling<M>(c: Config<M>, owned: set<TP>, r: Record, plan: nat -> Attempt, f: Finale, w: World<M>)
    requires c.maxRetries == 0
    ensures Deliver(c, owned, r, plan, f, w, 1) == Delivered(w, 0, Returned)
  {
  }
}
