/** The projection half of the alert loop is the projection group: what the group commits from the
    alert topic is a sequence of the loop's moves, in the order the loop allows. */
module AlertProjection {
  import opened Events
  import opened Delivery
  import opened Projector
  import opened Confluence
  import opened Protocol
  import opened ProtocolSafety
  import opened ProtocolOrder
  import opened References
  import L = AlertLoop
  import C = Composition

  predicate IsAlert(e: Event) {
    e.body.AlertCreated? || e.body.AlertUpdated?
  }

  predicate OfOneAlert(e: Event, f: Event) {
    IsAlert(e) && IsAlert(f) && e.entityId == f.entityId
  }

  /** Alert events are keyed by the alert id. */
  lemma AlertKey(e: Event)
    requires IsAlert(e)
    ensures DefaultPartitionKey(e) == Text(e.entityId) && TopicOf(e.body) == AlertsEvents
  {
    assert KEY_ORDER[1..] == [ModelKey, DeploymentKey, RunKey];
    assert KEY_ORDER[1..][1..] == [DeploymentKey, RunKey];
    assert KEY_ORDER[1..][1..][1..] == [RunKey];
    assert KEY_ORDER[1..][1..][1..][1..] == [];
    assert FirstKey(e.body, [RunKey]) == None;
    assert FirstKey(e.body, [DeploymentKey, RunKey]) == FirstKey(e.body, [RunKey]);
    assert FirstKey(e.body, [ModelKey, DeploymentKey, RunKey]) == FirstKey(e.body, [RunKey]);
  }

  /** The events of one alert share a partition. */
  ghost predicate Together(logs: Logs) {
    forall r, s :: InLog(logs, r) && InLog(logs, s) && OfOneAlert(r.event, s.event) ==> r.tp == s.tp
  }

  lemma LogsKeepAlertsTogether(u: C.Setup, logs: Logs)
    requires C.LogOk(u, logs)
    ensures Together(logs)
  {
    forall r, s | InLog(logs, r) && InLog(logs, s) && OfOneAlert(r.event, s.event) ensures r.tp == s.tp {
      assert C.LoggedOk(u, logs, r) && C.LoggedOk(u, logs, s);
      AlertKey(r.event);
      AlertKey(s.event);
    }
  }

  /** `place` lists the logged alert events in `sent`, each partition in log order. */
  ghost predicate Lists(logs: Logs, sent: seq<Event>, place: Record -> nat) {
    && (forall r :: InLog(logs, r) && IsAlert(r.event) ==> place(r) < |sent| && sent[place(r)] == r.event)
    && (forall r, s :: InLog(logs, r) && InLog(logs, s) && IsAlert(r.event) && IsAlert(s.event) && r.tp == s.tp && r.offset < s.offset ==>
          place(r) < place(s))
  }

  // ------------------------------------------------------------------ moves

  lemma Then(cooldown: int, l0: L.Loop, ms: seq<L.Move>, l: L.Loop, m: L.Move) returns (ms': seq<L.Move>)
    requires L.RunLoop(cooldown, l0, ms) == Some(l) && L.Possible(l, m)
    ensures ms' == ms + [m] && L.RunLoop(cooldown, l0, ms') == Some(L.After(cooldown, l, m))
  {
    ms' := ms + [m];
    assert ms'[..|ms'| - 1] == ms;
  }

  /** Only the projection has moved. */
  ghost predicate Projecting(ms: seq<L.Move>) {
    forall m :: m in ms ==> !m.Raise?
  }

  /** The earlier events of the alert of event `i`, up to `k`, that the projection will not see any more
      are dropped in turn. */
  lemma {:induction false} DropBelow(cooldown: int, l0: L.Loop, ms0: seq<L.Move>, l: L.Loop, i: nat, k: nat) returns (ms: seq<L.Move>, l': L.Loop)
    requires L.RunLoop(cooldown, l0, ms0) == Some(l) && k <= i < |l.sent| && Projecting(ms0)
    ensures L.RunLoop(cooldown, l0, ms) == Some(l') && Projecting(ms)
    ensures l' == l.(done := l'.done) && l.done <= l'.done
    ensures forall j :: 0 <= j < k && l.sent[j].entityId == l.sent[i].entityId ==> j in l'.done
    ensures forall j :: j in l'.done && j !in l.done ==> j < k && l.sent[j].entityId == l.sent[i].entityId
  {
    if k == 0 {
      ms, l' := ms0, l;
    } else {
      ms, l' := DropBelow(cooldown, l0, ms0, l, i, k - 1);
      if l.sent[k - 1].entityId == l.sent[i].entityId && k - 1 !in l'.done {
        ms := Then(cooldown, l0, ms, l', L.Drop(k - 1));
        l' := L.After(cooldown, l', L.Drop(k - 1));
      }
    }
  }

  /** An alert event later than every event of its alert that is done with can be projected next. */
  lemma ProjectsNext(cooldown: int, l0: L.Loop, ms0: seq<L.Move>, l: L.Loop, i: nat) returns (ms: seq<L.Move>, l': L.Loop)
    requires L.RunLoop(cooldown, l0, ms0) == Some(l) && i < |l.sent| && Projecting(ms0)
    requires forall j :: j in l.done && j < |l.sent| && l.sent[j].entityId == l.sent[i].entityId ==> j < i
    requires UpsertAlert(l.db, L.AlertOf(l.sent[i].body)).Some?
    ensures L.RunLoop(cooldown, l0, ms) == Some(l') && Projecting(ms)
    ensures l'.sent == l.sent && l'.applied == l.applied + {i} && l'.db == UpsertAlert(l.db, L.AlertOf(l.sent[i].body)).value
    ensures forall j :: j in l'.done ==> j in l.done || (j <= i && l.sent[j].entityId == l.sent[i].entityId)
  {
    ms, l' := DropBelow(cooldown, l0, ms0, l, i, i);
    assert i !in l'.done;
    ms := Then(cooldown, l0, ms, l', L.Project(i));
    l' := L.After(cooldown, l', L.Project(i));
  }

  // ------------------------------------------------------------------ the group's commits

  /** A handler that does to the alert table what the projector does. */
  ghost predicate AlertsLikeProjector(c: Config<Tables>) {
    forall db: Tables, e: Event, now: Time :: c.apply(db, e, now).Some? ==>
      (if IsAlert(e) then UpsertAlert(db, L.AlertOf(e.body)) == c.apply(db, e, now) else c.apply(db, e, now).value.alerts == db.alerts)
  }

  lemma ProjectorAlerts(n: nat)
    ensures AlertsLikeProjector(ProjectionConfig(n))
  {
    forall db: Tables, e: Event, now: Time | Apply(db, e, now).Some?
      ensures if IsAlert(e) then UpsertAlert(db, L.AlertOf(e.body)) == Apply(db, e, now) else Apply(db, e, now).value.alerts == db.alerts
    {
      if !IsAlert(e) { AlertsAside(db, e, now); }
    }
  }

  /** Only the alert table matters to an alert. */
  lemma OnlyAlerts(db: Tables, db': Tables, row: Row)
    requires db.alerts == db'.alerts
    ensures UpsertAlert(db, row).Some? <==> UpsertAlert(db', row).Some?
    ensures UpsertAlert(db, row).Some? ==> UpsertAlert(db, row).value.alerts == UpsertAlert(db', row).value.alerts
  {
  }

  ghost predicate IsCommit(cs: seq<Applied>, sent: seq<Event>, place: Record -> nat, j: nat) {
    exists a :: a in cs && IsAlert(a.record.event) && place(a.record) == j
  }

  /** Event `j` is no later than some committed event of its alert. */
  ghost predicate Passed(cs: seq<Applied>, sent: seq<Event>, place: Record -> nat, j: nat) {
    exists a :: a in cs && IsAlert(a.record.event) && j < |sent| && j <= place(a.record) && sent[j].entityId == a.record.event.entityId
  }

  /** The loop stands where the group stands after `cs`. */
  ghost predicate Follows(l: L.Loop, model: Tables, cs: seq<Applied>, sent: seq<Event>, place: Record -> nat) {
    && l.sent == sent && l.db.alerts == model.alerts
    && (forall j :: j in l.applied <==> IsCommit(cs, sent, place, j))
    && (forall j :: j in l.done ==> Passed(cs, sent, place, j))
  }

  /** Events of one alert are committed in the order in which they were sent. */
  ghost predicate CommittedInOrder(cs: seq<Applied>, place: Record -> nat) {
    forall i, j :: 0 <= i < j < |cs| && OfOneAlert(cs[i].record.event, cs[j].record.event) ==> place(cs[i].record) < place(cs[j].record)
  }

  ghost predicate CommitsListed(cs: seq<Applied>, sent: seq<Event>, place: Record -> nat) {
    forall a :: a in cs && IsAlert(a.record.event) ==> place(a.record) < |sent| && sent[place(a.record)] == a.record.event
  }

  lemma CommitLast(before: seq<Applied>, a: Applied, sent: seq<Event>, place: Record -> nat, j: nat)
    ensures IsCommit(before + [a], sent, place, j) <==> IsCommit(before, sent, place, j) || (IsAlert(a.record.event) && place(a.record) == j)
    ensures Passed(before, sent, place, j) ==> Passed(before + [a], sent, place, j)
  {
    assert a in before + [a];
    if IsCommit(before, sent, place, j) {
      var b :| b in before && IsAlert(b.record.event) && place(b.record) == j;
      assert b in before + [a];
    }
    if Passed(before, sent, place, j) {
      var b :| b in before && IsAlert(b.record.event) && j < |sent| && j <= place(b.record) && sent[j].entityId == b.record.event.entityId;
      assert b in before + [a];
    }
  }

  lemma PassedIsEarlier(before: seq<Applied>, a: Applied, sent: seq<Event>, place: Record -> nat, j: nat)
    requires CommittedInOrder(before + [a], place) && IsAlert(a.record.event) && Passed(before, sent, place, j)
    requires sent[j].entityId == a.record.event.entityId
    ensures j < place(a.record)
  {
    var cs := before + [a];
    var b :| b in before && IsAlert(b.record.event) && j <= place(b.record) && sent[j].entityId == b.record.event.entityId;
    var i :| 0 <= i < |before| && before[i] == b;
    assert cs[i] == b && cs[|before|] == a;
  }

  /** One more commit of an alert event, as moves of the loop. */
  lemma AlertCommitStep(cooldown: int, l0: L.Loop, ms0: seq<L.Move>, l: L.Loop, model: Tables, before: seq<Applied>, a: Applied, sent: seq<Event>, place: Record -> nat)
    returns (ms: seq<L.Move>, l': L.Loop)
    requires L.RunLoop(cooldown, l0, ms0) == Some(l) && Projecting(ms0) && Follows(l, model, before, sent, place)
    requires IsAlert(a.record.event) && CommittedInOrder(before + [a], place) && CommitsListed(before + [a], sent, place)
    requires UpsertAlert(model, L.AlertOf(a.record.event.body)).Some?
    ensures L.RunLoop(cooldown, l0, ms) == Some(l') && Projecting(ms)
    ensures Follows(l', UpsertAlert(model, L.AlertOf(a.record.event.body)).value, before + [a], sent, place)
  {
    var i := place(a.record);
    assert a in before + [a];
    OnlyAlerts(l.db, model, L.AlertOf(a.record.event.body));
    forall j | j in l.done && j < |l.sent| && l.sent[j].entityId == l.sent[i].entityId ensures j < i {
      PassedIsEarlier(before, a, sent, place, j);
    }
    ms, l' := ProjectsNext(cooldown, l0, ms0, l, i);
    forall j ensures j in l'.applied <==> IsCommit(before + [a], sent, place, j) { CommitLast(before, a, sent, place, j); }
    forall j | j in l'.done ensures Passed(before + [a], sent, place, j) { CommitLast(before, a, sent, place, j); }
  }

  lemma {:induction false} CommitsAreMoves(c: Config<Tables>, cooldown: int, cs: seq<Applied>, sent: seq<Event>, place: Record -> nat, clock: Time)
    returns (ms: seq<L.Move>, l: L.Loop)
    requires AlertsLikeProjector(c) && Replay(c, EMPTY, cs).Some? && CommittedInOrder(cs, place) && CommitsListed(cs, sent, place)
    ensures L.RunLoop(cooldown, L.Loop(EMPTY, sent, {}, {}, clock), ms) == Some(l) && Projecting(ms)
    ensures Follows(l, Replay(c, EMPTY, cs).value, cs, sent, place)
  {
    var l0 := L.Loop(EMPTY, sent, {}, {}, clock);
    if cs == [] {
      ms, l := [], l0;
    } else {
      var before, a := cs[..|cs| - 1], cs[|cs| - 1];
      assert cs == before + [a];
      ms, l := CommitsAreMoves(c, cooldown, before, sent, place, clock);
      var model := Replay(c, EMPTY, before).value;
      assert c.apply(model, a.record.event, a.now) == Replay(c, EMPTY, cs);
      if IsAlert(a.record.event) {
        ms, l := AlertCommitStep(cooldown, l0, ms, l, model, before, a, sent, place);
      } else {
        forall j ensures (IsCommit(before, sent, place, j) <==> IsCommit(cs, sent, place, j)) && (Passed(before, sent, place, j) ==> Passed(cs, sent, place, j)) {
          CommitLast(before, a, sent, place, j);
        }
      }
    }
  }

  lemma CommitsFollowLog(logs: Logs, cs: seq<Applied>, sent: seq<Event>, place: Record -> nat)
    requires Together(logs) && Lists(logs, sent, place)
    requires (forall a :: a in cs ==> InLog(logs, a.record)) && forall tp :: Increasing(cs, tp)
    ensures CommittedInOrder(cs, place) && CommitsListed(cs, sent, place)
  {
    forall i, j | 0 <= i < j < |cs| && OfOneAlert(cs[i].record.event, cs[j].record.event)
      ensures place(cs[i].record) < place(cs[j].record)
    {
      assert cs[i] in cs && cs[j] in cs;
      assert Increasing(cs, cs[i].record.tp);
    }
  }

  /** In any run of the projection group that hands partitions over one owner at a time, what it commits
      from the alert topic is a run of the alert loop's projection moves: each committed alert event is
      projected when it is next in line for its alert, the ones passed over are dropped before it, and
      the alert table comes out the same. */
  lemma ProjectionGroupMovesTheLoop(retries: nat, n: Node<Tables>, moves: seq<Move>, cooldown: int, sent: seq<Event>, place: Record -> nat, clock: Time)
    returns (ms: seq<L.Move>, l: L.Loop)
    requires Init(ProjectionConfig(retries), EMPTY, n) && Run(ProjectionConfig(retries), n, moves).Some?
    requires forall tp :: OrderlyRun(ProjectionConfig(retries), n, moves, tp)
    requires var logs := Run(ProjectionConfig(retries), n, moves).value.logs; Together(logs) && Lists(logs, sent, place)
    ensures L.RunLoop(cooldown, L.Loop(EMPTY, sent, {}, {}, clock), ms) == Some(l) && Projecting(ms)
    ensures var world := Run(ProjectionConfig(retries), n, moves).value.group.world; Follows(l, world.model, world.commits, sent, place)
  {
    var c := ProjectionConfig(retries);
    var s := Run(c, n, moves).value;
    ExactlyOnceEffect(c, EMPTY, n, moves);
    forall tp ensures Increasing(s.group.world.commits, tp) { InOrderFold(c, EMPTY, n, moves, tp); }
    ProjectorAlerts(retries);
    CommitsFollowLog(s.logs, s.group.world.commits, sent, place);
    ms, l := CommitsAreMoves(c, cooldown, s.group.world.commits, sent, place, clock);
  }
}
