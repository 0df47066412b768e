/** The alert loop: `process_signal` reads the alert table, which the projection builds, with any
    delay, from the very events `process_signal` publishes. */
module AlertLoop {
  import opened Events
  import opened Projector
  import opened Alerting
  import opened References

  /** `sent` are the alert events in the order they were published; `done` those the projection is
      through with, `applied` those it applied rather than dead-lettered. */
  datatype Loop = Loop(db: Tables, sent: seq<Event>, done: set<nat>, applied: set<nat>, clock: Time)

  datatype Move =
    | Raise(signal: Signal, now: Time, newId: Id, eventId: Id, found: Option<Id>)
    | Project(i: nat)
    | Drop(lost: nat)

  function AlertOf(b: Body): Row {
    match b
    case AlertCreated(row) => row
    case AlertUpdated(row) => row
    case _ => map[]
  }

  predicate FreshAlert(l: Loop, id: Id) {
    id !in l.db.alerts && forall i :: 0 <= i < |l.sent| ==> l.sent[i].entityId != id
  }

  /** Alert events are keyed by alert id, so only events of one alert are projected in order. */
  predicate NextInLine(l: Loop, i: nat) {
    i < |l.sent| && i !in l.done && forall j :: 0 <= j < i && l.sent[j].entityId == l.sent[i].entityId ==> j in l.done
  }

  predicate Possible(l: Loop, m: Move) {
    match m
    case Raise(s, now, newId, _, found) => l.clock <= now && FreshAlert(l, newId) && IsExisting(l.db.alerts, DedupeKey(s), found)
    case Project(i) => NextInLine(l, i)
    case Drop(i) => NextInLine(l, i)
  }

  function After(cooldown: int, l: Loop, m: Move): Loop
    requires Possible(l, m)
  {
    match m
    case Raise(s, now, newId, eventId, found) =>
      (match Process(l.db.alerts, found, s, now, cooldown, newId, eventId)
       case None => l.(clock := now)
       case Some(e) => l.(sent := l.sent + [e], clock := now))
    case Project(i) =>
      (match UpsertAlert(l.db, AlertOf(l.sent[i].body))
       case None => l.(done := l.done + {i})
       case Some(db) => l.(db := db, done := l.done + {i}, applied := l.applied + {i}))
    case Drop(i) => l.(done := l.done + {i})
  }

  function RunLoop(cooldown: int, l: Loop, ms: seq<Move>): Option<Loop> {
    if ms == [] then Some(l)
    else
      match RunLoop(cooldown, l, ms[..|ms| - 1])
      case None => None
      case Some(t) => if Possible(t, ms[|ms| - 1]) then Some(After(cooldown, t, ms[|ms| - 1])) else None
  }

  // ------------------------------------------------------------------ what every run keeps

  predicate Stated(e: Event) {
    && (e.body.AlertCreated? || e.body.AlertUpdated?)
    && var row := AlertOf(e.body);
    Get(row, IdCol) == Text(e.entityId) && Get(row, DedupeCol).Text? && Get(row, LastSentCol).Instant?
  }

  function KeyOf(e: Event): Value {
    Get(AlertOf(e.body), DedupeCol)
  }

  /** What a published alert says: an update speaks of the row that was found and a creation of a new
      one; both restate the signal, name its source event, are open and carry the sending time, and are
      kept together with other events of the alert. */
  lemma AlertSays(alerts: map<Id, Row>, found: Option<Id>, s: Signal, now: Time, cooldown: int, newId: Id, eventId: Id)
    requires IsExisting(alerts, DedupeKey(s), found) && Process(alerts, found, s, now, cooldown, newId, eventId).Some?
    ensures var e := Process(alerts, found, s, now, cooldown, newId, eventId).value;
      && (e.body.AlertCreated? || e.body.AlertUpdated?) && TopicOf(e.body) == AlertsEvents && DefaultPartitionKey(e) == Text(e.entityId)
      && (e.body.AlertUpdated? <==> e.entityId in alerts && found == Some(e.entityId))
      && (e.body.AlertCreated? ==> e.entityId == newId)
      && Get(AlertOf(e.body), IdCol) == Text(e.entityId)
      && Get(AlertOf(e.body), SeverityCol) == s.severity && Get(AlertOf(e.body), DescriptionCol) == s.description
      && Get(AlertOf(e.body), TitleCol) == Text(s.title) && Get(AlertOf(e.body), SourceEventCol) == Text(s.sourceId)
      && Get(AlertOf(e.body), StatusCol) == Text("open") && Get(AlertOf(e.body), LastSentCol) == Instant(now)
      && Get(AlertOf(e.body), DedupeCol) == Text(s.signalType + ":" + s.entityType + ":" + s.entityId + ":" + s.title)
  {
    PartitionKeyIs(Process(alerts, found, s, now, cooldown, newId, eventId).value);
  }

  function SentAt(e: Event): Time {
    LastSent(AlertOf(e.body))
  }

  function LastSent(row: Row): Time {
    if Get(row, LastSentCol).Instant? then Get(row, LastSentCol).t else 0
  }

  predicate RowOk(row: Row, clock: Time) {
    Get(row, DedupeCol).Text? && Get(row, LastSentCol).Instant? && LastSent(row) <= clock
  }

  ghost predicate EventsOk(sent: seq<Event>, clock: Time) {
    && (forall i :: 0 <= i < |sent| ==> Stated(sent[i]) && SentAt(sent[i]) <= clock)
    && (forall i, j :: 0 <= i < j < |sent| ==> SentAt(sent[i]) <= SentAt(sent[j]))
    && (forall i, j :: 0 <= i < j < |sent| && sent[i].entityId == sent[j].entityId ==> KeyOf(sent[i]) == KeyOf(sent[j]))
  }

  ghost predicate DoneOk(sent: seq<Event>, done: set<nat>, applied: set<nat>) {
    && (forall i, j :: 0 <= i < j < |sent| && sent[i].entityId == sent[j].entityId && j in done ==> i in done)
    && applied <= done
    && (forall i :: i in done ==> i < |sent|)
  }

  ghost predicate SentOk(l: Loop) {
    EventsOk(l.sent, l.clock) && DoneOk(l.sent, l.done, l.applied)
  }

  ghost predicate RowsOk(l: Loop) {
    && (forall id :: id in l.db.alerts ==> RowOk(l.db.alerts[id], l.clock))
    && Deduped(l.db.alerts)
  }

  /** How rows and events of one alert fit together. */
  ghost predicate Matched(l: Loop) {
    forall i :: 0 <= i < |l.sent| ==> EventMatched(l, i)
  }

  ghost predicate EventMatched(l: Loop, i: nat)
    requires i < |l.sent|
  {
    var e, alerts := l.sent[i], l.db.alerts;
    && (e.entityId in alerts ==> Get(alerts[e.entityId], DedupeCol) == KeyOf(e))
    && (e.entityId in alerts && i !in l.done ==> LastSent(alerts[e.entityId]) <= SentAt(e))
    && (e.entityId in alerts && i in l.applied ==> SentAt(e) <= LastSent(alerts[e.entityId]))
    && (e.body.AlertUpdated? || i in l.applied ==> e.entityId in alerts)
  }

  ghost predicate Inv(l: Loop) {
    SentOk(l) && RowsOk(l) && Matched(l)
  }

  ghost predicate Init(l: Loop) {
    l.sent == [] && l.done == {} && l.applied == {} && RowsOk(l)
  }

  lemma ProcessShape(cooldown: int, l: Loop, m: Move)
    requires m.Raise? && Possible(l, m)
    requires Process(l.db.alerts, m.found, m.signal, m.now, cooldown, m.newId, m.eventId).Some?
    ensures var e := Process(l.db.alerts, m.found, m.signal, m.now, cooldown, m.newId, m.eventId).value;
      && Stated(e) && SentAt(e) == m.now && KeyOf(e) == Text(DedupeKey(m.signal))
      && (if m.found.Some? then e.body.AlertUpdated? && e.entityId == m.found.value && !InCooldown(l.db.alerts[m.found.value], m.now, cooldown)
          else e.body.AlertCreated? && e.entityId == m.newId)
  {
  }

  /** A new event is about the visible row of its key, or about a fresh alert. */
  predicate Opens(l: Loop, e: Event, now: Time) {
    && l.clock <= now && Stated(e) && SentAt(e) == now
    && (e.body.AlertUpdated? ==> e.entityId in l.db.alerts && Get(l.db.alerts[e.entityId], DedupeCol) == KeyOf(e))
    && (e.body.AlertCreated? ==> FreshAlert(l, e.entityId))
  }

  function Sent(l: Loop, e: Event, now: Time): Loop {
    l.(sent := l.sent + [e], clock := now)
  }

  lemma SentKeepsEvents(l: Loop, e: Event, now: Time)
    requires Inv(l) && Opens(l, e, now)
    ensures SentOk(Sent(l, e, now))
  {
    forall i | 0 <= i < |l.sent| && l.sent[i].entityId == e.entityId ensures KeyOf(l.sent[i]) == KeyOf(e) {
      assert EventMatched(l, i);
    }
  }

  lemma SentKeepsMatched(l: Loop, e: Event, now: Time)
    requires Inv(l) && Opens(l, e, now)
    ensures Matched(Sent(l, e, now))
  {
    var l' := Sent(l, e, now);
    forall i | 0 <= i < |l'.sent| ensures EventMatched(l', i) {
      if i < |l.sent| { assert EventMatched(l, i); }
    }
  }

  lemma RaiseKeeps(cooldown: int, l: Loop, m: Move)
    requires Inv(l) && m.Raise? && Possible(l, m)
    ensures Inv(After(cooldown, l, m))
  {
    var e := Process(l.db.alerts, m.found, m.signal, m.now, cooldown, m.newId, m.eventId);
    if e.Some? {
      ProcessShape(cooldown, l, m);
      SentKeepsEvents(l, e.value, m.now);
      SentKeepsMatched(l, e.value, m.now);
    } else {
      var l' := After(cooldown, l, m);
      forall i | 0 <= i < |l.sent| ensures EventMatched(l', i) { assert EventMatched(l, i); }
    }
  }

  /** The row a projected alert event leaves. */
  function ProjectedTo(l: Loop, i: nat): Row
    requires i < |l.sent|
  {
    var id, p := l.sent[i].entityId, Defaulted(AlertOf(l.sent[i].body), LastSentCol);
    if id in l.db.alerts then l.db.alerts[id] + p else p
  }

  function Put(l: Loop, i: nat): map<Id, Row>
    requires i < |l.sent|
  {
    l.db.alerts[l.sent[i].entityId := ProjectedTo(l, i)]
  }

  /** Applying an alert event puts its key and time on its row; it is refused exactly when another row
      has the key, which never happens to the event of an alert that has a row. */
  lemma ProjectedRow(l: Loop, i: nat)
    requires Inv(l) && NextInLine(l, i)
    ensures var e := l.sent[i];
      var db' := UpsertAlert(l.db, AlertOf(e.body));
      && Get(ProjectedTo(l, i), DedupeCol) == KeyOf(e) && Get(ProjectedTo(l, i), LastSentCol) == Instant(SentAt(e))
      && (e.entityId in l.db.alerts ==> db'.Some?)
      && (db'.Some? ==> db'.value == l.db.(alerts := Put(l, i)) && Deduped(Put(l, i)))
      && (db'.None? ==> exists id :: id in l.db.alerts && Get(l.db.alerts[id], DedupeCol) == KeyOf(e))
  {
    var e := l.sent[i];
    assert Stated(e) && EventMatched(l, i);
    var row := ProjectedTo(l, i);
    assert Get(row, DedupeCol) == KeyOf(e) && Get(row, LastSentCol) == Instant(SentAt(e));
    if e.entityId in l.db.alerts { assert DedupeFree(l.db.alerts, e.entityId, row); }
    if UpsertAlert(l.db, AlertOf(e.body)).Some? { AlertStaysUnique(l.db, AlertOf(e.body)); }
  }

  lemma DoneKeepsOrder(l: Loop, i: nat)
    requires SentOk(l) && NextInLine(l, i)
    ensures DoneOk(l.sent, l.done + {i}, l.applied) && DoneOk(l.sent, l.done + {i}, l.applied + {i})
  {
  }

  lemma PutKeepsMatched(l: Loop, i: nat)
    requires Inv(l) && NextInLine(l, i)
    requires Get(ProjectedTo(l, i), DedupeCol) == KeyOf(l.sent[i]) && LastSent(ProjectedTo(l, i)) == SentAt(l.sent[i])
    ensures Matched(l.(db := l.db.(alerts := Put(l, i)), done := l.done + {i}, applied := l.applied + {i}))
  {
    var l' := l.(db := l.db.(alerts := Put(l, i)), done := l.done + {i}, applied := l.applied + {i});
    forall j | 0 <= j < |l.sent| ensures EventMatched(l', j) {
      assert EventMatched(l, j) && EventMatched(l, i);
    }
  }

  lemma ProjectKeeps(cooldown: int, l: Loop, i: nat)
    requires Inv(l) && NextInLine(l, i)
    ensures Inv(After(cooldown, l, Project(i)))
  {
    ProjectedRow(l, i);
    DoneKeepsOrder(l, i);
    if UpsertAlert(l.db, AlertOf(l.sent[i].body)).None? {
      DropKeeps(cooldown, l, i);
    } else {
      PutKeepsMatched(l, i);
    }
  }

  lemma DropKeeps(cooldown: int, l: Loop, i: nat)
    requires Inv(l) && NextInLine(l, i)
    ensures Inv(After(cooldown, l, Drop(i)))
  {
    DoneKeepsOrder(l, i);
    var l' := After(cooldown, l, Drop(i));
    forall j | 0 <= j < |l.sent| ensures EventMatched(l', j) {
      assert EventMatched(l, j);
    }
  }

  lemma StepKeeps(cooldown: int, l: Loop, m: Move)
    requires Inv(l) && Possible(l, m)
    ensures Inv(After(cooldown, l, m))
  {
    match m
    case Raise(_, _, _, _, _) => RaiseKeeps(cooldown, l, m);
    case Project(i) => ProjectKeeps(cooldown, l, i);
    case Drop(i) => DropKeeps(cooldown, l, i);
  }

  lemma {:induction false} RunKeeps(cooldown: int, l: Loop, ms: seq<Move>)
    requires Init(l) && RunLoop(cooldown, l, ms).Some?
    ensures Inv(RunLoop(cooldown, l, ms).value)
  {
    if ms != [] {
      RunKeeps(cooldown, l, ms[..|ms| - 1]);
      StepKeeps(cooldown, RunLoop(cooldown, l, ms[..|ms| - 1]).value, ms[|ms| - 1]);
    }
  }

  /** A move never removes a row or moves its last-sent time back. */
  lemma LastSentNeverDecreases(cooldown: int, l: Loop, m: Move, id: Id)
    requires Inv(l) && Possible(l, m) && id in l.db.alerts
    ensures id in After(cooldown, l, m).db.alerts
    ensures LastSent(l.db.alerts[id]) <= LastSent(After(cooldown, l, m).db.alerts[id])
  {
    if m.Project? {
      ProjectedRow(l, m.i);
      assert EventMatched(l, m.i);
    }
  }

  ghost predicate TimeMovesOn(cooldown: int, l: Loop, m: Move, id: Id)
    requires Possible(l, m)
  {
    id in l.db.alerts ==>
      id in After(cooldown, l, m).db.alerts && LastSent(l.db.alerts[id]) <= LastSent(After(cooldown, l, m).db.alerts[id])
  }

  /** A signal publishes nothing exactly when the visible row of its key was last sent less than a
      cooldown ago; there is only one such row to ask. */
  lemma SilentIff(cooldown: int, l: Loop, m: Move)
    requires Inv(l) && m.Raise? && Possible(l, m)
    ensures After(cooldown, l, m).sent == l.sent <==>
      exists id :: id in l.db.alerts && Get(l.db.alerts[id], DedupeCol) == Text(DedupeKey(m.signal)) && InCooldown(l.db.alerts[id], m.now, cooldown)
  {
    var r := Process(l.db.alerts, m.found, m.signal, m.now, cooldown, m.newId, m.eventId);
    if r.Some? {
      assert |After(cooldown, l, m).sent| == |l.sent| + 1;
    } else {
      assert InCooldown(l.db.alerts[m.found.value], m.now, cooldown);
    }
  }

  /** Under any projection lag and any losses: at most one row per dedupe key; every updated event
      carries the id of an existing row with its key, and is applied when its turn comes; and no move
      takes a row's last-sent time back. */
  lemma LaggingLoopIsSafe(cooldown: int, l0: Loop, ms: seq<Move>)
    requires Init(l0) && RunLoop(cooldown, l0, ms).Some?
    ensures Deduped(RunLoop(cooldown, l0, ms).value.db.alerts)
    ensures var l := RunLoop(cooldown, l0, ms).value;
      forall i: nat :: i < |l.sent| && l.sent[i].body.AlertUpdated? ==>
        && l.sent[i].entityId in l.db.alerts && Get(l.db.alerts[l.sent[i].entityId], DedupeCol) == KeyOf(l.sent[i])
        && (NextInLine(l, i) ==> i in After(cooldown, l, Project(i)).applied)
    ensures var l := RunLoop(cooldown, l0, ms).value;
      forall m: Move, id: Id :: Possible(l, m) ==> TimeMovesOn(cooldown, l, m, id)
  {
    RunKeeps(cooldown, l0, ms);
    var l := RunLoop(cooldown, l0, ms).value;
    forall i: nat | i < |l.sent| && l.sent[i].body.AlertUpdated?
      ensures l.sent[i].entityId in l.db.alerts && Get(l.db.alerts[l.sent[i].entityId], DedupeCol) == KeyOf(l.sent[i])
      ensures NextInLine(l, i) ==> i in After(cooldown, l, Project(i)).applied
    {
      assert EventMatched(l, i);
      if NextInLine(l, i) { ProjectedRow(l, i); }
    }
    forall m: Move, id: Id | Possible(l, m) ensures TimeMovesOn(cooldown, l, m, id) {
      if id in l.db.alerts { LastSentNeverDecreases(cooldown, l, m, id); }
    }
  }

  // ------------------------------------------------------------------ lag defeats the cooldown

  /** Two signals of one key before the projection catches up: two alerts with different ids are sent
      at the same instant, whatever the cooldown. */
  lemma LagDefeatsCooldown(cooldown: int, s: Signal) returns (ms: seq<Move>)
    ensures var l := RunLoop(cooldown, Loop(EMPTY, [], {}, {}, 0), ms);
      && l.Some? && |l.value.sent| == 2
      && KeyOf(l.value.sent[0]) == KeyOf(l.value.sent[1]) && SentAt(l.value.sent[0]) == SentAt(l.value.sent[1])
      && l.value.sent[0].entityId != l.value.sent[1].entityId
  {
    var l0 := Loop(EMPTY, [], {}, {}, 0);
    var a, b := Raise(s, 0, "a", "e1", None), Raise(s, 0, "b", "e2", None);
    ms := [a, b];
    assert ms[..1] == [a] && [a][..0] == [];
    var l1 := After(cooldown, l0, a);
    assert RunLoop(cooldown, l0, [a]) == Some(l1);
    assert l1.sent[0].entityId == "a" && Possible(l1, b);
    ProcessShape(cooldown, l0, a);
    ProcessShape(cooldown, l1, b);
  }
}
