/** When the cooldown holds, and when the sends of a key are one alert: exact conditions on what the
    alert table shows at the moments signals are processed. */
module AlertPacing {
  import opened Events
  import opened Projector
  import opened Alerting
  import opened AlertLoop
  import opened References

  /** The table shows key `k` with a last-sent time no earlier than `t`. */
  ghost predicate ShownSince(l: Loop, k: string, t: Time) {
    exists id :: id in l.db.alerts && Get(l.db.alerts[id], DedupeCol) == Text(k) && t <= LastSent(l.db.alerts[id])
  }

  /** Every send of `k` less than a cooldown before `now` is covered by what the table shows. */
  ghost predicate Covered(cooldown: int, l: Loop, k: string, now: Time) {
    forall i :: 0 <= i < |l.sent| && KeyOf(l.sent[i]) == Text(k) && now < SentAt(l.sent[i]) + cooldown ==> ShownSince(l, k, SentAt(l.sent[i]))
  }

  predicate RaisesKey(m: Move, k: string) {
    m.Raise? && DedupeKey(m.signal) == k
  }

  /** No earlier send of `k` lies less than a cooldown before `now`. */
  ghost predicate Rested(cooldown: int, l: Loop, k: string, now: Time) {
    forall i :: 0 <= i < |l.sent| && KeyOf(l.sent[i]) == Text(k) ==> SentAt(l.sent[i]) + cooldown <= now
  }

  predicate Sending(cooldown: int, l: Loop, m: Move)
    requires Possible(l, m)
  {
    |After(cooldown, l, m).sent| > |l.sent|
  }

  /** The row a signal finds decides whether it is sent. */
  lemma SendsUnless(cooldown: int, l: Loop, m: Move)
    requires Inv(l) && m.Raise? && Possible(l, m)
    ensures Sending(cooldown, l, m) <==> m.found.None? || LastSent(l.db.alerts[m.found.value]) + cooldown <= m.now
  {
    if m.found.Some? { assert RowOk(l.db.alerts[m.found.value], l.clock); }
  }

  /** There is one row per key, so the row found is the row shown. */
  lemma FoundIsShown(l: Loop, m: Move, k: string, id: Id)
    requires Inv(l) && RaisesKey(m, k) && Possible(l, m)
    requires id in l.db.alerts && Get(l.db.alerts[id], DedupeCol) == Text(k)
    ensures m.found == Some(id)
  {
  }

  lemma CoveredRests(cooldown: int, l: Loop, m: Move, k: string)
    requires Inv(l) && RaisesKey(m, k) && Possible(l, m) && Covered(cooldown, l, k, m.now) && Sending(cooldown, l, m)
    ensures Rested(cooldown, l, k, m.now)
  {
    SendsUnless(cooldown, l, m);
    forall i | 0 <= i < |l.sent| && KeyOf(l.sent[i]) == Text(k) ensures SentAt(l.sent[i]) + cooldown <= m.now {
      if m.now < SentAt(l.sent[i]) + cooldown {
        var id :| id in l.db.alerts && Get(l.db.alerts[id], DedupeCol) == Text(k) && SentAt(l.sent[i]) <= LastSent(l.db.alerts[id]);
        FoundIsShown(l, m, k, id);
      }
    }
  }

  // ------------------------------------------------------------------ the next signal

  function Letters(n: nat): (s: string)
    ensures |s| == n
  {
    seq(n, i => 'a')
  }

  /** A finite set of ids leaves room for another. */
  lemma {:induction false} LongerThanAll(ids: set<Id>) returns (n: nat)
    ensures forall id :: id in ids ==> |id| < n
    decreases ids
  {
    if ids == {} {
      n := 0;
    } else {
      var id :| id in ids;
      var k := LongerThanAll(ids - {id});
      n := if k > |id| then k else |id| + 1;
    }
  }

  lemma FreshExists(l: Loop) returns (id: Id)
    ensures FreshAlert(l, id)
  {
    var ids := l.db.alerts.Keys + set i | 0 <= i < |l.sent| :: l.sent[i].entityId;
    var n := LongerThanAll(ids);
    id := Letters(n);
  }

  lemma ExistingExists(alerts: map<Id, Row>, k: string) returns (found: Option<Id>)
    ensures IsExisting(alerts, k, found)
  {
    if id :| id in alerts && Get(alerts[id], DedupeCol) == Text(k) {
      found := Some(id);
    } else {
      found := None;
    }
  }

  /** The earliest signal of the key of `s` that is sent. */
  lemma EarliestSend(cooldown: int, l: Loop, s: Signal) returns (m: Move)
    requires Inv(l)
    ensures RaisesKey(m, DedupeKey(s)) && Possible(l, m) && Sending(cooldown, l, m)
    ensures m.now == l.clock || (m.found.Some? && m.now == LastSent(l.db.alerts[m.found.value]) + cooldown)
  {
    var newId := FreshExists(l);
    var found := ExistingExists(l.db.alerts, DedupeKey(s));
    var now := l.clock;
    if found.Some? && l.clock < LastSent(l.db.alerts[found.value]) + cooldown { now := LastSent(l.db.alerts[found.value]) + cooldown; }
    m := Raise(s, now, newId, newId, found);
    SendsUnless(cooldown, l, m);
  }

  /** Exactly when the cooldown is safe: no next signal of the key of `s`, whenever it comes, is sent
      less than a cooldown after an earlier send of the key, exactly when every send that is still in
      its cooldown is covered by the table. */
  lemma CooldownHoldsIff(cooldown: int, l: Loop, s: Signal)
    requires Inv(l)
    ensures (forall m :: RaisesKey(m, DedupeKey(s)) && Possible(l, m) && Sending(cooldown, l, m) ==> Rested(cooldown, l, DedupeKey(s), m.now))
      <==> Covered(cooldown, l, DedupeKey(s), l.clock)
  {
    var k := DedupeKey(s);
    if Covered(cooldown, l, k, l.clock) {
      forall m | RaisesKey(m, k) && Possible(l, m) && Sending(cooldown, l, m) ensures Rested(cooldown, l, k, m.now) {
        CoveredRests(cooldown, l, m, k);
      }
    } else {
      var i :| 0 <= i < |l.sent| && KeyOf(l.sent[i]) == Text(k) && l.clock < SentAt(l.sent[i]) + cooldown && !ShownSince(l, k, SentAt(l.sent[i]));
      var m := EarliestSend(cooldown, l, s);
      assert m.now < SentAt(l.sent[i]) + cooldown;
    }
  }

  // ------------------------------------------------------------------ whole runs

  /** The sends of key `k` are at least a cooldown apart. */
  ghost predicate Spaced(cooldown: int, l: Loop, k: string) {
    forall i, j :: 0 <= i < j < |l.sent| && KeyOf(l.sent[i]) == Text(k) && KeyOf(l.sent[j]) == Text(k) ==>
      SentAt(l.sent[i]) + cooldown <= SentAt(l.sent[j])
  }

  /** Whenever a signal of `k` is processed, the sends still in their cooldown are covered. */
  ghost predicate CoveredRun(cooldown: int, l: Loop, ms: seq<Move>, k: string) {
    ms == [] ||
    (var before, m := ms[..|ms| - 1], ms[|ms| - 1];
     && CoveredRun(cooldown, l, before, k)
     && (RunLoop(cooldown, l, before).Some? && RaisesKey(m, k) ==> Covered(cooldown, RunLoop(cooldown, l, before).value, k, m.now)))
  }

  /** A row of `k` shows a send of `k`, or a time at least a cooldown before every send of `k`. */
  ghost predicate RowsShowSends(cooldown: int, l: Loop, k: string) {
    forall id :: id in l.db.alerts && Get(l.db.alerts[id], DedupeCol) == Text(k) ==> RowShowsSend(cooldown, l, k, LastSent(l.db.alerts[id]))
  }

  ghost predicate RowShowsSend(cooldown: int, l: Loop, k: string, t: Time) {
    || (exists j :: 0 <= j < |l.sent| && KeyOf(l.sent[j]) == Text(k) && SentAt(l.sent[j]) == t)
    || (forall i :: 0 <= i < |l.sent| && KeyOf(l.sent[i]) == Text(k) ==> t + cooldown <= SentAt(l.sent[i]))
  }

  lemma RaiseShowsSends(cooldown: int, l: Loop, m: Move, k: string)
    requires Inv(l) && RowsShowSends(cooldown, l, k) && m.Raise? && Possible(l, m)
    ensures RowsShowSends(cooldown, After(cooldown, l, m), k)
  {
    var l' := After(cooldown, l, m);
    SendsUnless(cooldown, l, m);
    if Sending(cooldown, l, m) { ProcessShape(cooldown, l, m); }
    assert forall i :: 0 <= i < |l.sent| ==> l'.sent[i] == l.sent[i];
    forall id | id in l.db.alerts && Get(l.db.alerts[id], DedupeCol) == Text(k)
      ensures RowShowsSend(cooldown, l', k, LastSent(l.db.alerts[id]))
    {
      assert RowShowsSend(cooldown, l, k, LastSent(l.db.alerts[id]));
      if DedupeKey(m.signal) == k { FoundIsShown(l, m, k, id); }
      if j :| 0 <= j < |l.sent| && KeyOf(l.sent[j]) == Text(k) && SentAt(l.sent[j]) == LastSent(l.db.alerts[id]) {
        assert KeyOf(l'.sent[j]) == Text(k);
      }
    }
  }

  lemma ProjectShowsSends(cooldown: int, l: Loop, m: Move, k: string)
    requires Inv(l) && RowsShowSends(cooldown, l, k) && !m.Raise? && Possible(l, m)
    ensures RowsShowSends(cooldown, After(cooldown, l, m), k)
  {
    if m.Project? { ProjectedRow(l, m.i); }
  }

  lemma {:induction false} RunShowsSends(cooldown: int, l: Loop, ms: seq<Move>, k: string)
    requires Init(l) && RunLoop(cooldown, l, ms).Some?
    ensures RowsShowSends(cooldown, RunLoop(cooldown, l, ms).value, k)
  {
    if ms != [] {
      var before, m := ms[..|ms| - 1], ms[|ms| - 1];
      RunShowsSends(cooldown, l, before, k);
      RunKeeps(cooldown, l, before);
      var t := RunLoop(cooldown, l, before).value;
      if m.Raise? { RaiseShowsSends(cooldown, t, m, k); } else { ProjectShowsSends(cooldown, t, m, k); }
    }
  }

  /** Among spaced sends, a row older than a send of its key is older by a cooldown. */
  lemma RowBeforeSend(cooldown: int, l: Loop, k: string, id: Id, i: nat)
    requires Inv(l) && RowsShowSends(cooldown, l, k) && Spaced(cooldown, l, k)
    requires id in l.db.alerts && Get(l.db.alerts[id], DedupeCol) == Text(k) && i < |l.sent| && KeyOf(l.sent[i]) == Text(k)
    ensures SentAt(l.sent[i]) <= LastSent(l.db.alerts[id]) || LastSent(l.db.alerts[id]) + cooldown <= SentAt(l.sent[i])
    ensures SentAt(l.sent[i]) <= l.clock
  {
    assert RowShowsSend(cooldown, l, k, LastSent(l.db.alerts[id]));
  }

  /** A signal that keeps the spacing, by being silent or by coming late enough, found its key covered. */
  lemma SpacedIsCovered(cooldown: int, l: Loop, m: Move, k: string)
    requires Inv(l) && RowsShowSends(cooldown, l, k) && Spaced(cooldown, l, k) && RaisesKey(m, k) && Possible(l, m)
    requires Sending(cooldown, l, m) ==> Rested(cooldown, l, k, m.now)
    ensures Covered(cooldown, l, k, m.now)
  {
    SendsUnless(cooldown, l, m);
    forall i | 0 <= i < |l.sent| && KeyOf(l.sent[i]) == Text(k) && m.now < SentAt(l.sent[i]) + cooldown
      ensures ShownSince(l, k, SentAt(l.sent[i]))
    {
      RowBeforeSend(cooldown, l, k, m.found.value, i);
    }
  }

  lemma SpacedStep(cooldown: int, l: Loop, m: Move, k: string)
    requires Inv(l) && RowsShowSends(cooldown, l, k) && Spaced(cooldown, l, k) && Possible(l, m)
    ensures Spaced(cooldown, After(cooldown, l, m), k) <==> (RaisesKey(m, k) ==> Covered(cooldown, l, k, m.now))
  {
    var l', n := After(cooldown, l, m), |l.sent|;
    if Sending(cooldown, l, m) { ProcessShape(cooldown, l, m); }
    assert forall i :: 0 <= i < n ==> l'.sent[i] == l.sent[i];
    if RaisesKey(m, k) {
      if Covered(cooldown, l, k, m.now) {
        if Sending(cooldown, l, m) { CoveredRests(cooldown, l, m, k); }
      } else {
        if !Sending(cooldown, l, m) || Rested(cooldown, l, k, m.now) { SpacedIsCovered(cooldown, l, m, k); }
        var i :| 0 <= i < n && KeyOf(l.sent[i]) == Text(k) && m.now < SentAt(l.sent[i]) + cooldown;
        assert KeyOf(l'.sent[n]) == Text(k) && SentAt(l'.sent[n]) == m.now && l'.sent[i] == l.sent[i];
      }
    }
  }

  lemma SpacedBefore(cooldown: int, l: Loop, m: Move, k: string)
    requires Possible(l, m) && Spaced(cooldown, After(cooldown, l, m), k)
    ensures Spaced(cooldown, l, k)
  {
    var l' := After(cooldown, l, m);
    assert forall i :: 0 <= i < |l.sent| ==> l'.sent[i] == l.sent[i];
  }

  /** Exactly when the cooldown held: over any run, whatever the lag, the sends of a key are at least a
      cooldown apart exactly when every signal of the key found the sends still in their cooldown
      covered by the table. */
  lemma {:induction false} SpacedIff(cooldown: int, l: Loop, ms: seq<Move>, k: string)
    requires Init(l) && RunLoop(cooldown, l, ms).Some?
    ensures Spaced(cooldown, RunLoop(cooldown, l, ms).value, k) <==> CoveredRun(cooldown, l, ms, k)
  {
    if ms != [] {
      var before, m := ms[..|ms| - 1], ms[|ms| - 1];
      SpacedIff(cooldown, l, before, k);
      RunKeeps(cooldown, l, before);
      RunShowsSends(cooldown, l, before, k);
      var t := RunLoop(cooldown, l, before).value;
      if Spaced(cooldown, t, k) {
        SpacedStep(cooldown, t, m, k);
      } else if Spaced(cooldown, After(cooldown, t, m), k) {
        SpacedBefore(cooldown, t, m, k);
      }
    }
  }

  // ------------------------------------------------------------------ one alert per key

  ghost predicate HasSend(l: Loop, k: string) {
    exists i :: 0 <= i < |l.sent| && KeyOf(l.sent[i]) == Text(k)
  }

  /** The sends of key `k` share one alert id. */
  ghost predicate OneAlert(l: Loop, k: string) {
    forall i, j :: 0 <= i < j < |l.sent| && KeyOf(l.sent[i]) == Text(k) && KeyOf(l.sent[j]) == Text(k) ==>
      l.sent[i].entityId == l.sent[j].entityId && l.sent[j].body.AlertUpdated?
  }

  /** Whenever a signal of `k` is processed after a send of `k`, the table shows the key. */
  ghost predicate ShownRun(cooldown: int, l: Loop, ms: seq<Move>, k: string) {
    ms == [] ||
    (var before, m := ms[..|ms| - 1], ms[|ms| - 1];
     && ShownRun(cooldown, l, before, k)
     && (RunLoop(cooldown, l, before).Some? && RaisesKey(m, k) && HasSend(RunLoop(cooldown, l, before).value, k) ==> m.found.Some?))
  }

  ghost predicate RowsAreTheAlert(l: Loop, k: string) {
    forall id, i :: id in l.db.alerts && Get(l.db.alerts[id], DedupeCol) == Text(k) && 0 <= i < |l.sent| && KeyOf(l.sent[i]) == Text(k) ==>
      l.sent[i].entityId == id
  }

  lemma RaiseOneAlert(cooldown: int, l: Loop, m: Move, k: string)
    requires Inv(l) && OneAlert(l, k) && RowsAreTheAlert(l, k) && m.Raise? && Possible(l, m)
    ensures OneAlert(After(cooldown, l, m), k) <==> (RaisesKey(m, k) && HasSend(l, k) ==> m.found.Some?)
    ensures OneAlert(After(cooldown, l, m), k) ==> RowsAreTheAlert(After(cooldown, l, m), k)
  {
    var l', n := After(cooldown, l, m), |l.sent|;
    SendsUnless(cooldown, l, m);
    if Sending(cooldown, l, m) { ProcessShape(cooldown, l, m); }
    assert forall i :: 0 <= i < n ==> l'.sent[i] == l.sent[i];
    if RaisesKey(m, k) && Sending(cooldown, l, m) {
      if m.found.None? && HasSend(l, k) {
        var i :| 0 <= i < n && KeyOf(l.sent[i]) == Text(k);
        assert l'.sent[i].entityId != l'.sent[n].entityId;
      }
      forall id | id in l.db.alerts && Get(l.db.alerts[id], DedupeCol) == Text(k) ensures l'.sent[n].entityId == id {
        FoundIsShown(l, m, k, id);
      }
    }
  }

  lemma ProjectOneAlert(cooldown: int, l: Loop, m: Move, k: string)
    requires Inv(l) && OneAlert(l, k) && RowsAreTheAlert(l, k) && !m.Raise? && Possible(l, m)
    ensures OneAlert(After(cooldown, l, m), k) && RowsAreTheAlert(After(cooldown, l, m), k)
  {
    if m.Project? { ProjectedRow(l, m.i); }
  }

  lemma OneAlertBefore(cooldown: int, l: Loop, m: Move, k: string)
    requires Possible(l, m) && OneAlert(After(cooldown, l, m), k)
    ensures OneAlert(l, k)
  {
    var l' := After(cooldown, l, m);
    assert forall i :: 0 <= i < |l.sent| ==> l'.sent[i] == l.sent[i];
  }

  /** Exactly when the sends of a key are one alert, updated after its first send: every signal of the
      key after the first send found a row of the key. */
  lemma {:induction false} OneAlertIff(cooldown: int, l: Loop, ms: seq<Move>, k: string)
    requires Init(l) && RunLoop(cooldown, l, ms).Some?
    ensures OneAlert(RunLoop(cooldown, l, ms).value, k) <==> ShownRun(cooldown, l, ms, k)
    ensures OneAlert(RunLoop(cooldown, l, ms).value, k) ==> RowsAreTheAlert(RunLoop(cooldown, l, ms).value, k)
  {
    if ms != [] {
      var before, m := ms[..|ms| - 1], ms[|ms| - 1];
      OneAlertIff(cooldown, l, before, k);
      RunKeeps(cooldown, l, before);
      var t := RunLoop(cooldown, l, before).value;
      if !OneAlert(t, k) {
        if OneAlert(After(cooldown, t, m), k) { OneAlertBefore(cooldown, t, m, k); }
      } else if m.Raise? {
        RaiseOneAlert(cooldown, t, m, k);
      } else {
        ProjectOneAlert(cooldown, t, m, k);
      }
    }
  }

  /** Rows of `k` come from sends of `k`, and an update of `k` from an earlier send. */
  ghost predicate Founded(l: Loop, k: string) {
    && (forall id :: id in l.db.alerts && Get(l.db.alerts[id], DedupeCol) == Text(k) ==> HasSend(l, k))
    && (forall i :: 0 <= i < |l.sent| && KeyOf(l.sent[i]) == Text(k) && l.sent[i].body.AlertUpdated? ==> HasEarlier(l, k, i))
  }

  ghost predicate HasEarlier(l: Loop, k: string, i: nat) {
    exists j :: 0 <= j < i && j < |l.sent| && KeyOf(l.sent[j]) == Text(k)
  }

  lemma RaiseFounded(cooldown: int, l: Loop, m: Move, k: string)
    requires Inv(l) && Founded(l, k) && m.Raise? && Possible(l, m)
    ensures Founded(After(cooldown, l, m), k)
  {
    var l', n := After(cooldown, l, m), |l.sent|;
    if Sending(cooldown, l, m) { ProcessShape(cooldown, l, m); }
    assert forall i :: 0 <= i < n ==> l'.sent[i] == l.sent[i];
    if i :| 0 <= i < n && KeyOf(l.sent[i]) == Text(k) {
      assert KeyOf(l'.sent[i]) == Text(k);
    }
    forall i | 0 <= i < |l'.sent| && KeyOf(l'.sent[i]) == Text(k) && l'.sent[i].body.AlertUpdated? ensures HasEarlier(l', k, i) {
      if i < n {
        assert HasEarlier(l, k, i);
        var j :| 0 <= j < i && KeyOf(l.sent[j]) == Text(k);
        assert KeyOf(l'.sent[j]) == Text(k);
      } else {
        assert HasSend(l, k);
      }
    }
  }

  lemma ProjectFounded(cooldown: int, l: Loop, m: Move, k: string)
    requires Inv(l) && Founded(l, k) && !m.Raise? && Possible(l, m)
    ensures Founded(After(cooldown, l, m), k)
  {
    var l' := After(cooldown, l, m);
    if m.Project? { ProjectedRow(l, m.i); }
    assert HasSend(l, k) ==> HasSend(l', k);
    forall i | 0 <= i < |l'.sent| && KeyOf(l'.sent[i]) == Text(k) && l'.sent[i].body.AlertUpdated? ensures HasEarlier(l', k, i) {
      assert HasEarlier(l, k, i);
    }
  }

  /** Under any lag, the first send of a key that the table did not know is a created event. */
  lemma {:induction false} FirstSendCreates(cooldown: int, l: Loop, ms: seq<Move>, k: string)
    requires Init(l) && RunLoop(cooldown, l, ms).Some? && IsExisting(l.db.alerts, k, None)
    ensures Founded(RunLoop(cooldown, l, ms).value, k)
  {
    if ms != [] {
      var before, m := ms[..|ms| - 1], ms[|ms| - 1];
      FirstSendCreates(cooldown, l, before, k);
      RunKeeps(cooldown, l, before);
      var t := RunLoop(cooldown, l, before).value;
      if m.Raise? { RaiseFounded(cooldown, t, m, k); } else { ProjectFounded(cooldown, t, m, k); }
    }
  }

  // ------------------------------------------------------------------ prompt projection is enough

  /** Every event of key `k` has been projected. */
  predicate CaughtUp(l: Loop, k: string) {
    forall i :: 0 <= i < |l.sent| && KeyOf(l.sent[i]) == Text(k) ==> i in l.applied
  }

  ghost predicate Prompt(cooldown: int, l: Loop, ms: seq<Move>, k: string) {
    ms == [] ||
    (var before, m := ms[..|ms| - 1], ms[|ms| - 1];
     && Prompt(cooldown, l, before, k)
     && (RunLoop(cooldown, l, before).Some? && RaisesKey(m, k) ==> CaughtUp(RunLoop(cooldown, l, before).value, k)))
  }

  lemma CaughtUpShows(l: Loop, k: string, i: nat)
    requires Inv(l) && CaughtUp(l, k) && i < |l.sent| && KeyOf(l.sent[i]) == Text(k)
    ensures ShownSince(l, k, SentAt(l.sent[i]))
  {
    assert EventMatched(l, i) && i in l.applied;
  }

  /** Projecting each event of a key before its next signal meets both conditions. */
  lemma {:induction false} PromptIsEnough(cooldown: int, l: Loop, ms: seq<Move>, k: string)
    requires Init(l) && Prompt(cooldown, l, ms, k) && RunLoop(cooldown, l, ms).Some?
    ensures CoveredRun(cooldown, l, ms, k) && ShownRun(cooldown, l, ms, k)
  {
    if ms != [] {
      var before, m := ms[..|ms| - 1], ms[|ms| - 1];
      PromptIsEnough(cooldown, l, before, k);
      RunKeeps(cooldown, l, before);
      var t := RunLoop(cooldown, l, before).value;
      if RaisesKey(m, k) {
        forall i | 0 <= i < |t.sent| && KeyOf(t.sent[i]) == Text(k) ensures ShownSince(t, k, SentAt(t.sent[i])) { CaughtUpShows(t, k, i); }
      }
    }
  }

  // ------------------------------------------------------------------ the rate bound

  /** The send times of key `k`, in order. */
  function Sends(sent: seq<Event>, k: string): seq<Time> {
    if sent == [] then []
    else
      var e := sent[|sent| - 1];
      Sends(sent[..|sent| - 1], k) + if KeyOf(e) == Text(k) then [SentAt(e)] else []
  }

  ghost predicate Gapped(ts: seq<Time>, cooldown: int) {
    forall i, j :: 0 <= i < j < |ts| ==> ts[i] + cooldown <= ts[j]
  }

  lemma {:induction false} SendsGapped(cooldown: int, l: Loop, k: string, n: nat)
    requires Spaced(cooldown, l, k) && n <= |l.sent|
    ensures Gapped(Sends(l.sent[..n], k), cooldown)
    ensures forall t :: t in Sends(l.sent[..n], k) ==> exists i :: 0 <= i < n && KeyOf(l.sent[i]) == Text(k) && SentAt(l.sent[i]) == t
  {
    if n > 0 {
      SendsGapped(cooldown, l, k, n - 1);
      assert l.sent[..n][..n - 1] == l.sent[..n - 1];
      var ts, e := Sends(l.sent[..n - 1], k), l.sent[n - 1];
      if KeyOf(e) == Text(k) {
        forall i | 0 <= i < |ts| ensures ts[i] + cooldown <= SentAt(e) {
          assert ts[i] in ts;
        }
      }
    }
  }

  function CountIn(ts: seq<Time>, from: Time, span: nat): nat {
    if ts == [] then 0
    else CountIn(ts[..|ts| - 1], from, span) + if from <= ts[|ts| - 1] <= from + span then 1 else 0
  }

  /** A time a cooldown after all of `ts` lies a cooldown per counted time after the window's start. */
  lemma {:induction false} Spread(ts: seq<Time>, cooldown: int, from: Time, span: nat, t: Time)
    requires Gapped(ts, cooldown) && cooldown > 0 && from <= t && forall i :: 0 <= i < |ts| ==> ts[i] + cooldown <= t
    ensures from + CountIn(ts, from, span) * cooldown <= t
  {
    if ts != [] {
      var before, last := ts[..|ts| - 1], ts[|ts| - 1];
      var n := CountIn(before, from, span);
      assert (n + 1) * cooldown == n * cooldown + cooldown;
      Spread(before, cooldown, from, span, if from <= last <= from + span then last else t);
    }
  }

  lemma {:induction false} WindowBound(ts: seq<Time>, cooldown: int, from: Time, span: nat)
    requires Gapped(ts, cooldown) && cooldown > 0
    ensures CountIn(ts, from, span) <= span / cooldown + 1
  {
    if ts != [] {
      var before, last := ts[..|ts| - 1], ts[|ts| - 1];
      WindowBound(before, cooldown, from, span);
      if from <= last <= from + span {
        Spread(before, cooldown, from, span, last);
        AtMostQuotient(CountIn(before, from, span), cooldown, span);
      }
    }
  }

  lemma AtMostQuotient(n: nat, d: int, span: nat)
    requires d > 0 && n * d <= span
    ensures n <= span / d
  {
    var q := span / d;
    assert span < (q + 1) * d;
    if q + 1 <= n {
      Multiples(q + 1, n, d);
      assert false;
    }
  }

  lemma Multiples(a: int, b: int, d: int)
    requires a <= b && d > 0
    ensures a * d <= b * d
  {
  }

  /** Alert rate bound: when every signal of a key finds the sends still in their cooldown covered, any
      window of length `span` holds at most `span / cooldown + 1` sends of the key. */
  lemma AlertRateBound(cooldown: int, l0: Loop, ms: seq<Move>, k: string, from: Time, span: nat)
    requires cooldown > 0 && Init(l0) && RunLoop(cooldown, l0, ms).Some? && CoveredRun(cooldown, l0, ms, k)
    ensures CountIn(Sends(RunLoop(cooldown, l0, ms).value.sent, k), from, span) <= span / cooldown + 1
  {
    SpacedIff(cooldown, l0, ms, k);
    var l := RunLoop(cooldown, l0, ms).value;
    SendsGapped(cooldown, l, k, |l.sent|);
    assert l.sent[..|l.sent|] == l.sent;
    WindowBound(Sends(l.sent, k), cooldown, from, span);
  }

  /** With prompt projection the sends of a key new to the table are one alert, first created and then
      updated, at least a cooldown apart, and so few in any window. */
  lemma PromptAlerts(cooldown: int, l0: Loop, ms: seq<Move>, k: string, from: Time, span: nat)
    requires cooldown > 0 && Init(l0) && Prompt(cooldown, l0, ms, k) && RunLoop(cooldown, l0, ms).Some?
    requires IsExisting(l0.db.alerts, k, None)
    ensures var l := RunLoop(cooldown, l0, ms).value;
      && OneAlert(l, k) && Spaced(cooldown, l, k)
      && (forall i :: 0 <= i < |l.sent| && KeyOf(l.sent[i]) == Text(k) && !HasEarlier(l, k, i) ==> l.sent[i].body.AlertCreated?)
      && CountIn(Sends(l.sent, k), from, span) <= span / cooldown + 1
  {
    PromptIsEnough(cooldown, l0, ms, k);
    SpacedIff(cooldown, l0, ms, k);
    OneAlertIff(cooldown, l0, ms, k);
    FirstSendCreates(cooldown, l0, ms, k);
    AlertRateBound(cooldown, l0, ms, k, from, span);
    RunKeeps(cooldown, l0, ms);
    var l := RunLoop(cooldown, l0, ms).value;
    assert forall i :: 0 <= i < |l.sent| ==> Stated(l.sent[i]);
  }
}
