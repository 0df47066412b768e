/** `AlertingService.process_signal`: dedupe by key, cooldown, publish, notify. */
module Alerting {
  import opened Events
  import opened Delivery
  import opened Publishing

  datatype Signal = Signal(
    signalType: string, entityType: string, entityId: string, title: string,
    severity: Value, description: Value, sourceId: Id, correlationId: Id, traceId: Id)

  function DedupeKey(s: Signal): string {
    s.signalType + ":" + s.entityType + ":" + s.entityId + ":" + s.title
  }

  /** `found` is the alert whose dedupe key is `key`, as a query by that key returns it. */
  predicate IsExisting(alerts: map<Id, Row>, key: string, found: Option<Id>) {
    match found
    case Some(id) => id in alerts && Get(alerts[id], DedupeCol) == Text(key)
    case None => forall id :: id in alerts ==> Get(alerts[id], DedupeCol) != Text(key)
  }

  predicate InCooldown(row: Row, now: Time, cooldown: int) {
    Get(row, LastSentCol).Instant? && now - Get(row, LastSentCol).t < cooldown
  }

  function AlertRow(id: Id, s: Signal, now: Time): Row {
    map[IdCol := Text(id), SeverityCol := s.severity, DedupeCol := Text(DedupeKey(s)), SourceEventCol := Text(s.sourceId),
        TitleCol := Text(s.title), DescriptionCol := s.description, StatusCol := Text("open"), LastSentCol := Instant(now)]
  }

  /** The event to publish, or none during the cooldown of the visible row. */
  function Process(alerts: map<Id, Row>, found: Option<Id>, s: Signal, now: Time, cooldown: int, newId: Id, eventId: Id): Option<Event>
    requires IsExisting(alerts, DedupeKey(s), found)
  {
    match found
    case Some(id) =>
      if InCooldown(alerts[id], now, cooldown) then None
      else Some(Event(eventId, id, s.correlationId, s.traceId, AlertUpdated(AlertRow(id, s, now))))
    case None => Some(Event(eventId, newId, s.correlationId, s.traceId, AlertCreated(AlertRow(newId, s, now))))
  }

  // ------------------------------------------------------------------ what a key identifies

  predicate NoColon(s: string) {
    ':' !in s
  }

  lemma {:induction false} SplitAtColon(a: string, b: string, x: string, y: string)
    requires NoColon(a) && NoColon(b) && a + ":" + x == b + ":" + y
    ensures a == b && x == y
  {
    if a == [] || b == [] {
      assert (a + ":" + x)[0] == (b + ":" + y)[0];
      assert a == [] && b == [];
      assert x == (a + ":" + x)[1..] == (b + ":" + y)[1..] == y;
    } else {
      assert (a + ":" + x)[0] == a[0] && (b + ":" + y)[0] == b[0];
      assert (a + ":" + x)[1..] == a[1..] + ":" + x && (b + ":" + y)[1..] == b[1..] + ":" + y;
      SplitAtColon(a[1..], b[1..], x, y);
    }
  }

  /** What the signal is about, as far as deduplication is meant to tell. */
  predicate SameThing(s: Signal, t: Signal) {
    s.signalType == t.signalType && s.entityType == t.entityType && s.entityId == t.entityId && s.title == t.title
  }

  /** Types and ids without a colon; titles built by the alert worker always contain one. */
  predicate Plain(s: Signal) {
    NoColon(s.signalType) && NoColon(s.entityType) && NoColon(s.entityId)
  }

  lemma KeyShape(s: Signal)
    ensures var x1 := s.entityId + ":" + s.title;
      var x2 := s.entityType + ":" + x1;
      DedupeKey(s) == s.signalType + ":" + x2
  {
  }

  /** Plain signals with equal keys are about the same thing. */
  lemma KeyIdentifies(s: Signal, t: Signal)
    requires Plain(s) && Plain(t)
    ensures DedupeKey(s) == DedupeKey(t) <==> SameThing(s, t)
  {
    if DedupeKey(s) == DedupeKey(t) {
      KeyShape(s);
      KeyShape(t);
      var x1, y1 := s.entityId + ":" + s.title, t.entityId + ":" + t.title;
      var x2, y2 := s.entityType + ":" + x1, t.entityType + ":" + y1;
      SplitAtColon(s.signalType, t.signalType, x2, y2);
      SplitAtColon(s.entityType, t.entityType, x1, y1);
      SplitAtColon(s.entityId, t.entityId, s.title, t.title);
    }
  }

  /** The part before the first colon and the part after it. */
  function Cut(s: string): (string, string)
    requires ':' in s
  {
    if s[0] == ':' then ("", s[1..])
    else
      var (before, after) := Cut(s[1..]);
      ([s[0]] + before, after)
  }

  lemma {:induction false} CutIs(s: string)
    requires ':' in s
    ensures NoColon(Cut(s).0) && s == Cut(s).0 + ":" + Cut(s).1
  {
    if s[0] != ':' {
      CutIs(s[1..]);
      assert s == [s[0]] + s[1..];
      assert [s[0]] + Cut(s[1..]).0 + ":" + Cut(s[1..]).1 == [s[0]] + (Cut(s[1..]).0 + ":" + Cut(s[1..]).1);
    }
  }

  /** Cutting at the first colon leaves everything after any later colon in the second part. */
  lemma {:induction false} CutKeeps(p: string, q: string) returns (u: string)
    ensures ':' in p + ":" + q && Cut(p + ":" + q).1 == u + q
  {
    var s := p + ":" + q;
    assert s[|p|] == ':';
    if p == "" {
      u := "";
      assert s[1..] == q;
    } else if p[0] == ':' {
      u := p[1..] + ":";
      assert s[1..] == u + q;
    } else {
      u := CutKeeps(p[1..], q);
      assert s[1..] == p[1..] + ":" + q;
    }
  }

  /** The plain signal that a reader of the key from the left would see. */
  lemma ReadFromLeft(s: Signal) returns (t: Signal)
    ensures Plain(t) && DedupeKey(t) == DedupeKey(s)
  {
    var key := DedupeKey(s);
    var x1 := s.entityId + ":" + s.title;
    var x2 := s.entityType + ":" + x1;
    KeyShape(s);
    var u := CutKeeps(s.signalType, x2);
    CutIs(key);
    var rest := Cut(key).1;
    assert rest == (u + s.entityType) + ":" + x1;
    var v := CutKeeps(u + s.entityType, x1);
    CutIs(rest);
    var last := Cut(rest).1;
    assert last == (v + s.entityId) + ":" + s.title;
    var w := CutKeeps(v + s.entityId, s.title);
    CutIs(last);
    t := s.(signalType := Cut(key).0, entityType := Cut(rest).0, entityId := Cut(last).0, title := Cut(last).1);
    KeyShape(t);
  }

  /** A signal shares its key with some plain signal about something else exactly when it is not plain
      itself. */
  lemma ConfusableIff(s: Signal)
    ensures (exists t :: Plain(t) && DedupeKey(t) == DedupeKey(s) && !SameThing(s, t)) <==> !Plain(s)
  {
    if Plain(s) {
      forall t | Plain(t) && DedupeKey(t) == DedupeKey(s) ensures SameThing(s, t) { KeyIdentifies(s, t); }
    } else {
      var t := ReadFromLeft(s);
      assert Plain(t) && !SameThing(s, t);
    }
  }

  function Colons(s: string): nat {
    if s == "" then 0 else (if s[0] == ':' then 1 else 0) + Colons(s[1..])
  }

  lemma {:induction false} ColonsAdd(a: string, b: string)
    ensures Colons(a + b) == Colons(a) + Colons(b)
  {
    if a == "" {
      assert a + b == b;
    } else {
      ColonsAdd(a[1..], b);
      assert (a + b)[1..] == a[1..] + b && (a + b)[0] == a[0];
    }
  }

  lemma {:induction false} NoColons(s: string)
    ensures Colons(s) == 0 <==> NoColon(s)
  {
    if s != "" {
      NoColons(s[1..]);
      assert s == [s[0]] + s[1..];
    }
  }

  lemma ColonsOfKey(s: Signal)
    ensures Colons(DedupeKey(s)) == Colons(s.signalType) + Colons(s.entityType) + Colons(s.entityId) + Colons(s.title) + 3
    ensures Colons(DedupeKey(s)) == 3 <==> Plain(s) && NoColon(s.title)
  {
    var a := s.signalType + ":";
    var b := a + s.entityType;
    var c := b + ":";
    var d := c + s.entityId;
    var e := d + ":";
    ColonsAdd(s.signalType, ":");
    ColonsAdd(a, s.entityType);
    ColonsAdd(b, ":");
    ColonsAdd(c, s.entityId);
    ColonsAdd(d, ":");
    ColonsAdd(e, s.title);
    assert Colons(":") == 1;
    NoColons(s.signalType);
    NoColons(s.entityType);
    NoColons(s.entityId);
    NoColons(s.title);
  }

  /** A colon in the title can be read as the end of the entity id. */
  lemma ReadFromRight(s: Signal) returns (t: Signal)
    requires ':' in s.title
    ensures DedupeKey(t) == DedupeKey(s) && !SameThing(s, t)
  {
    CutIs(s.title);
    var (x, y) := Cut(s.title);
    t := s.(entityId := s.entityId + ":" + x, title := y);
    assert |y| < |s.title|;
    var head := s.signalType + ":" + s.entityType + ":";
    assert DedupeKey(s) == head + s.entityId + ":" + (x + ":" + y);
    assert DedupeKey(t) == head + (s.entityId + ":" + x) + ":" + y;
  }

  /** A key belongs to one thing only exactly when no field of its signal contains a colon. */
  lemma UniqueKeyIff(s: Signal)
    ensures (forall t :: DedupeKey(t) == DedupeKey(s) ==> SameThing(s, t)) <==> Plain(s) && NoColon(s.title)
  {
    ColonsOfKey(s);
    if Plain(s) && NoColon(s.title) {
      forall t | DedupeKey(t) == DedupeKey(s) ensures SameThing(s, t) {
        ColonsOfKey(t);
        KeyIdentifies(s, t);
      }
    } else if !Plain(s) {
      var t := ReadFromLeft(s);
      assert !SameThing(s, t);
    } else {
      var t := ReadFromRight(s);
    }
  }

  /** With a colon in an entity id, two different entities can share one key, and so one alert. */
  lemma KeysCanCollide(s: Signal)
    ensures var a, b := s.(entityType := "model", entityId := "gpt:4"), s.(entityType := "model:gpt", entityId := "4");
      DedupeKey(a) == DedupeKey(b) && a.entityId != b.entityId
  {
    assert "model" + ":" + "gpt:4" == "model:gpt" + ":" + "4";
    assert s.signalType + ":" + "model" + ":" + "gpt:4" == s.signalType + ":" + ("model" + ":" + "gpt:4");
    assert s.signalType + ":" + "model:gpt" + ":" + "4" == s.signalType + ":" + ("model:gpt" + ":" + "4");
  }

  class AlertingService {
    const publisher: Publisher
    const cooldown: int
    var notified: seq<Signal>

    constructor (p: Publisher, cooldownMicroseconds: int)
      ensures publisher == p && cooldown == cooldownMicroseconds && notified == []
    {
      publisher, cooldown, notified := p, cooldownMicroseconds, [];
    }

    method FindExistingAlert(alerts: map<Id, Row>, key: string) returns (found: Option<Id>)
      ensures IsExisting(alerts, key, found)
    {
      var left := alerts.Keys;
      while left != {}
        invariant left <= alerts.Keys
        invariant forall id :: id in alerts && id !in left ==> Get(alerts[id], DedupeCol) != Text(key)
        decreases left
      {
        var id :| id in left;
        if Get(alerts[id], DedupeCol) == Text(key) { return Some(id); }
        left := left - {id};
      }
      return None;
    }

    /** A signal strictly within the cooldown of the visible row publishes and notifies nothing;
        notifications go out only after a publish that worked. */
    method ProcessSignal(alerts: map<Id, Row>, s: Signal, now: Time, newId: Id, eventId: Id, f: Fault)
      returns (reply: Option<Event>, ok: bool, ghost found: Option<Id>)
      modifies this`notified, publisher
      ensures IsExisting(alerts, DedupeKey(s), found)
      ensures var e := Process(alerts, found, s, now, cooldown, newId, eventId);
        && publisher.events == old(publisher.events) + (if e.None? || f.Lost? then [] else [e.value])
        && notified == old(notified) + (if e.None? || !f.Fine? then [] else [s])
        && ok == (e.None? || f.Fine?)
        && reply == if ok then e else None
    {
      var key := DedupeKey(s);
      var existing := FindExistingAlert(alerts, key);
      found := existing;
      if existing.Some? && InCooldown(alerts[existing.value], now, cooldown) { return None, true, found; }
      var alertId := if existing.Some? then existing.value else newId;
      var row := AlertRow(alertId, s, now);
      var event := Event(eventId, alertId, s.correlationId, s.traceId, if existing.Some? then AlertUpdated(row) else AlertCreated(row));
      ok := publisher.Publish(event, f);
      if !ok { return None, false, found; }
      notified := notified + [s];
      return Some(event), true, found;
    }
  }
}
