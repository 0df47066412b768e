/** A consumer group as a transition system: any number of workers, each between any two of its
    awaits, over growing partition logs, one database and one set of group offsets. Crashes,
    cancellations, rebalances and lost acknowledgements may strike at every point. */
module Protocol {
  import opened Events
  import opened Delivery

  type WorkerId = nat
  type Logs = map<TP, seq<Event>>

  function At(logs: Logs, tp: TP): seq<Event> {
    if tp in logs then logs[tp] else []
  }

  predicate InLog(logs: Logs, r: Record) {
    r.offset < |At(logs, r.tp)| && At(logs, r.tp)[r.offset] == r.event
  }

  predicate Extends(logs: Logs, logs': Logs) {
    forall tp :: tp in logs ==> tp in logs' && logs[tp] <= logs'[tp]
  }

  /** Where a worker is inside `run_forever`. `Settled` and `DeadLettered` wait for the offset
      commit in the `try` and in the `except` block. */
  datatype Phase =
    | Polling
    | Attempting(n: nat)
    | Handling(n: nat, emitted: seq<Event>)
    | Staged(n: nat, emitted: seq<Event>)
    | Settled(n: nat)
    | Failing(n: nat, error: Failure)
    | DeadLettered(n: nat)

  /** `positions` are the assigned partitions with the next offset to fetch; `batch` are the
      records of the current poll not finished yet, its head being the one in progress. */
  datatype Worker = Worker(positions: map<TP, nat>, batch: seq<Record>, phase: Phase)

  const IDLE := Worker(map[], [], Polling)

  /** `floor` is where the group's responsibility for a partition starts: its committed offset at
      the outset, or the log end at the last reset (`auto_offset_reset="latest"`). */
  datatype Group<M> = Group(world: World<M>, floor: map<TP, nat>, workers: map<WorkerId, Worker>)

  function Of<M>(g: Group<M>, w: WorkerId): Worker {
    if w in g.workers then g.workers[w] else IDLE
  }

  datatype Label =
    | Assign(tp: TP)
    | Revoke(lost: TP)
    | Fetch(from: TP, count: nat)
    | Begin
    | Lookup(raises: bool)
    | Emit(event: Event)
    | HandlerReturns
    | HandlerRaises
    | DbCommit(fault: Fault, now: Time)
    | OffsetCommit(fault: Fault)
    | Retry
    | PublishDeadLetter(fault: Fault)
    | Crash
    | ForeignMarker(row: (string, Id))

  predicate Enabled<M>(c: Config<M>, logs: Logs, g: Group<M>, w: WorkerId, l: Label) {
    var k := Of(g, w);
    match l
    case Assign(tp) => tp !in k.positions
    case Revoke(tp) => tp in k.positions
    case Fetch(tp, count) =>
      && k.phase.Polling?
      && tp in k.positions
      && (forall r :: r in k.batch ==> r.tp != tp)
      && k.positions[tp] + count <= |At(logs, tp)|
    case Begin => k.phase.Polling? && k.batch != []
    case Lookup(_) => k.phase.Attempting?
    case Emit(e) => k.phase.Handling? && k.batch != [] && c.mayEmit(k.batch[0].event, k.phase.emitted + [e])
    case HandlerReturns => k.phase.Handling? && k.batch != [] && c.complete(k.batch[0].event, k.phase.emitted)
    case HandlerRaises => k.phase.Handling?
    case DbCommit(_, _) => k.phase.Staged?
    case OffsetCommit(_) => k.phase.Settled? || k.phase.DeadLettered?
    case Retry => k.phase.Failing? && k.phase.n < c.maxRetries
    case PublishDeadLetter(_) => k.phase.Failing? && k.phase.n >= c.maxRetries
    case Crash => true
    case ForeignMarker(row) => row.0 != c.group
  }

  function Slice(logs: Logs, tp: TP, from: nat, count: nat): (rs: seq<Record>)
    requires from + count <= |At(logs, tp)|
    ensures |rs| == count
    ensures forall i :: 0 <= i < count ==> rs[i] == Record(tp, from + i, At(logs, tp)[from + i])
  {
    seq(count, i requires 0 <= i < count => Record(tp, from + i, At(logs, tp)[from + i]))
  }

  function Finish(k: Worker): Worker {
    if |k.batch| > 1 then Worker(k.positions, k.batch[1..], Attempting(1)) else Worker(k.positions, [], Polling)
  }

  /** The offset commit: a raise inside the `try` fails the attempt, a raise after the dead letter
      leaves `_process_record` and ends the worker. */
  function AfterOffsetCommit<M>(g: Group<M>, w: WorkerId, k: Worker, f: Fault): Group<M>
    requires k.batch != [] && (k.phase.Settled? || k.phase.DeadLettered?)
  {
    var (world, ok) := CommitOffset(g.world, k.positions.Keys, k.batch[0], f);
    var next := if ok then Finish(k) else if k.phase.Settled? then k.(phase := Failing(k.phase.n, OffsetError)) else IDLE;
    Group(world, g.floor, g.workers[w := next])
  }

  function AfterDbCommit<M>(c: Config<M>, g: Group<M>, w: WorkerId, k: Worker, f: Fault, now: Time): Group<M>
    requires k.batch != [] && k.phase.Staged?
  {
    match Flush(c, g.world, k.batch[0], now, k.phase.emitted)
    case None => g.(workers := g.workers[w := k.(phase := Failing(k.phase.n, IntegrityError))])
    case Some(world) =>
      if f.Lost? then g.(workers := g.workers[w := k.(phase := Failing(k.phase.n, DatabaseError))])
      else Group(world, g.floor, g.workers[w := k.(phase := if f.Fine? then Settled(k.phase.n) else Failing(k.phase.n, DatabaseError))])
  }

  function Do<M>(c: Config<M>, logs: Logs, g: Group<M>, w: WorkerId, l: Label): Group<M>
    requires Enabled(c, logs, g, w, l)
    requires Of(g, w).phase.Polling? || Of(g, w).batch != []
  {
    var k := Of(g, w);
    match l
    case Assign(tp) =>
      if tp in g.world.offsets then
        g.(workers := g.workers[w := k.(positions := k.positions[tp := g.world.offsets[tp]])])
      else
        var end := |At(logs, tp)|;
        g.(floor := g.floor[tp := end], workers := g.workers[w := k.(positions := k.positions[tp := end])])
    case Revoke(tp) => g.(workers := g.workers[w := k.(positions := k.positions - {tp})])
    case Fetch(tp, count) =>
      var rs := Slice(logs, tp, k.positions[tp], count);
      g.(workers := g.workers[w := k.(batch := k.batch + rs, positions := k.positions[tp := k.positions[tp] + count])])
    case Begin => g.(workers := g.workers[w := k.(phase := Attempting(1))])
    case Lookup(raises) =>
      var next := if raises then Failing(k.phase.n, LookupError)
        else if IsProcessed(c, g.world, k.batch[0].event) then Settled(k.phase.n)
        else Handling(k.phase.n, []);
      g.(workers := g.workers[w := k.(phase := next)])
    case Emit(e) =>
      g.(world := g.world.(published := g.world.published + [e]),
         workers := g.workers[w := k.(phase := Handling(k.phase.n, k.phase.emitted + [e]))])
    case HandlerReturns => g.(workers := g.workers[w := k.(phase := Staged(k.phase.n, k.phase.emitted))])
    case HandlerRaises => g.(workers := g.workers[w := k.(phase := Failing(k.phase.n, HandlerError))])
    case DbCommit(f, now) => AfterDbCommit(c, g, w, k, f, now)
    case OffsetCommit(f) => AfterOffsetCommit(g, w, k, f)
    case Retry => g.(workers := g.workers[w := k.(phase := Attempting(k.phase.n + 1))])
    case PublishDeadLetter(f) =>
      if f.Lost? then g.(workers := g.workers[w := IDLE])
      else
        g.(world := Bury(c, g.world, k.batch[0], k.phase.n, k.phase.error),
           workers := g.workers[w := if f.Fine? then k.(phase := DeadLettered(k.phase.n)) else IDLE])
    case Crash => g.(workers := g.workers[w := IDLE])
    case ForeignMarker(row) => g.(world := g.world.(rows := g.world.rows + {row}))
  }

  // ------------------------------------------------------------------ runs

  datatype Node<M> = Node(logs: Logs, group: Group<M>)

  datatype Move = Grow(tp: TP, event: Event) | Act(w: WorkerId, does: Label)

  /** Phases other than polling always have a record in progress. */
  predicate InProgress(k: Worker) {
    k.phase.Polling? || k.batch != []
  }

  ghost predicate Possible<M>(c: Config<M>, n: Node<M>, m: Move) {
    match m
    case Grow(_, _) => true
    case Act(w, l) => InProgress(Of(n.group, w)) && Enabled(c, n.logs, n.group, w, l)
  }

  ghost function Next<M>(c: Config<M>, n: Node<M>, m: Move): Node<M>
    requires Possible(c, n, m)
  {
    match m
    case Grow(tp, e) => n.(logs := n.logs[tp := At(n.logs, tp) + [e]])
    case Act(w, l) => n.(group := Do(c, n.logs, n.group, w, l))
  }

  /** The state after `moves`, or `None` when some move was not possible. */
  ghost function Run<M>(c: Config<M>, n: Node<M>, moves: seq<Move>): Option<Node<M>> {
    if moves == [] then Some(n)
    else
      match Run(c, n, moves[..|moves| - 1])
      case None => None
      case Some(m) =>
        var last := moves[|moves| - 1];
        if Possible(c, m, last) then Some(Next(c, m, last)) else None
  }

  /** A group that has not processed anything yet; some partitions may have a committed offset. */
  ghost predicate Init<M>(c: Config<M>, m0: M, n: Node<M>) {
    && 1 <= c.maxRetries
    && n.group.world.model == m0
    && n.group.world.commits == []
    && n.group.world.dlq == []
    && n.group.world.published == []
    && (forall row :: row in n.group.world.rows ==> row.0 != c.group)
    && n.group.floor == n.group.world.offsets
    && n.group.workers == map[]
  }

  lemma ExtendsAt(logs: Logs, tp: TP, e: Event)
    ensures Extends(logs, logs[tp := At(logs, tp) + [e]])
  {
  }
}
