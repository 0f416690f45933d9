/**
 The durable hand-off between Kafka and the worker, as a step relation.

 Two poll loops (triggers and decisions) read partitions, write every valid message to the
 Postgres inbox, and push it to one bounded queue.  One worker drains the queue.  Every step below
 is one indivisible action of one actor, so a sequence of steps is an interleaving of both poll
 loops, the worker, the producers, crashes and restarts.

 `dlq`, `finished`, `taken` and `base` are history: no step reads them to decide anything.
 */
module HandOff {
  const WORK_QUEUE_MAXSIZE: nat := 32
  const WORK_QUEUE_RESUME_THRESHOLD: nat := WORK_QUEUE_MAXSIZE / 2

  datatype Loop = Triggers | Decisions

  datatype Work = TriggerWork(runId: string, payload: string) | DecisionWork(runId: string, payload: string)

  // What parsing a raw message yields: the same answer however often it is retried.
  datatype Message = Invalid | Carries(work: Work)

  datatype Origin = Origin(loop: Loop, partition: nat, offset: nat)

  // Work together with the message it came from.
  datatype Row = Row(origin: Origin, work: Work)

  // A line of the inbox table.  Only an older release can have left one this release cannot decode.
  datatype Stored = Decodes(row: Row) | Malformed

  // An element of the in-memory queue.  `restored` tells a replayed row from a fresh message.
  datatype Item = Item(id: nat, row: Row, restored: bool)

  // The part of a fetched batch of one partition that is still to be processed.
  datatype Batch = Batch(partition: nat, next: nat, end: nat)

  // Where a poll loop stands.  Recorded: the head message has an inbox row but is not queued yet.
  // Turned: submit has answered False and the partition is not rewound yet.
  datatype Pc =
    | Idle
    | Reading(todo: seq<Batch>, clean: bool)
    | Recorded(todo: seq<Batch>, clean: bool, id: nat)
    | Turned(todo: seq<Batch>)

  // One consumer group: the broker's log and committed offsets, and the client's volatile state.
  datatype Feed = Feed(
    log: seq<seq<Message>>,
    committed: seq<nat>,
    position: seq<nat>,
    base: seq<nat>,          // history: where this process started reading
    paused: set<nat>,
    pc: Pc,
    dlq: set<(nat, nat)>)    // history: poison handed to the dead-letter topic

  datatype Hand = Free | Busy(item: Item) | Closing(item: Item)

  datatype System = System(
    triggers: Feed,
    decisions: Feed,
    rows: map<nat, Stored>,
    nextId: nat,
    live: bool,
    queue: seq<Item>,
    hand: Hand,
    taken: seq<Item>,        // history: what this process's worker has taken off the queue
    finished: set<Row>)      // history: work the worker has been through
  {
    function Feed(l: Loop): Feed {
      if l.Triggers? then triggers else decisions
    }

    function With(l: Loop, f: Feed): System {
      if l.Triggers? then this.(triggers := f) else this.(decisions := f)
    }
  }

  // ---- Batches ----

  function Todo(pc: Pc): seq<Batch> {
    if pc.Idle? then [] else pc.todo
  }

  // Drop the head message of the head batch.
  function Advance(todo: seq<Batch>): seq<Batch>
    requires todo != []
  {
    if todo[0].next + 1 >= todo[0].end then todo[1..]
    else [todo[0].(next := todo[0].next + 1)] + todo[1..]
  }

  function Partitions(todo: seq<Batch>): set<nat> {
    set b | b in todo :: b.partition
  }

  // poll() has moved the position of every fetched partition past its batch.
  function Fetched(position: seq<nat>, todo: seq<Batch>): seq<nat> {
    seq(|position|, p requires 0 <= p < |position| => EndOf(todo, p, position[p]))
  }

  function EndOf(todo: seq<Batch>, p: nat, default: nat): nat {
    if todo == [] then default
    else if todo[0].partition == p then todo[0].end
    else EndOf(todo[1..], p, default)
  }

  // A batch list poll() may hand back: distinct unpaused partitions, each read from its position.
  predicate Fetchable(f: Feed, todo: seq<Batch>) {
    && todo != []
    && |f.position| == |f.log|
    && (forall i, j :: 0 <= i < j < |todo| ==> todo[i].partition != todo[j].partition)
    && (forall b :: b in todo ==>
          && b.partition < |f.log|
          && b.partition !in f.paused
          && b.next == f.position[b.partition]
          && b.next < b.end <= |f.log[b.partition]|)
  }

  // ---- Restoring the inbox at startup ----

  predicate IsLeast(ids: set<nat>, m: nat) {
    m in ids && forall i :: i in ids ==> m <= i
  }

  function Least(ids: set<nat>): (m: nat)
    requires ids != {}
    ensures m in ids && forall i :: i in ids ==> m <= i
  {
    MinExists(ids);
    var m :| IsLeast(ids, m);
    m
  }

  // ORDER BY id.
  function SortedIds(ids: set<nat>): seq<nat>
    decreases ids
  {
    if ids == {} then [] else [Least(ids)] + SortedIds(ids - {Least(ids)})
  }

  lemma MinExists(ids: set<nat>)
    requires ids != {}
    ensures exists m :: IsLeast(ids, m)
  {
    var x :| x in ids;
    var others := ids - {x};
    assert ids == others + {x};
    if others == {} {
      assert IsLeast(others + {x}, x);
    } else {
      MinExists(others);
      var m :| IsLeast(others, m);
      assert IsLeast(others + {x}, if x <= m then x else m);
    }
  }

  // The queue a restart builds from the rows, scanned in the order of `ids`.
  function RestoredQueue(rows: map<nat, Stored>, ids: seq<nat>, room: nat): seq<Item> {
    if ids == [] || room == 0 then []
    else if ids[0] in rows && rows[ids[0]].Decodes? then
      [Item(ids[0], rows[ids[0]].row, true)] + RestoredQueue(rows, ids[1..], room - 1)
    else RestoredQueue(rows, ids[1..], room)
  }

  // ---- Steps ----

  datatype Step =
    | Produce(l: Loop, p: nat, m: Message)
    | AddPartition(l: Loop)
    | Poll(l: Loop, todo: seq<Batch>)
    | Resume(l: Loop)
    | DeadLetter(l: Loop)
    | Record(l: Loop)
    | RecordFails(l: Loop, leftover: bool)   // leftover: the insert took effect, its answer was lost
    | Enqueue(l: Loop)
    | QueueFull(l: Loop, discarded: bool)
    | Rewind(l: Loop)
    | EndCycle(l: Loop)
    | Take
    | Complete
    | Discard(ok: bool)
    | Crash
    | Restart(dropped: set<nat>)
    | Rebalance(l: Loop)

  // The loop has a head message to look at.
  predicate AtMessage(f: Feed) {
    && f.pc.Reading?
    && f.pc.todo != []
    && HeadInLog(f)
  }

  predicate HeadInLog(f: Feed) {
    && Todo(f.pc) != []
    && Todo(f.pc)[0].partition < |f.log|
    && Todo(f.pc)[0].next < |f.log[Todo(f.pc)[0].partition]|
  }

  function HeadMessage(f: Feed): Message
    requires HeadInLog(f)
  {
    var b := Todo(f.pc)[0];
    f.log[b.partition][b.next]
  }

  function HeadRow(l: Loop, f: Feed): Row
    requires HeadInLog(f) && HeadMessage(f).Carries?
  {
    var b := Todo(f.pc)[0];
    Row(Origin(l, b.partition, b.next), HeadMessage(f).work)
  }

  predicate Enabled(s: System, step: Step) {
    match step
    case Produce(l, p, m) => p < |s.Feed(l).log|
    case AddPartition(l) => true
    case Poll(l, todo) => s.live && s.Feed(l).pc.Idle? && Fetchable(s.Feed(l), todo)
    case Resume(l) => s.live && s.Feed(l).pc.Idle? && |s.queue| <= WORK_QUEUE_RESUME_THRESHOLD
    case DeadLetter(l) => s.live && AtMessage(s.Feed(l)) && HeadMessage(s.Feed(l)).Invalid?
    case Record(l) => s.live && AtMessage(s.Feed(l)) && HeadMessage(s.Feed(l)).Carries?
    case RecordFails(l, _) => s.live && AtMessage(s.Feed(l)) && HeadMessage(s.Feed(l)).Carries?
    case Enqueue(l) =>
      && s.live && s.Feed(l).pc.Recorded? && HeadInLog(s.Feed(l)) && HeadMessage(s.Feed(l)).Carries?
      && |s.queue| < WORK_QUEUE_MAXSIZE
    case QueueFull(l, _) =>
      && s.live && s.Feed(l).pc.Recorded? && HeadInLog(s.Feed(l))
      && |s.queue| >= WORK_QUEUE_MAXSIZE
    case Rewind(l) =>
      && s.live && s.Feed(l).pc.Turned? && s.Feed(l).pc.todo != []
      && s.Feed(l).pc.todo[0].partition < |s.Feed(l).position|
    case EndCycle(l) => s.live && s.Feed(l).pc.Reading? && s.Feed(l).pc.todo == []
    case Take => s.live && s.hand.Free? && s.queue != []
    case Complete => s.live && s.hand.Busy?
    case Discard(_) => s.live && s.hand.Closing?
    case Crash => s.live
    case Restart(dropped) => !s.live && forall id :: id in dropped ==> id in s.rows && s.rows[id].Malformed?
    case Rebalance(l) => s.live && s.Feed(l).pc.Idle?
  }

  // What a process keeps of a consumer when it dies: only what the broker holds.
  function Forgotten(f: Feed): Feed {
    f.(position := f.committed, base := f.committed, paused := {}, pc := Idle)
  }

  function Apply(s: System, step: Step): System
    requires Enabled(s, step)
  {
    match step
    case Produce(l, p, m) =>
      var f := s.Feed(l);
      s.With(l, f.(log := f.log[p := f.log[p] + [m]]))
    case AddPartition(l) =>
      var f := s.Feed(l);
      s.With(l, f.(log := f.log + [[]], committed := f.committed + [0], position := f.position + [0],
          base := f.base + [0]))
    case Poll(l, todo) =>
      var f := s.Feed(l);
      s.With(l, f.(position := Fetched(f.position, todo), pc := Reading(todo, true)))
    case Resume(l) =>
      s.With(l, s.Feed(l).(paused := {}))
    case DeadLetter(l) =>
      var f := s.Feed(l);
      var b := f.pc.todo[0];
      s.With(l, f.(dlq := f.dlq + {(b.partition, b.next)}, pc := Reading(Advance(f.pc.todo), f.pc.clean)))
    case Record(l) =>
      var f := s.Feed(l);
      s.With(l, f.(pc := Recorded(f.pc.todo, f.pc.clean, s.nextId)))
       .(rows := s.rows[s.nextId := Decodes(HeadRow(l, f))], nextId := s.nextId + 1)
    case RecordFails(l, leftover) =>
      var f := s.Feed(l);
      var t := s.With(l, f.(pc := Turned(f.pc.todo)));
      if leftover then t.(rows := s.rows[s.nextId := Decodes(HeadRow(l, f))], nextId := s.nextId + 1) else t
    case Enqueue(l) =>
      var f := s.Feed(l);
      s.With(l, f.(pc := Reading(Advance(f.pc.todo), f.pc.clean)))
       .(queue := s.queue + [Item(f.pc.id, HeadRow(l, f), false)])
    case QueueFull(l, discarded) =>
      var f := s.Feed(l);
      s.With(l, f.(pc := Turned(f.pc.todo)))
       .(rows := if discarded then s.rows - {f.pc.id} else s.rows)
    case Rewind(l) =>
      var f := s.Feed(l);
      var b := f.pc.todo[0];
      s.With(l, f.(position := f.position[b.partition := b.next], paused := f.paused + {b.partition},
                   pc := Reading(f.pc.todo[1..], false)))
    case EndCycle(l) =>
      var f := s.Feed(l);
      s.With(l, f.(committed := if f.pc.clean then f.position else f.committed, pc := Idle))
    case Take =>
      s.(queue := s.queue[1..], hand := Busy(s.queue[0]), taken := s.taken + [s.queue[0]])
    case Complete =>
      s.(hand := Closing(s.hand.item), finished := s.finished + {s.hand.item.row})
    case Discard(ok) =>
      s.(hand := Free, rows := if ok then s.rows - {s.hand.item.id} else s.rows)
    case Crash =>
      s.(triggers := Forgotten(s.triggers), decisions := Forgotten(s.decisions), live := false,
         queue := [], hand := Free, taken := [])
    case Restart(dropped) =>
      s.(live := true, queue := RestoredQueue(s.rows, SortedIds(s.rows.Keys), WORK_QUEUE_MAXSIZE),
         rows := s.rows - dropped)
    case Rebalance(l) =>
      var f := s.Feed(l);
      s.With(l, f.(position := f.committed, paused := {}))
  }

  // ---- Executions ----

  ghost predicate Next(s: System, t: System) {
    exists step :: Enabled(s, step) && t == Apply(s, step)
  }

  // The empty broker, no process yet, and whatever an older release left in the inbox.
  ghost predicate Init(s: System) {
    var empty := Feed.Feed([], [], [], [], {}, Idle, {});
    && s.triggers == empty && s.decisions == empty
    && (forall id :: id in s.rows ==> id < s.nextId && s.rows[id].Malformed?)
    && !s.live && s.queue == [] && s.hand.Free? && s.taken == [] && s.finished == {}
  }

  ghost predicate Execution(trace: seq<System>) {
    && trace != []
    && Init(trace[0])
    && forall i :: 0 <= i < |trace| - 1 ==> Next(trace[i], trace[i + 1])
  }
}
