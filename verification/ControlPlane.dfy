/**
 The hand-off as the program runs it: the inbox, the two Kafka clients, the worker, and the poll
 loop that drives them.  Every method is shown to walk along steps of HandOff while the other
 threads take steps of their own in between, so what holds of every execution holds of this code.
 */
module ControlPlane {
  import opened Prelude
  import opened HandOff
  import opened HandOffProofs
  import opened HandOffTheorems

  const MAX_CONSECUTIVE_POLL_FAILURES: nat := 10

  // ---- Walks along the step relation ----

  ghost predicate Walk(path: seq<System>) {
    path != [] && forall i :: 0 <= i < |path| - 1 ==> Next(path[i], path[i + 1])
  }

  ghost predicate Reaches(s: System, t: System) {
    exists path :: Walk(path) && path[0] == s && path[|path| - 1] == t
  }

  lemma ReachesSelf(s: System)
    ensures Reaches(s, s)
  {
    assert Walk([s]) && [s][0] == s;
  }

  lemma ReachesOn(s: System, t: System, step: Step)
    requires Reaches(s, t) && Enabled(t, step)
    ensures Reaches(s, Apply(t, step))
  {
    hide Reaches, Apply, Enabled;
    ReachesNext(s, t, Apply(t, step));
  }

  lemma ReachesNext(s: System, t: System, u: System)
    requires Reaches(s, t) && Next(t, u)
    ensures Reaches(s, u)
  {
    hide Next;
    var path :| Walk(path) && path[0] == s && path[|path| - 1] == t;
    assert Walk(path + [u]) && (path + [u])[0] == s && (path + [u])[|path|] == u;
  }

  lemma QueuedLast(taken: seq<Item>, queue: seq<Item>, item: Item, l: Loop, p: nat)
    requires !item.restored && item.row.origin.loop == l && item.row.origin.partition == p
    ensures Fresh(taken + (queue + [item]), l, p)
         == Fresh(taken + queue, l, p) + [(item.row.origin.offset, item.row.work)]
  {
    FreshSnoc(taken + queue, item, l, p);
    assert taken + (queue + [item]) == (taken + queue) + [item];
  }

  lemma ReachesTrans(s: System, t: System, u: System)
    requires Reaches(s, t) && Reaches(t, u)
    ensures Reaches(s, u)
  {
    var p :| Walk(p) && p[0] == s && p[|p| - 1] == t;
    var q :| Walk(q) && q[0] == t && q[|q| - 1] == u;
    var r := p + q[1..];
    forall i | 0 <= i < |r| - 1 ensures Next(r[i], r[i + 1]) {
      if i < |p| - 1 {
        assert Next(p[i], p[i + 1]);
      } else {
        assert Next(q[i - |p| + 1], q[i - |p| + 2]);
        assert r[i] == q[i - |p| + 1];
      }
    }
    assert Walk(r) && r[0] == s && r[|r| - 1] == u;
  }

  // Somewhere on the way the queue was full.
  ghost predicate WasFull(s: System, t: System) {
    exists m :: Reaches(s, m) && Reaches(m, t) && |m.queue| >= WORK_QUEUE_MAXSIZE
  }

  // How the inbox takes a message: the write of its row, and whether the row can be deleted again.
  // Lost: an exception, which does not say whether the row was written.
  datatype Writing = Written | Lost(inserted: bool)
  datatype Luck = Luck(writing: Writing, deletes: bool)

  // Why a message is turned back.
  ghost predicate Excused(luck: Luck, s: System, t: System) {
    luck.writing.Lost? || WasFull(s, t)
  }

  lemma FullThere(s: System, t: System, u: System)
    requires Reaches(s, t) && Next(t, u)
    ensures |t.queue| >= WORK_QUEUE_MAXSIZE ==> WasFull(s, u)
  {
    hide Reaches, Next;
    ReachesSelf(t);
    ReachesNext(t, t, u);
  }

  lemma ExcusedWithin(luck: Luck, r: System, s: System, t: System, u: System)
    requires Reaches(r, s) && Excused(luck, s, t) && Reaches(t, u)
    ensures Excused(luck, r, u)
  {
    hide Reaches;
    if luck.writing.Written? {
      var m :| Reaches(s, m) && Reaches(m, t) && |m.queue| >= WORK_QUEUE_MAXSIZE;
      ReachesTrans(r, s, m);
      ReachesTrans(m, t, u);
    }
  }

  lemma ExcusedOn(luck: Luck, s: System, t: System, u: System)
    requires Excused(luck, s, t) && Next(t, u)
    ensures Excused(luck, s, u)
  {
    hide Reaches, Next, Excused;
    ReachesSelf(s);
    ReachesSelf(t);
    ReachesNext(t, t, u);
    ExcusedWithin(luck, s, s, t, u);
  }

  // The walks of the code start where an execution can be, so they keep what executions keep.
  lemma ReachesSafe(s: System, t: System)
    requires Reaches(s, t) && Safe(s)
    ensures Safe(t)
  {
    var path :| Walk(path) && path[0] == s && path[|path| - 1] == t;
    WalkSafe(path, |path| - 1);
  }

  lemma {:induction false} WalkSafe(path: seq<System>, k: nat)
    requires Walk(path) && Safe(path[0]) && k < |path|
    ensures Safe(path[k])
  {
    hide Safe, Apply, Enabled;
    if k > 0 {
      WalkSafe(path, k - 1);
      assert Next(path[k - 1], path[k]);
      var step :| Enabled(path[k - 1], step) && path[k] == Apply(path[k - 1], step);
      SafeNext(path[k - 1], step);
    }
  }

  // ---- Postgres ----

  class Inbox {
    var rows: map<nat, Stored>
    var nextId: nat

    // INSERT ... RETURNING id.  None is the exception.
    method Record(row: Row, luck: Writing) returns (id: Option<nat>)
      modifies this
      ensures id == if luck.Written? then Some(old(nextId)) else None
      ensures luck == Lost(false) ==> rows == old(rows) && nextId == old(nextId)
      ensures luck != Lost(false) ==> rows == old(rows)[old(nextId) := Decodes(row)] && nextId == old(nextId) + 1
    {
      id := if luck.Written? then Some(nextId) else None;
      if luck.Written? || luck.inserted {
        rows := rows[nextId := Decodes(row)];
        nextId := nextId + 1;
      }
    }

    // Failure is logged, not raised.
    method Discard(id: nat, reachable: bool)
      modifies `rows
      ensures rows == if reachable then old(rows) - {id} else old(rows)
    {
      if reachable {
        rows := rows - {id};
      }
    }

    method Pending() returns (ids: seq<nat>, snapshot: map<nat, Stored>)
      ensures ids == SortedIds(rows.Keys) && snapshot == rows
    {
      ids := SortedIds(rows.Keys);
      snapshot := rows;
    }
  }

  // ---- One Kafka client ----

  class Consumer {
    const loop: Loop
    var log: seq<seq<Message>>
    var committed: seq<nat>
    var position: seq<nat>
    var paused: set<nat>
    ghost var base: seq<nat>
    ghost var pc: Pc
    ghost var dlq: set<(nat, nat)>

    constructor (loop: Loop)
      ensures this.loop == loop && State() == Feed.Feed([], [], [], [], {}, Idle, {})
    {
      this.loop := loop;
      log, committed, position, paused := [], [], [], {};
      base, pc, dlq := [], Idle, {};
    }

    ghost function State(): Feed
      reads this
    {
      Feed.Feed(log, committed, position, base, paused, pc, dlq)
    }

    // poll(): one batch of each unpaused partition that has messages and is served, up to as many
    // messages as it is served; the position moves past them.
    method Poll(served: nat -> nat) returns (todo: seq<Batch>)
      requires |position| == |log|
      modifies `position, `pc
      ensures forall p :: 0 <= p < |log| ==>
                (p in Partitions(todo) <==> p !in paused && old(position)[p] < |log[p]| && served(p) > 0)
      ensures todo == [] ==> State() == old(State())
      ensures todo != [] ==>
                && Fetchable(old(State()), todo)
                && State() == old(State()).(position := Fetched(old(position), todo), pc := Reading(todo, true))
    {
      todo := [];
      for p := 0 to |log|
        invariant todo != [] ==> Fetchable(State(), todo)
        invariant forall b :: b in todo ==> b.partition < p
        invariant forall q :: 0 <= q < p ==>
            (q in Partitions(todo) <==> q !in paused && position[q] < |log[q]| && served(q) > 0)
        invariant unchanged(this)
      {
        if p !in paused && position[p] < |log[p]| && served(p) > 0 {
          var b := Batch(p, position[p], Min(position[p] + served(p), |log[p]|));
          assert Partitions(todo + [b]) == Partitions(todo) + {p} by {
            assert b in todo + [b];
          }
          todo := todo + [b];
        }
      }
      if todo != [] {
        position := Fetched(position, todo);
        pc := Reading(todo, true);
      }
    }

    method Seek(p: nat, offset: nat)
      requires p < |position|
      modifies `position
      ensures position == old(position)[p := offset]
    {
      position := position[p := offset];
    }

    method Pause(p: nat)
      modifies `paused
      ensures paused == old(paused) + {p}
    {
      paused := paused + {p};
    }

    method Resume()
      modifies `paused
      ensures paused == {}
    {
      paused := {};
    }

    // Without arguments: every partition of this consumer is committed at its position.
    method Commit()
      modifies `committed
      ensures committed == position
    {
      committed := position;
    }
  }

  // ---- The process ----

  class Process {
    const inbox: Inbox
    const triggers: Consumer
    const decisions: Consumer
    var queue: seq<Item>
    var hand: Hand
    ghost var live: bool
    ghost var taken: seq<Item>
    ghost var finished: set<Row>

    constructor (inbox: Inbox, triggers: Consumer, decisions: Consumer)
      requires triggers.loop == Triggers && decisions.loop == Decisions
      ensures Valid() && !live && queue == [] && hand.Free? && taken == [] && finished == {}
      ensures this.inbox == inbox && this.triggers == triggers && this.decisions == decisions
    {
      this.inbox, this.triggers, this.decisions := inbox, triggers, decisions;
      queue, hand := [], Free;
      live, taken, finished := false, [], {};
    }

    ghost predicate Valid()
      reads this
    {
      triggers != decisions && triggers.loop == Triggers && decisions.loop == Decisions
    }

    function Consumer(l: Loop): Consumer {
      if l.Triggers? then triggers else decisions
    }

    ghost function Now(): System
      reads this, inbox, triggers, decisions
    {
      System(triggers.State(), decisions.State(), inbox.rows, inbox.nextId, live, queue, hand, taken, finished)
    }

    // What the worker was given of one partition, in order.
    ghost function Given(l: Loop, p: nat): seq<(nat, Work)>
      reads this
    {
      Fresh(taken + queue, l, p)
    }

    // A partition as it stands.
    ghost function Messages(l: Loop, p: nat): seq<Message>
      reads this, triggers, decisions
    {
      if p < |Consumer(l).log| then Consumer(l).log[p] else []
    }

    // What the thread of loop l knows whatever the other threads do: nobody else moves its client,
    // forgets the row it has just recorded or queues its messages, and its partitions only grow.
    twostate predicate Mine(l: Loop)
      reads this, inbox, triggers, decisions
    {
      var c := Consumer(l);
      && c.committed == old(c.committed) && c.position == old(c.position) && c.paused == old(c.paused)
      && c.base == old(c.base) && c.pc == old(c.pc) && c.dlq == old(c.dlq)
      && |c.log| == |old(c.log)|
      && (forall p :: 0 <= p < |c.log| ==> old(c.log)[p] <= c.log[p])
      && (c.pc.Recorded? && c.pc.id in old(inbox.rows) ==>
            c.pc.id in inbox.rows && inbox.rows[c.pc.id] == old(inbox.rows)[c.pc.id])
      && (forall p: nat :: Given(l, p) == old(Given(l, p)))
      && live
    }

    // What the worker does next: take the head of the queue, or finish with what it has.
    method WorkerTurn()
      requires Valid() && live
      modifies this`hand, this`queue, this`taken, this`finished
      ensures taken + queue == old(taken) + old(queue)
      ensures Reaches(old(Now()), Now())
    {
      hide Reaches;
      ReachesSelf(Now());
      if queue != [] && hand.Free? {
        ReachesOn(Now(), Now(), HandOff.Step.Take);
        assert (taken + [queue[0]]) + queue[1..] == taken + queue;
        hand, queue, taken := Busy(queue[0]), queue[1..], taken + [queue[0]];
      } else if hand.Busy? {
        ReachesOn(Now(), Now(), HandOff.Step.Complete);
        hand, finished := Closing(hand.item), finished + {hand.item.row};
      }
    }

    // Between two actions of loop l the worker, the other poll loop and the producers may take any
    // number of steps.  Callers see nothing but the contract.
    method Others(l: Loop)
      requires Valid() && live
      modifies this, inbox, Consumer(Other(l)), Consumer(l)`log
      ensures Valid() && Mine(l) && Reaches(old(Now()), Now())
    {
      hide Reaches, Fresh;
      ghost var start := Now();
      ReachesSelf(start);
      var turns: nat := *;
      while turns > 0
        invariant Valid() && live && Mine(l) && Reaches(start, Now())
        invariant unchanged(Consumer(l)) && unchanged(Consumer(Other(l))) && unchanged(inbox)
        invariant taken + queue == old(taken) + old(queue)
      {
        ghost var here := Now();
        WorkerTurn();
        ReachesTrans(start, here, Now());
        turns := turns - 1;
      }
    }

    predicate HasCapacity()
      reads this
    {
      |queue| <= WORK_QUEUE_RESUME_THRESHOLD
    }

    // Loop l is at the messages `todo`, and all of them are in its log.
    ghost predicate At(l: Loop, pc: Pc)
      reads this, triggers, decisions
    {
      && live && Consumer(l).pc == pc
      && |Consumer(l).position| == |Consumer(l).log|
      && InLog(Consumer(l).log, Todo(pc))
    }

    ghost predicate HeadIs(l: Loop, todo: seq<Batch>, row: Row)
      reads this, triggers, decisions
    {
      && todo != [] && InLog(Consumer(l).log, todo)
      && row.origin == Origin(l, todo[0].partition, todo[0].next)
      && todo[0] in todo
      && Consumer(l).log[todo[0].partition][todo[0].next] == Carries(row.work)
    }

    // The queue is full: forget the row again.
    method TurnBack(l: Loop, row: Row, id: nat, deletes: bool, ghost todo: seq<Batch>, ghost clean: bool)
      requires Valid() && At(l, Recorded(todo, clean, id)) && HeadIs(l, todo, row) && |queue| >= WORK_QUEUE_MAXSIZE
      modifies inbox`rows, Consumer(l)`pc
      ensures Consumer(l).pc == Turned(todo)
      ensures inbox.rows == if deletes then old(inbox.rows) - {id} else old(inbox.rows)
      ensures Next(old(Now()), Now())
    {
      ghost var here := Now();
      inbox.Discard(id, deletes);
      Consumer(l).pc := Turned(todo);
      assert Now() == Apply(here, QueueFull(l, inbox.rows != here.rows));
    }

    // put_nowait, or back out.
    method Offer(l: Loop, row: Row, id: nat, deletes: bool, ghost todo: seq<Batch>, ghost clean: bool)
        returns (accepted: bool)
      requires Valid() && At(l, Recorded(todo, clean, id)) && HeadIs(l, todo, row)
      modifies this`queue, inbox`rows, Consumer(l)`pc
      ensures Consumer(l).pc == if accepted then Reading(Advance(todo), clean) else Turned(todo)
      ensures queue == if accepted then old(queue) + [Item(id, row, false)] else old(queue)
      ensures accepted <==> |old(queue)| < WORK_QUEUE_MAXSIZE
      ensures !accepted ==> |old(Now()).queue| >= WORK_QUEUE_MAXSIZE
      ensures inbox.rows == if accepted || !deletes then old(inbox.rows) else old(inbox.rows) - {id}
      ensures Given(l, todo[0].partition)
           == old(Given(l, todo[0].partition)) + if accepted then [(todo[0].next, row.work)] else []
      ensures Next(old(Now()), Now())
    {
      ghost var here := Now();
      QueuedLast(taken, queue, Item(id, row, false), l, todo[0].partition);
      assert HeadInLog(here.Feed(l)) && HeadRow(l, here.Feed(l)) == row;
      hide Fresh;
      if |queue| < WORK_QUEUE_MAXSIZE {
        queue := queue + [Item(id, row, false)];
        Consumer(l).pc := Reading(Advance(todo), clean);
        assert Now() == Apply(here, Enqueue(l));
        return true;
      } else {
        TurnBack(l, row, id, deletes, todo, clean);
        return false;
      }
    }

    // The durable write that comes before the queue.
    method RecordDurably(l: Loop, row: Row, luck: Writing, ghost todo: seq<Batch>, ghost clean: bool)
        returns (id: Option<nat>)
      requires Valid() && At(l, Reading(todo, clean)) && HeadIs(l, todo, row)
      modifies inbox, Consumer(l)`pc
      ensures Consumer(l).pc == if id.Some? then Recorded(todo, clean, id.value) else Turned(todo)
      ensures id == if luck.Written? then Some(old(inbox.nextId)) else None
      ensures id.Some? ==> id.value in inbox.rows && inbox.rows[id.value] == Decodes(row)
      ensures Next(old(Now()), Now())
    {
      ghost var here := Now();
      assert row == HeadRow(l, here.Feed(l));
      id := inbox.Record(row, luck);
      if id.None? {
        Consumer(l).pc := Turned(todo);
        assert Now() == Apply(here, HandOff.Step.RecordFails(l, inbox.nextId != here.nextId));
      } else {
        Consumer(l).pc := Recorded(todo, clean, id.value);
        assert Now() == Apply(here, HandOff.Step.Record(l));
      }
    }

    // Inbox first, queue second.  A refusal leaves the loop at the same message, to be rewound to; it
    // means that the write failed or that the queue was full, and then the row goes again if it can.
    method Submit(l: Loop, row: Row, luck: Luck, ghost todo: seq<Batch>, ghost clean: bool) returns (accepted: bool)
      requires Valid() && At(l, Reading(todo, clean)) && HeadIs(l, todo, row)
      modifies this, inbox, Consumer(Other(l)), Consumer(l)`log, Consumer(l)`pc
      ensures Valid() && Reaches(old(Now()), Now())
      ensures At(l, if accepted then Reading(Advance(todo), clean) else Turned(todo))
      ensures InLog(Consumer(l).log, todo) && |Consumer(l).log| == |old(Consumer(l).log)|
      ensures accepted ==>
                && queue != [] && queue[|queue| - 1].row == row && !queue[|queue| - 1].restored
                && queue[|queue| - 1].id in inbox.rows && inbox.rows[queue[|queue| - 1].id] == Decodes(row)
                && luck.writing.Written?
      ensures !accepted ==> Excused(luck, old(Now()), Now())
      ensures !accepted && luck == Luck(Written, true) ==> old(inbox.nextId) !in inbox.rows
      ensures Given(l, todo[0].partition)
           == old(Given(l, todo[0].partition)) + if accepted then [(todo[0].next, row.work)] else []
      ensures forall p :: 0 <= p < |Consumer(l).log| ==> old(Consumer(l).log)[p] <= Consumer(l).log[p]
    {
      hide Reaches, Next, Given, Now, WasFull;
      ghost var start := Now();
      ReachesSelf(start);
      var id := RecordDurably(l, row, luck.writing, todo, clean);
      ReachesNext(start, start, Now());
      if id.None? {
        return false;
      }
      accepted := QueueRecorded(l, row, id.value, luck.deletes, todo, clean, start);
    }

    // The row is written; whatever the others do meanwhile, it is still there when the queue is tried.
    method QueueRecorded(l: Loop, row: Row, id: nat, deletes: bool, ghost todo: seq<Batch>, ghost clean: bool,
        ghost start: System)
        returns (accepted: bool)
      requires Valid() && At(l, Recorded(todo, clean, id)) && HeadIs(l, todo, row) && Reaches(start, Now())
      requires id in inbox.rows && inbox.rows[id] == Decodes(row)
      modifies this, inbox, Consumer(Other(l)), Consumer(l)`log, Consumer(l)`pc
      ensures Valid() && Reaches(start, Now())
      ensures At(l, if accepted then Reading(Advance(todo), clean) else Turned(todo))
      ensures InLog(Consumer(l).log, todo) && |Consumer(l).log| == |old(Consumer(l).log)|
      ensures accepted ==>
                && queue != [] && queue[|queue| - 1] == Item(id, row, false)
                && id in inbox.rows && inbox.rows[id] == Decodes(row)
      ensures !accepted ==> WasFull(start, Now()) && (deletes ==> id !in inbox.rows)
      ensures Given(l, todo[0].partition)
           == old(Given(l, todo[0].partition)) + if accepted then [(todo[0].next, row.work)] else []
      ensures forall p :: 0 <= p < |Consumer(l).log| ==> old(Consumer(l).log)[p] <= Consumer(l).log[p]
    {
      hide Reaches, Next, Given, Now, WasFull;
      ghost var before := Now();
      Others(l);
      ReachesTrans(start, before, Now());
      ghost var here := Now();
      accepted := Offer(l, row, id, deletes, todo, clean);
      ReachesNext(start, here, Now());
      FullThere(start, here, Now());
    }

    // ---- The poll loop ----

    // A poison message goes to the dead-letter topic and never blocks its partition.
    method DeadLetter(l: Loop, ghost todo: seq<Batch>, ghost clean: bool)
      requires Valid() && At(l, Reading(todo, clean)) && todo != []
      requires todo[0] in todo && Consumer(l).log[todo[0].partition][todo[0].next].Invalid?
      modifies Consumer(l)`pc, Consumer(l)`dlq
      ensures At(l, Reading(Advance(todo), clean)) && InLog(Consumer(l).log, todo)
      ensures Consumer(l).dlq == old(Consumer(l).dlq) + {(todo[0].partition, todo[0].next)}
      ensures Next(old(Now()), Now())
    {
      ghost var here := Now();
      var c := Consumer(l);
      c.dlq := c.dlq + {(todo[0].partition, todo[0].next)};
      c.pc := Reading(Advance(todo), clean);
      assert Now() == Apply(here, HandOff.Step.DeadLetter(l));
    }

    // Both halves of backpressure: poll() has already moved past the message, so go back to it;
    // and stop fetching the partition until the worker has drained.
    method RewindAndPause(l: Loop, partition: nat, offset: nat, ghost todo: seq<Batch>)
      requires Valid() && At(l, Turned(todo)) && todo != []
      requires todo[0] in todo && partition == todo[0].partition && offset == todo[0].next
      modifies Consumer(l)`pc, Consumer(l)`position, Consumer(l)`paused
      ensures At(l, Reading(todo[1..], false))
      ensures Consumer(l).position == old(Consumer(l).position)[partition := offset]
      ensures Consumer(l).paused == old(Consumer(l).paused) + {partition}
      ensures Next(old(Now()), Now())
    {
      ghost var here := Now();
      var c := Consumer(l);
      c.Seek(partition, offset);
      c.Pause(partition);
      c.pc := Reading(todo[1..], false);
      assert Now() == Apply(here, Rewind(l));
    }

    // The argument-less commit, skipped when anything was refused.
    method EndCycle(l: Loop, clean: bool)
      requires Valid() && At(l, Reading([], clean))
      modifies Consumer(l)`pc, Consumer(l)`committed
      ensures At(l, Idle) && Next(old(Now()), Now())
      ensures Consumer(l).committed == if clean then Consumer(l).position else old(Consumer(l).committed)
    {
      ghost var here := Now();
      if clean {
        Consumer(l).Commit();
      }
      Consumer(l).pc := Idle;
      assert Now() == Apply(here, HandOff.Step.EndCycle(l));
    }

    method ResumeDrained(l: Loop)
      requires Valid() && At(l, Idle)
      modifies Consumer(l)`paused
      ensures At(l, Idle) && Reaches(old(Now()), Now())
      ensures Consumer(l).paused == if HasCapacity() then {} else old(Consumer(l).paused)
    {
      ghost var here := Now();
      ReachesSelf(here);
      if Consumer(l).paused != {} && HasCapacity() {
        Consumer(l).Resume();
        ReachesOn(here, here, HandOff.Step.Resume(l));
        assert Now() == Apply(here, HandOff.Step.Resume(l));
      }
    }

    method Fetch(l: Loop, served: nat -> nat) returns (todo: seq<Batch>)
      requires Valid() && At(l, Idle)
      modifies Consumer(l)`position, Consumer(l)`pc
      ensures todo == [] ==> At(l, Idle) && Consumer(l).position == old(Consumer(l).position)
      ensures todo != [] ==> At(l, Reading(todo, true)) && AtEnds(Consumer(l).position, todo) && Apart(todo)
      ensures Reads(old(Consumer(l).position), Consumer(l).log, Consumer(l).paused, served, todo)
      ensures Elsewhere(old(Consumer(l).position), Consumer(l).position, todo)
      ensures Reaches(old(Now()), Now())
    {
      ghost var here := Now();
      ReachesSelf(here);
      todo := Consumer(l).Poll(served);
      if todo != [] {
        ReachesOn(here, here, HandOff.Step.Poll(l, todo));
        assert Now() == Apply(here, HandOff.Step.Poll(l, todo));
        FetchedAtEnds(here.Feed(l).position, todo);
      } else {
        assert Now() == here;
      }
    }

    // The messages of one partition, up to the first that cannot be accepted.
    method ProcessBatch(l: Loop, b: Batch, lucks: (nat, nat) -> Luck, ghost rest: seq<Batch>, ghost clean: bool)
        returns (accepted: bool)
      requires Valid() && At(l, Reading([b] + rest, clean))
      modifies this, inbox, triggers, decisions
      ensures Valid() && Reaches(old(Now()), Now())
      ensures At(l, Reading(rest, clean && accepted))
      ensures Settled(l, b, accepted)
      ensures HandedOver(l, b, b.next, if accepted then b.end else Consumer(l).position[b.partition])
      ensures !accepted ==> Excused(lucks(b.partition, Consumer(l).position[b.partition]), old(Now()), Now())
    {
      hide Reaches, Next, At, Now, Given, Handed, Messages, Excused;
      ghost var start := Now();
      ReachesSelf(start);
      var o := b.next;
      accepted := true;
      AtHead(l, [b] + rest, clean);
      HandedNothing(Given(l, b.partition), Messages(l, b.partition), Consumer(l).dlq, b.partition, o);
      while accepted && o < b.end
        invariant Valid() && Reaches(start, Now())
        invariant b.next <= o && (accepted ==> o <= b.end)
        invariant At(l, Reading(if accepted then From(b, o, rest) else rest, clean && accepted))
        invariant Settled(l, b, accepted)
        invariant HandedOver(l, b, b.next, if accepted then o else Consumer(l).position[b.partition])
        invariant !accepted ==> Excused(lucks(b.partition, Consumer(l).position[b.partition]), start, Now())
      {
        ghost var here := Now();
        ghost var given, log, dlq := Given(l, b.partition), Messages(l, b.partition), Consumer(l).dlq;
        accepted := ProcessMessage(l, b, o, lucks(b.partition, o), rest, clean, start);
        ReachesSelf(Now());
        if !accepted {
          ExcusedWithin(lucks(b.partition, o), start, here, Now(), Now());
        }
        HandedOn(old(Given(l, b.partition)), given, Given(l, b.partition), log, Messages(l, b.partition),
          dlq, Consumer(l).dlq, b.partition, b.next, o, if accepted then o + 1 else o);
        o := o + 1;
      }
    }

    // What a batch leaves of the client: untouched, or its partition rewound into the batch and paused.
    twostate predicate Settled(l: Loop, b: Batch, accepted: bool)
      reads this, triggers, decisions
    {
      var c := Consumer(l);
      && c.committed == old(c.committed)
      && |c.position| == |old(c.position)|
      && (accepted ==> c.position == old(c.position) && c.paused == old(c.paused))
      && (!accepted ==>
            && b.partition < |c.position| && b.next <= c.position[b.partition] < b.end
            && c.position == old(c.position)[b.partition := c.position[b.partition]]
            && c.paused == old(c.paused) + {b.partition})
    }

    // The messages of a batch's partition from lo up to hi went where they belong: the valid ones to
    // the worker, in order, the others to the dead-letter topic.
    twostate predicate HandedOver(l: Loop, b: Batch, lo: nat, hi: nat)
      reads this, triggers, decisions
    {
      var c, p := Consumer(l), b.partition;
      && old(Messages(l, p)) <= Messages(l, p) && old(c.dlq) <= c.dlq
      && Handed(old(Given(l, p)), Given(l, p), Messages(l, p), c.dlq, p, lo, hi)
    }

    // The batches still pending when partition b stands at offset o.
    static ghost function From(b: Batch, o: nat, rest: seq<Batch>): seq<Batch> {
      if o < b.end then [b.(next := o)] + rest else rest
    }

    lemma AtHead(l: Loop, todo: seq<Batch>, clean: bool)
      requires At(l, Reading(todo, clean)) && todo != []
      ensures todo[0].next < todo[0].end && From(todo[0], todo[0].next, todo[1..]) == todo
      ensures todo[0].next <= |Messages(l, todo[0].partition)|
    {
      assert todo[0] in todo;
    }

    method ProcessMessage(l: Loop, b: Batch, o: nat, luck: Luck, ghost rest: seq<Batch>, ghost clean: bool,
        ghost start: System)
      returns (accepted: bool)
      requires Valid() && b.next <= o < b.end && At(l, Reading(From(b, o, rest), clean)) && Reaches(start, Now())
      modifies this, inbox, triggers, decisions
      ensures Valid() && Reaches(start, Now())
      ensures At(l, Reading(if accepted then From(b, o + 1, rest) else rest, clean && accepted))
      ensures Settled(l, b, accepted) && HandedOver(l, b, o, if accepted then o + 1 else o)
      ensures !accepted ==> b.partition < |Consumer(l).position| && Consumer(l).position[b.partition] == o
      ensures !accepted ==> o < |Messages(l, b.partition)| && Messages(l, b.partition)[o].Carries?
      ensures !accepted ==> Excused(luck, old(Now()), Now())
    {
      hide Reaches, Next, Given, Handed, Now, Excused;
      ghost var todo := From(b, o, rest);
      assert todo[0] in todo;
      ghost var first := Now();
      Others(l);
      ReachesTrans(start, first, Now());
      ghost var here := Now();
      match Consumer(l).log[b.partition][o] {
        case Invalid =>
          PassPoison(l, b, o, rest, clean);
          ReachesNext(start, here, Now());
          accepted := true;
        case Carries(work) =>
          accepted := SubmitOrRewind(l, b, o, luck, rest, clean, Row(Origin(l, b.partition, o), work));
          ReachesTrans(start, here, Now());
          if !accepted {
            ReachesSelf(Now());
            ExcusedWithin(luck, first, here, Now(), Now());
          }
      }
    }

    method PassPoison(l: Loop, b: Batch, o: nat, ghost rest: seq<Batch>, ghost clean: bool)
      requires Valid() && b.next <= o < b.end && At(l, Reading(From(b, o, rest), clean))
      requires o < |Messages(l, b.partition)| && Messages(l, b.partition)[o].Invalid?
      modifies Consumer(l)`pc, Consumer(l)`dlq
      ensures At(l, Reading(From(b, o + 1, rest), clean)) && Settled(l, b, true) && HandedOver(l, b, o, o + 1)
      ensures Next(old(Now()), Now())
    {
      hide Next, Now, Given, Handed, Advance;
      assert From(b, o, rest)[0] in From(b, o, rest) && Advance(From(b, o, rest)) == From(b, o + 1, rest) by {
        AdvanceFrom(b, o, rest);
      }
      DeadLetter(l, From(b, o, rest), clean);
      HandedPoison(Given(l, b.partition), Messages(l, b.partition), Consumer(l).dlq, b.partition, o);
    }

    static lemma AdvanceFrom(b: Batch, o: nat, rest: seq<Batch>)
      requires o < b.end
      ensures From(b, o, rest)[0] in From(b, o, rest) && Advance(From(b, o, rest)) == From(b, o + 1, rest)
    {
    }

    method SubmitOrRewind(l: Loop, b: Batch, o: nat, luck: Luck, ghost rest: seq<Batch>, ghost clean: bool, row: Row)
        returns (accepted: bool)
      requires Valid() && b.next <= o < b.end && At(l, Reading(From(b, o, rest), clean))
          && HeadIs(l, From(b, o, rest), row)
      modifies this, inbox, triggers, decisions
      ensures Valid() && Reaches(old(Now()), Now())
      ensures At(l, Reading(if accepted then From(b, o + 1, rest) else rest, clean && accepted))
      ensures Settled(l, b, accepted) && HandedOver(l, b, o, if accepted then o + 1 else o)
      ensures !accepted ==> b.partition < |Consumer(l).position| && Consumer(l).position[b.partition] == o
      ensures o < |Messages(l, b.partition)| && Messages(l, b.partition)[o] == Carries(row.work)
      ensures !accepted ==> Excused(luck, old(Now()), Now())
    {
      hide Reaches, Next, Now, Given, Handed, Excused;
      ghost var start, todo := Now(), From(b, o, rest);
      ghost var given := Given(l, b.partition);
      accepted := Submit(l, row, luck, todo, clean);
      HandedWork(given, Given(l, b.partition), Messages(l, b.partition), Consumer(l).dlq, b.partition, o, row.work,
          accepted);
      if !accepted {
        ghost var here := Now();
        RewindAndPause(l, b.partition, o, todo);
        ReachesNext(start, here, Now());
        ExcusedOn(luck, start, here, Now());
      }
    }

    // One pass: resume what has drained, poll, hand every message over, commit.
    method PollCycle(l: Loop, meets: Meets) returns (fetched: seq<Batch>)
      requires Valid() && At(l, Idle)
      modifies this, inbox, triggers, decisions
      ensures Valid() && At(l, Idle) && Reaches(old(Now()), Now())
      ensures Pass(l, meets, fetched, old(Now()), Now())
    {
      hide Reaches, Next, Reads, Elsewhere, AllExcused, Pass;
      ghost var start := Now();
      ResumeDrained(l);
      ghost var here := Now();
      Others(l);
      ReachesTrans(start, here, Now());
      if meets.raises {
        fetched := [];
        NothingFetched(l, meets, start, Now(), Now(), fetched);
      } else {
        fetched := FetchAndHandOver(l, meets, start);
      }
    }

    // A poll that does not raise, and what becomes of what it returns.
    method FetchAndHandOver(l: Loop, meets: Meets, ghost start: System) returns (fetched: seq<Batch>)
      requires Valid() && At(l, Idle) && !meets.raises && Waited(l, start, Now()) && Reaches(start, Now())
      modifies this, inbox, triggers, decisions
      ensures Valid() && At(l, Idle) && Reaches(start, Now())
      ensures Pass(l, meets, fetched, start, Now())
    {
      hide Reaches, Next, Reads, Elsewhere, AllExcused, Pass, CycleDone, Waited, InLog;
      ghost var here := Now();
      fetched := Fetch(l, meets.served);
      ReachesTrans(start, here, Now());
      ghost var polled := Now();
      if fetched == [] {
        NothingFetched(l, meets, start, here, polled, fetched);
      } else {
        HandOverAll(l, fetched, meets.lucks);
        ExcusesWithin(meets.lucks, fetched, Consumer(l).position, start, polled, Now());
        ReachesTrans(start, polled, Now());
        SomeFetched(l, meets, start, here, polled, Now(), fetched);
      }
    }

    // Hand over what was fetched, then commit unless something was turned back.
    method HandOverAll(l: Loop, fetched: seq<Batch>, lucks: (nat, nat) -> Luck)
      requires Valid() && At(l, Reading(fetched, true)) && AtEnds(Consumer(l).position, fetched) && Apart(fetched)
      modifies this, inbox, triggers, decisions
      ensures Valid() && At(l, Idle) && Reaches(old(Now()), Now())
      ensures CycleDone(fetched, old(Now()).Feed(l), Now().Feed(l))
      ensures AllExcused(lucks, fetched, Consumer(l).position, old(Now()), Now())
    {
      hide Reaches, Next, AllExcused, AllSettled, CycleDone, InLog;
      ghost var start := Now();
      var clean := ProcessAll(l, fetched, lucks);
      ghost var here := Now();
      EndCycle(l, clean);
      ReachesNext(start, here, Now());
      ReachesSelf(here);
      ReachesNext(here, here, Now());
      ExcusesAfter(lucks, fetched, Consumer(l).position, start, here, Now());
      SettledDone(fetched, start.Feed(l), here.Feed(l), Now().Feed(l), clean);
    }

    // The nested loops over what poll() returned.
    method ProcessAll(l: Loop, fetched: seq<Batch>, lucks: (nat, nat) -> Luck) returns (clean: bool)
      requires Valid() && At(l, Reading(fetched, true)) && AtEnds(Consumer(l).position, fetched) && Apart(fetched)
      modifies this, inbox, triggers, decisions
      ensures Valid() && At(l, Reading([], clean)) && Reaches(old(Now()), Now())
      ensures Consumer(l).committed == old(Consumer(l).committed)
      ensures AllSettled(old(Consumer(l).position), Consumer(l).position, old(Consumer(l).paused), Consumer(l).paused,
                fetched, fetched, clean)
      ensures AllExcused(lucks, fetched, Consumer(l).position, old(Now()), Now())
    {
      hide Reaches, Next, Now, At, AllSettled, Apart, Excused, AllExcused;
      ghost var start := Now();
      ReachesSelf(start);
      var c := Consumer(l);
      AllAhead(c.position, c.paused, fetched);
      NoneExcused(lucks, fetched, c.position, start);
      clean := true;
      var i := 0;
      while i < |fetched|
        invariant i <= |fetched| && Valid() && At(l, Reading(fetched[i..], clean)) && Reaches(start, Now())
        invariant c.committed == old(c.committed)
        invariant AllSettled(old(c.position), c.position, old(c.paused), c.paused, fetched, fetched[..i], clean)
        invariant AllExcused(lucks, fetched, c.position, start, Now())
      {
        assert [fetched[i]] + fetched[i + 1..] == fetched[i..];
        ghost var here := Now();
        ghost var position, paused := c.position, c.paused;
        ghost var b := fetched[i];
        var accepted := ProcessBatch(l, fetched[i], lucks, fetched[i + 1..], clean);
        OneExcused(lucks, fetched, b, position, c.position, accepted, start, here, Now());
        ReachesTrans(start, here, Now());
        SettleOne(old(c.position), position, old(c.paused), paused, c.position, c.paused, fetched, i, clean, accepted);
        clean := clean && accepted;
        i := i + 1;
      }
      assert fetched[i..] == [] && fetched[..i] == fetched;
    }

    // Poll until told to stop, or until ten polls in a row have raised.  `cycles` is when the stop
    // event is set, `meets` what each pass meets.  The last pass made started from `before`.
    method PollLoop(l: Loop, cycles: nat, meets: nat -> Meets)
        returns (gaveUp: bool, passes: nat, ghost before: System, fetched: seq<Batch>)
      requires Valid() && At(l, Idle)
      modifies this, inbox, triggers, decisions
      ensures Valid() && At(l, Idle) && Reaches(old(Now()), Now())
      ensures passes <= cycles && (!gaveUp ==> passes == cycles)
      ensures gaveUp <==> Trailing(meets, passes) >= MAX_CONSECUTIVE_POLL_FAILURES
      ensures forall k :: 0 <= k < passes ==> Trailing(meets, k) < MAX_CONSECUTIVE_POLL_FAILURES
      ensures passes > 0 ==> Reaches(old(Now()), before) && Pass(l, meets(passes - 1), fetched, before, Now())
    {
      hide Reaches, Next, At, Now, Pass;
      before := Now();
      ghost var start := before;
      ReachesSelf(start);
      var consecutive := 0;
      passes, fetched := 0, [];
      while passes < cycles
        invariant Valid() && At(l, Idle) && Reaches(start, Now())
        invariant passes <= cycles && consecutive == Trailing(meets, passes) < MAX_CONSECUTIVE_POLL_FAILURES
        invariant forall k :: 0 <= k < passes ==> Trailing(meets, k) < MAX_CONSECUTIVE_POLL_FAILURES
        invariant passes > 0 ==> Reaches(start, before) && Pass(l, meets(passes - 1), fetched, before, Now())
      {
        before := Now();
        fetched := PollCycle(l, meets(passes));
        ReachesTrans(start, before, Now());
        consecutive := if meets(passes).raises then consecutive + 1 else 0;
        passes := passes + 1;
        if consecutive >= MAX_CONSECUTIVE_POLL_FAILURES {
          gaveUp := true;
          return;
        }
      }
      gaveUp := false;
    }

    // ---- The worker ----

    // Between two actions of the worker both poll loops may take any number of steps.
    method PollLoops()
      requires Valid() && live
      modifies this`queue, inbox, triggers, decisions
      ensures Valid() && old(queue) <= queue && Reaches(old(Now()), Now())
    {
      ReachesSelf(Now());
    }

    method TakeOne() returns (item: Item)
      requires Valid() && live && hand.Free? && queue != []
      modifies this`queue, this`hand, this`taken
      ensures item == old(queue)[0] && hand == Busy(item) && queue == old(queue)[1..] && taken == old(taken) + [item]
      ensures Next(old(Now()), Now())
    {
      ghost var here := Now();
      item := queue[0];
      hand, queue, taken := Busy(item), queue[1..], taken + [item];
      assert Now() == Apply(here, Take);
    }

    // Handling is over, whether the handler returned or raised.
    method Finish(item: Item)
      requires Valid() && live && hand == Busy(item)
      modifies this`hand, this`finished
      ensures hand == Closing(item) && finished == old(finished) + {item.row}
      ensures Next(old(Now()), Now())
    {
      ghost var here := Now();
      hand, finished := Closing(item), finished + {item.row};
      assert Now() == Apply(here, Complete);
    }

    method Forget(item: Item, deletes: bool)
      requires Valid() && live && hand == Closing(item)
      modifies this`hand, inbox`rows
      ensures inbox.rows == if deletes then old(inbox.rows) - {item.id} else old(inbox.rows)
      ensures hand.Free? && Next(old(Now()), Now())
    {
      ghost var here := Now();
      inbox.Discard(item.id, deletes);
      hand := Free;
      assert Now() == Apply(here, Discard(inbox.rows != here.rows));
    }

    // One pass of run_forever: take an item, handle it whatever happens, forget its row.
    method RunOnce(deletes: bool) returns (handled: Option<Row>)
      requires Valid() && live && hand.Free?
      modifies this, inbox, triggers, decisions
      ensures Valid() && live && hand.Free? && Reaches(old(Now()), Now())
      ensures old(queue) == [] ==> handled == None && Now() == old(Now())
      ensures old(queue) != [] ==>
                && handled == Some(old(queue)[0].row) && handled.value in finished
                && old(queue)[1..] <= queue && taken == old(taken) + [old(queue)[0]]
                && (deletes ==> old(queue)[0].id !in inbox.rows)
    {
      hide Reaches, Next, Now;
      ghost var start := Now();
      ReachesSelf(start);
      if queue == [] {
        return None;
      }
      var item := TakeOne();
      ReachesNext(start, start, Now());
      ghost var here := Now();
      PollLoops();
      ReachesTrans(start, here, Now());
      here := Now();
      Finish(item);
      ReachesNext(start, here, Now());
      here := Now();
      Forget(item, deletes);
      ReachesNext(start, here, Now());
      handled := Some(item.row);
    }

    // ---- Startup ----

    // The loop of restore_pending over the rows read from the table, oldest first.  Rows that cannot
    // be decoded are deleted up to where the queue is found full.
    method RestoreRows(ids: seq<nat>, rows: map<nat, Stored>, deletes: nat -> bool) returns (restored: nat)
      requires Valid() && queue == [] && inbox.rows == rows && forall id :: id in ids ==> id in rows
      modifies this`queue, inbox`rows
      ensures queue == RestoredQueue(rows, ids, WORK_QUEUE_MAXSIZE) && restored == |queue|
      ensures OnlyMalformedGone(rows, inbox.rows)
      ensures MalformedGone(rows, inbox.rows, ids, deletes)
    {
      hide OnlyMalformedGone, MalformedGone, RestoredQueue, Decodable;
      DecodableNone(rows, ids);
      assert ids[0..] == ids;
      OnlyMalformedGoneTrans(rows, rows, rows);
      NothingScanned(rows, ids[..0], deletes);
      restored := 0;
      var i := 0;
      while i < |ids|
        invariant i <= |ids| && restored == |queue| == Decodable(rows, ids[..i]) <= WORK_QUEUE_MAXSIZE
        invariant RestoredQueue(rows, ids, WORK_QUEUE_MAXSIZE)
               == queue + RestoredQueue(rows, ids[i..], WORK_QUEUE_MAXSIZE - |queue|)
        invariant OnlyMalformedGone(rows, inbox.rows)
        invariant MalformedGone(rows, inbox.rows, ids[..i], deletes)
      {
        var id := ids[i];
        ScanNext(rows, ids, i, WORK_QUEUE_MAXSIZE - |queue|);
        match rows[id] {
          case Malformed =>
            var before := inbox.rows;
            inbox.Discard(id, deletes(id));
            OnlyMalformedGoneTrans(rows, before, inbox.rows);
            OneScanned(rows, before, inbox.rows, ids, i, deletes);
          case Decodes(row) =>
            if |queue| >= WORK_QUEUE_MAXSIZE {
              FullBefore(rows, inbox.rows, ids, i, deletes);
              return;
            }
            OneScanned(rows, inbox.rows, inbox.rows, ids, i, deletes);
            queue := queue + [Item(id, row, true)];
            restored := restored + 1;
        }
        i := i + 1;
      }
      assert ids[..i] == ids && ids[i..] == [];
      ScanEnds(rows, WORK_QUEUE_MAXSIZE - |queue|);
    }

    // Startup, while nothing polls yet: the queue is rebuilt from the inbox.
    method RestorePending(deletes: nat -> bool) returns (restored: nat)
      requires Valid() && !live && queue == []
      modifies this`queue, this`live, inbox`rows
      ensures Valid() && live && Next(old(Now()), Now())
      ensures queue == RestoredQueue(old(inbox.rows), SortedIds(old(inbox.rows).Keys), WORK_QUEUE_MAXSIZE)
      ensures restored == |queue|
      ensures forall id :: id in old(inbox.rows) && old(inbox.rows)[id].Decodes? ==>
                id in inbox.rows && inbox.rows[id] == old(inbox.rows)[id]
      ensures MalformedGone(old(inbox.rows), inbox.rows, SortedIds(old(inbox.rows).Keys), deletes)
    {
      ghost var start := Now();
      var ids, rows := inbox.Pending();
      SortedIdsElements(rows.Keys);
      restored := RestoreRows(ids, rows, deletes);
      live := true;
      ghost var dropped := rows.Keys - inbox.rows.Keys;
      assert inbox.rows == rows - dropped;
      assert Now() == Apply(start, Restart(dropped));
    }
  }

  function Decodable(rows: map<nat, Stored>, ids: seq<nat>): nat {
    if ids == [] then 0
    else
      var last := ids[|ids| - 1];
      Decodable(rows, ids[..|ids| - 1]) + if last in rows && rows[last].Decodes? then 1 else 0
  }

  // Of the rows no release can decode, those met before the queue is found full are gone, if the
  // delete works.
  predicate MalformedGone(rows: map<nat, Stored>, left: map<nat, Stored>, ids: seq<nat>, deletes: nat -> bool) {
    forall k |
      0 <= k < |ids| && ids[k] in rows && rows[ids[k]].Malformed? && deletes(ids[k])
      && Decodable(rows, ids[..k]) <= WORK_QUEUE_MAXSIZE
      :: ids[k] !in left
  }

  lemma {:induction false} DecodableGrows(rows: map<nat, Stored>, ids: seq<nat>, i: nat, k: nat)
    requires i <= k <= |ids|
    ensures Decodable(rows, ids[..i]) <= Decodable(rows, ids[..k])
    decreases k
  {
    if i < k {
      assert ids[..k][..k - 1] == ids[..k - 1];
      DecodableGrows(rows, ids, i, k - 1);
    }
  }

  lemma DecodableNone(rows: map<nat, Stored>, ids: seq<nat>)
    ensures Decodable(rows, ids[..0]) == 0
  {
  }

  lemma ScanEnds(rows: map<nat, Stored>, room: nat)
    ensures RestoredQueue(rows, [], room) == []
  {
  }

  lemma ScanNext(rows: map<nat, Stored>, ids: seq<nat>, i: nat, room: nat)
    requires i < |ids| && ids[i] in rows
    ensures Decodable(rows, ids[..i + 1]) == Decodable(rows, ids[..i]) + if rows[ids[i]].Decodes? then 1 else 0
    ensures RestoredQueue(rows, ids[i..], room) ==
            if room == 0 then []
            else if rows[ids[i]].Malformed? then RestoredQueue(rows, ids[i + 1..], room)
            else [Item(ids[i], rows[ids[i]].row, true)] + RestoredQueue(rows, ids[i + 1..], room - 1)
    ensures RestoredQueue(rows, ids[i + 1..], 0) == []
  {
    assert ids[..i + 1][..i] == ids[..i];
    assert ids[i..][0] == ids[i] && ids[i..][1..] == ids[i + 1..];
  }

  lemma NothingScanned(rows: map<nat, Stored>, ids: seq<nat>, deletes: nat -> bool)
    requires ids == []
    ensures MalformedGone(rows, rows, ids, deletes)
  {
  }

  lemma OneScanned(rows: map<nat, Stored>, left: map<nat, Stored>, left': map<nat, Stored>, ids: seq<nat>, i: nat,
                   deletes: nat -> bool)
    requires i < |ids| && MalformedGone(rows, left, ids[..i], deletes)
    requires forall id :: id in left' ==> id in left
    requires ids[i] in rows && rows[ids[i]].Malformed? && deletes(ids[i]) ==> ids[i] !in left'
    ensures MalformedGone(rows, left', ids[..i + 1], deletes)
  {
    forall k | 0 <= k < i ensures ids[..i + 1][..k] == ids[..i][..k] && ids[..i + 1][k] == ids[..i][k] {
    }
  }

  // A decodable row that finds the queue full ends the scan.
  lemma FullBefore(rows: map<nat, Stored>, left: map<nat, Stored>, ids: seq<nat>, i: nat, deletes: nat -> bool)
    requires i < |ids| && ids[i] in rows && rows[ids[i]].Decodes?
    requires Decodable(rows, ids[..i]) >= WORK_QUEUE_MAXSIZE && MalformedGone(rows, left, ids[..i], deletes)
    ensures MalformedGone(rows, left, ids, deletes)
  {
    assert ids[..i + 1][..i] == ids[..i];
    forall k | 0 <= k < |ids| && ids[k] in rows && rows[ids[k]].Malformed? && deletes(ids[k])
        && Decodable(rows, ids[..k]) <= WORK_QUEUE_MAXSIZE
      ensures ids[k] !in left
    {
      if k < i {
        assert ids[..i][..k] == ids[..k] && ids[..i][k] == ids[k];
      } else {
        DecodableGrows(rows, ids, i + 1, k);
      }
    }
  }

  // From `given` to `after` the worker got the valid messages between lo and hi; the others of them
  // are dead letters.
  ghost predicate Handed(given: seq<(nat, Work)>, after: seq<(nat, Work)>, log: seq<Message>, dlq: set<(nat, nat)>,
                         p: nat, lo: nat, hi: nat) {
    && lo <= hi <= |log|
    && after == given + ValidMessages(log, lo, hi)
    && forall o :: lo <= o < hi && log[o].Invalid? ==> (p, o) in dlq
  }

  lemma HandedNothing(given: seq<(nat, Work)>, log: seq<Message>, dlq: set<(nat, nat)>, p: nat, o: nat)
    requires o <= |log|
    ensures Handed(given, given, log, dlq, p, o, o)
  {
  }

  lemma HandedPoison(given: seq<(nat, Work)>, log: seq<Message>, dlq: set<(nat, nat)>, p: nat, o: nat)
    requires o < |log| && log[o].Invalid? && (p, o) in dlq
    ensures Handed(given, given, log, dlq, p, o, o + 1)
  {
  }

  lemma HandedWork(given: seq<(nat, Work)>, after: seq<(nat, Work)>, log: seq<Message>, dlq: set<(nat, nat)>,
                   p: nat, o: nat, work: Work, accepted: bool)
    requires o < |log| && log[o] == Carries(work) && after == given + if accepted then [(o, work)] else []
    ensures Handed(given, after, log, dlq, p, o, if accepted then o + 1 else o)
  {
  }

  lemma HandedOn(start: seq<(nat, Work)>, given: seq<(nat, Work)>, after: seq<(nat, Work)>,
                 log: seq<Message>, more: seq<Message>, dlq: set<(nat, nat)>, dlq': set<(nat, nat)>,
                 p: nat, lo: nat, o: nat, hi: nat)
    requires Handed(start, given, log, dlq, p, lo, o) && Handed(given, after, more, dlq', p, o, hi)
    requires log <= more && dlq <= dlq' && hi <= o + 1
    ensures Handed(start, after, more, dlq', p, lo, hi)
  {
    ValidMessagesOfPrefix(log, more, lo, o);
    assert ValidMessages(more, lo, hi) == ValidMessages(more, lo, o) + ValidMessages(more, o, hi);
    var first, last := ValidMessages(more, lo, o), ValidMessages(more, o, hi);
    assert start + first + last == start + (first + last);
  }

  predicate Apart(todo: seq<Batch>) {
    forall i, j :: 0 <= i < j < |todo| ==> todo[i].partition != todo[j].partition
  }

  predicate AtEnds(position: seq<nat>, todo: seq<Batch>) {
    forall b :: b in todo ==> b.partition < |position| && position[b.partition] == b.end && b.next < b.end
  }

  lemma FetchedAtEnds(position: seq<nat>, todo: seq<Batch>)
    requires Apart(todo) && forall b :: b in todo ==> b.partition < |position| && b.next < b.end
    ensures AtEnds(Fetched(position, todo), todo) && Elsewhere(position, Fetched(position, todo), todo)
  {
    forall p | 0 <= p < |position| && p !in Partitions(todo) ensures Fetched(position, todo)[p] == position[p] {
      EndOfCases(todo, p, position[p]);
    }
    forall b | b in todo ensures Fetched(position, todo)[b.partition] == b.end {
      EndOfCases(todo, b.partition, position[b.partition]);
    }
  }

  // What a poll returns: a batch of every partition that is not paused, has messages and is served,
  // each read from the partition's position.
  ghost predicate Reads(position: seq<nat>, log: seq<seq<Message>>, paused: set<nat>, served: nat -> nat,
                        fetched: seq<Batch>) {
    && |position| == |log|
    && (forall p :: 0 <= p < |log| ==>
          (p in Partitions(fetched) <==> p !in paused && position[p] < |log[p]| && served(p) > 0))
    && (forall b :: b in fetched ==> b.partition < |log| && b.next == position[b.partition] < b.end)
  }

  // The other partitions stand where they stood.
  predicate Elsewhere(position: seq<nat>, position': seq<nat>, fetched: seq<Batch>) {
    |position'| == |position|
    && forall p :: 0 <= p < |position| && p !in Partitions(fetched) ==> position'[p] == position[p]
  }

  // Partitions only grow, so whatever had messages before still has.
  lemma ReadsEarlier(position: seq<nat>, log: seq<seq<Message>>, log': seq<seq<Message>>, paused: set<nat>,
                     served: nat -> nat, fetched: seq<Batch>)
    requires |log| == |log'| && forall p :: 0 <= p < |log| ==> log[p] <= log'[p]
    requires Reads(position, log', paused, served, fetched)
    ensures forall p :: 0 <= p < |log| && p !in paused && position[p] < |log[p]| && served(p) > 0 ==>
              p in Partitions(fetched)
    ensures forall b :: b in fetched ==>
              b.partition < |log| && b.partition !in paused && b.next == position[b.partition] < b.end
  {
    forall b | b in fetched ensures b.partition !in paused {
      assert b.partition in Partitions(fetched);
    }
  }

  // Turned back before its end.
  predicate Stopped(b: Batch, position: seq<nat>) {
    b.partition < |position| && position[b.partition] < b.end
  }

  // Batches in `done` are accepted or turned back, and exactly the partitions turned back are paused
  // in addition; those not done yet are still ahead; `clean` says whether any was turned back.
  ghost predicate AllSettled(position: seq<nat>, position': seq<nat>, paused: set<nat>, paused': set<nat>,
                             fetched: seq<Batch>, done: seq<Batch>, clean: bool) {
    && Elsewhere(position, position', fetched)
    && (forall b :: b in fetched ==>
          && b.partition < |position'| && b.next <= position'[b.partition] <= b.end && b.next < b.end
          && (Stopped(b, position') ==> b in done && b.partition in paused'))
    && (forall p :: p in paused' ==>
         p in paused || exists b :: b in fetched && b.partition == p && Stopped(b, position'))
    && paused <= paused'
    && (clean <==> forall b :: b in fetched ==> position'[b.partition] == b.end)
  }

  lemma AllAhead(position: seq<nat>, paused: set<nat>, fetched: seq<Batch>)
    requires AtEnds(position, fetched)
    ensures AllSettled(position, position, paused, paused, fetched, fetched[..0], true)
  {
  }

  lemma SettleOne(start: seq<nat>, position: seq<nat>, before: set<nat>, paused: set<nat>,
                  position': seq<nat>, paused': set<nat>, fetched: seq<Batch>, i: nat, clean: bool, accepted: bool)
    requires i < |fetched| && Apart(fetched)
    requires AllSettled(start, position, before, paused, fetched, fetched[..i], clean)
    requires accepted ==> position' == position && paused' == paused
    requires !accepted ==>
               var b := fetched[i];
               && b.partition < |position'| == |position| && b.next <= position'[b.partition] < b.end
               && position' == position[b.partition := position'[b.partition]]
               && paused' == paused + {b.partition}
    ensures AllSettled(start, position', before, paused', fetched, fetched[..i + 1], clean && accepted)
  {
    var b := fetched[i];
    assert b in fetched && b.partition in Partitions(fetched);
    assert fetched[..i + 1] == fetched[..i] + [b];
    if !accepted {
      forall c | c in fetched && c != b ensures c.partition != b.partition {
        var j :| 0 <= j < |fetched| && fetched[j] == c;
        assert if i < j then fetched[i].partition != fetched[j].partition
            else fetched[j].partition != fetched[i].partition;
      }
      assert Stopped(b, position');
      forall p | p in paused'
        ensures p in before || exists c :: c in fetched && c.partition == p && Stopped(c, position')
      {
        if p != b.partition && p !in before {
          var c :| c in fetched && c.partition == p && Stopped(c, position);
          assert Stopped(c, position');
        }
      }
    }
  }

  // Every partition turned back had its reason.
  ghost predicate AllExcused(lucks: (nat, nat) -> Luck, fetched: seq<Batch>, position: seq<nat>, s: System, t: System) {
    forall b :: b in fetched && Stopped(b, position) ==>
        Excused(lucks(b.partition, position[b.partition]), s, t)
  }

  lemma NoneExcused(lucks: (nat, nat) -> Luck, fetched: seq<Batch>, position: seq<nat>, s: System)
    requires AtEnds(position, fetched)
    ensures AllExcused(lucks, fetched, position, s, s)
  {
  }

  lemma OneExcused(lucks: (nat, nat) -> Luck, fetched: seq<Batch>, b: Batch, position: seq<nat>, position': seq<nat>,
                   accepted: bool, start: System, here: System, now: System)
    requires Reaches(start, here) && Reaches(here, now) && AllExcused(lucks, fetched, position, start, here)
    requires accepted ==> position' == position
    requires !accepted ==>
               && b.partition < |position'| == |position|
               && position' == position[b.partition := position'[b.partition]]
               && Excused(lucks(b.partition, position'[b.partition]), here, now)
    ensures AllExcused(lucks, fetched, position', start, now)
  {
    hide Reaches, Excused;
    ReachesSelf(start);
    ReachesSelf(now);
    forall c | c in fetched && Stopped(c, position')
      ensures Excused(lucks(c.partition, position'[c.partition]), start, now)
    {
      var luck := lucks(c.partition, position'[c.partition]);
      if !accepted && c.partition == b.partition {
        ExcusedWithin(luck, start, here, now, now);
      } else {
        ExcusedWithin(luck, start, start, here, now);
      }
    }
  }

  lemma ExcusesWithin(lucks: (nat, nat) -> Luck, fetched: seq<Batch>, position: seq<nat>, r: System, s: System,
                      t: System)
    requires Reaches(r, s) && AllExcused(lucks, fetched, position, s, t)
    ensures AllExcused(lucks, fetched, position, r, t)
  {
    hide Reaches, Excused;
    ReachesSelf(t);
    forall b | b in fetched && Stopped(b, position) ensures Excused(lucks(b.partition, position[b.partition]), r, t) {
      ExcusedWithin(lucks(b.partition, position[b.partition]), r, s, t, t);
    }
  }

  lemma ExcusesAfter(lucks: (nat, nat) -> Luck, fetched: seq<Batch>, position: seq<nat>, s: System, t: System,
                     u: System)
    requires AllExcused(lucks, fetched, position, s, t) && Reaches(t, u)
    ensures AllExcused(lucks, fetched, position, s, u)
  {
    hide Reaches, Excused;
    ReachesSelf(s);
    forall b | b in fetched && Stopped(b, position) ensures Excused(lucks(b.partition, position[b.partition]), s, u) {
      ExcusedWithin(lucks(b.partition, position[b.partition]), s, s, t, u);
    }
  }

  // What one pass meets: whether the poll raises, how many messages of each partition the broker
  // serves otherwise, and how each message's durable write goes.
  datatype Meets = Meets(raises: bool, served: nat -> nat, lucks: (nat, nat) -> Luck)

  // What is paused once the drained partitions are resumed.
  function Resumed(s: System, l: Loop): set<nat> {
    if |s.queue| <= WORK_QUEUE_RESUME_THRESHOLD then {} else s.Feed(l).paused
  }

  // From f to g each batch was accepted to its end, or its partition stands at the message turned
  // back and is paused.  Nothing else moved or was paused, and everything is committed exactly when
  // nothing was turned back.
  ghost predicate CycleDone(fetched: seq<Batch>, f: Feed, g: Feed) {
    && Elsewhere(f.position, g.position, fetched)
    && (forall b :: b in fetched ==>
          b.partition < |g.position| && b.next <= g.position[b.partition] <= b.end)
    && (forall p :: p in g.paused <==>
          p in f.paused || exists b :: b in fetched && b.partition == p && Stopped(b, g.position))
    && g.committed == if exists b :: b in fetched && Stopped(b, g.position) then f.committed else g.position
  }

  // One pass of loop l, from s to t.  Paused partitions are resumed exactly when the queue is at most
  // half full.  Unless the poll raises, it reads every partition that is not paused, has messages and
  // is served, from where the partition stood; what it read is handed over as above, and whatever was
  // turned back had its reason.
  ghost predicate Pass(l: Loop, meets: Meets, fetched: seq<Batch>, s: System, t: System) {
    var f, g := s.Feed(l).(paused := Resumed(s, l)), t.Feed(l);
    && (meets.raises ==> fetched == [])
    && |f.position| == |f.log|
    && (!meets.raises ==>
          forall p |
            0 <= p < |f.log| && p !in f.paused && f.position[p] < |f.log[p]| && meets.served(p) > 0
            :: p in Partitions(fetched))
    && (forall b :: b in fetched ==>
          b.partition < |f.log| && b.partition !in f.paused && b.next == f.position[b.partition] < b.end)
    && (fetched == [] ==> g.position == f.position && g.committed == f.committed && g.paused == f.paused)
    && (fetched != [] ==> CycleDone(fetched, f, g) && AllExcused(meets.lucks, fetched, g.position, s, t))
  }

  lemma SettledDone(fetched: seq<Batch>, f: Feed, h: Feed, g: Feed, clean: bool)
    requires AllSettled(f.position, h.position, f.paused, h.paused, fetched, fetched, clean)
    requires h.committed == f.committed && g.position == h.position && g.paused == h.paused
    requires g.committed == if clean then h.position else h.committed
    ensures CycleDone(fetched, f, g)
  {
    if !clean {
      var b :| b in fetched && h.position[b.partition] != b.end;
      assert Stopped(b, h.position);
    }
  }

  // Between resuming and polling the partitions of loop l only grow.
  ghost predicate Waited(l: Loop, s: System, t: System) {
    var f, g := s.Feed(l).(paused := Resumed(s, l)), t.Feed(l);
    && g.position == f.position && g.committed == f.committed && g.paused == f.paused
    && |f.position| == |f.log| == |g.log| && forall p :: 0 <= p < |f.log| ==> f.log[p] <= g.log[p]
  }

  lemma NothingFetched(l: Loop, meets: Meets, s: System, here: System, t: System, fetched: seq<Batch>)
    requires Waited(l, s, here) && fetched == []
    requires t == here || t.Feed(l) == here.Feed(l)
    requires !meets.raises ==>
               Reads(here.Feed(l).position, here.Feed(l).log, here.Feed(l).paused, meets.served, fetched)
    ensures Pass(l, meets, fetched, s, t)
  {
  }

  lemma SomeFetched(l: Loop, meets: Meets, s: System, here: System, polled: System, t: System, fetched: seq<Batch>)
    requires Waited(l, s, here) && fetched != [] && !meets.raises
    requires Reads(here.Feed(l).position, here.Feed(l).log, here.Feed(l).paused, meets.served, fetched)
    requires Elsewhere(here.Feed(l).position, polled.Feed(l).position, fetched)
    requires polled.Feed(l).paused == here.Feed(l).paused && polled.Feed(l).committed == here.Feed(l).committed
    requires CycleDone(fetched, polled.Feed(l), t.Feed(l))
    requires AllExcused(meets.lucks, fetched, t.Feed(l).position, s, t)
    ensures Pass(l, meets, fetched, s, t)
  {
    hide AllExcused;
    var f, h := s.Feed(l).(paused := Resumed(s, l)), here.Feed(l);
    ReadsEarlier(f.position, f.log, h.log, h.paused, meets.served, fetched);
  }

  // The table lost nothing but rows this release cannot decode.
  ghost predicate OnlyMalformedGone(rows: map<nat, Stored>, left: map<nat, Stored>) {
    && (forall id :: id in rows && rows[id].Decodes? ==> id in left)
    && (forall id :: id in left ==> id in rows && left[id] == rows[id])
  }

  lemma OnlyMalformedGoneTrans(rows: map<nat, Stored>, left: map<nat, Stored>, after: map<nat, Stored>)
    requires rows == left || OnlyMalformedGone(rows, left)
    requires after == left || exists id :: id in rows && rows[id].Malformed? && after == left - {id}
    ensures OnlyMalformedGone(rows, after)
  {
  }

  // How many of the first n polls, counted from the last, raised in a row.
  function Trailing(meets: nat -> Meets, n: nat): nat {
    if n == 0 || !meets(n - 1).raises then 0 else 1 + Trailing(meets, n - 1)
  }

  predicate InLog(log: seq<seq<Message>>, todo: seq<Batch>) {
    forall b :: b in todo ==> b.partition < |log| && b.next < b.end <= |log[b.partition]|
  }
}
