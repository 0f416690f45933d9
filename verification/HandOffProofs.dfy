/** What every interleaving of the hand-off keeps. */
module HandOffProofs {
  import opened HandOff

  // ---- Frontier: the first message of a partition that is not accepted yet ----

  function PendingFrom(todo: seq<Batch>, p: nat, default: nat): nat {
    if todo == [] then default
    else if todo[0].partition == p then todo[0].next
    else PendingFrom(todo[1..], p, default)
  }

  function Frontier(f: Feed, p: nat): nat
    requires p < |f.position|
  {
    PendingFrom(Todo(f.pc), p, f.position[p])
  }

  ghost predicate TodoOk(f: Feed) {
    var todo := Todo(f.pc);
    && (forall i, j :: 0 <= i < j < |todo| ==> todo[i].partition != todo[j].partition)
    && (forall b :: b in todo ==>
          b.partition < |f.position| && b.next < b.end && b.end == f.position[b.partition])
  }

  ghost predicate FeedOk(f: Feed) {
    && |f.log| == |f.committed| == |f.position| == |f.base|
    && TodoOk(f)
    && (f.pc.Recorded? || f.pc.Turned? ==> f.pc.todo != [])
    && forall p :: 0 <= p < |f.log| ==>
         && f.position[p] <= |f.log[p]|
         && f.base[p] <= f.committed[p] <= Frontier(f, p) <= |f.log[p]|
  }

  // The default is used exactly when p has no batch pending.
  lemma {:induction false} PendingFromCases(todo: seq<Batch>, p: nat, default: nat)
    requires forall i, j :: 0 <= i < j < |todo| ==> todo[i].partition != todo[j].partition
    ensures p !in Partitions(todo) ==> PendingFrom(todo, p, default) == default
    ensures forall b :: b in todo && b.partition == p ==> PendingFrom(todo, p, default) == b.next
  {
    if todo != [] {
      assert forall b :: b in todo[1..] ==> b in todo;
      PendingFromCases(todo[1..], p, default);
      assert p !in Partitions(todo) ==> todo[0].partition != p && p !in Partitions(todo[1..]) by {
        assert todo[0] in todo;
      }
      forall b | b in todo && b.partition == p ensures PendingFrom(todo, p, default) == b.next {
        if b != todo[0] {
          assert b in todo[1..];
          var i :| 0 <= i < |todo| && todo[i] == b;
          assert todo[0].partition != todo[i].partition;
        } else {
        }
      }
    }
  }

  lemma {:induction false} EndOfCases(todo: seq<Batch>, p: nat, default: nat)
    requires forall i, j :: 0 <= i < j < |todo| ==> todo[i].partition != todo[j].partition
    ensures p !in Partitions(todo) ==> EndOf(todo, p, default) == default
    ensures forall b :: b in todo && b.partition == p ==> EndOf(todo, p, default) == b.end
  {
    if todo != [] {
      assert forall b :: b in todo[1..] ==> b in todo;
      EndOfCases(todo[1..], p, default);
      assert p !in Partitions(todo) ==> todo[0].partition != p && p !in Partitions(todo[1..]) by {
        assert todo[0] in todo;
      }
      forall b | b in todo && b.partition == p ensures EndOf(todo, p, default) == b.end {
        if b != todo[0] {
          assert b in todo[1..];
          var i :| 0 <= i < |todo| && todo[i] == b;
          assert todo[0].partition != todo[i].partition;
        } else {
        }
      }
    }
  }

  // Fetching a batch moves the position but not the frontier.
  lemma FetchKeepsFrontier(f: Feed, todo: seq<Batch>)
    requires FeedOk(f) && f.pc.Idle? && Fetchable(f, todo)
    ensures var g := f.(position := Fetched(f.position, todo), pc := Reading(todo, true));
            FeedOk(g) && forall p :: 0 <= p < |f.log| ==> Frontier(g, p) == Frontier(f, p)
  {
    var g := f.(position := Fetched(f.position, todo), pc := Reading(todo, true));
    forall p: nat | p < |f.log|
      ensures g.position[p] <= |f.log[p]|
      ensures Frontier(g, p) == Frontier(f, p)
      ensures forall b :: b in todo && b.partition == p ==> b.end == g.position[p]
    {
      PendingFromCases(todo, p, g.position[p]);
      EndOfCases(todo, p, f.position[p]);
    }
  }

  // Dropping the head message moves the frontier of its partition by one, and no other.
  lemma AdvanceMovesFrontier(f: Feed, clean: bool, dlq: set<(nat, nat)>)
    requires FeedOk(f) && HeadInLog(f)
    ensures var b := Todo(f.pc)[0];
            var g := f.(dlq := dlq, pc := Reading(Advance(Todo(f.pc)), clean));
            && FeedOk(g)
            && Frontier(f, b.partition) == b.next
            && forall p :: 0 <= p < |f.log| ==>
                 Frontier(g, p) == Frontier(f, p) + if p == b.partition then 1 else 0
  {
    var todo := Todo(f.pc);
    var b := todo[0];
    var g := f.(dlq := dlq, pc := Reading(Advance(todo), clean));
    AdvancedTodoOk(f, clean);
    assert b in todo;
    forall p: nat | p < |f.log|
      ensures Frontier(g, p) == Frontier(f, p) + if p == b.partition then 1 else 0
    {
      AdvanceMovesPending(todo, p, f.position[p]);
    }
  }

  lemma AdvancedTodoOk(f: Feed, clean: bool)
    requires TodoOk(f) && Todo(f.pc) != []
    ensures TodoOk(f.(pc := Reading(Advance(Todo(f.pc)), clean)))
  {
    var todo := Todo(f.pc);
    var after := Advance(todo);
    assert todo[0] in todo;
    if todo[0].next + 1 < todo[0].end {
      assert forall i :: 0 <= i < |todo| ==> after[i].partition == todo[i].partition;
      assert forall b :: b in after ==> b == after[0] || b in todo[1..];
    } else {
      assert after == todo[1..];
    }
    assert forall b :: b in todo[1..] ==> b in todo;
  }

  lemma AdvanceMovesPending(todo: seq<Batch>, p: nat, position: nat)
    requires todo != []
    requires forall i, j :: 0 <= i < j < |todo| ==> todo[i].partition != todo[j].partition
    requires todo[0].next < todo[0].end
    requires todo[0].partition == p ==> position == todo[0].end
    ensures PendingFrom(Advance(todo), p, position)
         == PendingFrom(todo, p, position) + if p == todo[0].partition then 1 else 0
  {
    if todo[0].next + 1 < todo[0].end {
      assert Advance(todo)[1..] == todo[1..];
    } else if p == todo[0].partition {
      assert forall i :: 0 <= i < |todo[1..]| ==> todo[1..][i] == todo[1 + i];
      PendingFromCases(todo[1..], p, position);
    }
  }

  // Moving only the program counter, with the same messages pending.
  lemma PcKeepsFeed(f: Feed, pc: Pc)
    requires FeedOk(f) && Todo(pc) == Todo(f.pc) && Todo(pc) != []
    ensures FeedOk(f.(pc := pc))
    ensures forall p :: 0 <= p < |f.log| ==> Frontier(f.(pc := pc), p) == Frontier(f, p)
  {
  }

  // Rewinding puts the position back on the frontier.
  lemma RewindKeepsFrontier(f: Feed, paused: set<nat>)
    requires FeedOk(f) && f.pc.Turned?
    ensures var b := f.pc.todo[0];
            && b.partition < |f.position|
            && var g := f.(position := f.position[b.partition := b.next], paused := paused,
                           pc := Reading(f.pc.todo[1..], false));
            && FeedOk(g)
            && forall p :: 0 <= p < |f.log| ==> Frontier(g, p) == Frontier(f, p)
  {
    var todo := f.pc.todo;
    var b := todo[0];
    assert b in todo;
    var g := f.(position := f.position[b.partition := b.next], paused := paused, pc := Reading(todo[1..], false));
    assert forall c :: c in todo[1..] ==> c in todo && c.partition != b.partition;
    forall p: nat | p < |f.log|
      ensures Frontier(g, p) == Frontier(f, p)
    {
      PendingFromCases(todo, p, f.position[p]);
      PendingFromCases(todo[1..], p, g.position[p]);
    }
  }

  // ---- Safety: nothing below a frontier is lost ----

  ghost predicate InInbox(rows: map<nat, Stored>, row: Row) {
    exists id :: id in rows && rows[id] == Decodes(row)
  }

  // The row is what some message of the log carries.
  ghost predicate FromLog(s: System, row: Row) {
    var o := row.origin;
    var log := s.Feed(o.loop).log;
    o.partition < |log| && o.offset < |log[o.partition]| && log[o.partition][o.offset] == Carries(row.work)
  }

  // Accepted, or handed to the dead-letter topic.
  ghost predicate Handled(s: System, l: Loop, p: nat, o: nat) {
    var f := s.Feed(l);
    && p < |f.log| && o < |f.log[p]|
    && match f.log[p][o]
       case Invalid => (p, o) in f.dlq
       case Carries(w) => Row(Origin(l, p, o), w) in s.finished || InInbox(s.rows, Row(Origin(l, p, o), w))
  }

  // Items held by the process: the queue, and what the worker has in hand.
  function Held(s: System): seq<Item> {
    if s.hand.Free? then s.queue else [s.hand.item] + s.queue
  }

  ghost predicate ItemOk(s: System, item: Item) {
    && item.id < s.nextId
    && FromLog(s, item.row)
    && (item.id in s.rows ==> s.rows[item.id] == Decodes(item.row))
    && (item.id in s.rows || item.row in s.finished)
  }

  ghost predicate RecordedOk(s: System, l: Loop) {
    var f := s.Feed(l);
    f.pc.Recorded? ==>
      && HeadInLog(f) && HeadMessage(f).Carries?
      && f.pc.id < s.nextId
      && f.pc.id in s.rows && s.rows[f.pc.id] == Decodes(HeadRow(l, f))
      && forall i :: i in Held(s) ==> i.id != f.pc.id
  }

  ghost predicate NothingLost(s: System, l: Loop) {
    forall p, o :: 0 <= p < |s.Feed(l).position| && 0 <= o < Frontier(s.Feed(l), p) ==> Handled(s, l, p, o)
  }

  ghost predicate LoopOk(s: System, l: Loop) {
    && FeedOk(s.Feed(l))
    && RecordedOk(s, l)
    && NothingLost(s, l)
    && (!s.live ==> s.Feed(l).pc.Idle?)
  }

  ghost predicate SharedOk(s: System) {
    && (forall id :: id in s.rows ==> id < s.nextId && (s.rows[id].Decodes? ==> FromLog(s, s.rows[id].row)))
    && (forall i :: i in Held(s) ==> ItemOk(s, i))
    && (s.hand.Closing? ==> s.hand.item.row in s.finished)
    && (forall row :: row in s.finished ==> FromLog(s, row))
    && (s.triggers.pc.Recorded? && s.decisions.pc.Recorded? ==> s.triggers.pc.id != s.decisions.pc.id)
    && (!s.live ==> Held(s) == [])
    && |s.queue| <= WORK_QUEUE_MAXSIZE
  }

  ghost predicate Safe(s: System) {
    LoopOk(s, Triggers) && LoopOk(s, Decisions) && SharedOk(s)
  }

  ghost predicate LogsGrow(s: System, t: System) {
    forall l: Loop ::
      && |s.Feed(l).log| <= |t.Feed(l).log|
      && forall p :: 0 <= p < |s.Feed(l).log| ==> s.Feed(l).log[p] <= t.Feed(l).log[p]
  }

  lemma FromLogStays(s: System, t: System, row: Row)
    requires LogsGrow(s, t) && FromLog(s, row)
    ensures FromLog(t, row)
  {
    var o := row.origin;
    assert s.Feed(o.loop).log[o.partition] <= t.Feed(o.loop).log[o.partition];
  }

  // A message stays handled as long as its row is not deleted before its work is finished.
  lemma HandledStays(s: System, t: System, l: Loop, p: nat, o: nat)
    requires LogsGrow(s, t) && Handled(s, l, p, o)
    requires s.Feed(l).dlq <= t.Feed(l).dlq && s.finished <= t.finished
    requires forall id :: id in s.rows && s.rows[id].Decodes? && s.rows[id].row.origin == Origin(l, p, o) ==>
               (id in t.rows && t.rows[id] == s.rows[id]) || s.rows[id].row in t.finished
    ensures Handled(t, l, p, o)
  {
    assert s.Feed(l).log[p] <= t.Feed(l).log[p];
    match s.Feed(l).log[p][o]
    case Invalid =>
    case Carries(w) =>
      var row := Row(Origin(l, p, o), w);
      if row !in s.finished {
        var id :| id in s.rows && s.rows[id] == Decodes(row);
      }
  }

  // A step that leaves loop l alone, and deletes no row l has just recorded.
  lemma UntouchedLoopOk(s: System, t: System, l: Loop)
    requires LoopOk(s, l) && t.Feed(l) == s.Feed(l) && LogsGrow(s, t) && s.finished <= t.finished
    requires s.nextId <= t.nextId && (!t.live ==> !s.live)
    requires forall id :: id in s.rows && s.rows[id].Decodes? ==>
               || (id in t.rows && t.rows[id] == s.rows[id])
               || (!(s.Feed(l).pc.Recorded? && s.Feed(l).pc.id == id)
                   && (s.rows[id].row in t.finished || s.rows[id].row.origin.loop != l))
    requires s.Feed(l).pc.Recorded? ==> forall i :: i in Held(t) ==> i in Held(s) || i.id != s.Feed(l).pc.id
    ensures LoopOk(t, l)
  {
    forall p, o | 0 <= p < |s.Feed(l).position| && 0 <= o < Frontier(s.Feed(l), p)
      ensures Handled(t, l, p, o)
    {
      HandledStays(s, t, l, p, o);
    }
  }

  // What the shared state needs of a step: rows and items keep their meaning.
  lemma SharedStays(s: System, t: System)
    requires SharedOk(s) && LogsGrow(s, t) && s.finished <= t.finished && s.nextId <= t.nextId
    requires forall id :: id in t.rows ==>
               (id in s.rows && t.rows[id] == s.rows[id])
               || (s.nextId <= id < t.nextId && t.rows[id].Decodes? && FromLog(t, t.rows[id].row))
    requires forall id :: id in s.rows && id !in t.rows ==>
               forall i :: i in Held(t) && i.id == id ==> i.row in t.finished
    requires forall i :: i in Held(t) ==> i in Held(s) || ItemOk(t, i)
    requires forall row :: row in t.finished ==> row in s.finished || exists i :: i in Held(s) && i.row == row
    requires t.hand.Closing? ==> t.hand.item.row in t.finished
    requires t.triggers.pc.Recorded? && t.decisions.pc.Recorded? ==> t.triggers.pc.id != t.decisions.pc.id
    requires !t.live ==> Held(t) == []
    requires |t.queue| <= WORK_QUEUE_MAXSIZE
    ensures SharedOk(t)
  {
    forall row | FromLog(s, row) ensures FromLog(t, row) { FromLogStays(s, t, row); }
    forall i | i in Held(s) ensures ItemOk(s, i) && FromLog(t, i.row) {}
  }

  function Other(l: Loop): Loop {
    if l.Triggers? then Decisions else Triggers
  }

  // ---- Every step keeps it ----

  lemma SafeInit(s: System)
    requires Init(s)
    ensures Safe(s)
  {
  }

  predicate IsFeedStep(step: Step) {
    step.Produce? || step.AddPartition? || step.Poll? || step.Resume? || step.Rewind? || step.EndCycle?
        || step.Rebalance?
  }

  // Steps that change one feed, accept nothing, and touch nothing shared.
  lemma FeedStepFrontier(f: Feed, s: System, step: Step)
    requires IsFeedStep(step) && Enabled(s, step) && f == s.Feed(step.l) && FeedOk(f)
    ensures var g := Apply(s, step).Feed(step.l);
            && FeedOk(g)
            && |f.log| <= |g.log| && (forall p :: 0 <= p < |f.log| ==> f.log[p] <= g.log[p])
            && (forall p :: 0 <= p < |f.log| ==> Frontier(g, p) <= Frontier(f, p))
            && (!step.Rebalance? ==> forall p :: 0 <= p < |f.log| ==> Frontier(g, p) == Frontier(f, p))
            && (forall p :: |f.log| <= p < |g.log| ==> Frontier(g, p) == 0)
  {
    var g := Apply(s, step).Feed(step.l);
    hide PendingFrom;
    match step {
      case Produce(_, _, _) =>
      case AddPartition(_) => NewPartitionFrontier(f, g);
      case Poll(_, todo) => FetchKeepsFrontier(f, todo);
      case Resume(_) =>
      case Rewind(_) => RewindKeepsFrontier(f, g.paused);
      case EndCycle(_) =>
      case Rebalance(_) =>
    }
  }

  lemma NewPartitionFrontier(f: Feed, g: Feed)
    requires FeedOk(f)
    requires g == f.(log := f.log + [[]], committed := f.committed + [0], position := f.position + [0],
        base := f.base + [0])
    ensures FeedOk(g)
    ensures forall p :: 0 <= p < |f.log| ==> Frontier(g, p) == Frontier(f, p)
    ensures Frontier(g, |f.log|) == 0
  {
    PendingFromCases(Todo(f.pc), |f.log|, 0);
  }

  lemma SafeFeedStep(s: System, step: Step)
    requires Safe(s) && Enabled(s, step) && IsFeedStep(step)
    ensures Safe(Apply(s, step))
  {
    FeedStepFrontier(s.Feed(step.l), s, step);
    FeedStepShape(s, step);
    SafeAfterFeedStep(s, step.l, Apply(s, step).Feed(step.l));
  }

  lemma FeedStepShape(s: System, step: Step)
    requires Safe(s) && Enabled(s, step) && IsFeedStep(step)
    ensures var f, g := s.Feed(step.l), Apply(s, step).Feed(step.l);
            && Apply(s, step) == s.With(step.l, g)
            && g.dlq == f.dlq
            && (!s.live ==> g.pc == f.pc)
            && (g.pc.Recorded? ==> g.pc == f.pc && HeadInLog(g) && HeadMessage(g) == HeadMessage(f))
  {
  }

  lemma SafeAfterFeedStep(s: System, l: Loop, g: Feed)
    requires Safe(s) && FeedOk(g) && g.dlq == s.Feed(l).dlq && (!s.live ==> g.pc == s.Feed(l).pc)
    requires g.pc.Recorded? ==> g.pc == s.Feed(l).pc && HeadInLog(g) && HeadMessage(g) == HeadMessage(s.Feed(l))
    requires |s.Feed(l).log| <= |g.log|
    requires forall p :: 0 <= p < |s.Feed(l).log| ==> s.Feed(l).log[p] <= g.log[p]
    requires forall p :: 0 <= p < |s.Feed(l).log| ==> Frontier(g, p) <= Frontier(s.Feed(l), p)
    requires forall p :: |s.Feed(l).log| <= p < |g.log| ==> Frontier(g, p) == 0
    ensures Safe(s.With(l, g))
  {
    hide FeedOk, NothingLost, SharedOk;
    var t := s.With(l, g);
    SharedAfterFeedStep(s, l, g);
    UntouchedLoopOk(s, t, Other(l));
    FeedStepNothingLost(s, t, l);
  }

  lemma SharedAfterFeedStep(s: System, l: Loop, g: Feed)
    requires SharedOk(s) && |s.Feed(l).log| <= |g.log|
    requires forall p :: 0 <= p < |s.Feed(l).log| ==> s.Feed(l).log[p] <= g.log[p]
    requires g.pc.Recorded? ==> g.pc == s.Feed(l).pc
    ensures SharedOk(s.With(l, g)) && LogsGrow(s, s.With(l, g))
  {
    var t := s.With(l, g);
    assert LogsGrow(s, t);
    assert Held(t) == Held(s);
    SharedStays(s, t);
  }

  lemma FeedStepNothingLost(s: System, t: System, l: Loop)
    requires LoopOk(s, l) && LogsGrow(s, t) && FeedOk(t.Feed(l))
    requires t.rows == s.rows && t.finished == s.finished && t.Feed(l).dlq == s.Feed(l).dlq
    requires |s.Feed(l).log| <= |t.Feed(l).log|
    requires forall p :: 0 <= p < |s.Feed(l).log| ==> Frontier(t.Feed(l), p) <= Frontier(s.Feed(l), p)
    requires forall p :: |s.Feed(l).log| <= p < |t.Feed(l).log| ==> Frontier(t.Feed(l), p) == 0
    ensures NothingLost(t, l)
  {
    forall p, o | 0 <= p < |t.Feed(l).position| && 0 <= o < Frontier(t.Feed(l), p)
      ensures Handled(t, l, p, o)
    {
      assert Handled(s, l, p, o);
      HandledStays(s, t, l, p, o);
    }
  }

  // The loop's own message moves on: accepted, dead-lettered, recorded or turned away.
  lemma MessageStepNothingLost(s: System, t: System, l: Loop)
    requires LoopOk(s, l) && HeadInLog(s.Feed(l)) && LogsGrow(s, t) && FeedOk(t.Feed(l))
    requires t.finished == s.finished && s.Feed(l).dlq <= t.Feed(l).dlq
    requires |s.Feed(l).log| == |t.Feed(l).log|
    requires var b := Todo(s.Feed(l).pc)[0];
             forall p :: 0 <= p < |s.Feed(l).log| ==>
               Frontier(t.Feed(l), p) == Frontier(s.Feed(l), p)
               || (p == b.partition && Frontier(t.Feed(l), p) == b.next + 1 && Handled(t, l, b.partition, b.next))
    requires var b := Todo(s.Feed(l).pc)[0];
             forall id :: id in s.rows && s.rows[id].Decodes? && s.rows[id].row.origin != Origin(l, b.partition, b.next)
               ==> id in t.rows && t.rows[id] == s.rows[id]
    ensures NothingLost(t, l)
  {
    var b := Todo(s.Feed(l).pc)[0];
    assert b in Todo(s.Feed(l).pc);
    AdvanceMovesFrontier(s.Feed(l), true, {});
    forall p, o | 0 <= p < |t.Feed(l).position| && 0 <= o < Frontier(t.Feed(l), p)
      ensures Handled(t, l, p, o)
    {
      if !(p == b.partition && o == b.next) {
        assert Handled(s, l, p, o);
        HandledStays(s, t, l, p, o);
      }
    }
  }

  lemma SafeDeadLetter(s: System, l: Loop)
    requires Safe(s) && Enabled(s, DeadLetter(l))
    ensures Safe(Apply(s, DeadLetter(l)))
  {
    hide FeedOk, NothingLost;
    var t := Apply(s, DeadLetter(l));
    AdvanceMovesFrontier(s.Feed(l), s.Feed(l).pc.clean, t.Feed(l).dlq);
    SharedAfterDeadLetter(s, l);
    UntouchedLoopOk(s, t, Other(l));
    MessageStepNothingLost(s, t, l);
  }

  lemma SharedAfterDeadLetter(s: System, l: Loop)
    requires Safe(s) && Enabled(s, DeadLetter(l))
    ensures var t := Apply(s, DeadLetter(l)); SharedOk(t) && LogsGrow(s, t)
  {
    hide FeedOk, NothingLost, SharedOk;
    SharedAfterFeedStep(s, l, Apply(s, DeadLetter(l)).Feed(l));
  }

  // Recording: a new row for the head message, and the loop waits to enqueue it or turns it away.
  function AfterRecord(s: System, l: Loop, pc: Pc, added: bool): System
    requires HeadInLog(s.Feed(l)) && HeadMessage(s.Feed(l)).Carries?
  {
    var t := s.With(l, s.Feed(l).(pc := pc));
    if added then t.(rows := s.rows[s.nextId := Decodes(HeadRow(l, s.Feed(l)))], nextId := s.nextId + 1) else t
  }

  lemma SafeRecord(s: System, l: Loop, pc: Pc, added: bool)
    requires Safe(s) && s.live && AtMessage(s.Feed(l)) && HeadMessage(s.Feed(l)).Carries?
    requires Todo(pc) == s.Feed(l).pc.todo && !pc.Idle?
    requires pc.Recorded? ==> added && pc.id == s.nextId
    ensures Safe(AfterRecord(s, l, pc, added))
  {
    var t := AfterRecord(s, l, pc, added);
    SharedAfterRecord(s, l, pc, added);
    UntouchedLoopOk(s, t, Other(l));
    RecorderLoopOk(s, l, pc, added);
  }

  lemma RecorderLoopOk(s: System, l: Loop, pc: Pc, added: bool)
    requires Safe(s) && s.live && AtMessage(s.Feed(l)) && HeadMessage(s.Feed(l)).Carries?
    requires Todo(pc) == s.Feed(l).pc.todo && !pc.Idle?
    requires pc.Recorded? ==> added && pc.id == s.nextId
    ensures LoopOk(AfterRecord(s, l, pc, added), l)
  {
    var t := AfterRecord(s, l, pc, added);
    hide FeedOk, NothingLost, SharedOk;
    PcKeepsFeed(s.Feed(l), pc);
    assert Held(t) == Held(s);
    assert LogsGrow(s, t);
    MessageStepNothingLost(s, t, l);
  }

  lemma SharedAfterRecord(s: System, l: Loop, pc: Pc, added: bool)
    requires Safe(s) && AtMessage(s.Feed(l)) && HeadMessage(s.Feed(l)).Carries?
    requires pc.Recorded? ==> added && pc.id == s.nextId
    ensures var t := AfterRecord(s, l, pc, added); SharedOk(t) && LogsGrow(s, t) && Held(t) == Held(s)
  {
    var t := AfterRecord(s, l, pc, added);
    assert FromLog(s, HeadRow(l, s.Feed(l)));
    assert LogsGrow(s, t);
    assert Held(t) == Held(s);
    SharedStays(s, t);
  }

  lemma SafeEnqueue(s: System, l: Loop)
    requires Safe(s) && Enabled(s, Enqueue(l))
    ensures Safe(Apply(s, Enqueue(l)))
  {
    hide FeedOk, NothingLost, SharedOk;
    var t := Apply(s, Enqueue(l));
    SharedAfterEnqueue(s, l);
    AdvanceMovesFrontier(s.Feed(l), s.Feed(l).pc.clean, t.Feed(l).dlq);
    assert LogsGrow(s, t);
    UntouchedLoopOk(s, t, Other(l));
    MessageStepNothingLost(s, t, l);
  }

  lemma SharedAfterEnqueue(s: System, l: Loop)
    requires Safe(s) && Enabled(s, Enqueue(l))
    ensures var t := Apply(s, Enqueue(l));
            && SharedOk(t)
            && Held(t) == Held(s) + [Item(s.Feed(l).pc.id, HeadRow(l, s.Feed(l)), false)]
  {
    var t := Apply(s, Enqueue(l));
    var item := Item(s.Feed(l).pc.id, HeadRow(l, s.Feed(l)), false);
    assert Held(t) == Held(s) + [item];
    assert FromLog(s, item.row);
    assert LogsGrow(s, t);
    assert ItemOk(t, item);
    SharedStays(s, t);
  }

  lemma SafeQueueFull(s: System, l: Loop, discarded: bool)
    requires Safe(s) && Enabled(s, QueueFull(l, discarded))
    ensures Safe(Apply(s, QueueFull(l, discarded)))
  {
    hide FeedOk, NothingLost, SharedOk;
    var t := Apply(s, QueueFull(l, discarded));
    PcKeepsFeed(s.Feed(l), t.Feed(l).pc);
    SharedAfterQueueFull(s, l, discarded);
    UntouchedLoopOk(s, t, Other(l));
    MessageStepNothingLost(s, t, l);
  }

  lemma SharedAfterQueueFull(s: System, l: Loop, discarded: bool)
    requires Safe(s) && Enabled(s, QueueFull(l, discarded))
    ensures var t := Apply(s, QueueFull(l, discarded)); SharedOk(t) && LogsGrow(s, t) && Held(t) == Held(s)
  {
    var t := Apply(s, QueueFull(l, discarded));
    assert Held(t) == Held(s);
    assert LogsGrow(s, t);
    SharedStays(s, t);
  }

  lemma SharedAfterWorkerStep(s: System, step: Step)
    requires Safe(s) && Enabled(s, step) && (step.Take? || step.Complete? || step.Discard?)
    ensures var t := Apply(s, step);
            && SharedOk(t) && LogsGrow(s, t)
            && forall i :: i in Held(t) ==> i in Held(s)
  {
    var t := Apply(s, step);
    if step.Take? {
      assert Held(t) == Held(s);
      assert LogsGrow(s, t);
      SharedStays(s, t);
    } else {
      SharedAfterFinish(s, step);
    }
  }

  lemma SharedAfterFinish(s: System, step: Step)
    requires Safe(s) && Enabled(s, step) && (step.Complete? || step.Discard?)
    ensures var t := Apply(s, step);
            && SharedOk(t) && LogsGrow(s, t)
            && forall i :: i in Held(t) ==> i in Held(s)
  {
    hide FeedOk, NothingLost;
    var t := Apply(s, step);
    assert s.hand.item in Held(s) && ItemOk(s, s.hand.item);
    assert forall i :: i in Held(t) ==> ItemOk(s, i);
    assert LogsGrow(s, t);
    SharedStays(s, t);
  }

  lemma SafeWorkerStep(s: System, step: Step)
    requires Safe(s) && Enabled(s, step) && (step.Take? || step.Complete? || step.Discard?)
    ensures Safe(Apply(s, step))
  {
    SharedAfterWorkerStep(s, step);
    WorkerStepLoopOk(s, step, Triggers);
    WorkerStepLoopOk(s, step, Decisions);
  }

  lemma WorkerStepLoopOk(s: System, step: Step, l: Loop)
    requires Safe(s) && Enabled(s, step) && (step.Take? || step.Complete? || step.Discard?)
    ensures LoopOk(Apply(s, step), l)
  {
    SharedAfterWorkerStep(s, step);
    if step.Discard? {
      assert s.hand.item in Held(s) && ItemOk(s, s.hand.item);
    }
    hide FeedOk, NothingLost;
    UntouchedLoopOk(s, Apply(s, step), l);
  }

  lemma SafeCrash(s: System)
    requires Safe(s) && s.live
    ensures Safe(Apply(s, Crash))
  {
    var t := Apply(s, Crash);
    SharedStays(s, t);
    FeedStepNothingLost(s, t, Triggers);
    FeedStepNothingLost(s, t, Decisions);
  }

  lemma SafeRestart(s: System, dropped: set<nat>)
    requires Safe(s) && Enabled(s, Restart(dropped))
    ensures Safe(Apply(s, Restart(dropped)))
  {
    var t := Apply(s, Restart(dropped));
    SortedIdsElements(s.rows.Keys);
    RestoredQueueElements(s.rows, SortedIds(s.rows.Keys), WORK_QUEUE_MAXSIZE);
    SharedStays(s, t);
    UntouchedLoopOk(s, t, Triggers);
    UntouchedLoopOk(s, t, Decisions);
  }

  lemma SortedIdsElements(ids: set<nat>)
    ensures forall id :: id in SortedIds(ids) <==> id in ids
    decreases ids
  {
    if ids != {} {
      SortedIdsElements(ids - {Least(ids)});
    }
  }

  lemma {:induction false} RestoredQueueElements(rows: map<nat, Stored>, ids: seq<nat>, room: nat)
    ensures |RestoredQueue(rows, ids, room)| <= room
    ensures forall i :: i in RestoredQueue(rows, ids, room) ==>
              i.restored && i.id in ids && i.id in rows && rows[i.id] == Decodes(i.row)
  {
    if ids != [] && room != 0 {
      if ids[0] in rows && rows[ids[0]].Decodes? {
        RestoredQueueElements(rows, ids[1..], room - 1);
      } else {
        RestoredQueueElements(rows, ids[1..], room);
      }
    }
  }

  lemma SafeNext(s: System, step: Step)
    requires Safe(s) && Enabled(s, step)
    ensures Safe(Apply(s, step))
  {
    match step
    case DeadLetter(l) => SafeDeadLetter(s, l);
    case Record(l) => SafeRecord(s, l, Recorded(s.Feed(l).pc.todo, s.Feed(l).pc.clean, s.nextId), true);
    case RecordFails(l, leftover) => SafeRecord(s, l, Turned(s.Feed(l).pc.todo), leftover);
    case Enqueue(l) => SafeEnqueue(s, l);
    case QueueFull(l, discarded) => SafeQueueFull(s, l, discarded);
    case Take => SafeWorkerStep(s, step);
    case Complete => SafeWorkerStep(s, step);
    case Discard(_) => SafeWorkerStep(s, step);
    case Crash => SafeCrash(s);
    case Restart(dropped) => SafeRestart(s, dropped);
    case _ => SafeFeedStep(s, step);
  }

  lemma {:induction false} ExecutionSafe(trace: seq<System>, k: nat)
    requires Execution(trace) && k < |trace|
    ensures Safe(trace[k])
  {
    hide Safe, Apply, Enabled;
    if k == 0 {
      SafeInit(trace[0]);
    } else {
      ExecutionSafe(trace, k - 1);
      assert Next(trace[k - 1], trace[k]);
      var step :| Enabled(trace[k - 1], step) && trace[k] == Apply(trace[k - 1], step);
      SafeNext(trace[k - 1], step);
    }
  }
}
