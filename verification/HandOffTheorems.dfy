/** The promises of the hand-off, over every interleaving, crash and restart. */
module HandOffTheorems {
  import opened Prelude
  import opened HandOff
  import opened HandOffProofs

  // ---- No accepted work is lost ----

  // Whatever crashed, refused or failed to be discarded: below a committed offset there is only
  // poison that was dead-lettered, work still in the inbox, and work the worker has finished.
  lemma NoAcceptedWorkLost(trace: seq<System>, k: nat, l: Loop, p: nat, o: nat)
    requires Execution(trace) && k < |trace|
    requires p < |trace[k].Feed(l).committed| && o < trace[k].Feed(l).committed[p]
    ensures Handled(trace[k], l, p, o)
  {
    ExecutionSafe(trace, k);
  }

  // ---- Commit ----

  // The argument-less commit covers every partition of the consumer, yet stops each one exactly at
  // its first unaccepted message, and never moves one back.
  lemma CommitStopsAtFrontier(trace: seq<System>, k: nat, l: Loop, p: nat)
    requires Execution(trace) && k < |trace| && Enabled(trace[k], EndCycle(l))
    requires p < |trace[k].Feed(l).log|
    ensures var f, g := trace[k].Feed(l), Apply(trace[k], EndCycle(l)).Feed(l);
            && p < |f.committed| == |g.committed| == |f.position|
            && f.committed[p] <= g.committed[p] <= Frontier(f, p)
            && (f.pc.clean ==> g.committed[p] == Frontier(f, p))
            && (!f.pc.clean ==> g.committed == f.committed)
  {
    ExecutionSafe(trace, k);
  }

  lemma CommittedGrowsInStep(s: System, step: Step, l: Loop, p: nat)
    requires Safe(s) && Enabled(s, step) && p < |s.Feed(l).committed|
    ensures p < |Apply(s, step).Feed(l).committed|
    ensures s.Feed(l).committed[p] <= Apply(s, step).Feed(l).committed[p]
    ensures s.Feed(l).committed[p] < Apply(s, step).Feed(l).committed[p] ==> step == EndCycle(l)
  {
    hide NothingLost, SharedOk, RecordedOk, TodoOk;
    assert FeedOk(s.Feed(l));
  }

  lemma {:induction false} CommittedNeverDecreases(trace: seq<System>, i: nat, j: nat, l: Loop, p: nat)
    requires Execution(trace) && i <= j < |trace| && p < |trace[i].Feed(l).committed|
    ensures p < |trace[j].Feed(l).committed|
    ensures trace[i].Feed(l).committed[p] <= trace[j].Feed(l).committed[p]
    decreases j
  {
    hide Safe, Apply, Enabled, Init;
    if i < j {
      CommittedNeverDecreases(trace, i, j - 1, l, p);
      ExecutionSafe(trace, j - 1);
      assert Next(trace[j - 1], trace[j]);
      var step :| Enabled(trace[j - 1], step) && trace[j] == Apply(trace[j - 1], step);
      CommittedGrowsInStep(trace[j - 1], step, l, p);
    }
  }

  // ---- Exactly once, in order, while a process lives ----

  // The valid messages of a partition between two offsets, in order.
  function ValidMessages(log: seq<Message>, lo: nat, hi: nat): seq<(nat, Work)>
    requires hi <= |log|
    decreases hi
  {
    if hi <= lo then []
    else ValidMessages(log, lo, hi - 1) + if log[hi - 1].Carries? then [(hi - 1, log[hi - 1].work)] else []
  }

  // The items of one partition that came from Kafka rather than from the inbox.
  function Fresh(items: seq<Item>, l: Loop, p: nat): seq<(nat, Work)> {
    if items == [] then []
    else
      var last := items[|items| - 1];
      Fresh(items[..|items| - 1], l, p)
      + if !last.restored && last.row.origin.loop == l && last.row.origin.partition == p
        then [(last.row.origin.offset, last.row.work)] else []
  }

  ghost predicate Known(s: System, items: seq<Item>) {
    forall i :: i in items ==> i.row.origin.partition < |s.Feed(i.row.origin.loop).log|
  }

  ghost predicate DeliveredOn(s: System, l: Loop) {
    forall p :: 0 <= p < |s.Feed(l).log| ==>
      && p < |s.Feed(l).position| && p < |s.Feed(l).base|
      && Frontier(s.Feed(l), p) <= |s.Feed(l).log[p]|
      && Fresh(s.taken + s.queue, l, p) == ValidMessages(s.Feed(l).log[p], s.Feed(l).base[p], Frontier(s.Feed(l), p))
  }

  // Everything this process accepted has gone to the worker or waits for it, once and in order.
  ghost predicate Delivered(s: System) {
    Known(s, s.taken + s.queue) && DeliveredOn(s, Triggers) && DeliveredOn(s, Decisions)
  }

  lemma {:induction false} ValidMessagesOfPrefix(log: seq<Message>, more: seq<Message>, lo: nat, hi: nat)
    requires hi <= |log| && log <= more
    ensures ValidMessages(more, lo, hi) == ValidMessages(log, lo, hi)
    decreases hi
  {
    if lo < hi {
      ValidMessagesOfPrefix(log, more, lo, hi - 1);
    }
  }

  lemma {:induction false} FreshIgnores(items: seq<Item>, l: Loop, p: nat)
    requires forall i :: i in items ==> i.restored || i.row.origin.loop != l || i.row.origin.partition != p
    ensures Fresh(items, l, p) == []
  {
    if items != [] {
      FreshIgnores(items[..|items| - 1], l, p);
    }
  }

  lemma FreshSnoc(items: seq<Item>, item: Item, l: Loop, p: nat)
    ensures Fresh(items + [item], l, p)
         == Fresh(items, l, p)
            + if !item.restored && item.row.origin.loop == l && item.row.origin.partition == p
              then [(item.row.origin.offset, item.row.work)] else []
  {
    assert (items + [item])[..|items|] == items;
  }

  // Steps that accept nothing and keep taken + queue.
  lemma DeliveredFrame(s: System, t: System, l: Loop)
    requires Delivered(s) && t.taken + t.queue == s.taken + s.queue
    requires FeedOk(s.Feed(l)) && FeedOk(t.Feed(l))
    requires |s.Feed(l).log| <= |t.Feed(l).log| && s.Feed(l).base <= t.Feed(l).base
    requires forall p :: 0 <= p < |s.Feed(l).log| ==>
               && s.Feed(l).log[p] <= t.Feed(l).log[p]
               && Frontier(t.Feed(l), p) == Frontier(s.Feed(l), p)
    requires forall p :: |s.Feed(l).log| <= p < |t.Feed(l).log| ==> Frontier(t.Feed(l), p) == 0
    ensures DeliveredOn(t, l)
  {
    forall p | 0 <= p < |t.Feed(l).log|
      ensures Fresh(t.taken + t.queue, l, p)
           == ValidMessages(t.Feed(l).log[p], t.Feed(l).base[p], Frontier(t.Feed(l), p))
    {
      if p < |s.Feed(l).log| {
        ValidMessagesOfPrefix(s.Feed(l).log[p], t.Feed(l).log[p], s.Feed(l).base[p], Frontier(s.Feed(l), p));
      } else {
        FreshIgnores(t.taken + t.queue, l, p);
      }
    }
  }

  // The head message of loop l is passed: enqueued if it is valid.
  lemma DeliveredPastHead(s: System, t: System, l: Loop, id: nat)
    requires Safe(s) && Delivered(s) && HeadInLog(s.Feed(l))
    requires FeedOk(t.Feed(l)) && t.Feed(l).log == s.Feed(l).log && t.Feed(l).base == s.Feed(l).base
    requires var b := Todo(s.Feed(l).pc)[0];
             forall p :: 0 <= p < |s.Feed(l).log| ==>
               Frontier(t.Feed(l), p) == Frontier(s.Feed(l), p) + if p == b.partition then 1 else 0
    requires t.taken + t.queue == Accepted(s, l, id)
    ensures DeliveredOn(t, l)
  {
    hide NothingLost, SharedOk, RecordedOk, TodoOk, Accepted, Fresh, ValidMessages, Frontier, Known;
    var f := s.Feed(l);
    var b := Todo(f.pc)[0];
    AdvanceMovesFrontier(f, true, {});
    forall p | 0 <= p < |f.log|
      ensures Fresh(t.taken + t.queue, l, p) == ValidMessages(f.log[p], f.base[p], Frontier(t.Feed(l), p))
    {
      FreshAfterHead(s, l, id, l, p);
      ExtendedByHead(f.log[p], f.base[p], Frontier(f, p), p == b.partition);
    }
  }

  lemma ExtendedByHead(log: seq<Message>, lo: nat, hi: nat, head: bool)
    requires lo <= hi <= |log| && (head ==> hi < |log|)
    ensures ValidMessages(log, lo, hi + if head then 1 else 0)
         == ValidMessages(log, lo, hi) + if head && log[hi].Carries? then [(hi, log[hi].work)] else []
  {
  }

  // taken + queue once the head message is passed.
  function Accepted(s: System, l: Loop, id: nat): seq<Item>
    requires HeadInLog(s.Feed(l))
  {
    if HeadMessage(s.Feed(l)).Carries? then s.taken + s.queue + [Item(id, HeadRow(l, s.Feed(l)), false)]
    else s.taken + s.queue
  }

  lemma FreshAfterHead(s: System, l: Loop, id: nat, m: Loop, p: nat)
    requires HeadInLog(s.Feed(l))
    ensures var f := s.Feed(l);
            var b := Todo(f.pc)[0];
            Fresh(Accepted(s, l, id), m, p)
            == Fresh(s.taken + s.queue, m, p)
               + if HeadMessage(f).Carries? && l == m && b.partition == p then [(b.next, HeadMessage(f).work)] else []
  {
    if HeadMessage(s.Feed(l)).Carries? {
      FreshSnoc(s.taken + s.queue, Item(id, HeadRow(l, s.Feed(l)), false), m, p);
    }
  }

  // Nothing is left over from one process to the next.
  ghost predicate Blank(s: System) {
    !s.live ==> s.taken == [] && s.triggers.base == s.triggers.position && s.decisions.base == s.decisions.position
  }

  lemma BlankNext(s: System, step: Step)
    requires Safe(s) && Blank(s) && Enabled(s, step)
    ensures Blank(Apply(s, step))
  {
  }

  lemma DownDelivered(s: System)
    requires Safe(s) && Blank(s) && !s.live
    ensures Delivered(s)
  {
    assert s.taken + s.queue == [];
  }

  lemma DeliveredFeedStep(s: System, step: Step)
    requires Safe(s) && Delivered(s) && Enabled(s, step) && IsFeedStep(step) && !step.Rebalance?
    ensures Delivered(Apply(s, step))
  {
    hide FeedOk, NothingLost, SharedOk, DeliveredOn, Known;
    var t := Apply(s, step);
    FeedStepFrontier(s.Feed(step.l), s, step);
    FeedStepBase(s, step);
    KnownGrows(s, t);
    DeliveredFrame(s, t, step.l);
    DeliveredFrame(s, t, Other(step.l));
  }

  lemma KnownGrows(s: System, t: System)
    requires Known(s, s.taken + s.queue) && t.taken == s.taken && t.queue == s.queue
    requires forall l: Loop :: |s.Feed(l).log| <= |t.Feed(l).log|
    ensures Known(t, t.taken + t.queue)
  {
  }

  lemma FeedStepBase(s: System, step: Step)
    requires Enabled(s, step) && IsFeedStep(step)
    ensures var t := Apply(s, step);
            && t.taken == s.taken && t.queue == s.queue && t.Feed(Other(step.l)) == s.Feed(Other(step.l))
            && s.Feed(step.l).base <= t.Feed(step.l).base
  {
  }

  lemma DeliveredMessageStep(s: System, step: Step, id: nat)
    requires Safe(s) && Delivered(s) && Enabled(s, step)
    requires step.DeadLetter? || (step.Enqueue? && id == s.Feed(step.l).pc.id)
    ensures Delivered(Apply(s, step))
  {
    hide FeedOk, NothingLost, SharedOk, DeliveredOn, Known;
    var t, l := Apply(s, step), step.l;
    MessageStepAccepts(s, step, id);
    AcceptedKnown(s, t, l, id);
    DeliveredPastHead(s, t, l, id);
    DeliveredOther(s, t, l, id);
  }

  lemma MessageStepAccepts(s: System, step: Step, id: nat)
    requires Safe(s) && Enabled(s, step)
    requires step.DeadLetter? || (step.Enqueue? && id == s.Feed(step.l).pc.id)
    ensures var t, l := Apply(s, step), step.l;
            && HeadInLog(s.Feed(l))
            && t.taken + t.queue == Accepted(s, l, id)
            && t.Feed(Other(l)) == s.Feed(Other(l))
            && FeedOk(t.Feed(l)) && t.Feed(l).log == s.Feed(l).log && t.Feed(l).base == s.Feed(l).base
            && forall p :: 0 <= p < |s.Feed(l).log| ==>
                 Frontier(t.Feed(l), p)
                 == Frontier(s.Feed(l), p) + if p == Todo(s.Feed(l).pc)[0].partition then 1 else 0
  {
    hide FeedOk, NothingLost, SharedOk;
    AdvanceMovesFrontier(s.Feed(step.l), s.Feed(step.l).pc.clean, Apply(s, step).Feed(step.l).dlq);
  }

  lemma AcceptedKnown(s: System, t: System, l: Loop, id: nat)
    requires HeadInLog(s.Feed(l)) && Known(s, s.taken + s.queue)
    requires t.triggers.log == s.triggers.log && t.decisions.log == s.decisions.log
    ensures Known(t, Accepted(s, l, id))
  {
  }

  lemma DeliveredOther(s: System, t: System, l: Loop, id: nat)
    requires Safe(s) && Delivered(s) && HeadInLog(s.Feed(l))
    requires t.Feed(Other(l)) == s.Feed(Other(l)) && t.taken + t.queue == Accepted(s, l, id)
    ensures DeliveredOn(t, Other(l))
  {
    forall p | 0 <= p < |s.Feed(Other(l)).log|
      ensures Fresh(t.taken + t.queue, Other(l), p) == Fresh(s.taken + s.queue, Other(l), p)
    {
      FreshAfterHead(s, l, id, Other(l), p);
    }
  }

  predicate AcceptsNothing(step: Step) {
    step.Record? || step.RecordFails? || step.QueueFull? || step.Take? || step.Complete? || step.Discard?
  }

  lemma DeliveredOtherwise(s: System, step: Step)
    requires Safe(s) && Delivered(s) && Enabled(s, step) && AcceptsNothing(step)
    ensures Delivered(Apply(s, step))
  {
    hide Apply, Enabled, NothingLost, SharedOk, RecordedOk, FeedOk, Frontier, DeliveredOn;
    var t := Apply(s, step);
    SafeNext(s, step);
    AcceptsNothingKeeps(s, step);
    SameFrontiers(s, step, Triggers);
    SameFrontiers(s, step, Decisions);
    DeliveredFrame(s, t, Triggers);
    DeliveredFrame(s, t, Decisions);
  }

  lemma AcceptsNothingKeeps(s: System, step: Step)
    requires Safe(s) && Enabled(s, step) && AcceptsNothing(step)
    ensures var t := Apply(s, step); t.taken + t.queue == s.taken + s.queue
    ensures |Apply(s, step).triggers.position| == |Apply(s, step).triggers.log|
    ensures |Apply(s, step).decisions.position| == |Apply(s, step).decisions.log|
  {
    hide NothingLost, SharedOk, RecordedOk;
  }

  lemma SameFrontiers(s: System, step: Step, l: Loop)
    requires Safe(s) && Enabled(s, step) && AcceptsNothing(step)
    ensures var f, g := s.Feed(l), Apply(s, step).Feed(l);
            && g.log == f.log && g.base == f.base && |g.position| == |f.position|
            && forall p :: 0 <= p < |f.position| ==> Frontier(g, p) == Frontier(f, p)
  {
    hide NothingLost, SharedOk, RecordedOk, FeedOk;
  }

  lemma DeliveredNext(s: System, step: Step)
    requires Safe(s) && Blank(s) && Delivered(s) && Enabled(s, step) && !step.Rebalance?
    ensures Delivered(Apply(s, step))
  {
    match step
    case DeadLetter(_) => DeliveredMessageStep(s, step, 0);
    case Enqueue(l) => DeliveredMessageStep(s, step, s.Feed(l).pc.id);
    case Crash =>
      SafeNext(s, step);
      BlankNext(s, step);
      DownDelivered(Apply(s, step));
    case Restart(_) => DeliveredRestart(s, step);
    case _ =>
      if IsFeedStep(step) {
        DeliveredFeedStep(s, step);
      } else {
        DeliveredOtherwise(s, step);
      }
  }

  lemma DeliveredRestart(s: System, step: Step)
    requires Safe(s) && Blank(s) && Enabled(s, step) && step.Restart?
    ensures Delivered(Apply(s, step))
  {
    var t := Apply(s, step);
    SafeNext(s, step);
    RestartedQueue(s, step);
    hide Apply, Enabled, NothingLost, RestoredQueue, SortedIds;
    assert t.taken + t.queue == t.queue;
    assert forall i :: i in t.queue ==> i in Held(t) && ItemOk(t, i);
    forall l: Loop, p | 0 <= p < |t.Feed(l).log| ensures Fresh(t.taken + t.queue, l, p) == [] {
      FreshIgnores(t.queue, l, p);
    }
  }

  lemma RestartedQueue(s: System, step: Step)
    requires Safe(s) && Blank(s) && Enabled(s, step) && step.Restart?
    ensures var t := Apply(s, step);
            && t.taken == [] && t.triggers == s.triggers && t.decisions == s.decisions
            && (forall i :: i in t.queue ==> i.restored)
  {
    hide FeedOk, NothingLost, SharedOk, RecordedOk;
    SortedIdsElements(s.rows.Keys);
    RestoredQueueElements(s.rows, SortedIds(s.rows.Keys), WORK_QUEUE_MAXSIZE);
  }

  lemma {:induction false} ExecutionBlank(trace: seq<System>, k: nat)
    requires Execution(trace) && k < |trace|
    ensures Safe(trace[k]) && Blank(trace[k])
  {
    hide Safe, Apply, Enabled;
    ExecutionSafe(trace, k);
    if k > 0 {
      ExecutionBlank(trace, k - 1);
      assert Next(trace[k - 1], trace[k]);
      var step :| Enabled(trace[k - 1], step) && trace[k] == Apply(trace[k - 1], step);
      BlankNext(trace[k - 1], step);
    }
  }

  lemma QueueBounded(s: System)
    requires Safe(s)
    ensures |s.queue| <= WORK_QUEUE_MAXSIZE
  {
  }

  ghost predicate StableStep(s: System, t: System) {
    exists step :: Enabled(s, step) && !step.Rebalance? && t == Apply(s, step)
  }

  // From the last moment no process was running, with the partition assignment unchanged since:
  // the messages the worker took, followed by those still queued, are per partition exactly the
  // valid messages from where the process started up to the first unaccepted one.
  lemma {:induction false} ExactlyOnceInOrder(trace: seq<System>, start: nat, k: nat, l: Loop, p: nat)
    requires Execution(trace) && start <= k < |trace| && !trace[start].live
    requires forall i :: start <= i < k ==> StableStep(trace[i], trace[i + 1])
    ensures Delivered(trace[k])
    ensures p < |trace[k].Feed(l).log| ==>
              var f := trace[k].Feed(l);
              Fresh(trace[k].taken + trace[k].queue, l, p) == ValidMessages(f.log[p], f.base[p], Frontier(f, p))
    ensures |trace[k].queue| <= WORK_QUEUE_MAXSIZE
    decreases k
  {
    hide Safe, Apply, Enabled, Blank;
    ExecutionBlank(trace, k);
    QueueBounded(trace[k]);
    if k == start {
      DownDelivered(trace[k]);
    } else {
      ExactlyOnceInOrder(trace, start, k - 1, l, p);
      ExecutionBlank(trace, k - 1);
      assert StableStep(trace[k - 1], trace[k]);
      var step :| Enabled(trace[k - 1], step) && !step.Rebalance? && trace[k] == Apply(trace[k - 1], step);
      DeliveredNext(trace[k - 1], step);
    }
  }

  // What ValidMessages means: exactly the valid offsets, ascending, each with its own work.
  lemma {:induction false} ValidMessagesMeaning(log: seq<Message>, lo: nat, hi: nat)
    requires hi <= |log|
    ensures var v := ValidMessages(log, lo, hi);
            && (forall i, j :: 0 <= i < j < |v| ==> v[i].0 < v[j].0)
            && (forall x :: x in v <==> lo <= x.0 < hi && log[x.0] == Carries(x.1))
    decreases hi
  {
    if lo < hi {
      ValidMessagesMeaning(log, lo, hi - 1);
      var w, v := ValidMessages(log, lo, hi - 1), ValidMessages(log, lo, hi);
      assert v == w || v == w + [(hi - 1, log[hi - 1].work)];
      forall i, j | 0 <= i < j < |v| ensures v[i].0 < v[j].0 {
        assert w[i] in w;
      }
    }
  }

  // ---- Restarting ----

  // The oldest decodable rows come back, in id order, as many as the queue holds.
  lemma {:induction false} RestoresOldestFirst(rows: map<nat, Stored>, ids: seq<nat>, room: nat)
    ensures RestoredQueue(rows, ids, room)
         == var all := RestoredQueue(rows, ids, |ids|); all[..Min(room, |all|)]
    ensures |RestoredQueue(rows, ids, |ids|)| <= |ids|
  {
    if ids != [] {
      var rest := ids[1..];
      RestoresOldestFirst(rows, rest, if room == 0 then 0 else room - 1);
      RestoresOldestFirst(rows, rest, room);
      RestoresOldestFirst(rows, rest, |ids|);
    }
  }

  lemma SortedIdsAscending(ids: set<nat>)
    ensures forall i, j :: 0 <= i < j < |SortedIds(ids)| ==> SortedIds(ids)[i] < SortedIds(ids)[j]
    decreases ids
  {
    if ids != {} {
      hide Least;
      var m := Least(ids);
      var others := ids - {m};
      var rest := SortedIds(others);
      SortedIdsAscending(others);
      SortedIdsElements(others);
      forall k | 0 <= k < |rest| ensures m < rest[k] {
        assert rest[k] in rest;
        assert rest[k] in others;
      }
    }
  }
}
