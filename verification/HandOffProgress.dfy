/**
 Backpressure costs time, never a message: whatever was refused, rewound and paused so far, a process
 that is left to itself accepts every message and finishes it.
 */
module HandOffProgress {
  import opened HandOff
  import opened HandOffProofs
  import opened HandOffTheorems

  ghost predicate Readable(f: Feed) {
    && |f.log| == |f.position|
    && forall p :: 0 <= p < |f.log| ==> Frontier(f, p) <= |f.log[p]|
  }

  // Messages of the first n partitions not accepted yet.
  ghost function Backlog(f: Feed, n: nat): nat
    requires Readable(f) && n <= |f.log|
    decreases n
  {
    if n == 0 then 0 else Backlog(f, n - 1) + |f.log[n - 1]| - Frontier(f, n - 1)
  }

  ghost function Behind(f: Feed): nat
    requires Readable(f)
  {
    Backlog(f, |f.log|)
  }

  lemma {:induction false} BacklogMoves(f: Feed, g: Feed, q: nat, gain: nat, n: nat)
    requires Readable(f) && Readable(g) && g.log == f.log && n <= |f.log|
    requires forall p :: 0 <= p < |f.log| ==> Frontier(g, p) == Frontier(f, p) + if p == q then gain else 0
    ensures Backlog(f, n) == Backlog(g, n) + if q < n then gain else 0
    decreases n
  {
    if n > 0 {
      BacklogMoves(f, g, q, gain, n - 1);
    }
  }

  lemma {:induction false} BacklogZero(f: Feed, n: nat)
    requires Readable(f) && n <= |f.log|
    ensures Backlog(f, n) == 0 <==> forall p :: 0 <= p < n ==> Frontier(f, p) == |f.log[p]|
    decreases n
  {
    if n > 0 {
      BacklogZero(f, n - 1);
    }
  }

  ghost predicate CaughtUp(f: Feed)
    requires Readable(f)
  {
    f.pc.Idle? && Behind(f) == 0
  }

  // Nothing left to do: every message is accepted and everything accepted is finished.
  ghost predicate Drained(s: System) {
    && Readable(s.triggers) && Readable(s.decisions)
    && CaughtUp(s.triggers) && CaughtUp(s.decisions)
    && s.queue == [] && s.hand.Free?
  }

  // ---- The process left to itself ----

  // What the process does of its own accord while nothing fails.  Resuming is done only when
  // something is paused.
  predicate Own(s: System, step: Step) {
    match step
    case Poll(_, _) => true
    case Resume(l) => s.Feed(l).paused != {}
    case DeadLetter(_) => true
    case Record(_) => true
    case Enqueue(_) => true
    case QueueFull(_, _) => true
    case Rewind(_) => true
    case EndCycle(_) => true
    case Take => true
    case Complete => true
    case Discard(_) => true
    case _ => false
  }

  ghost predicate OwnStep(s: System, t: System) {
    exists step :: Enabled(s, step) && Own(s, step) && t == Apply(s, step)
  }

  // As long as anything is left to do, the process can do something.
  lemma NotStuck(s: System) returns (step: Step)
    requires Safe(s) && s.live && !Drained(s)
    ensures Enabled(s, step) && Own(s, step)
  {
    SafeReadable(s);
    if s.hand.Busy? {
      step := Complete;
    } else if s.hand.Closing? {
      step := Discard(true);
    } else if s.queue != [] {
      step := Take;
    } else if !CaughtUp(s.triggers) {
      step := LoopNotStuck(s, Triggers);
    } else {
      step := LoopNotStuck(s, Decisions);
    }
  }

  lemma LoopNotStuck(s: System, l: Loop) returns (step: Step)
    requires Safe(s) && s.live && s.queue == [] && Readable(s.Feed(l)) && !CaughtUp(s.Feed(l))
    ensures Enabled(s, step) && Own(s, step)
  {
    hide NothingLost, SharedOk;
    var f := s.Feed(l);
    match f.pc
    case Idle =>
      if f.paused != {} {
        step := Resume(l);
      } else {
        BacklogZero(f, |f.log|);
        var p :| 0 <= p < |f.log| && Frontier(f, p) != |f.log[p]|;
        assert Frontier(f, p) == f.position[p];
        step := Poll(l, [Batch(p, f.position[p], |f.log[p]|)]);
      }
    case Reading(todo, _) =>
      if todo == [] {
        step := EndCycle(l);
      } else {
        assert todo[0] in todo;
        step := if HeadMessage(f).Invalid? then DeadLetter(l) else Record(l);
      }
    case Recorded(_, _, _) => step := Enqueue(l);
    case Turned(todo) =>
      assert todo[0] in todo;
      step := Rewind(l);
  }

  // ---- Every step of its own brings it nearer ----

  // Partitions a poll could still read.
  function Open(f: Feed): set<nat> {
    set p: nat | p < |f.log| && p !in f.paused && p !in Partitions(Todo(f.pc))
  }

  // How far a loop is from being able to do nothing but accept.  While the queue is full every
  // batch it reads pauses a partition; otherwise it comes to a message it can enqueue.
  function Distance(f: Feed, full: bool): nat {
    if full then
      match f.pc
      case Idle => 8 * |Open(f)|
      case Reading(todo, _) => 8 * |Open(f)| + 4 * |todo| + 3
      case Recorded(todo, _, _) => 8 * |Open(f)| + 4 * |todo| + 2
      case Turned(todo) => 8 * |Open(f)| + 4 * |todo| + 1
    else
      match f.pc
      case Turned(_) => 6
      case Reading(todo, _) => if todo == [] then 5 else 2
      case Idle => if f.paused != {} then 4 else 3
      case Recorded(_, _, _) => 1
  }

  function HandRank(h: Hand): nat {
    if h.Busy? then 2 else if h.Closing? then 1 else 0
  }

  predicate Full(s: System) {
    |s.queue| >= WORK_QUEUE_MAXSIZE
  }

  // Work to do: each message not accepted yet counts for more than what it costs the worker.
  ghost function Load(s: System): nat
    requires Readable(s.triggers) && Readable(s.decisions)
  {
    4 * (Behind(s.triggers) + Behind(s.decisions)) + 3 * |s.queue| + HandRank(s.hand)
  }

  function Waits(s: System): nat {
    Distance(s.triggers, Full(s)) + Distance(s.decisions, Full(s))
  }

  ghost predicate Nearer(s: System, t: System)
    requires Readable(s.triggers) && Readable(s.decisions) && Readable(t.triggers) && Readable(t.decisions)
  {
    Load(t) < Load(s) || (Load(t) == Load(s) && Waits(t) < Waits(s))
  }

  lemma PassHelps(s: System, step: Step)
    requires Safe(s) && (step.DeadLetter? || step.Enqueue?) && Enabled(s, step) && Readable(s.Feed(step.l))
    ensures var f, g := s.Feed(step.l), Apply(s, step).Feed(step.l);
            Readable(g) && Behind(g) < Behind(f)
  {
    var f, g := s.Feed(step.l), Apply(s, step).Feed(step.l);
    AdvanceMovesFrontier(f, f.pc.clean, g.dlq);
    assert Todo(f.pc)[0] in Todo(f.pc);
    BacklogMoves(f, g, Todo(f.pc)[0].partition, 1, |f.log|);
  }

  lemma PollOpens(f: Feed, todo: seq<Batch>)
    requires f.pc.Idle? && Fetchable(f, todo)
    ensures var g := f.(position := Fetched(f.position, todo), pc := Reading(todo, true));
            |Open(g)| + |todo| <= |Open(f)| && todo != []
  {
    var g := f.(position := Fetched(f.position, todo), pc := Reading(todo, true));
    PartitionsCount(todo);
    assert Open(g) == Open(f) - Partitions(todo) && Partitions(todo) <= Open(f);
    assert Open(f) == Open(g) + Partitions(todo);
  }

  lemma {:induction false} PartitionsCount(todo: seq<Batch>)
    requires forall i, j :: 0 <= i < j < |todo| ==> todo[i].partition != todo[j].partition
    ensures |Partitions(todo)| == |todo|
  {
    if todo != [] {
      PartitionsCount(todo[1..]);
      assert Partitions(todo) == {todo[0].partition} + Partitions(todo[1..]) by {
        assert forall b :: b in todo <==> b == todo[0] || b in todo[1..];
      }
      assert todo[0].partition !in Partitions(todo[1..]);
    }
  }

  lemma RewindOpens(f: Feed)
    requires f.pc.Turned? && f.pc.todo != []
    ensures var g := f.(paused := f.paused + {f.pc.todo[0].partition}, pc := Reading(f.pc.todo[1..], false));
            Open(g) == Open(f)
  {
    var todo := f.pc.todo;
    assert forall b :: b in todo <==> b == todo[0] || b in todo[1..];
  }

  // Steps of one loop that accept nothing.
  predicate Waiting(step: Step) {
    step.Poll? || step.Resume? || step.Record? || step.QueueFull? || step.Rewind? || step.EndCycle?
  }

  lemma WaitingLeavesRest(s: System, step: Step)
    requires Enabled(s, step) && Waiting(step)
    ensures var t := Apply(s, step);
            t.queue == s.queue && t.hand == s.hand && t.Feed(Other(step.l)) == s.Feed(Other(step.l))
  {
  }

  lemma WaitingShortens(s: System, step: Step)
    requires Safe(s) && Enabled(s, step) && Own(s, step) && Waiting(step)
    ensures Distance(Apply(s, step).Feed(step.l), Full(s)) < Distance(s.Feed(step.l), Full(s))
  {
    hide NothingLost, SharedOk, TodoOk;
    var f := s.Feed(step.l);
    match step
    case Poll(_, todo) => PollOpens(f, todo);
    case Rewind(_) =>
      RewindOpens(f);
      var g := Apply(s, step).Feed(step.l);
      assert Open(g) == Open(f.(paused := f.paused + {f.pc.todo[0].partition}, pc := Reading(f.pc.todo[1..], false)));
    case Record(_) => assert Open(Apply(s, step).Feed(step.l)) == Open(f);
    case QueueFull(_, _) => assert Open(Apply(s, step).Feed(step.l)) == Open(f);
    case EndCycle(_) => assert Open(Apply(s, step).Feed(step.l)) == Open(f);
    case Resume(_) =>
  }

  lemma WaitingKeepsBehind(s: System, step: Step)
    requires Safe(s) && Enabled(s, step) && Waiting(step) && Readable(s.Feed(step.l))
    ensures var t := Apply(s, step); Readable(t.Feed(step.l)) && Behind(t.Feed(step.l)) == Behind(s.Feed(step.l))
  {
    hide NothingLost, SharedOk, RecordedOk;
    var f := s.Feed(step.l);
    if IsFeedStep(step) {
      FeedStepFrontier(f, s, step);
    }
    var g := Apply(s, step).Feed(step.l);
    assert g.log == f.log;
    BacklogMoves(f, g, 0, 0, |f.log|);
  }

  lemma OwnStepHelps(s: System, step: Step)
    requires Safe(s) && Readable(s.triggers) && Readable(s.decisions) && Enabled(s, step) && Own(s, step)
    ensures var t := Apply(s, step);
            && Readable(t.triggers) && Readable(t.decisions) && Nearer(s, t)
            && t.live && SameSource(s, t)
  {
    OwnKeepsSource(s, step);
    hide Safe, Enabled, Apply, Distance, Behind, Readable, SameSource, Nearer;
    if Waiting(step) {
      WaitingHelps(s, step);
    } else if step.DeadLetter? || step.Enqueue? {
      PassingHelps(s, step);
    } else {
      WorkingHelps(s, step);
    }
  }

  // One of the two feeds is behind as before, and nearer; nothing else changed.
  lemma WaitingHelps(s: System, step: Step)
    requires Safe(s) && Readable(s.triggers) && Readable(s.decisions) && Enabled(s, step) && Own(s, step)
    requires Waiting(step)
    ensures var t := Apply(s, step); Readable(t.triggers) && Readable(t.decisions) && Nearer(s, t)
  {
    hide Safe, Enabled, Apply, Distance, Behind, Readable;
    WaitingLeavesRest(s, step);
    WaitingShortens(s, step);
    WaitingKeepsBehind(s, step);
  }

  lemma PassingHelps(s: System, step: Step)
    requires Safe(s) && Readable(s.triggers) && Readable(s.decisions) && Enabled(s, step)
    requires step.DeadLetter? || step.Enqueue?
    ensures var t := Apply(s, step); Readable(t.triggers) && Readable(t.decisions) && Nearer(s, t)
  {
    hide Safe, Enabled, Apply, Distance, Behind, Readable;
    PassHelps(s, step);
    OtherStays(s, step);
  }

  lemma WorkingHelps(s: System, step: Step)
    requires Readable(s.triggers) && Readable(s.decisions) && Enabled(s, step)
    requires step.Take? || step.Complete? || step.Discard?
    ensures var t := Apply(s, step); Readable(t.triggers) && Readable(t.decisions) && Nearer(s, t)
  {
    hide Distance, Behind, Readable;
  }

  lemma OtherStays(s: System, step: Step)
    requires Enabled(s, step) && (step.DeadLetter? || step.Enqueue?)
    ensures var t := Apply(s, step);
            t.Feed(Other(step.l)) == s.Feed(Other(step.l)) && |t.queue| <= |s.queue| + 1 && t.hand == s.hand
  {
  }

  lemma OwnKeepsSource(s: System, step: Step)
    requires Enabled(s, step) && Own(s, step)
    ensures SameSource(s, Apply(s, step)) && Apply(s, step).live && !step.Rebalance?
  {
  }

  // Everything the worker took is finished or in its hand.
  ghost predicate TakenFinished(s: System) {
    forall i :: i in s.taken ==> i.row in s.finished || (!s.hand.Free? && s.hand.item == i)
  }

  lemma TakenFinishedNext(s: System, step: Step)
    requires Safe(s) && TakenFinished(s) && Enabled(s, step)
    ensures TakenFinished(Apply(s, step))
  {
    hide FeedOk, NothingLost, RecordedOk;
  }

  lemma {:induction false} FreshOnlyFrom(items: seq<Item>, l: Loop, p: nat)
    ensures forall x :: x in Fresh(items, l, p) ==>
              exists i :: i in items && i.row == Row(Origin(l, p, x.0), x.1)
  {
    if items != [] {
      var init := items[..|items| - 1];
      FreshOnlyFrom(init, l, p);
      forall x | x in Fresh(items, l, p) ensures exists i :: i in items && i.row == Row(Origin(l, p, x.0), x.1) {
        if x in Fresh(init, l, p) {
          var i :| i in init && i.row == Row(Origin(l, p, x.0), x.1);
        } else {
          assert items[|items| - 1] in items;
        }
      }
    }
  }

  // In a drained process every valid message it ever started reading from has been worked on.
  lemma DrainedMeansFinished(s: System, l: Loop, p: nat, o: nat)
    requires Safe(s) && Delivered(s) && TakenFinished(s) && Drained(s)
    requires p < |s.Feed(l).log| && s.Feed(l).base[p] <= o < |s.Feed(l).log[p]| && s.Feed(l).log[p][o].Carries?
    ensures Row(Origin(l, p, o), s.Feed(l).log[p][o].work) in s.finished
  {
    var f := s.Feed(l);
    BacklogZero(f, |f.log|);
    ValidMessagesMeaning(f.log[p], f.base[p], |f.log[p]|);
    assert s.taken + s.queue == s.taken;
    assert (o, f.log[p][o].work) in Fresh(s.taken, l, p);
    FreshOnlyFrom(s.taken, l, p);
  }

  // ---- From any reachable state ----

  ghost predicate Good(s: System) {
    Safe(s) && Blank(s) && Delivered(s) && TakenFinished(s) && s.live
  }

  ghost predicate SameSource(s: System, t: System) {
    forall l: Loop :: t.Feed(l).log == s.Feed(l).log && t.Feed(l).base == s.Feed(l).base
  }

  lemma GoodNext(s: System, step: Step)
    requires Good(s) && Enabled(s, step) && Own(s, step)
    ensures Good(Apply(s, step))
  {
    hide Safe, Blank, Delivered, TakenFinished;
    OwnKeepsSource(s, step);
    SafeNext(s, step);
    BlankNext(s, step);
    DeliveredNext(s, step);
    TakenFinishedNext(s, step);
  }

  // The process takes steps of its own as long as it has any to take.
  ghost predicate LeftAlone(run: nat -> System) {
    forall i: nat :: OwnStep(run(i), run(i + 1)) || (run(i + 1) == run(i) && !CanStep(run(i)))
  }

  ghost predicate CanStep(s: System) {
    exists step :: Enabled(s, step) && Own(s, step)
  }

  lemma DrainsFrom(run: nat -> System, i: nat) returns (n: nat)
    requires LeftAlone(run) && Good(run(i))
    ensures n >= i && Good(run(n)) && Drained(run(n)) && SameSource(run(i), run(n))
    decreases Load(run(i)), Waits(run(i))
  {
    SafeReadable(run(i));
    hide Safe, Good, Drained, Load, Waits, SameSource, Enabled, Apply;
    if Drained(run(i)) {
      n := i;
      SourceTrans(run(i), run(i), run(i));
    } else {
      GoodIsSafe(run(i));
      var possible := NotStuck(run(i));
      assert CanStep(run(i));
      assert OwnStep(run(i), run(i + 1));
      var step :| Enabled(run(i), step) && Own(run(i), step) && run(i + 1) == Apply(run(i), step);
      OwnStepHelps(run(i), step);
      GoodNext(run(i), step);
      n := DrainsFrom(run, i + 1);
      SourceTrans(run(i), run(i + 1), run(n));
    }
  }

  lemma GoodIsSafe(s: System)
    requires Good(s)
    ensures Safe(s) && s.live
  {
  }

  lemma SourceTrans(s: System, t: System, u: System)
    ensures SameSource(s, s)
    ensures SameSource(s, t) && SameSource(t, u) ==> SameSource(s, u)
  {
  }

  lemma {:induction false} ExecutionTakenFinished(trace: seq<System>, k: nat)
    requires Execution(trace) && k < |trace|
    ensures Safe(trace[k]) && Blank(trace[k]) && TakenFinished(trace[k])
  {
    hide Safe, Apply, Enabled, Blank, TakenFinished;
    ExecutionBlank(trace, k);
    if k == 0 {
      InitTakenFinished(trace[0]);
    } else {
      ExecutionTakenFinished(trace, k - 1);
      assert Next(trace[k - 1], trace[k]);
      var step :| Enabled(trace[k - 1], step) && trace[k] == Apply(trace[k - 1], step);
      TakenFinishedNext(trace[k - 1], step);
    }
  }

  lemma InitTakenFinished(s: System)
    requires Init(s)
    ensures TakenFinished(s)
  {
  }

  lemma SafeReadable(s: System)
    requires Safe(s)
    ensures Readable(s.triggers) && Readable(s.decisions)
  {
  }

  // After any execution whose last process kept its assignment, however often it refused, rewound
  // and paused: whichever steps the process takes from there, as long as no write fails, nothing new
  // arrives and it is neither stopped nor reassigned, it comes to a point where everything is
  // accepted and the worker has been through every valid message this process started reading from.
  lemma BackpressureOnlyDelays(trace: seq<System>, start: nat, k: nat, run: nat -> System) returns (n: nat)
    requires Execution(trace) && start <= k < |trace| && !trace[start].live && trace[k].live
    requires forall i :: start <= i < k ==> StableStep(trace[i], trace[i + 1])
    requires LeftAlone(run) && run(0) == trace[k]
    ensures Drained(run(n)) && SameSource(trace[k], run(n))
    ensures forall l: Loop, p, o ::
              && 0 <= p < |run(n).Feed(l).log| && p < |run(n).Feed(l).base|
              && run(n).Feed(l).base[p] <= o < |run(n).Feed(l).log[p]| && run(n).Feed(l).log[p][o].Carries?
              ==> Row(Origin(l, p, o), run(n).Feed(l).log[p][o].work) in run(n).finished
  {
    ExactlyOnceInOrder(trace, start, k, Triggers, 0);
    ExecutionTakenFinished(trace, k);
    n := DrainsFrom(run, 0);
    var t := run(n);
    forall l: Loop, p, o |
      0 <= p < |t.Feed(l).log| && p < |t.Feed(l).base| && t.Feed(l).base[p] <= o < |t.Feed(l).log[p]|
      && t.Feed(l).log[p][o].Carries?
      ensures Row(Origin(l, p, o), t.Feed(l).log[p][o].work) in t.finished
    {
      DrainedMeansFinished(t, l, p, o);
    }
  }
}
