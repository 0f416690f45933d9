/**
 How runs of a graph are served: started once, taken as far as a decision is needed, saved, and
 taken further whenever a decision for them arrives.

 A graph is a `Machine`: one step runs one node.  A node that calls for a decision parks when it
 has none; on resume it runs again from its top.  The state updates of a node that parks or raises
 are lost, but whatever it did outside its state stays: `left` is the configuration it leaves.
 */
module Runner {
  import opened Prelude

  type RunId = string

  datatype Outcome<G, C> =
    | Parked(gate: G, left: C)
    | Moved(next: C)
    | Ended(last: C)
    | Raised(left: C)

  datatype Machine<!G, !C, !D> = Machine(step: (C, Option<D>) -> Outcome<G, C>, fuel: C -> nat)

  // Every move uses up fuel, a node asks for at most one decision, and a node that asks for none
  // does not see one.
  ghost predicate Sound<G(!new), C(!new), D(!new)>(m: Machine<G, C, D>) {
    && (forall c, d :: m.step(c, d).Moved? ==> m.fuel(m.step(c, d).next) < m.fuel(c))
    && (forall c, d: D :: !m.step(c, Some(d)).Parked?)
    && (forall c, d: D :: !m.step(c, None).Parked? ==> m.step(c, Some(d)) == m.step(c, None))
  }

  // What a node does before it asks can be done again without a trace.
  ghost predicate Replayable<G(!new), C(!new), D(!new)>(m: Machine<G, C, D>) {
    forall c :: m.step(c, None).Parked? ==> ReplayableAt(m, c, m.step(c, None).left)
  }

  ghost predicate ReplayableAt<G(!new), C(!new), D(!new)>(m: Machine<G, C, D>, c: C, left: C) {
    forall d: D :: m.step(left, Some(d)) == m.step(c, Some(d))
  }

  // Broken: a node raised, or its process stopped inside it; the run has not finished.
  datatype Stop<G> = Waiting(gate: G) | Done | Broken

  datatype Checkpoint<G, C> = Checkpoint(config: C, stop: Stop<G>)

  // One slice: start_run without a decision, resume_run with one for the parked node.
  function Slice<G(!new), C(!new), D(!new)>(m: Machine<G, C, D>, c: C, d: Option<D>): Checkpoint<G, C>
    requires Sound(m)
    decreases m.fuel(c)
  {
    match m.step(c, d)
    case Parked(g, left) => Checkpoint(left, Waiting(g))
    case Moved(next) => Slice(m, next, None)
    case Ended(last) => Checkpoint(last, Done)
    case Raised(left) => Checkpoint(left, Broken)
  }

  // The run as one process would see it if every decision were at hand when it is asked for: no
  // node runs twice.
  function RunAll<G(!new), C(!new), D(!new)>(m: Machine<G, C, D>, c: C, ds: seq<D>): Checkpoint<G, C>
    requires Sound(m)
    decreases m.fuel(c)
  {
    var asks := m.step(c, None).Parked?;
    if asks && ds == [] then Checkpoint(m.step(c, None).left, Waiting(m.step(c, None).gate))
    else
      match m.step(c, if asks then Some(ds[0]) else None)
      case Moved(next) => RunAll(m, next, if asks then ds[1..] else ds)
      case Ended(last) => Checkpoint(last, Done)
      case Raised(left) => Checkpoint(left, Broken)
  }

  function Answer<G(!new), C(!new), D(!new)>(m: Machine<G, C, D>, cp: Checkpoint<G, C>, d: D): Checkpoint<G, C>
    requires Sound(m)
  {
    if cp.stop.Done? then cp else Slice(m, cp.config, Some(d))
  }

  // ---- Slicing a run at its gates changes nothing ----

  lemma {:induction false} NoDecisions<G(!new), C(!new), D(!new)>(m: Machine<G, C, D>, c: C)
    requires Sound(m)
    ensures RunAll(m, c, []) == Slice(m, c, None)
    decreases m.fuel(c)
  {
    if m.step(c, None).Moved? {
      NoDecisions(m, m.step(c, None).next);
    }
  }

  lemma {:induction false} OneMoreDecision<G(!new), C(!new), D(!new)>(m: Machine<G, C, D>, c: C, ds: seq<D>, d: D)
    requires Sound(m) && Replayable(m) && !RunAll(m, c, ds).stop.Broken?
    ensures RunAll(m, c, ds + [d]) == Answer(m, RunAll(m, c, ds), d)
    decreases m.fuel(c)
  {
    var o := m.step(c, None);
    if o.Parked? {
      assert ReplayableAt(m, c, o.left);
      if ds == [] {
        var first := m.step(c, Some(d));
        assert (ds + [d])[1..] == [];
        if first.Moved? {
          NoDecisions(m, first.next);
        }
      } else {
        var first := m.step(c, Some(ds[0]));
        assert (ds + [d])[1..] == ds[1..] + [d];
        if first.Moved? {
          OneMoreDecision(m, first.next, ds[1..], d);
        }
      }
    } else if o.Moved? {
      OneMoreDecision(m, o.next, ds, d);
    }
  }

  // ---- Many runs, one store ----

  datatype Request<C, D> = Start(run: RunId, initial: C) | Resume(run: RunId, decision: D)

  datatype Reply<G> = Ran(stop: Stop<G>) | AlreadyKnown | UnknownRun | AlreadyTerminal

  type Store<G, C> = map<RunId, Checkpoint<G, C>>

  function Serve<G(!new), C(!new), D(!new)>(m: Machine<G, C, D>, store: Store<G, C>, r: Request<C, D>)
    : (Store<G, C>, Reply<G>)
    requires Sound(m)
  {
    match r
    case Start(run, initial) =>
      if run in store then (store, AlreadyKnown)
      else
        var cp := Slice(m, initial, None);
        (store[run := cp], Ran(cp.stop))
    case Resume(run, decision) =>
      if run !in store then (store, UnknownRun)
      else if store[run].stop.Done? then (store, AlreadyTerminal)
      else
        var cp := Slice(m, store[run].config, Some(decision));
        (store[run := cp], Ran(cp.stop))
  }

  function ServeAll<G(!new), C(!new), D(!new)>(m: Machine<G, C, D>, rs: seq<Request<C, D>>): Store<G, C>
    requires Sound(m)
  {
    if rs == [] then map[] else Serve(m, ServeAll(m, rs[..|rs| - 1]), rs[|rs| - 1]).0
  }

  // What the requests say about one run: where it first started, and its decisions from then on.
  datatype History<C, D> = NeverStarted | Started(initial: C, decisions: seq<D>)

  function HistoryOf<C, D>(rs: seq<Request<C, D>>, run: RunId): History<C, D> {
    if rs == [] then NeverStarted
    else
      var before := HistoryOf(rs[..|rs| - 1], run);
      var last := rs[|rs| - 1];
      if last.run != run then before
      else match last
        case Start(_, initial) => if before.NeverStarted? then Started(initial, []) else before
        case Resume(_, d) => if before.NeverStarted? then before else Started(before.initial, before.decisions + [d])
  }

  // No decision came after a node of the run had raised.
  ghost predicate Unbroken<G(!new), C(!new), D(!new)>(m: Machine<G, C, D>, hist: History<C, D>)
    requires Sound(m)
  {
    hist.Started? ==> forall k :: 0 <= k < |hist.decisions| ==>
        !RunAll(m, hist.initial, hist.decisions[..k]).stop.Broken?
  }

  lemma UnbrokenInit<G(!new), C(!new), D(!new)>(m: Machine<G, C, D>, initial: C, ds: seq<D>, d: D)
    requires Sound(m) && Unbroken(m, Started(initial, ds + [d]))
    ensures Unbroken(m, Started(initial, ds)) && !RunAll(m, initial, ds).stop.Broken?
  {
    assert (ds + [d])[..|ds|] == ds;
    assert forall k :: 0 <= k < |ds| ==> (ds + [d])[..k] == ds[..k];
  }

  // However the requests of many runs interleave, redelivered triggers and surplus decisions
  // included, each run stands where one uninterrupted run with its decisions would stand.
  lemma {:induction false} ServedIsUninterrupted<G(!new), C(!new), D(!new)>(m: Machine<G, C, D>,
      rs: seq<Request<C, D>>, run: RunId)
    requires Sound(m) && Replayable(m) && Unbroken(m, HistoryOf(rs, run))
    ensures var hist := HistoryOf(rs, run); var store := ServeAll(m, rs);
            && (hist.NeverStarted? <==> run !in store)
            && (hist.Started? ==> store[run] == RunAll(m, hist.initial, hist.decisions))
    decreases |rs|
  {
    if rs != [] {
      var init, last := rs[..|rs| - 1], rs[|rs| - 1];
      var hist := HistoryOf(init, run);
      if last.run == run && last.Resume? && hist.Started? {
        UnbrokenInit(m, hist.initial, hist.decisions, last.decision);
      }
      ServedIsUninterrupted(m, init, run);
      if last.run == run {
        if last.Start? && hist.NeverStarted? {
          NoDecisions(m, last.initial);
        } else if last.Resume? && hist.Started? {
          OneMoreDecision(m, hist.initial, hist.decisions, last.decision);
        }
      }
    }
  }

  // A request is refused, with nothing changed, exactly when it is a redelivery, a decision for a
  // run never started, or one for a run that reached its end.
  lemma RefusalsChangeNothing<G(!new), C(!new), D(!new)>(m: Machine<G, C, D>, rs: seq<Request<C, D>>, r: Request<C, D>)
    requires Sound(m) && Replayable(m) && Unbroken(m, HistoryOf(rs, r.run))
    ensures var reply := Serve(m, ServeAll(m, rs), r); var hist := HistoryOf(rs, r.run);
            && (!reply.1.Ran? ==> reply.0 == ServeAll(m, rs))
            && (reply.1.AlreadyKnown? <==> r.Start? && hist.Started?)
            && (reply.1.UnknownRun? <==> r.Resume? && hist.NeverStarted?)
            && (reply.1.AlreadyTerminal? <==>
                  r.Resume? && hist.Started? && RunAll(m, hist.initial, hist.decisions).stop.Done?)
  {
    ServedIsUninterrupted(m, rs, r.run);
  }

  // ---- Facts about every run of a machine ----

  // Every configuration the run goes through, the one it stops in included.
  function Passed<G(!new), C(!new), D(!new)>(m: Machine<G, C, D>, c: C, ds: seq<D>): seq<C>
    requires Sound(m)
    decreases m.fuel(c)
  {
    var asks := m.step(c, None).Parked?;
    if asks && ds == [] then [c]
    else
      match m.step(c, if asks then Some(ds[0]) else None)
      case Moved(next) => [c] + Passed(m, next, if asks then ds[1..] else ds)
      case _ => [c]
  }

  function Count<C>(cs: seq<C>, p: C -> bool): nat {
    if cs == [] then 0 else (if p(cs[0]) then 1 else 0) + Count(cs[1..], p)
  }

  // An upper bound that every node counted uses up.
  ghost predicate Bounds<G(!new), C(!new), D(!new)>(m: Machine<G, C, D>, p: C -> bool, left: C -> nat) {
    && (forall c :: p(c) ==> 1 <= left(c))
    && (forall c, d :: m.step(c, d).Moved? ==> left(m.step(c, d).next) + (if p(c) then 1 else 0) <= left(c))
  }

  lemma {:induction false} CountBounded<G(!new), C(!new), D(!new)>(m: Machine<G, C, D>, p: C -> bool, left: C -> nat,
      c: C, ds: seq<D>)
    requires Sound(m) && Bounds(m, p, left)
    ensures Count(Passed(m, c, ds), p) <= left(c)
    decreases m.fuel(c)
  {
    var asks := m.step(c, None).Parked?;
    if asks && ds == [] {
      assert Passed(m, c, ds)[1..] == [];
    } else {
      var o := m.step(c, if asks then Some(ds[0]) else None);
      if o.Moved? {
        var rest := if asks then ds[1..] else ds;
        CountBounded(m, p, left, o.next, rest);
        assert Passed(m, c, ds)[1..] == Passed(m, o.next, rest);
      } else {
        assert Passed(m, c, ds)[1..] == [];
      }
    }
  }

  // What every step keeps.
  ghost predicate Kept<G(!new), C(!new), D(!new)>(m: Machine<G, C, D>, inv: C -> bool) {
    forall c, d :: inv(c) ==> KeptBy(m.step(c, d), inv)
  }

  predicate KeptBy<G, C>(o: Outcome<G, C>, inv: C -> bool) {
    match o
    case Parked(_, left) => inv(left)
    case Moved(next) => inv(next)
    case Ended(last) => inv(last)
    case Raised(left) => inv(left)
  }

  // What every step keeps, as far as it does not raise; a node that raises leaves something else.
  ghost predicate KeptOr<G(!new), C(!new), D(!new)>(m: Machine<G, C, D>, inv: C -> bool, broke: C -> bool) {
    forall c, d :: inv(c) ==> if m.step(c, d).Raised? then broke(m.step(c, d).left) else KeptBy(m.step(c, d), inv)
  }

  lemma {:induction false} InvariantOr<G(!new), C(!new), D(!new)>(m: Machine<G, C, D>, inv: C -> bool,
      broke: C -> bool, c: C, ds: seq<D>)
    requires Sound(m) && KeptOr(m, inv, broke) && inv(c)
    ensures var cp := RunAll(m, c, ds); if cp.stop.Broken? then broke(cp.config) else inv(cp.config)
    ensures forall x :: x in Passed(m, c, ds) ==> inv(x)
    decreases m.fuel(c)
  {
    var asks := m.step(c, None).Parked?;
    assert m.step(c, None).Raised? || KeptBy(m.step(c, None), inv);
    if !(asks && ds == []) {
      var d := if asks then Some(ds[0]) else None;
      assert m.step(c, d).Raised? || KeptBy(m.step(c, d), inv);
      if m.step(c, d).Moved? {
        InvariantOr(m, inv, broke, m.step(c, d).next, if asks then ds[1..] else ds);
      }
    }
  }

  lemma Invariant<G(!new), C(!new), D(!new)>(m: Machine<G, C, D>, inv: C -> bool, c: C, ds: seq<D>)
    requires Sound(m) && Kept(m, inv) && inv(c)
    ensures inv(RunAll(m, c, ds).config)
    ensures forall x :: x in Passed(m, c, ds) ==> inv(x)
  {
    assert forall x, d :: inv(x) ==> KeptBy(m.step(x, d), inv);
    InvariantOr(m, inv, inv, c, ds);
  }

  function SumOf<C>(cs: seq<C>, f: C -> nat): nat {
    if cs == [] then 0 else f(cs[0]) + SumOf(cs[1..], f)
  }

  // A node that moves on adds so much, and any other leaves it.
  ghost predicate Adds<G(!new), C(!new), D(!new)>(m: Machine<G, C, D>, g: C -> nat, f: C -> nat) {
    forall c, d :: if m.step(c, d).Moved? then g(m.step(c, d).next) == g(c) + f(c)
        else KeptBy(m.step(c, d), y => g(y) == g(c))
  }

  // What the nodes add is what the run added.
  lemma {:induction false} Tally<G(!new), C(!new), D(!new)>(m: Machine<G, C, D>, g: C -> nat, f: C -> nat, c: C,
      ds: seq<D>)
    requires Sound(m) && Adds(m, g, f)
    ensures var passed := Passed(m, c, ds);
            passed != [] && g(RunAll(m, c, ds).config) == g(c) + SumOf(passed[..|passed| - 1], f)
    decreases m.fuel(c)
  {
    var asks := m.step(c, None).Parked?;
    var d := if asks && ds != [] then Some(ds[0]) else None;
    var passed := Passed(m, c, ds);
    if m.step(c, d).Moved? {
      var rest := if asks then ds[1..] else ds;
      Tally(m, g, f, m.step(c, d).next, rest);
      assert passed[..|passed| - 1][0] == c;
      assert passed[..|passed| - 1][1..] == Passed(m, m.step(c, d).next, rest)[..|passed| - 2];
    } else {
      assert KeptBy(m.step(c, d), y => g(y) == g(c));
      assert passed[..0] == [];
    }
  }

  // Where a run stops, its node does what the stop says.
  lemma {:induction false} StopMeaning<G(!new), C(!new), D(!new)>(m: Machine<G, C, D>, c: C, ds: seq<D>)
      returns (at: C, d: Option<D>)
    requires Sound(m)
    ensures at in Passed(m, c, ds)
    ensures var cp := RunAll(m, c, ds);
            match cp.stop
            case Waiting(g) => d == None && m.step(at, d) == Parked(g, cp.config)
            case Done => m.step(at, d) == Ended(cp.config)
            case Broken => m.step(at, d) == Raised(cp.config)
    decreases m.fuel(c)
  {
    var asks := m.step(c, None).Parked?;
    at := c;
    d := if asks && ds != [] then Some(ds[0]) else None;
    if m.step(c, d).Moved? {
      at, d := StopMeaning(m, m.step(c, d).next, if asks then ds[1..] else ds);
    }
  }

  // Whatever a run goes through, it starts there or another node it went through moved there.
  lemma {:induction false} CameFrom<G(!new), C(!new), D(!new)>(m: Machine<G, C, D>, c: C, ds: seq<D>, x: C)
      returns (y: C, d: Option<D>)
    requires Sound(m) && x in Passed(m, c, ds) && x != c
    ensures y in Passed(m, c, ds) && m.step(y, d) == Moved(x)
    decreases m.fuel(c)
  {
    var asks := m.step(c, None).Parked?;
    d := if asks && ds != [] then Some(ds[0]) else None;
    var next, rest := m.step(c, d).next, if asks then ds[1..] else ds;
    assert Passed(m, c, ds) == [c] + Passed(m, next, rest);
    assert x in Passed(m, next, rest);
    if x == next {
      y := c;
    } else {
      y, d := CameFrom(m, next, rest, x);
    }
  }

  // Given a decision for every time it can ask, a run does not end up waiting.
  lemma {:induction false} NotLeftWaiting<G(!new), C(!new), D(!new)>(m: Machine<G, C, D>, asks: C -> bool,
      left: C -> nat, c: C, ds: seq<D>)
    requires Sound(m) && Bounds(m, asks, left)
    requires forall x :: m.step(x, None).Parked? ==> asks(x)
    requires |ds| >= left(c)
    ensures !RunAll(m, c, ds).stop.Waiting?
    decreases m.fuel(c)
  {
    var parked := m.step(c, None).Parked?;
    var o := m.step(c, if parked then Some(ds[0]) else None);
    if o.Moved? {
      NotLeftWaiting(m, asks, left, o.next, if parked then ds[1..] else ds);
    }
  }

  // ---- The object ----

  // One checkpointer, shared by every process.  Each superstep is saved before the next begins.
  class Checkpointer<G(!new), C(!new), D(!new)> {
    const m: Machine<G, C, D>
    var saved: Store<G, C>

    constructor (m: Machine<G, C, D>)
      ensures this.m == m && saved == map[]
    {
      this.m, saved := m, map[];
    }

    method Invoke(run: RunId, c: C, decision: Option<D>) returns (stop: Stop<G>)
      requires Sound(m)
      modifies this
      ensures saved == old(saved)[run := Slice(m, c, decision)] && stop == saved[run].stop
    {
      var at, given := c, decision;
      saved := saved[run := Checkpoint(at, Broken)];
      while m.step(at, given).Moved?
        invariant Slice(m, at, given) == Slice(m, c, decision)
        invariant saved == old(saved)[run := Checkpoint(at, Broken)]
        decreases m.fuel(at)
      {
        at, given := m.step(at, given).next, None;
        saved := saved[run := Checkpoint(at, Broken)];
      }
      match m.step(at, given) {
        case Parked(g, left) => saved := saved[run := Checkpoint(left, Waiting(g))];
        case Ended(last) => saved := saved[run := Checkpoint(last, Done)];
        case Raised(left) => saved := saved[run := Checkpoint(left, Broken)];
      }
      stop := saved[run].stop;
    }

    method StartRun(run: RunId, initial: C) returns (reply: Reply<G>)
      requires Sound(m)
      modifies this
      ensures (saved, reply) == Serve(m, old(saved), Start(run, initial))
    {
      if run in saved {
        return AlreadyKnown;
      }
      var stop := Invoke(run, initial, None);
      reply := Ran(stop);
    }

    method ResumeRun(run: RunId, decision: D) returns (reply: Reply<G>)
      requires Sound(m)
      modifies this
      ensures (saved, reply) == Serve(m, old(saved), Resume(run, decision))
    {
      if run !in saved {
        return UnknownRun;
      }
      if saved[run].stop.Done? {
        return AlreadyTerminal;
      }
      var stop := Invoke(run, saved[run].config, Some(decision));
      reply := Ran(stop);
    }
  }
}
