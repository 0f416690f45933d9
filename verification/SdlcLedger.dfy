/**
 The audit trail against the state: how often each thing happened to a run is what its events say.
 */
module SdlcLedger {
  import opened Prelude
  import opened Workspace
  import opened Runner
  import opened Sdlc
  import opened SdlcBounds
  import opened SdlcTheorems
  import T = SdlcTrail

  function Noted(es: seq<Event>, kind: EventKind): nat {
    if es == [] then 0 else Noted(es[..|es| - 1], kind) + if es[|es| - 1].kind == kind then 1 else 0
  }

  lemma {:induction false} NotedAppend(es: seq<Event>, more: seq<Event>, kind: EventKind)
    ensures Noted(es + more, kind) == Noted(es, kind) + Noted(more, kind)
    decreases |more|
  {
    if more == [] {
      assert es + more == es;
    } else {
      assert (es + more)[..|es + more| - 1] == es + more[..|more| - 1];
      NotedAppend(es, more[..|more| - 1], kind);
    }
  }

  lemma {:induction false} NotedAlike(es: seq<Event>, same: EventKind, kind: EventKind)
    requires forall e | e in es :: e.kind == same
    ensures Noted(es, kind) == if kind == same then |es| else 0
    decreases |es|
  {
    if es != [] {
      NotedAlike(es[..|es| - 1], same, kind);
    }
  }

  // Not the start or end of a node, or a decision.
  predicate Notable(kind: EventKind) {
    !kind.NodeStart? && !kind.NodeEnd? && !kind.GateDecision?
  }

  // How often the state says it happened.
  function Happened(s: GraphState, kind: EventKind): nat {
    match kind
    case RetryEvent => s.retryCount
    case FallbackEvent => if s.fallback then 1 else 0
    case SafeStopEvent => if s.safeStop then 1 else 0
    case RollbackEvent => if s.rollbackCount > 0 && !s.safeStop then 1 else 0
    case GuardrailViolationEvent => |s.violations|
    case _ => 0
  }

  predicate Balanced(c: Config, kind: EventKind) {
    && Noted(c.s.events, kind) == Happened(c.s, kind)
    && (!c.at.AtEnd? ==> !c.s.safeStop && c.s.rollbackCount == 0)
    && (!c.at.AtEnd? && !c.at.AtRollback? ==> c.s.violations == [])
  }

  lemma {:induction false} PlainNotes(es: seq<Event>, kind: EventKind)
    requires Notable(kind) && forall e | e in es :: !Notable(e.kind)
    ensures Noted(es, kind) == 0
    decreases |es|
  {
    if es != [] {
      PlainNotes(es[..|es| - 1], kind);
    }
  }

  // A planning node changes nothing that is counted, and notes itself and its decision.
  predicate CountsStay(c: Config, n: Config) {
    && n.s.retryCount == c.s.retryCount && n.s.fallback == c.s.fallback && n.s.safeStop == c.s.safeStop
    && n.s.rollbackCount == c.s.rollbackCount && n.s.violations == c.s.violations
    && !n.at.AtRollback? && !n.at.AtEnd?
  }

  lemma ClarifierStays(env: Env, c: Config, d: Option<Decision>)
    requires c.at.AtClarifier? && Run(env, c, d).Moved?
    ensures CountsStay(c, Run(env, c, d).next)
  {
    hide Strip, Decided;
  }

  lemma ReasonerStays(env: Env, c: Config, d: Option<Decision>)
    requires c.at.AtReasoner? && Run(env, c, d).Moved?
    ensures CountsStay(c, Run(env, c, d).next)
  {
    hide Decided;
  }

  lemma PlanningStays(env: Env, c: Config, d: Option<Decision>)
    requires (c.at.AtArchitect? || c.at.AtPlanner? || c.at.AtReplanner?) && Run(env, c, d).Moved?
    ensures CountsStay(c, Run(env, c, d).next)
  {
    hide TasksFor, Decided;
  }

  lemma AroundKeeps(c: Config, d: Option<Decision>, n: Config, who: Node, kind: EventKind)
    requires Notable(kind) && Balanced(c, kind) && CountsStay(c, n) && BeforeCoder(c.at)
    requires T.Around(c, d, n, who, [Note(who, NodeStart)], [Note(who, NodeEnd)])
    ensures Balanced(n, kind)
  {
    hide Noted, Asks;
    var begun, over := [Note(who, NodeStart)], [Note(who, NodeEnd)];
    var told := if d.Some? && Asks(c).Some? then [Decided(who, Asks(c).value, n.s.gates[Asks(c).value].status)]
        else [];
    assert n.s.events == c.s.events + (begun + told + over);
    PlainNotes(begun + told + over, kind);
    NotedAppend(c.s.events, begun + told + over, kind);
  }

  lemma CoderKeeps(env: Env, c: Config, d: Option<Decision>, kind: EventKind)
    requires (c.at.AtCoder? || c.at.AtSync?) && Run(env, c, d).Moved? && Balanced(c, kind) && Notable(kind)
    ensures Balanced(Run(env, c, d).next, kind)
  {
    hide Noted, Generate, Write;
    NotedAppend(c.s.events, [Note(Coder, SafeStopEvent)], kind);
    NotedAppend(c.s.events, [Note(Coder, NodeEnd)], kind);
    NotedAlike([Note(Coder, SafeStopEvent)], SafeStopEvent, kind);
    NotedAlike([Note(Coder, NodeEnd)], NodeEnd, kind);
  }

  lemma TestsNote(run: TestRun, s: GraphState, kind: EventKind)
    requires Notable(kind)
    ensures Noted(TestBranch(run, s).events, kind)
         == match kind
            case RetryEvent => if !run.passed && !s.fallback && s.retryCount < s.retryLimit then 1 else 0
            case FallbackEvent => if !run.passed && !s.fallback && s.retryCount >= s.retryLimit then 1 else 0
            case _ => 0
  {
    var es := TestBranch(run, s).events;
    hide Decimal, Noted;
    var last := |es| - 1;
    PlainNotes(es[..1], kind);
    PlainNotes(es[last..], kind);
    NotedAppend(es[..1], es[1..last], kind);
    NotedAppend(es[..last], es[last..], kind);
    assert es[..1] + es[1..last] == es[..last] && es[..last] + es[last..] == es;
    NotedAlike(es[1..last], if !s.fallback && s.retryCount < s.retryLimit then RetryEvent else FallbackEvent, kind);
  }

  lemma ForkKeeps(env: Env, c: Config, d: Option<Decision>, kind: EventKind)
    requires c.at.AtFork? && Run(env, c, d).Moved? && Balanced(c, kind) && Notable(kind)
    ensures Balanced(Run(env, c, d).next, kind)
  {
    hide Noted, Write, Decimal;
    var run := env.tests(Latest(c.s));
    var tested, documented := TestBranch(run, c.s).events, DocBranch(env, c.s).events;
    TestsNote(run, c.s, kind);
    PlainNotes(documented, kind);
    NotedAppend(c.s.events, tested, kind);
    NotedAppend(c.s.events + tested, documented, kind);
  }

  lemma GateStays(env: Env, c: Config, d: Option<Decision>)
    requires c.at.AtGate? && Run(env, c, d).Moved?
    ensures var n := Run(env, c, d).next;
            && n.s.retryCount == c.s.retryCount && n.s.fallback == c.s.fallback && n.s.safeStop == c.s.safeStop
            && n.s.rollbackCount == c.s.rollbackCount && (n.at.AtRollback? || n.at.AtEnd?)
            && |n.s.violations| == |env.findingsIn(c.s.coder.codeFiles)|
  {
    hide CommitAll, ViolationEvents, Decided, Blocked;
  }

  lemma GateNotes(es: seq<Event>, findings: seq<Finding>, told: Event, kind: EventKind)
    requires Notable(kind) && told.kind.GateDecision?
    ensures Noted(es + [Note(ReleaseGate, NodeStart)] + ViolationEvents(findings) + [told, Note(ReleaseGate, NodeEnd)],
                kind)
         == Noted(es, kind) + if kind.GuardrailViolationEvent? then |findings| else 0
  {
    var flagged := ViolationEvents(findings);
    assert |flagged| == |findings|;
    T.ViolationsDecideNothing(findings);
    hide Noted, ViolationEvents;
    var begun, over := [Note(ReleaseGate, NodeStart)], [told, Note(ReleaseGate, NodeEnd)];
    NotedAlike(flagged, GuardrailViolationEvent, kind);
    PlainNotes(begun, kind);
    PlainNotes(over, kind);
    NotedAppend(es, begun, kind);
    NotedAppend(es + begun, flagged, kind);
    NotedAppend(es + begun + flagged, over, kind);
  }

  lemma GateKeeps(env: Env, c: Config, d: Option<Decision>, kind: EventKind)
    requires c.at.AtGate? && Run(env, c, d).Moved? && Balanced(c, kind) && Notable(kind)
    ensures Balanced(Run(env, c, d).next, kind)
  {
    hide Run, Noted, ViolationEvents, Blocked;
    T.ReleaseRecords(env, c, d);
    GateStays(env, c, d);
    var found := env.findingsIn(c.s.coder.codeFiles);
    GateNotes(c.s.events, found,
        Decided(ReleaseGate, MergeReleaseApproval, if Blocked(found, d.value) then Rejected else d.value.status), kind);
  }

  lemma RollbackKeeps(env: Env, c: Config, d: Option<Decision>, kind: EventKind)
    requires c.at.AtRollback? && Run(env, c, d).Moved? && Balanced(c, kind) && Notable(kind)
    ensures Balanced(Run(env, c, d).next, kind)
  {
    hide Noted, RevertTo;
    NotedAppend(c.s.events, [Note(Rollback, SafeStopEvent)], kind);
    NotedAppend(c.s.events, [Note(Rollback, RollbackEvent)], kind);
    NotedAlike([Note(Rollback, SafeStopEvent)], SafeStopEvent, kind);
    NotedAlike([Note(Rollback, RollbackEvent)], RollbackEvent, kind);
  }

  lemma BalanceKept(env: Env, c: Config, d: Option<Decision>, kind: EventKind)
    requires Balanced(c, kind) && Notable(kind)
    ensures KeptBy(Run(env, c, d), x => Balanced(x, kind))
  {
    var o := Run(env, c, d);
    hide Run, Noted, Happened, CountsStay, T.Around;
    if !o.Moved? {
      T.StepStays(env, c, d);
    } else {
      match c.at
      case AtClarifier =>
        var who := T.ReadingAround(env, c, d);
        ClarifierStays(env, c, d);
        AroundKeeps(c, d, o.next, who, kind);
      case AtReasoner =>
        var who := T.ReadingAround(env, c, d);
        ReasonerStays(env, c, d);
        AroundKeeps(c, d, o.next, who, kind);
      case AtCoder => CoderKeeps(env, c, d, kind);
      case AtSync => CoderKeeps(env, c, d, kind);
      case AtFork => ForkKeeps(env, c, d, kind);
      case AtGate => GateKeeps(env, c, d, kind);
      case AtRollback => RollbackKeeps(env, c, d, kind);
      case AtEnd => T.StepAnswers(env, c, d);
      case _ =>
        var who := T.PlanningAround(env, c, d);
        PlanningStays(env, c, d);
        AroundKeeps(c, d, o.next, who, kind);
    }
  }

  // In every reachable state the trail holds one retry event for each retry counted, one fallback event
  // for a fallback, one event for each finding, and of an end that is not a release either a rollback
  // event, when the revert worked, or a safe stop; and none besides.
  lemma TheTrailAddsUp(env: Env, clone: Checkout, start: Config, ds: seq<Decision>, c: Config)
    requires Starts(clone, start) && Reached(env, start, ds, c)
    ensures Noted(c.s.events, RetryEvent) == c.s.retryCount
    ensures Noted(c.s.events, FallbackEvent) == if c.s.fallback then 1 else 0
    ensures Noted(c.s.events, SafeStopEvent) == if c.s.safeStop then 1 else 0
    ensures Noted(c.s.events, RollbackEvent) == if c.s.rollbackCount > 0 && !c.s.safeStop then 1 else 0
    ensures Noted(c.s.events, GuardrailViolationEvent) == |c.s.violations|
  {
    hide Noted;
    forall kind | Notable(kind) ensures Noted(c.s.events, kind) == Happened(c.s, kind) {
      AddsUp(env, clone, start, ds, c, kind);
    }
    assert Notable(RetryEvent) && Notable(FallbackEvent) && Notable(SafeStopEvent) && Notable(RollbackEvent);
    assert Notable(GuardrailViolationEvent);
  }

  lemma AddsUp(env: Env, clone: Checkout, start: Config, ds: seq<Decision>, c: Config, kind: EventKind)
    requires Starts(clone, start) && Reached(env, start, ds, c) && Notable(kind)
    ensures Noted(c.s.events, kind) == Happened(c.s, kind)
  {
    GraphSound(env);
    var inv := (x: Config) => Balanced(x, kind);
    forall x, d | inv(x) ensures KeptBy(Graph(env).step(x, d), inv) {
      hide Run, Balanced;
      BalanceKept(env, x, d, kind);
    }
    assert inv(start) by {
      assert Noted([], kind) == 0;
    }
    assert Kept(Graph(env), inv);
    hide Run, Sound, Kept, Noted, Happened;
    Invariant(Graph(env), inv, start, ds);
  }
}
