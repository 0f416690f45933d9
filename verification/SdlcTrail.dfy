/**
 What the audit trail says about a run's gates: every decision once, and nothing else.
 */
module SdlcTrail {
  import opened Prelude
  import opened Workspace
  import opened Runner
  import opened Sdlc
  import opened SdlcBounds
  import opened SdlcTheorems

  // The node that asks at a gate.
  function AskedBy(g: Gate): Node {
    match g
    case ClarificationApproval => RequirementClarifier
    case CodebaseImpactReview => CodebaseReasoner
    case PlanApproval => DecomposerPlanner
    case ReplanningApproval => Replanner
    case MergeReleaseApproval => ReleaseGate
    case SpecialistDesignReview => DesignReviewGate
  }

  // The decisions the trail records for a node, in order.
  function Told(es: seq<Event>, node: Node): seq<Option<Verdict>> {
    if es == [] then []
    else
      var before, e := Told(es[..|es| - 1], node), es[|es| - 1];
      if e.node == node && e.kind.GateDecision? then before + [e.decision] else before
  }

  lemma ToldSnoc(es: seq<Event>, e: Event, node: Node)
    ensures Told(es + [e], node) == Told(es, node) + if e.node == node && e.kind.GateDecision? then [e.decision] else []
  {
    assert (es + [e])[..|es|] == es;
  }

  lemma {:induction false} ToldQuiet(es: seq<Event>, more: seq<Event>, node: Node)
    requires forall e | e in more :: !e.kind.GateDecision?
    ensures Told(es + more, node) == Told(es, node)
    decreases |more|
  {
    if more == [] {
      assert es + more == es;
    } else {
      var n := |more| - 1;
      assert (es + more)[..|es + more| - 1] == es + more[..n];
      ToldQuiet(es, more[..n], node);
    }
  }

  // Quiet events around one decision.
  lemma ToldAround(es: seq<Event>, before: seq<Event>, d: Event, after: seq<Event>, node: Node)
    requires forall e | e in before + after :: !e.kind.GateDecision?
    requires d.kind.GateDecision?
    ensures Told(es + before + [d] + after, node) == Told(es, node) + if d.node == node then [d.decision] else []
  {
    ToldQuiet(es, before, node);
    ToldSnoc(es + before, d, node);
    ToldQuiet(es + before + [d], after, node);
  }

  // What one node adds to the trail: the decision it was given, as it recorded it.
  predicate TellsOf(c: Config, d: Option<Decision>, n: Config, node: Node) {
    var asked := Asks(c);
    var told := d.Some? && asked.Some?;
    && (told ==>
          && asked.value in n.s.gates && n.s.gates[asked.value].payload == d.value
          && n.s.gates == c.s.gates[asked.value := n.s.gates[asked.value]])
    && (!told ==> n.s.gates == c.s.gates)
    && Told(n.s.events, node) == Told(c.s.events, node)
         + if told && AskedBy(asked.value) == node then [Some(n.s.gates[asked.value].status)] else []
  }

  // How a planning or gate node goes through its events: some, its decision if it has one, some
  // more.
  predicate Around(c: Config, d: Option<Decision>, n: Config, who: Node, before: seq<Event>, over: seq<Event>) {
    var asked := Asks(c);
    && (forall e | e in before + over :: !e.kind.GateDecision?)
    && if d.Some? && asked.Some? then
         && asked.value in n.s.gates && AskedBy(asked.value) == who && n.s.gates[asked.value].payload == d.value
         && n.s.gates == c.s.gates[asked.value := n.s.gates[asked.value]]
         && n.s.events == c.s.events + before + [Decided(who, asked.value, n.s.gates[asked.value].status)] + over
       else
         n.s.gates == c.s.gates && n.s.events == c.s.events + before + over
  }

  lemma AroundTells(c: Config, d: Option<Decision>, n: Config, who: Node, before: seq<Event>, over: seq<Event>,
      node: Node)
    requires Around(c, d, n, who, before, over)
    ensures TellsOf(c, d, n, node)
  {
    hide Told, Asks;
    if d.Some? && Asks(c).Some? {
      ToldAround(c.s.events, before, Decided(who, Asks(c).value, n.s.gates[Asks(c).value].status), over, node);
    } else {
      ToldQuiet(c.s.events, before, node);
      ToldQuiet(c.s.events + before, over, node);
    }
  }

  // The planning node where a run stands.
  function PlannerAt(at: At): Node {
    match at
    case AtClarifier => RequirementClarifier
    case AtReasoner => CodebaseReasoner
    case AtArchitect => ArchitectureDesign
    case AtPlanner => DecomposerPlanner
    case _ => Replanner
  }

  lemma ReadingAround(env: Env, c: Config, d: Option<Decision>) returns (who: Node)
    requires (c.at.AtClarifier? || c.at.AtReasoner?) && Run(env, c, d).Moved?
    ensures Around(c, d, Run(env, c, d).next, who, [Note(who, NodeStart)], [Note(who, NodeEnd)])
    ensures who == PlannerAt(c.at)
  {
    hide Strip;
    who := if c.at.AtClarifier? then RequirementClarifier else CodebaseReasoner;
  }

  lemma PlanningAround(env: Env, c: Config, d: Option<Decision>) returns (who: Node)
    requires (c.at.AtArchitect? || c.at.AtPlanner? || c.at.AtReplanner?) && Run(env, c, d).Moved?
    ensures Around(c, d, Run(env, c, d).next, who, [Note(who, NodeStart)], [Note(who, NodeEnd)])
    ensures who == PlannerAt(c.at)
  {
    hide TasksFor;
    who := if c.at.AtArchitect? then ArchitectureDesign else if c.at.AtPlanner? then DecomposerPlanner else Replanner;
    var begun, over := [Note(who, NodeStart)], [Note(who, NodeEnd)];
    assert c.s.events + [Note(who, NodeStart), Note(who, NodeEnd)] == c.s.events + begun + over;
    if c.at.AtReplanner? {
      var told := Decided(who, ReplanningApproval, d.value.status);
      assert c.s.events + [Note(who, NodeStart), told, Note(who, NodeEnd)] == c.s.events + begun + [told] + over;
    }
  }

  lemma ReleaseRecords(env: Env, c: Config, d: Option<Decision>)
    requires c.at.AtGate? && Run(env, c, d).Moved?
    ensures d.Some? && Asks(c) == Some(MergeReleaseApproval)
    ensures var findings, n := env.findingsIn(c.s.coder.codeFiles), Run(env, c, d).next;
            var status := if Blocked(findings, d.value) then Rejected else d.value.status;
            && n.s.gates == c.s.gates[MergeReleaseApproval := GateRecord(status, d.value)]
            && n.s.events == c.s.events + [Note(ReleaseGate, NodeStart)] + ViolationEvents(findings)
                 + [Decided(ReleaseGate, MergeReleaseApproval, status), Note(ReleaseGate, NodeEnd)]
  {
    hide CommitAll, ViolationEvents, Blocked, Decided;
  }

  lemma ReleaseAround(env: Env, c: Config, d: Option<Decision>)
    requires c.at.AtGate? && Run(env, c, d).Moved?
    ensures Around(c, d, Run(env, c, d).next, ReleaseGate,
              [Note(ReleaseGate, NodeStart)] + ViolationEvents(env.findingsIn(c.s.coder.codeFiles)),
                  [Note(ReleaseGate, NodeEnd)])
  {
    hide Run, ViolationEvents, Blocked;
    var findings := env.findingsIn(c.s.coder.codeFiles);
    ReleaseRecords(env, c, d);
    var told := Decided(ReleaseGate, MergeReleaseApproval, if Blocked(findings, d.value) then Rejected
        else d.value.status);
    ViolationsDecideNothing(findings);
    var before, over := [Note(ReleaseGate, NodeStart)] + ViolationEvents(findings), [Note(ReleaseGate, NodeEnd)];
    forall e: Event | e in before + over ensures !e.kind.GateDecision? {
      assert e in before || e in over;
    }
    Regroup(c.s.events, Note(ReleaseGate, NodeStart), ViolationEvents(findings), told, Note(ReleaseGate, NodeEnd));
  }

  lemma ViolationsDecideNothing(findings: seq<Finding>)
    ensures forall e | e in ViolationEvents(findings) :: e.kind.GuardrailViolationEvent?
  {
  }

  lemma Regroup(es: seq<Event>, first: Event, more: seq<Event>, told: Event, last: Event)
    ensures es + [first] + more + [told, last] == es + ([first] + more) + [told] + [last]
  {
  }

  lemma ForkTells(env: Env, c: Config, d: Option<Decision>, node: Node)
    requires c.at.AtFork? && Run(env, c, d).Moved?
    ensures TellsOf(c, d, Run(env, c, d).next, node)
  {
    var t, u := TestBranch(env.tests(Latest(c.s)), c.s).events, DocBranch(env, c.s).events;
    hide Told, Write, TestBranch, DocBranch;
    BranchesDecideNothing(env, env.tests(Latest(c.s)), c.s);
    ToldQuiet(c.s.events, t, node);
    ToldQuiet(c.s.events + t, u, node);
  }

  lemma BranchesDecideNothing(env: Env, run: TestRun, s: GraphState)
    ensures forall e | e in TestBranch(run, s).events :: !e.kind.GateDecision?
    ensures forall e | e in DocBranch(env, s).events :: !e.kind.GateDecision?
  {
    hide Decimal;
  }

  lemma TellsCoding(env: Env, c: Config, d: Option<Decision>, node: Node)
    requires (c.at.AtCoder? || c.at.AtSync? || c.at.AtRollback?) && Run(env, c, d).Moved?
    ensures TellsOf(c, d, Run(env, c, d).next, node)
  {
    hide Told, Generate, Write, RevertTo;
    ToldSnoc(c.s.events, Note(Coder, SafeStopEvent), node);
    ToldSnoc(c.s.events, Note(Coder, NodeEnd), node);
    ToldSnoc(c.s.events, Note(Rollback, SafeStopEvent), node);
    ToldSnoc(c.s.events, Note(Rollback, RollbackEvent), node);
  }

  lemma StepTells(env: Env, c: Config, d: Option<Decision>, node: Node)
    requires Run(env, c, d).Moved?
    ensures TellsOf(c, d, Run(env, c, d).next, node)
  {
    hide Run, TellsOf, Around, Told;
    var n := Run(env, c, d).next;
    match c.at
    case AtClarifier =>
      var who := ReadingAround(env, c, d);
      AroundTells(c, d, n, who, [Note(who, NodeStart)], [Note(who, NodeEnd)], node);
    case AtReasoner =>
      var who := ReadingAround(env, c, d);
      AroundTells(c, d, n, who, [Note(who, NodeStart)], [Note(who, NodeEnd)], node);
    case AtGate =>
      ReleaseAround(env, c, d);
      AroundTells(c, d, n, ReleaseGate, [Note(ReleaseGate, NodeStart)]
          + ViolationEvents(env.findingsIn(c.s.coder.codeFiles)),
        [Note(ReleaseGate, NodeEnd)], node);
    case AtCoder => TellsCoding(env, c, d, node);
    case AtFork => ForkTells(env, c, d, node);
    case AtSync => TellsCoding(env, c, d, node);
    case AtRollback => TellsCoding(env, c, d, node);
    case AtEnd => StepAnswers(env, c, d);
    case _ =>
      var who := PlanningAround(env, c, d);
      AroundTells(c, d, n, who, [Note(who, NodeStart)], [Note(who, NodeEnd)], node);
  }

  // ---- Every node is in the trail ----

  // The marks of a node that starts, or that has run: it ends, stops the run, or rolls it back.
  predicate Mark(e: Event, node: Node, ran: bool) {
    e.node == node
    && if ran then e.kind.NodeEnd? || e.kind.SafeStopEvent? || e.kind.RollbackEvent? else e.kind.NodeStart?
  }

  function Marks(es: seq<Event>, node: Node, ran: bool): nat {
    if es == [] then 0 else Marks(es[..|es| - 1], node, ran) + if Mark(es[|es| - 1], node, ran) then 1 else 0
  }

  // The nodes run where a run stands.  The coder and the rollback do not mark their start.
  function NodesAt(at: At): set<Node> {
    match at
    case AtClarifier => {RequirementClarifier}
    case AtReasoner => {CodebaseReasoner}
    case AtArchitect => {ArchitectureDesign}
    case AtPlanner => {DecomposerPlanner}
    case AtReplanner => {Replanner}
    case AtCoder => {Coder}
    case AtFork => {TestExecutor, Documentation}
    case AtSync => {}
    case AtGate => {ReleaseGate}
    case AtRollback => {Rollback}
    case AtEnd => {}
  }

  function MarksLeft(c: Config, node: Node, ran: bool): nat {
    if node in NodesAt(c.at) && (ran || !(node.Coder? || node.Rollback?)) then 1 else 0
  }

  lemma MarksSnoc(es: seq<Event>, e: Event, node: Node, ran: bool)
    ensures Marks(es + [e], node, ran) == Marks(es, node, ran) + if Mark(e, node, ran) then 1 else 0
  {
    assert (es + [e])[..|es|] == es;
  }

  lemma {:induction false} MarksQuiet(es: seq<Event>, more: seq<Event>, node: Node, ran: bool)
    requires forall e | e in more :: !Mark(e, node, ran)
    ensures Marks(es + more, node, ran) == Marks(es, node, ran)
    decreases |more|
  {
    if more == [] {
      assert es + more == es;
    } else {
      var n := |more| - 1;
      assert (es + more)[..|es + more| - 1] == es + more[..n];
      MarksQuiet(es, more[..n], node, ran);
    }
  }

  // A node that starts, does what leaves no mark, and ends.
  lemma MarksFramed(es: seq<Event>, who: Node, quiet: seq<Event>, node: Node, ran: bool)
    requires forall e | e in quiet :: !Mark(e, node, ran)
    ensures Marks(es + [Note(who, NodeStart)] + quiet + [Note(who, NodeEnd)], node, ran)
         == Marks(es, node, ran) + if who == node then 1 else 0
  {
    MarksSnoc(es, Note(who, NodeStart), node, ran);
    MarksQuiet(es + [Note(who, NodeStart)], quiet, node, ran);
    MarksSnoc(es + [Note(who, NodeStart)] + quiet, Note(who, NodeEnd), node, ran);
  }

  lemma AroundMarks(c: Config, d: Option<Decision>, n: Config, who: Node, quiet: seq<Event>, node: Node, ran: bool)
    requires Around(c, d, n, who, [Note(who, NodeStart)] + quiet, [Note(who, NodeEnd)])
    requires forall e | e in quiet :: !Mark(e, node, ran)
    ensures Marks(n.s.events, node, ran) == Marks(c.s.events, node, ran) + if who == node then 1 else 0
  {
    hide Asks, Marks;
    var es, begun, over := c.s.events, [Note(who, NodeStart)], [Note(who, NodeEnd)];
    if d.Some? && Asks(c).Some? {
      var told := Decided(who, Asks(c).value, n.s.gates[Asks(c).value].status);
      assert es + (begun + quiet) + [told] + over == es + begun + (quiet + [told]) + over;
      assert !Mark(told, node, ran);
      MarksFramed(es, who, quiet + [told], node, ran);
    } else {
      assert es + (begun + quiet) + over == es + begun + quiet + over;
      MarksFramed(es, who, quiet, node, ran);
    }
  }

  lemma TestEventsAre(run: TestRun, s: GraphState) returns (middle: seq<Event>, last: Event)
    ensures TestBranch(run, s).events == [Note(TestExecutor, NodeStart)] + middle + [last]
    ensures last.node.TestExecutor? && last.kind.NodeEnd?
    ensures forall e | e in middle :: e.kind.RetryEvent? || e.kind.FallbackEvent?
  {
    var t := TestBranch(run, s).events;
    middle, last := t[1..|t| - 1], t[|t| - 1];
    hide Decimal;
  }

  lemma TestMarks(run: TestRun, s: GraphState, node: Node, ran: bool)
    ensures Marks(s.events + TestBranch(run, s).events, node, ran)
         == Marks(s.events, node, ran) + if node.TestExecutor? then 1 else 0
  {
    var middle, last := TestEventsAre(run, s);
    var begun := [Note(TestExecutor, NodeStart)];
    hide TestBranch, Marks;
    assert s.events + (begun + middle + [last]) == s.events + begun + middle + [last];
    MarksSnoc(s.events, begun[0], node, ran);
    MarksQuiet(s.events + begun, middle, node, ran);
    MarksSnoc(s.events + begun + middle, last, node, ran);
  }

  lemma DocMarks(env: Env, s: GraphState, es: seq<Event>, node: Node, ran: bool)
    ensures Marks(es + DocBranch(env, s).events, node, ran)
         == Marks(es, node, ran) + if node.Documentation? then 1 else 0
  {
    MarksFramed(es, Documentation, [], node, ran);
    assert es + DocBranch(env, s).events == es + [Note(Documentation, NodeStart)] + [] + [Note(Documentation, NodeEnd)];
    hide Marks;
  }

  lemma CodingMarks(env: Env, c: Config, d: Option<Decision>, node: Node, ran: bool)
    requires (c.at.AtCoder? || c.at.AtSync? || c.at.AtRollback?) && Run(env, c, d).Moved?
    ensures Marks(Run(env, c, d).next.s.events, node, ran) == Marks(c.s.events, node, ran) + MarksLeft(c, node, ran)
  {
    hide Marks, Generate, Write, RevertTo;
    MarksSnoc(c.s.events, Note(Coder, SafeStopEvent), node, ran);
    MarksSnoc(c.s.events, Note(Coder, NodeEnd), node, ran);
    MarksSnoc(c.s.events, Note(Rollback, SafeStopEvent), node, ran);
    MarksSnoc(c.s.events, Note(Rollback, RollbackEvent), node, ran);
  }

  lemma ForkStepMarks(env: Env, c: Config, d: Option<Decision>, node: Node, ran: bool)
    requires c.at.AtFork? && Run(env, c, d).Moved?
    ensures Marks(Run(env, c, d).next.s.events, node, ran) == Marks(c.s.events, node, ran) + MarksLeft(c, node, ran)
  {
    hide Marks, Write, TestBranch, DocBranch;
    var run := env.tests(Latest(c.s));
    TestMarks(run, c.s, node, ran);
    DocMarks(env, c.s, c.s.events + TestBranch(run, c.s).events, node, ran);
  }

  lemma PlainMarks(c: Config, d: Option<Decision>, n: Config, who: Node, node: Node, ran: bool)
    requires Around(c, d, n, who, [Note(who, NodeStart)], [Note(who, NodeEnd)])
    requires BeforeCoder(c.at) && who == PlannerAt(c.at)
    ensures Marks(n.s.events, node, ran) == Marks(c.s.events, node, ran) + MarksLeft(c, node, ran)
  {
    hide Around, Marks;
    assert [Note(who, NodeStart)] + [] == [Note(who, NodeStart)];
    AroundMarks(c, d, n, who, [], node, ran);
  }

  lemma GateMarks(env: Env, c: Config, d: Option<Decision>, node: Node, ran: bool)
    requires c.at.AtGate? && Run(env, c, d).Moved?
    ensures Marks(Run(env, c, d).next.s.events, node, ran) == Marks(c.s.events, node, ran) + MarksLeft(c, node, ran)
  {
    hide Run, Around, Marks, ViolationEvents;
    ReleaseAround(env, c, d);
    var findings := env.findingsIn(c.s.coder.codeFiles);
    ViolationsDecideNothing(findings);
    AroundMarks(c, d, Run(env, c, d).next, ReleaseGate, ViolationEvents(findings), node, ran);
  }

  // Every node that runs leaves its marks, and no other.
  lemma StepMarks(env: Env, c: Config, d: Option<Decision>, node: Node, ran: bool)
    requires Run(env, c, d).Moved?
    ensures Marks(Run(env, c, d).next.s.events, node, ran) == Marks(c.s.events, node, ran) + MarksLeft(c, node, ran)
  {
    StepAnswers(env, c, d);
    hide Run, Marks, Around, MarksLeft, NodesAt;
    var n := Run(env, c, d).next;
    if c.at.AtClarifier? || c.at.AtReasoner? {
      var who := ReadingAround(env, c, d);
      PlainMarks(c, d, n, who, node, ran);
    } else if BeforeCoder(c.at) {
      var who := PlanningAround(env, c, d);
      PlainMarks(c, d, n, who, node, ran);
    } else if c.at.AtFork? {
      ForkStepMarks(env, c, d, node, ran);
    } else if c.at.AtGate? {
      GateMarks(env, c, d, node, ran);
    } else {
      CodingMarks(env, c, d, node, ran);
    }
  }

  // The trail of a run says of every node, exactly as often as the run went through it, that it started
  // and that it ended (or stopped the run, or rolled it back).  The coder and the rollback leave only
  // the latter.
  lemma EveryNodeIsInTheTrail(env: Env, start: Config, ds: seq<Decision>, node: Node, ran: bool)
    ensures var through := Through(env, start, ds);
            && through != []
            && Marks(Finally(env, start, ds).config.s.events, node, ran)
               == Marks(start.s.events, node, ran)
                  + SumOf(through[..|through| - 1], (c: Config) => MarksLeft(c, node, ran))
  {
    GraphSound(env);
    var g, f := (c: Config) => Marks(c.s.events, node, ran), (c: Config) => MarksLeft(c, node, ran);
    MarksAdd(env, node, ran, g, f);
    hide Run, Marks, MarksLeft, Sound, Adds;
    Tally(Graph(env), g, f, start, ds);
  }

  lemma MarksAdd(env: Env, node: Node, ran: bool, g: Config -> nat, f: Config -> nat)
    requires forall c: Config :: g(c) == Marks(c.s.events, node, ran)
    requires forall c: Config :: f(c) == MarksLeft(c, node, ran)
    ensures Adds(Graph(env), g, f)
  {
    hide Run, Marks, MarksLeft;
    forall c, d
      ensures if Run(env, c, d).Moved? then g(Run(env, c, d).next) == g(c) + f(c)
              else KeptBy(Run(env, c, d), (y: Config) => g(y) == g(c))
    {
      if Run(env, c, d).Moved? {
        StepMarks(env, c, d, node, ran);
      } else {
        StepStill(env, c, d);
      }
    }
  }

  lemma StepStill(env: Env, c: Config, d: Option<Decision>)
    requires !Run(env, c, d).Moved?
    ensures KeptBy(Run(env, c, d), (x: Config) => x.s == c.s)
  {
    hide CommitAll, RevertTo, Decided, TestBranch, DocBranch, TasksFor, Strip, Write, Generate;
  }

  // Each gate the state records, the trail records once and with the same verdict; and a gate on
  // record does not ask again.
  predicate TrailAgrees(c: Config, g: Gate) {
    && Told(c.s.events, AskedBy(g)) == (if g in c.s.gates then [Some(c.s.gates[g].status)] else [])
    && (g in c.s.gates ==> AsksLeft(g, c) == 0)
  }

  lemma AskerIsUnique(g: Gate, h: Gate)
    requires AskedBy(g) == AskedBy(h)
    ensures g == h
  {
  }

  lemma TrailStep(env: Env, c: Config, d: Option<Decision>, g: Gate)
    requires TrailAgrees(c, g)
    ensures KeptBy(Run(env, c, d), x => TrailAgrees(x, g))
  {
    hide Run, Told, AsksLeft, TellsOf;
    var o := Run(env, c, d);
    if o.Moved? {
      StepUsesAsks(env, c, d, g);
      StepAnswers(env, c, d);
      StepTells(env, c, d, AskedBy(g));
      TrailFollows(c, d, o.next, g);
    } else {
      StepStays(env, c, d);
      forall x: Config | x.s == c.s && x.at == c.at ensures TrailAgrees(x, g) {
        StaysAgreed(c, x, g);
      }
    }
  }

  lemma StaysAgreed(c: Config, x: Config, g: Gate)
    requires TrailAgrees(c, g) && x.s == c.s && x.at == c.at
    ensures TrailAgrees(x, g)
  {
    hide Told;
  }

  // A node that asks moves on only with an answer.
  lemma StepAnswers(env: Env, c: Config, d: Option<Decision>)
    requires Run(env, c, d).Moved?
    ensures Asks(c).Some? ==> d.Some?
    ensures !c.at.AtEnd?
  {
    StepShape(env, c, d);
  }

  lemma StepStays(env: Env, c: Config, d: Option<Decision>)
    requires !Run(env, c, d).Moved?
    ensures KeptBy(Run(env, c, d), (x: Config) => x.s == c.s && x.at == c.at)
  {
    hide CommitAll, RevertTo, Decided, TestBranch, DocBranch, TasksFor, Strip, Write, Generate;
  }

  lemma TrailFollows(c: Config, d: Option<Decision>, n: Config, g: Gate)
    requires TrailAgrees(c, g) && TellsOf(c, d, n, AskedBy(g))
    requires Asks(c).Some? ==> d.Some?
    requires AsksLeft(g, n) + (if Asks(c) == Some(g) then 1 else 0) <= AsksLeft(g, c)
    ensures TrailAgrees(n, g)
  {
    hide Told, Asks;
    assert AsksLeft(g, c) <= 1;
    if Asks(c).Some? && AskedBy(Asks(c).value) == AskedBy(g) {
      AskerIsUnique(Asks(c).value, g);
    }
  }

  // In every reachable state of every run the trail holds exactly one decision for each gate that
  // was answered, with the verdict that was recorded (the forced rejection of a blocked merge
  // included), and none for any other gate.
  lemma EveryDecisionIsInTheTrail(env: Env, clone: Checkout, start: Config, ds: seq<Decision>, c: Config, g: Gate)
    requires Starts(clone, start) && Reached(env, start, ds, c)
    ensures Told(c.s.events, AskedBy(g)) == if g in c.s.gates then [Some(c.s.gates[g].status)] else []
  {
    GraphSound(env);
    var inv := (x: Config) => TrailAgrees(x, g);
    forall x, d | inv(x) ensures KeptBy(Graph(env).step(x, d), inv) {
      hide Run, TrailAgrees;
      TrailStep(env, x, d, g);
    }
    assert Told([], AskedBy(g)) == [];
    assert inv(start);
    assert Kept(Graph(env), inv);
    hide TrailAgrees, Run, Sound, Kept;
    Invariant(Graph(env), inv, start, ds);
  }
}
