/**
 What the verdicts at the first gates do: they are recorded, and the run goes on all the same.
 */
module SdlcVerdicts {
  import opened Prelude
  import opened Workspace
  import opened Runner
  import opened Sdlc
  import opened SdlcBounds

  predicate SameAt(s: GraphState, t: GraphState, gate: Gate) {
    (gate in s.gates <==> gate in t.gates) && (gate in s.gates ==> s.gates[gate] == t.gates[gate])
  }

  // Equal up to the trail and the record of the first three gates.
  predicate AlikeState(s: GraphState, t: GraphState) {
    && t == s.(gates := t.gates, events := t.events)
    && SameAt(s, t, ReplanningApproval) && SameAt(s, t, MergeReleaseApproval)
  }

  predicate Alike(c: Config, e: Config) {
    c.at == e.at && c.w == e.w && AlikeState(c.s, e.s)
  }

  predicate AlikeOutcome(x: Step, y: Step) {
    match x
    case Parked(gate, left) => y.Parked? && y.gate == gate && Alike(left, y.left)
    case Moved(next) => y.Moved? && Alike(next, y.next)
    case Ended(last) => y.Ended? && Alike(last, y.last)
    case Raised(left) => y.Raised? && Alike(left, y.left)
  }

  predicate Early(c: Config) {
    c.at.AtClarifier? || c.at.AtReasoner? || c.at.AtPlanner?
  }

  // The same answer, but for the verdict when an early gate asks.
  predicate AlikeAnswers(c: Config, d: Option<Decision>, o: Option<Decision>) {
    d == o || (Early(c) && d.Some? && o.Some? && d.value.clarified == o.value.clarified)
  }

  lemma ClarifiedAlike(env: Env, s: GraphState, t: GraphState)
    requires AlikeState(s, t)
    ensures s.requirementRaw == t.requirementRaw && s.scenario == t.scenario
    ensures var a := s.(ambiguities := env.ambiguitiesIn(s.requirementRaw), clarified := Strip(s.requirementRaw));
            var b := t.(ambiguities := env.ambiguitiesIn(t.requirementRaw), clarified := Strip(t.requirementRaw));
            AlikeState(a, b) && a.scenario == s.scenario && b.scenario == t.scenario
  {
    hide Strip;
  }

  lemma NotedAlike(s: GraphState, t: GraphState, x: seq<Event>, y: seq<Event>)
    requires AlikeState(s, t)
    ensures AlikeState(s.(events := x), t.(events := y))
  {
  }

  lemma RecordedAlike(s: GraphState, t: GraphState, v: Decision, o: Decision, x: seq<Event>, y: seq<Event>)
    requires AlikeState(s, t) && v.clarified == o.clarified
    ensures var text, said := v.clarified.GetOr(s.clarified), o.clarified.GetOr(t.clarified);
            AlikeState(RecordGate(s, ClarificationApproval, v.status, v).(clarified := text).(events := x),
                RecordGate(t, ClarificationApproval, o.status, o).(clarified := said).(events := y))
  {
  }

  lemma ClarifyAlike(env: Env, c: Config, e: Config, d: Option<Decision>, o: Option<Decision>)
    requires Alike(c, e) && AlikeAnswers(c, d, o) && c.at.AtClarifier?
    ensures AlikeOutcome(Run(env, c, d), Run(env, e, o))
  {
    hide Strip, Decided, AlikeState, RecordGate;
    var begun, over := [Note(RequirementClarifier, NodeStart)], [Note(RequirementClarifier, NodeEnd)];
    var s := c.s.(ambiguities := env.ambiguitiesIn(c.s.requirementRaw), clarified := Strip(c.s.requirementRaw));
    var t := e.s.(ambiguities := env.ambiguitiesIn(e.s.requirementRaw), clarified := Strip(e.s.requirementRaw));
    ClarifiedAlike(env, c.s, e.s);
    if c.s.scenario.Greenfield? {
      if d.Some? {
        var told := Decided(RequirementClarifier, ClarificationApproval, d.value.status);
        var said := Decided(RequirementClarifier, ClarificationApproval, o.value.status);
        RecordedAlike(s, t, d.value, o.value, s.events + begun + [told] + over, t.events + begun + [said] + over);
      }
    } else {
      NotedAlike(s, t, s.events + begun + over, t.events + begun + over);
    }
  }

  lemma ReasonAlike(env: Env, c: Config, e: Config, d: Option<Decision>, o: Option<Decision>)
    requires Alike(c, e) && AlikeAnswers(c, d, o) && c.at.AtReasoner?
    ensures AlikeOutcome(Run(env, c, d), Run(env, e, o))
  {
    hide Decided;
    if c.s.scenario.Brownfield? {
      if d.Some? {
        assert AlikeOutcome(Reason(env, c, d), Reason(env, e, o));
      }
    } else {
      assert AlikeOutcome(Reason(env, c, d), Reason(env, e, o));
    }
  }

  lemma PlannedAlike(s: GraphState, t: GraphState)
    requires AlikeState(s, t)
    ensures s.scenario == t.scenario
    ensures var a, b := s.(tasks := TasksFor(s)), t.(tasks := TasksFor(t));
            && AlikeState(a, b) && NeedsReplanning(a) == NeedsReplanning(b)
            && a.scenario == s.scenario && b.scenario == t.scenario
  {
    SameTasks(s, t);
    hide TasksFor;
  }

  lemma PlanRecordedAlike(s: GraphState, t: GraphState, v: Decision, o: Decision, x: seq<Event>, y: seq<Event>)
    requires AlikeState(s, t)
    ensures AlikeState(RecordGate(s, PlanApproval, v.status, v).(events := x),
                RecordGate(t, PlanApproval, o.status, o).(events := y))
  {
  }

  lemma SameTasks(s: GraphState, t: GraphState)
    requires AlikeState(s, t)
    ensures TasksFor(s) == TasksFor(t)
  {
    assert SameAt(s, t, ReplanningApproval);
  }

  lemma PlanAlike(env: Env, c: Config, e: Config, d: Option<Decision>, o: Option<Decision>)
    requires Alike(c, e) && AlikeAnswers(c, d, o) && c.at.AtPlanner?
    ensures AlikeOutcome(Run(env, c, d), Run(env, e, o))
  {
    hide TasksFor, Decided, RecordGate, AlikeState, NeedsReplanning;
    var begun, over := [Note(DecomposerPlanner, NodeStart)], [Note(DecomposerPlanner, NodeEnd)];
    var s, t := c.s.(tasks := TasksFor(c.s)), e.s.(tasks := TasksFor(e.s));
    PlannedAlike(c.s, e.s);
    if c.s.scenario.Greenfield? {
      if d.Some? {
        var told := Decided(DecomposerPlanner, PlanApproval, d.value.status);
        var said := Decided(DecomposerPlanner, PlanApproval, o.value.status);
        PlanRecordedAlike(s, t, d.value, o.value, s.events + begun + [told] + over, t.events + begun + [said] + over);
      }
    } else {
      NotedAlike(s, t, s.events + begun + over, t.events + begun + over);
    }
  }

  lemma PlainAlike(env: Env, c: Config, e: Config, d: Option<Decision>)
    requires Alike(c, e) && (c.at.AtArchitect? || c.at.AtReplanner? || c.at.AtEnd?)
    ensures AlikeOutcome(Run(env, c, d), Run(env, e, d))
  {
    hide Decided;
  }

  lemma CodeAlike(env: Env, c: Config, e: Config)
    requires Alike(c, e) && c.at.AtCoder?
    ensures AlikeOutcome(Run(env, c, None), Run(env, e, None))
  {
    assert Generate(env, c.s) == Generate(env, e.s);
    hide Generate, Write;
  }

  lemma TestsAlike(run: TestRun, s: GraphState, t: GraphState)
    requires AlikeState(s, t)
    ensures TestBranch(run, s) == TestBranch(run, t)
  {
    hide Decimal;
    assert s.coder == t.coder && s.fallback == t.fallback && s.retryCount == t.retryCount
        && s.retryLimit == t.retryLimit by {
      }
    hide AlikeState;
  }

  lemma DocsAlike(env: Env, s: GraphState, t: GraphState)
    requires AlikeState(s, t)
    ensures DocBranch(env, s) == DocBranch(env, t) && Latest(s) == Latest(t)
  {
  }

  lemma JoinAlike(s: GraphState, t: GraphState, u: TestUpdates, v: DocUpdates)
    requires AlikeState(s, t)
    ensures AlikeState(ApplyDoc(ApplyTest(s, u), v), ApplyDoc(ApplyTest(t, u), v))
  {
  }

  lemma ForkAlike(env: Env, c: Config, e: Config)
    requires Alike(c, e) && c.at.AtFork?
    ensures AlikeOutcome(Run(env, c, None), Run(env, e, None))
  {
    var run := env.tests(Latest(c.s));
    hide DocBranch, TestBranch, Write, Latest, ApplyTest, ApplyDoc, AlikeState;
    DocsAlike(env, c.s, e.s);
    TestsAlike(run, c.s, e.s);
    JoinAlike(c.s, e.s, TestBranch(run, c.s), DocBranch(env, c.s));
  }

  lemma SyncAlike(env: Env, c: Config, e: Config)
    requires Alike(c, e) && c.at.AtSync?
    ensures AlikeOutcome(Run(env, c, None), Run(env, e, None))
  {
  }

  lemma ReleaseAlike(s: GraphState, t: GraphState, status: Verdict, v: Decision, found: seq<Violation>,
      x: seq<Event>, y: seq<Event>, sha: Option<CommitId>)
    requires AlikeState(s, t)
    ensures s.coder == t.coder
    ensures var a := RecordGate(s, MergeReleaseApproval, status, v).(violations := found, events := x);
            var b := RecordGate(t, MergeReleaseApproval, status, v).(violations := found, events := y);
            && AlikeState(a, b)
            && AlikeState(a.(status := Completed, finished := true, commitAfter := sha),
                   b.(status := Completed, finished := true, commitAfter := sha))
  {
  }

  function ReleaseEvents(findings: seq<Finding>, s: GraphState, status: Verdict): seq<Event> {
    s.events + [Note(ReleaseGate, NodeStart)] + ViolationEvents(findings)
      + [Decided(ReleaseGate, MergeReleaseApproval, status), Note(ReleaseGate, NodeEnd)]
  }

  lemma GateAlike(env: Env, c: Config, e: Config, d: Option<Decision>)
    requires Alike(c, e) && c.at.AtGate?
    ensures AlikeOutcome(Run(env, c, d), Run(env, e, d))
  {
    hide CommitAll, Decided, ViolationEvents, Blocked, AlikeState, RecordGate;
    if Valid(c.w) && d.Some? {
      var v, findings := d.value, env.findingsIn(c.s.coder.codeFiles);
      var status := if Blocked(findings, v) then Rejected else v.status;
      var found := seq(|findings|, i requires 0 <= i < |findings| => Violation(findings[i], v.overrideGuardrails));
      var sha := if env.releaseReadable then CommitAll(env.rules, c.w, env.commitLuck).0.head else None;
      ReleaseAlike(c.s, e.s, status, v, found, ReleaseEvents(findings, c.s, status),
          ReleaseEvents(findings, e.s, status), sha);
      assert AlikeOutcome(Release(env, c, d), Release(env, e, d));
    }
  }

  lemma RolledAlike(s: GraphState, t: GraphState, x: seq<Event>, y: seq<Event>)
    requires AlikeState(s, t)
    ensures var a := s.(rollbackCount := s.rollbackCount + 1, status := Failed, finished := true);
            var b := t.(rollbackCount := t.rollbackCount + 1, status := Failed, finished := true);
            && s.coder == t.coder && a.coder == s.coder && b.coder == t.coder
            && AlikeState(a.(events := x), b.(events := y))
            && AlikeState(a.(safeStop := true, events := x), b.(safeStop := true, events := y))
  {
  }

  lemma RollbackAlike(env: Env, c: Config, e: Config)
    requires Alike(c, e) && c.at.AtRollback?
    ensures AlikeOutcome(Run(env, c, None), Run(env, e, None))
  {
    hide AlikeState, RevertTo;
    RolledAlike(c.s, e.s, c.s.events + [Note(Rollback, SafeStopEvent)], e.s.events + [Note(Rollback, SafeStopEvent)]);
    RolledAlike(c.s, e.s, c.s.events + [Note(Rollback, RollbackEvent)], e.s.events + [Note(Rollback, RollbackEvent)]);
    if Valid(c.w) {
      assert Run(env, c, None) == RollBackRun(env, c) && Run(env, e, None) == RollBackRun(env, e);
    }
  }

  lemma StepAlike(env: Env, c: Config, e: Config, d: Option<Decision>, o: Option<Decision>)
    requires Alike(c, e) && AlikeAnswers(c, d, o) && (d.Some? ==> Run(env, c, None).Parked?)
    ensures AlikeOutcome(Run(env, c, d), Run(env, e, o))
  {
    StepShape(env, c, d);
    hide Run, AlikeState, AlikeOutcome;
    match c.at
    case AtClarifier => ClarifyAlike(env, c, e, d, o);
    case AtReasoner => ReasonAlike(env, c, e, d, o);
    case AtArchitect => PlainAlike(env, c, e, d);
    case AtPlanner => PlanAlike(env, c, e, d, o);
    case AtReplanner => PlainAlike(env, c, e, d);
    case AtCoder => CodeAlike(env, c, e);
    case AtFork => ForkAlike(env, c, e);
    case AtSync => SyncAlike(env, c, e);
    case AtGate => GateAlike(env, c, e, d);
    case AtRollback => RollbackAlike(env, c, e);
    case AtEnd => PlainAlike(env, c, e, d);
  }

  // How many decisions from here on are for early gates, whatever they say.
  function EarlyLeft(c: Config): nat {
    match c.at
    case AtClarifier => if c.s.scenario.Greenfield? then 2 else if c.s.scenario.Brownfield? then 1 else 0
    case AtReasoner => if c.s.scenario.Ambiguous? then 0 else 1
    case AtArchitect => if c.s.scenario.Greenfield? then 1 else 0
    case AtPlanner => if c.s.scenario.Greenfield? then 1 else 0
    case _ => 0
  }

  lemma AsksEarly(env: Env, c: Config)
    requires Run(env, c, None).Parked? && EarlyLeft(c) > 0
    ensures Early(c)
  {
    hide TasksFor, Strip;
  }

  // The same decisions, but for the verdicts of the first n.
  predicate SameBut(n: nat, ds: seq<Decision>, es: seq<Decision>) {
    |ds| == |es| && forall k | 0 <= k < |ds| :: ds[k].clarified == es[k].clarified && (k < n || ds[k] == es[k])
  }

  lemma EarlyLeads(env: Env, c: Config, d: Option<Decision>)
    requires Run(env, c, d).Moved?
    ensures EarlyLeft(Run(env, c, d).next) + (if Run(env, c, None).Parked? then 1 else 0) >= EarlyLeft(c)
  {
    hide CommitAll, RevertTo, Decided, TestBranch, DocBranch, TasksFor, Strip, Write, Generate;
  }

  // Of the first answers nothing but the verdict of an early gate can differ.
  lemma AnswersAlike(c: Config, ds: seq<Decision>, es: seq<Decision>)
    requires SameBut(EarlyLeft(c), ds, es) && ds != [] && (EarlyLeft(c) > 0 ==> Early(c))
    ensures AlikeAnswers(c, Some(ds[0]), Some(es[0]))
  {
  }

  lemma LaterSame(n: nat, m: nat, ds: seq<Decision>, es: seq<Decision>)
    requires SameBut(n, ds, es)
    ensures m >= n ==> SameBut(m, ds, es)
    ensures ds != [] && m + 1 >= n ==> SameBut(m, ds[1..], es[1..])
  {
  }

  // One node of either run: they ask together, and whatever the nodes do next is alike.
  lemma NodesAlike(env: Env, c: Config, e: Config, ds: seq<Decision>, es: seq<Decision>)
    requires Alike(c, e) && SameBut(EarlyLeft(c), ds, es)
    ensures AlikeOutcome(Run(env, c, None), Run(env, e, None))
    ensures Run(env, c, None).Parked? && ds != [] ==>
              var x := Run(env, c, Some(ds[0]));
              AlikeOutcome(x, Run(env, e, Some(es[0]))) && (x.Moved? ==> SameBut(EarlyLeft(x.next), ds[1..], es[1..]))
    ensures !Run(env, c, None).Parked? && Run(env, c, None).Moved? ==>
        SameBut(EarlyLeft(Run(env, c, None).next), ds, es)
  {
    assert |ds| == |es|;
    hide Run, EarlyLeft, Alike, Early, SameBut, AlikeOutcome;
    StepAlike(env, c, e, None, None);
    if Run(env, c, None).Parked? {
      if ds != [] {
        if EarlyLeft(c) > 0 {
          AsksEarly(env, c);
        }
        AnswersAlike(c, ds, es);
        StepAlike(env, c, e, Some(ds[0]), Some(es[0]));
        if Run(env, c, Some(ds[0])).Moved? {
          EarlyLeads(env, c, Some(ds[0]));
          LaterSame(EarlyLeft(c), EarlyLeft(Run(env, c, Some(ds[0])).next), ds, es);
        }
      }
    } else if Run(env, c, None).Moved? {
      EarlyLeads(env, c, None);
      LaterSame(EarlyLeft(c), EarlyLeft(Run(env, c, None).next), ds, es);
    }
  }

  lemma FirstNode(env: Env, c: Config, ds: seq<Decision>)
    ensures var asks := Run(env, c, None).Parked?;
            var o := Run(env, c, if asks && ds != [] then Some(ds[0]) else None);
            match o
            case Parked(gate, left) => Finally(env, c, ds) == Checkpoint(left, Waiting(gate))
            case Moved(next) =>
              (asks ==> ds != []) && Fuel(next) < Fuel(c)
              && Finally(env, c, ds) == Finally(env, next, if asks then ds[1..] else ds)
            case Ended(last) => Finally(env, c, ds) == Checkpoint(last, Done)
            case Raised(left) => Finally(env, c, ds) == Checkpoint(left, Broken)
  {
    GraphSound(env);
    var m := Graph(env);
    var asks := m.step(c, None).Parked?;
    var d := if asks && ds != [] then Some(ds[0]) else None;
    assert m.step(c, d).Moved? ==> m.fuel(m.step(c, d).next) < m.fuel(c);
    hide Run, Budget, Rank;
  }

  lemma {:induction false} RunsAlike(env: Env, c: Config, e: Config, ds: seq<Decision>, es: seq<Decision>)
    requires Alike(c, e) && SameBut(EarlyLeft(c), ds, es)
    ensures Finally(env, c, ds).stop == Finally(env, e, es).stop
    ensures Alike(Finally(env, c, ds).config, Finally(env, e, es).config)
    decreases Fuel(c)
  {
    assert |ds| == |es|;
    hide Run, Fuel, EarlyLeft, Alike, SameBut, Finally;
    NodesAlike(env, c, e, ds, es);
    FirstNode(env, c, ds);
    FirstNode(env, e, es);
    var asks := Run(env, c, None).Parked?;
    var x := Run(env, c, if asks && ds != [] then Some(ds[0]) else None);
    var y := Run(env, e, if asks && es != [] then Some(es[0]) else None);
    if x.Moved? {
      RunsAlike(env, x.next, y.next, if asks then ds[1..] else ds, if asks then es[1..] else es);
    }
  }

  // A rejected plan is carried out.  Two runs that differ only in the verdicts at the first three
  // gates (the first two decisions of a greenfield run, the first of a brownfield one) stop at the
  // same place, with the same files, commits, attempts and status: they differ in the record of
  // those gates and in the trail, and in nothing else.
  lemma EarlyVerdictsOnlyRecord(env: Env, start: Config, ds: seq<Decision>, es: seq<Decision>)
    requires start.at.AtClarifier? && |ds| == |es|
    requires var early := if start.s.scenario.Greenfield? then 2 else if start.s.scenario.Brownfield? then 1 else 0;
             forall k | 0 <= k < |ds| :: ds[k] == es[k] || (k < early && ds[k].clarified == es[k].clarified)
    ensures var x, y := Finally(env, start, ds), Finally(env, start, es);
            && x.stop == y.stop && x.config.at == y.config.at && x.config.w == y.config.w
            && x.config.s.(gates := map[], events := []) == y.config.s.(gates := map[], events := [])
            && SameAt(x.config.s, y.config.s, ReplanningApproval)
            && SameAt(x.config.s, y.config.s, MergeReleaseApproval)
  {
    hide Finally;
    RunsAlike(env, start, start, ds, es);
  }
}
