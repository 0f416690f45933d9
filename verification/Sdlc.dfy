/**
 The SDLC graph: eleven nodes, their routing, and the checkout they work on, as one machine.

 Whatever a node learns from outside the run (generated code, test results, git failures) is an
 oracle in `Env`, indexed by the attempt it belongs to, so that every theorem over all `Env`s is
 a theorem over all outcomes.  Times are left out; `finished` is whether finished_at is set.
 */
module Sdlc {
  import opened Prelude
  import opened Workspace
  import opened Runner

  datatype Scenario = Greenfield | Brownfield | Ambiguous
  datatype Mode = Live | Replay
  datatype RunStatus = Running | Completed | Failed
  // One vocabulary for both graphs.
  datatype Gate =
    | ClarificationApproval | CodebaseImpactReview | PlanApproval | ReplanningApproval | MergeReleaseApproval
    | SpecialistDesignReview
  datatype Verdict = Approved | Rejected | Edited
  datatype RouteHint = NoHint | Proceed | Retry | FallbackAttempt | RollBack

  datatype Node =
    | RequirementClarifier | CodebaseReasoner | ArchitectureDesign | DecomposerPlanner | Replanner
    | Coder | TestExecutor | Documentation | ReleaseGate | Rollback
    | DesignPhase | DesignReviewGate | GeneratePhase | ReleaseReviewGate | PublishPhase

  datatype EventKind = NodeStart | NodeEnd | GateDecision | RetryEvent | FallbackEvent | RollbackEvent | SafeStopEvent
      | GuardrailViolationEvent

  datatype Event = Event(node: Node, kind: EventKind, detail: string, decision: Option<Verdict>)

  datatype Decision = Decision(status: Verdict, overrideGuardrails: bool, clarified: Option<string>)

  datatype GateRecord = GateRecord(status: Verdict, payload: Decision)

  datatype Impact = Impact(skipped: bool, modules: seq<Path>, apis: seq<Path>)
  datatype Design = Design(summary: string, apiSchemaChanges: seq<string>)
  datatype Task = Task(id: string, description: string, dependsOn: seq<string>)
  datatype CoderOutput = CoderOutput(codeFiles: Files, attemptNumber: int, commitBefore: Option<CommitId>)
  datatype TestResult = TestResult(passed: bool, failures: seq<string>, attemptNumber: int)
  datatype Finding = Finding(rule: string, location: string)
  datatype Violation = Violation(finding: Finding, overriddenByHuman: bool)

  datatype GraphState = GraphState(
    runId: string, scenario: Scenario, mode: Mode, status: RunStatus, commitAfter: Option<CommitId>,
    requirementRaw: string, clarified: string, ambiguities: seq<string>, gates: map<Gate, GateRecord>,
    impact: Impact, design: Design, tasks: seq<Task>,
    coder: CoderOutput, attempts: seq<CoderOutput>, test: TestResult, docs: Files,
    retryCount: nat, retryLimit: int, fallback: bool, rollbackCount: nat, safeStop: bool, hint: RouteHint,
    violations: seq<Violation>, replanning: bool, replanReason: string,
    events: seq<Event>, finished: bool)

  datatype Fixture = Fixture(attemptNumber: int, fallback: bool, codeFiles: Files)

  // Which specialist the target routes to, when the table loads.
  datatype Route = Unloadable | ToBuiltin | ToExternal

  // What a pytest run did: besides its result, anything at all to the files.  The node raises when what
  // pytest prints is not text (`testsReadable`).
  datatype TestRun = TestRun(passed: bool, failures: seq<string>, leaves: Tree -> Tree)

  datatype Env = Env(
    rules: Rules,
    ambiguitiesIn: string -> seq<string>,
    impactOf: (Tree, string) -> Impact,
    conflictIn: Tree -> Option<string>,
    designFor: (Impact, string) -> Design,
    route: nat -> Route,
    live: nat -> Option<Files>,
    recorded: Option<seq<Fixture>>,
    headReadable: nat -> bool,
    tests: nat -> TestRun,
    testsReadable: nat -> bool,
    documentationFirst: nat -> bool,
    docText: (string, Scenario, string, Files, seq<Task>) -> string,
    findingsIn: Files -> seq<Finding>,
    commitLuck: CommitLuck,
    releaseReadable: bool,
    revert: RevertLuck)

  datatype At = AtClarifier | AtReasoner | AtArchitect | AtPlanner | AtReplanner | AtCoder | AtFork | AtSync | AtGate
      | AtRollback | AtEnd

  datatype Config = Config(at: At, s: GraphState, w: Checkout)

  type Step = Outcome<Gate, Config>

  const GATE_DETAIL := map[
    ClarificationApproval := "clarification_approval", CodebaseImpactReview := "codebase_impact_review",
    PlanApproval := "plan_approval", ReplanningApproval := "replanning_approval",
    MergeReleaseApproval := "merge_release_approval", SpecialistDesignReview := "specialist_design_review"]

  function Note(node: Node, kind: EventKind): Event {
    Event(node, kind, "", None)
  }

  function Decided(node: Node, gate: Gate, status: Verdict): (e: Event)
    ensures e.kind.GateDecision?
  {
    Event(node, GateDecision, if gate in GATE_DETAIL then GATE_DETAIL[gate] else "", Some(status))
  }

  function RecordGate(s: GraphState, gate: Gate, status: Verdict, d: Decision): GraphState {
    s.(gates := s.gates[gate := GateRecord(status, d)])
  }

  predicate GateIs(s: GraphState, gate: Gate, status: Verdict) {
    gate in s.gates && s.gates[gate].status == status
  }

  // ---- Planning nodes ----

  function Clarify(env: Env, c: Config, d: Option<Decision>): Step {
    var s := c.s.(ambiguities := env.ambiguitiesIn(c.s.requirementRaw), clarified := Strip(c.s.requirementRaw));
    var next := if s.scenario.Greenfield? then AtArchitect else AtReasoner;
    var begun := [Note(RequirementClarifier, NodeStart)];
    var over := [Note(RequirementClarifier, NodeEnd)];
    if !s.scenario.Greenfield? then Moved(Config(next, s.(events := s.events + begun + over), c.w))
    else match d
      case None => Parked(ClarificationApproval, c)
      case Some(v) =>
        var answered := RecordGate(s, ClarificationApproval, v.status, v).(clarified := v.clarified.GetOr(s.clarified));
        var told := Decided(RequirementClarifier, ClarificationApproval, v.status);
        Moved(Config(next, answered.(events := s.events + begun + [told] + over), c.w))
  }

  function Reason(env: Env, c: Config, d: Option<Decision>): Step {
    var text := if c.s.clarified != "" then c.s.clarified else c.s.requirementRaw;
    var impact := env.impactOf(c.w.files, text).(skipped := false);
    var begun := [Note(CodebaseReasoner, NodeStart)];
    var over := [Note(CodebaseReasoner, NodeEnd)];
    var conflict := if c.s.scenario.Ambiguous? then env.conflictIn(c.w.files) else None;
    var s := c.s.(impact := impact, replanning := c.s.replanning || conflict.Some?,
                  replanReason := conflict.GetOr(c.s.replanReason));
    if !s.scenario.Brownfield? then Moved(Config(AtArchitect, s.(events := s.events + begun + over), c.w))
    else match d
      case None => Parked(CodebaseImpactReview, c)
      case Some(v) =>
        Moved(Config(AtArchitect, RecordGate(s, CodebaseImpactReview, v.status, v)
          .(events := s.events + begun + [Decided(CodebaseReasoner, CodebaseImpactReview, v.status)] + over), c.w))
  }

  function Architect(env: Env, c: Config): Step {
    Moved(Config(AtPlanner, c.s.(design := env.designFor(c.s.impact, c.s.clarified),
      events := c.s.events + [Note(ArchitectureDesign, NodeStart), Note(ArchitectureDesign, NodeEnd)]), c.w))
  }

  function TasksFor(s: GraphState): seq<Task> {
    var change := if s.design.summary != "" then s.design.summary else s.clarified;
    var rest := [
      Task("T2", "Write/update unit tests for the change", ["T1"]),
      Task("T3", "Update the target service's documentation for the change", ["T1"]),
      Task("T4", "Run guardrail checks and prepare for release", ["T2", "T3"])];
    if GateIs(s, ReplanningApproval, Approved) then
      [Task("T0", "Reconcile with existing functionality: " + s.replanReason, []),
       Task("T1", "Implement (revised): " + change, ["T0"])] + rest
    else [Task("T1", "Implement: " + change, [])] + rest
  }

  predicate NeedsReplanning(s: GraphState) {
    s.scenario.Ambiguous? && s.replanning && ReplanningApproval !in s.gates
  }

  function Plan(c: Config, d: Option<Decision>): Step {
    var s := c.s.(tasks := TasksFor(c.s));
    var begun := [Note(DecomposerPlanner, NodeStart)];
    var over := [Note(DecomposerPlanner, NodeEnd)];
    if !s.scenario.Greenfield? then
      Moved(Config(if NeedsReplanning(s) then AtReplanner else AtCoder, s.(events := s.events + begun + over), c.w))
    else match d
      case None => Parked(PlanApproval, c)
      case Some(v) =>
        Moved(Config(AtCoder, RecordGate(s, PlanApproval, v.status, v)
          .(events := s.events + begun + [Decided(DecomposerPlanner, PlanApproval, v.status)] + over), c.w))
  }

  function Replan(c: Config, d: Option<Decision>): Step {
    match d
    case None => Parked(ReplanningApproval, c)
    case Some(v) =>
      Moved(Config(AtPlanner, RecordGate(c.s, ReplanningApproval, v.status, v).(events := c.s.events +
        [Note(Replanner, NodeStart), Decided(Replanner, ReplanningApproval, v.status), Note(Replanner, NodeEnd)]), c.w))
  }

  // ---- The coder ----

  function FirstFallback(fs: seq<Fixture>): Option<Fixture> {
    if fs == [] then None else if fs[0].fallback then Some(fs[0]) else FirstFallback(fs[1..])
  }

  function FirstNumbered(fs: seq<Fixture>, n: int): Option<Fixture> {
    if fs == [] then None else if fs[0].attemptNumber == n then Some(fs[0]) else FirstNumbered(fs[1..], n)
  }

  // The recorded attempt replay uses: by its number, or the first recorded fallback.
  function SelectFixture(fs: seq<Fixture>, n: int, fallback: bool): Option<Fixture> {
    if fallback then FirstFallback(fs) else FirstNumbered(fs, n)
  }

  // None: any of the failures the coder turns into a safe stop.
  function Generate(env: Env, s: GraphState): Option<Files> {
    var k := |s.attempts|;
    var route := env.route(k);
    if route.Unloadable? then None
    else if s.mode.Live? then (if route.ToExternal? then None else env.live(k))
    else if env.recorded.None? then None
    else
      var chosen := SelectFixture(env.recorded.value, s.retryCount + 1, s.fallback);
      if chosen.None? then None else Some(chosen.value.codeFiles)
  }

  function Code(env: Env, c: Config): Step {
    var s, n := c.s, c.s.retryCount + 1;
    var generated := Generate(env, s);
    if generated.None? then
      Moved(Config(AtEnd, s.(safeStop := true, status := Failed, finished := true, coder := CoderOutput([], n, None),
        events := s.events + [Note(Coder, SafeStopEvent)]), c.w))
    else
      var before := if env.headReadable(|s.attempts|) then c.w.head else None;
      var (files, ok) := Write(env.rules, c.w.files, generated.value);
      var w := c.w.(files := files);
      if !ok then Raised(c.(w := w))
      else
        var output := CoderOutput(generated.value, n, before);
        Moved(Config(AtFork, s.(coder := output, attempts := s.attempts + [output],
          events := s.events + [Note(Coder, NodeEnd)]), w))
  }

  // ---- The parallel branches ----

  // What a branch returns: only the fields it names.
  datatype TestUpdates = TestUpdates(test: TestResult, hint: RouteHint, retryCount: Option<nat>,
      fallback: Option<bool>, events: seq<Event>)
  datatype DocUpdates = DocUpdates(docs: Files, events: seq<Event>)

  function Decimal(n: nat): string {
    if n < 10 then ["0123456789"[n]] else Decimal(n / 10) + ["0123456789"[n % 10]]
  }

  const TESTS_FAILED := "tests failed"
  // One sentence, kept as its words: Metrics looks for words in it.
  const RETRIES_EXHAUSTED := "retries " + "exhausted, " + "falling " + "back to " + "reduced-scope " + "prompt"

  function TestBranch(run: TestRun, s: GraphState): TestUpdates {
    var result := TestResult(run.passed, if run.passed then [] else run.failures, s.coder.attemptNumber);
    var begun := [Note(TestExecutor, NodeStart)];
    if run.passed then
      TestUpdates(result, Proceed, None, None, begun + [Event(TestExecutor, NodeEnd, "tests passed", None)])
    else if s.fallback then
      TestUpdates(result, RollBack, None, None,
        begun + [Event(TestExecutor, NodeEnd, TESTS_FAILED + " (fallback attempt also failed)", None)])
    else if s.retryCount < s.retryLimit then
      var summary := TESTS_FAILED + ", retrying (attempt " + Decimal(s.retryCount + 2) + " of "
          + Decimal(s.retryLimit + 1) + ")";
      TestUpdates(result, Retry, Some(s.retryCount + 1), None,
        begun + [Event(TestExecutor, RetryEvent, summary, None), Event(TestExecutor, NodeEnd, summary, None)])
    else
      var summary := RETRIES_EXHAUSTED;
      TestUpdates(result, FallbackAttempt, None, Some(true),
        begun + [Event(TestExecutor, FallbackEvent, summary, None), Event(TestExecutor, NodeEnd, summary, None)])
  }

  function DocBranch(env: Env, s: GraphState): DocUpdates {
    var change := if s.clarified != "" then s.clarified else s.requirementRaw;
    DocUpdates([("docs/CHANGE_" + s.runId[..Min(8, |s.runId|)] + ".md",
        env.docText(change, s.scenario, s.design.summary, s.coder.codeFiles, s.tasks))],
      [Note(Documentation, NodeStart), Note(Documentation, NodeEnd)])
  }

  function ApplyTest(s: GraphState, u: TestUpdates): GraphState {
    s.(test := u.test, hint := u.hint, retryCount := u.retryCount.GetOr(s.retryCount),
       fallback := u.fallback.GetOr(s.fallback), events := s.events + u.events)
  }

  function ApplyDoc(s: GraphState, u: DocUpdates): GraphState {
    s.(docs := u.docs, events := s.events + u.events)
  }

  // The attempt being tested, counted from 0.
  function Latest(s: GraphState): nat {
    if s.attempts == [] then 0 else |s.attempts| - 1
  }

  // Both branches read the state the coder left; which one touches the disk first is up to the
  // scheduler.
  function Fork(env: Env, c: Config): Step {
    var run := env.tests(Latest(c.s));
    var docs := DocBranch(env, c.s);
    var docsFirst := env.documentationFirst(Latest(c.s));
    var (documented, ok) := Write(env.rules, if docsFirst then c.w.files else run.leaves(c.w.files), docs.docs);
    var w := c.w.(files := if docsFirst then run.leaves(documented) else documented);
    if !ok || !env.testsReadable(Latest(c.s)) then Raised(c.(w := w))
    else Moved(Config(AtSync, ApplyDoc(ApplyTest(c.s, TestBranch(run, c.s)), docs), w))
  }

  function Sync(c: Config): Step {
    var next :=
      match c.s.hint
      case Retry => AtCoder
      case FallbackAttempt => AtCoder
      case RollBack => AtRollback
      case _ => AtGate;
    Moved(c.(at := next))
  }

  // ---- The release gate and the rollback ----

  function ViolationEvents(findings: seq<Finding>): seq<Event> {
    seq(|findings|, _ => Note(ReleaseGate, GuardrailViolationEvent))
  }

  // Findings block the merge unless they are overridden, whatever the human said.
  function Blocked(findings: seq<Finding>, d: Decision): bool {
    findings != [] && !d.overrideGuardrails
  }

  function Release(env: Env, c: Config, d: Option<Decision>): Step
    requires Valid(c.w)
  {
    var findings := env.findingsIn(c.s.coder.codeFiles);
    match d
    case None => Parked(MergeReleaseApproval, c)
    case Some(v) =>
      var status := if Blocked(findings, v) then Rejected else v.status;
      var s := RecordGate(c.s, MergeReleaseApproval, status, v)
        .(violations := seq(|findings|, i requires 0 <= i < |findings| => Violation(findings[i], v.overrideGuardrails)),
          events := c.s.events + [Note(ReleaseGate, NodeStart)] + ViolationEvents(findings)
            + [Decided(ReleaseGate, MergeReleaseApproval, status), Note(ReleaseGate, NodeEnd)]);
      if !status.Approved? then Moved(Config(AtRollback, s, c.w))
      else
        var (w, commit) := CommitAll(env.rules, c.w, env.commitLuck);
        if commit.CommitFailed? then Raised(c)
        else
          var sha := if env.releaseReadable then w.head else None;
          Moved(Config(AtEnd, s.(status := Completed, finished := true, commitAfter := sha), w))
  }

  function RollBackRun(env: Env, c: Config): Step
    requires Valid(c.w)
  {
    var s := c.s.(rollbackCount := c.s.rollbackCount + 1, status := Failed, finished := true);
    var target := s.coder.commitBefore;
    if target.None? || target.value >= |c.w.commits| then
      Moved(Config(AtEnd, s.(safeStop := true, events := s.events + [Note(Rollback, SafeStopEvent)]), c.w))
    else
      var (w, ok) := RevertTo(env.rules, c.w, target.value, env.revert);
      if ok then Moved(Config(AtEnd, s.(events := s.events + [Note(Rollback, RollbackEvent)]), w))
      else Moved(Config(AtEnd, s.(safeStop := true, events := s.events + [Note(Rollback, SafeStopEvent)]), w))
  }

  // ---- The machine ----

  function Run(env: Env, c: Config, d: Option<Decision>): Step {
    match c.at
    case AtClarifier => Clarify(env, c, d)
    case AtReasoner => Reason(env, c, d)
    case AtArchitect => Architect(env, c)
    case AtPlanner => Plan(c, d)
    case AtReplanner => Replan(c, d)
    case AtCoder => Code(env, c)
    case AtFork => Fork(env, c)
    case AtSync => Sync(c)
    case AtGate => if Valid(c.w) then Release(env, c, d) else Raised(c)
    case AtRollback => if Valid(c.w) then RollBackRun(env, c) else Raised(c)
    case AtEnd => Ended(c)
  }

  // Attempts left after the one being made.
  function Budget(s: GraphState): nat {
    (if s.retryCount < s.retryLimit then s.retryLimit - s.retryCount else 0) + if s.fallback then 0 else 1
  }

  function Rank(c: Config): nat {
    match c.at
    case AtClarifier => 12
    case AtReasoner => 11
    case AtArchitect => 10
    case AtPlanner => if NeedsReplanning(c.s) then 9 else 7
    case AtReplanner => 8
    case AtCoder => 5
    case AtFork => 4
    case AtSync => if c.s.hint.Retry? || c.s.hint.FallbackAttempt? then 6 else 3
    case AtGate => 2
    case AtRollback => 1
    case AtEnd => 0
  }

  function Fuel(c: Config): nat {
    20 * Budget(c.s) + Rank(c)
  }

  function Graph(env: Env): Machine<Gate, Config, Decision> {
    Machine((c, d) => Run(env, c, d), Fuel)
  }

  datatype Terminal = SafeStopped | RunCompleted | RunFailed

  // How the runner classifies a run that reached its end.
  function TerminalStateOf(safeStop: bool, status: RunStatus): Terminal {
    if safeStop then SafeStopped else if status.Completed? then RunCompleted else RunFailed
  }

  // A run as the worker starts it, on a fresh clone.
  function Initial(runId: string, scenario: Scenario, mode: Mode, requirement: string, retryLimit: int,
      clone: Checkout): Config {
    Config(AtClarifier, GraphState(
      runId, scenario, mode, Running, None, requirement, "", [], map[], Impact(true, [], []), Design("", []), [],
      CoderOutput([], 0, None), [], TestResult(false, [], 0), [], 0, retryLimit, false, 0, false, NoHint, [], false,
          "", [], false), clone)
  }
}
