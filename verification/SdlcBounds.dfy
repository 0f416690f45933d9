/**
 Every SDLC run ends, within fixed bounds, and slicing it at its gates changes nothing.
 */
module SdlcBounds {
  import opened Prelude
  import opened Workspace
  import opened Runner
  import opened Sdlc

  // The gate a configuration stops at without a decision.
  function Asks(c: Config): Option<Gate> {
    match c.at
    case AtClarifier => if c.s.scenario.Greenfield? then Some(ClarificationApproval) else None
    case AtReasoner => if c.s.scenario.Brownfield? then Some(CodebaseImpactReview) else None
    case AtPlanner => if c.s.scenario.Greenfield? then Some(PlanApproval) else None
    case AtReplanner => Some(ReplanningApproval)
    case AtGate => if Valid(c.w) then Some(MergeReleaseApproval) else None
    case _ => None
  }

  lemma StepShape(env: Env, c: Config, d: Option<Decision>)
    ensures var o := Run(env, c, d);
            && (o.Parked? <==> d.None? && Asks(c).Some?)
            && (o.Parked? ==> o == Parked(Asks(c).value, c))
            && (d.Some? && Asks(c).None? ==> o == Run(env, c, None))
  {
  }

  lemma ForkShape(env: Env, c: Config, d: Option<Decision>)
    requires c.at.AtFork?
    ensures var o := Run(env, c, d);
            o.Raised? || (o.Moved? && o.next.at.AtSync? && o.next.s.scenario == c.s.scenario
                && o.next.s.gates == c.s.gates
              && o.next.s.retryLimit == c.s.retryLimit && o.next.s.rollbackCount == c.s.rollbackCount
              && if o.next.s.hint.Retry? || o.next.s.hint.FallbackAttempt? then Budget(c.s) == Budget(o.next.s) + 1
                 else Budget(o.next.s) == Budget(c.s) && (o.next.s.hint.Proceed? || o.next.s.hint.RollBack?))
  {
  }

  // Where each other node can lead.
  predicate Leads(c: Config, n: Config) {
    && n.s.scenario == c.s.scenario
    && (n.s.retryLimit == c.s.retryLimit && n.s.retryCount == c.s.retryCount && n.s.fallback == c.s.fallback)
    && match c.at
       case AtClarifier => (n.at.AtReasoner? || n.at.AtArchitect?)
           && (ReplanningApproval in n.s.gates <==> ReplanningApproval in c.s.gates)
       case AtReasoner => n.at.AtArchitect? && (ReplanningApproval in n.s.gates <==> ReplanningApproval in c.s.gates)
       case AtArchitect => n.at.AtPlanner? && n.s.gates == c.s.gates
       case AtPlanner => if NeedsReplanning(c.s) then n.at.AtReplanner? && n.s.gates == c.s.gates else n.at.AtCoder?
       case AtReplanner => n.at.AtPlanner? && ReplanningApproval in n.s.gates
       case AtCoder => n.at.AtFork? || n.at.AtEnd?
       case AtFork => false
       case AtSync => if c.s.hint.Retry? || c.s.hint.FallbackAttempt? then n.at.AtCoder?
           else n.at.AtRollback? || n.at.AtGate?
       case AtGate => n.at.AtRollback? || n.at.AtEnd?
       case AtRollback => n.at.AtEnd?
       case AtEnd => false
  }

  lemma ReadingLeads(env: Env, c: Config, d: Option<Decision>)
    requires (c.at.AtClarifier? || c.at.AtReasoner?) && Run(env, c, d).Moved?
    ensures Leads(c, Run(env, c, d).next)
  {
    hide Strip, Decided;
    match c.at
    case AtClarifier =>
    case _ =>
  }

  lemma PlanningLeads(env: Env, c: Config, d: Option<Decision>)
    requires c.at.AtClarifier? || c.at.AtReasoner? || c.at.AtArchitect? || c.at.AtPlanner? || c.at.AtReplanner?
    requires Run(env, c, d).Moved?
    ensures Leads(c, Run(env, c, d).next)
  {
    hide Strip, TasksFor, Decided;
    match c.at
    case AtClarifier => ReadingLeads(env, c, d);
    case AtReasoner => ReadingLeads(env, c, d);
    case _ =>
  }

  lemma StepLeads(env: Env, c: Config, d: Option<Decision>)
    requires !c.at.AtFork? && Run(env, c, d).Moved?
    ensures Leads(c, Run(env, c, d).next)
  {
    match c.at
    case AtCoder =>
    case AtSync =>
    case AtGate =>
    case AtRollback =>
    case AtEnd =>
    case _ =>
      PlanningLeads(env, c, d);
  }

  lemma StepUsesFuel(env: Env, c: Config, d: Option<Decision>)
    ensures Run(env, c, d).Moved? ==> Fuel(Run(env, c, d).next) < Fuel(c)
  {
    hide Run;
    if Run(env, c, d).Moved? {
      if c.at.AtFork? {
        ForkShape(env, c, d);
      } else {
        StepLeads(env, c, d);
      }
    }
  }

  // Every run terminates, for any test outcomes and any decisions.
  lemma GraphSound(env: Env)
    ensures Sound(Graph(env))
  {
    forall c, d ensures Run(env, c, d).Moved? ==> Fuel(Run(env, c, d).next) < Fuel(c) {
      StepUsesFuel(env, c, d);
    }
    forall c, d: Option<Decision>
      ensures !Run(env, c, Some(if d.Some? then d.value else Decision(Approved, false, None))).Parked?
      ensures !Run(env, c, None).Parked? && d.Some? ==> Run(env, c, d) == Run(env, c, None)
    {
      StepShape(env, c, d);
      StepShape(env, c, None);
      StepShape(env, c, Some(if d.Some? then d.value else Decision(Approved, false, None)));
    }
    hide Run;
    forall c, d: Decision
      ensures !Graph(env).step(c, Some(d)).Parked?
      ensures !Graph(env).step(c, None).Parked? ==> Graph(env).step(c, Some(d)) == Graph(env).step(c, None)
    {
      assert Some(if Some(d).Some? then Some(d).value else Decision(Approved, false, None)) == Some(d);
    }
  }

  // A node does nothing outside its state before it asks.
  lemma GraphReplayable(env: Env)
    ensures Replayable(Graph(env))
  {
    forall c ensures Run(env, c, None).Parked? ==> Run(env, c, None).left == c {
      StepShape(env, c, None);
    }
    hide Run;
  }

  // ---- Runs of the graph ----

  // Where a run given these decisions stops, and what it goes through on the way.
  ghost function Finally(env: Env, c: Config, ds: seq<Decision>): Checkpoint<Gate, Config> {
    GraphSound(env);
    RunAll(Graph(env), c, ds)
  }

  ghost function Through(env: Env, c: Config, ds: seq<Decision>): seq<Config> {
    GraphSound(env);
    Passed(Graph(env), c, ds)
  }

  ghost function Served(env: Env, rs: seq<Request<Config, Decision>>): Store<Gate, Config> {
    GraphSound(env);
    ServeAll(Graph(env), rs)
  }

  // No decision came after a node had raised.
  ghost predicate NeverBroke(env: Env, hist: History<Config, Decision>) {
    GraphSound(env);
    Unbroken(Graph(env), hist)
  }

  // start_run and one resume_run per decision end where a run given all decisions would: same
  // state, events and checkout.  Redeliveries and surplus decisions do not matter.
  lemma SlicedIsUninterrupted(env: Env, rs: seq<Request<Config, Decision>>, run: Runner.RunId)
    requires HistoryOf(rs, run).Started? && NeverBroke(env, HistoryOf(rs, run))
    ensures var hist := HistoryOf(rs, run);
            run in Served(env, rs) && Served(env, rs)[run] == Finally(env, hist.initial, hist.decisions)
  {
    GraphSound(env);
    GraphReplayable(env);
    hide Sound, Replayable, Unbroken;
    ServedIsUninterrupted(Graph(env), rs, run);
  }

  // ---- Bounds ----

  predicate BeforeCoder(at: At) {
    at.AtClarifier? || at.AtReasoner? || at.AtArchitect? || at.AtPlanner? || at.AtReplanner?
  }

  function CoderRunsLeft(c: Config): nat {
    if BeforeCoder(c.at) || c.at.AtCoder? then 1 + Budget(c.s)
    else if c.at.AtFork? then Budget(c.s)
    else if c.at.AtSync? && (c.s.hint.Retry? || c.s.hint.FallbackAttempt?) then 1 + Budget(c.s)
    else 0
  }

  function PlannerRunsLeft(c: Config): nat {
    if c.at.AtReplanner? || (c.at.AtPlanner? && !NeedsReplanning(c.s)) then 1
    else if BeforeCoder(c.at) then 2
    else 0
  }

  function RollbacksLeft(c: Config): nat {
    if c.at.AtEnd? then 0 else 1
  }

  // How often a gate can still ask.
  function AsksLeft(g: Gate, c: Config): nat {
    match g
    case ClarificationApproval => if c.at.AtClarifier? && c.s.scenario.Greenfield? then 1 else 0
    case CodebaseImpactReview => if (c.at.AtClarifier? || c.at.AtReasoner?) && c.s.scenario.Brownfield? then 1 else 0
    case PlanApproval => if BeforeCoder(c.at) && c.s.scenario.Greenfield? then 1 else 0
    case ReplanningApproval =>
      if c.at.AtReplanner? || (BeforeCoder(c.at) && c.s.scenario.Ambiguous? && ReplanningApproval !in c.s.gates)
        then 1 else 0
    case MergeReleaseApproval => if c.at.AtRollback? || c.at.AtEnd? then 0 else 1
    case SpecialistDesignReview => 0
  }

  function ParksLeft(c: Config): nat {
    AsksLeft(ClarificationApproval, c) + AsksLeft(CodebaseImpactReview, c) + AsksLeft(PlanApproval, c)
      + AsksLeft(ReplanningApproval, c) + AsksLeft(MergeReleaseApproval, c)
  }

  predicate IsCoder(c: Config) { c.at.AtCoder? }
  predicate IsPlanner(c: Config) { c.at.AtPlanner? }
  predicate IsRollback(c: Config) { c.at.AtRollback? }
  predicate AsksAny(c: Config) { Asks(c).Some? }
  function AsksFor(g: Gate): Config -> bool { c => Asks(c) == Some(g) }
  function LeftFor(g: Gate): Config -> nat { c => AsksLeft(g, c) }

  lemma StepUsesRuns(env: Env, c: Config, d: Option<Decision>)
    requires Run(env, c, d).Moved?
    ensures var n := Run(env, c, d).next;
            && CoderRunsLeft(n) + (if IsCoder(c) then 1 else 0) <= CoderRunsLeft(c)
            && PlannerRunsLeft(n) + (if IsPlanner(c) then 1 else 0) <= PlannerRunsLeft(c)
            && RollbacksLeft(n) + (if IsRollback(c) then 1 else 0) <= RollbacksLeft(c)
  {
    hide Run;
    if c.at.AtFork? {
      ForkShape(env, c, d);
    } else {
      StepLeads(env, c, d);
    }
  }

  lemma StepUsesAsks(env: Env, c: Config, d: Option<Decision>, g: Gate)
    requires Run(env, c, d).Moved?
    ensures var n := Run(env, c, d).next;
            AsksLeft(g, n) + (if Asks(c) == Some(g) then 1 else 0) <= AsksLeft(g, c)
  {
    hide Run;
    if c.at.AtFork? {
      ForkShape(env, c, d);
    } else {
      StepLeads(env, c, d);
    }
  }

  lemma StepUsesParks(env: Env, c: Config, d: Option<Decision>)
    requires Run(env, c, d).Moved?
    ensures ParksLeft(Run(env, c, d).next) + (if AsksAny(c) then 1 else 0) <= ParksLeft(c)
  {
    StepUsesAsks(env, c, d, ClarificationApproval);
    StepUsesAsks(env, c, d, CodebaseImpactReview);
    StepUsesAsks(env, c, d, PlanApproval);
    StepUsesAsks(env, c, d, ReplanningApproval);
    StepUsesAsks(env, c, d, MergeReleaseApproval);
    hide Run, AsksLeft;
  }

  lemma RunBounds(env: Env)
    ensures Bounds(Graph(env), IsCoder, CoderRunsLeft)
    ensures Bounds(Graph(env), IsPlanner, PlannerRunsLeft)
    ensures Bounds(Graph(env), IsRollback, RollbacksLeft)
  {
    var m := Graph(env);
    forall c, d | m.step(c, d).Moved?
      ensures CoderRunsLeft(m.step(c, d).next) + (if IsCoder(c) then 1 else 0) <= CoderRunsLeft(c)
      ensures PlannerRunsLeft(m.step(c, d).next) + (if IsPlanner(c) then 1 else 0) <= PlannerRunsLeft(c)
      ensures RollbacksLeft(m.step(c, d).next) + (if IsRollback(c) then 1 else 0) <= RollbacksLeft(c)
    {
      hide Run;
      StepUsesRuns(env, c, d);
    }
    hide Run;
  }

  lemma AskBounds(env: Env, g: Gate)
    ensures Bounds(Graph(env), AsksFor(g), LeftFor(g))
  {
    var m := Graph(env);
    forall c, d | m.step(c, d).Moved?
      ensures LeftFor(g)(m.step(c, d).next) + (if AsksFor(g)(c) then 1 else 0) <= LeftFor(g)(c)
    {
      hide Run;
      StepUsesAsks(env, c, d, g);
    }
    hide Run;
  }

  lemma ParkBounds(env: Env)
    ensures Bounds(Graph(env), AsksAny, ParksLeft)
  {
    var m := Graph(env);
    forall c, d | m.step(c, d).Moved?
      ensures ParksLeft(m.step(c, d).next) + (if AsksAny(c) then 1 else 0) <= ParksLeft(c)
    {
      hide Run;
      StepUsesParks(env, c, d);
    }
    hide Run;
  }

  // At most retry_limit + 2 coder runs, two planner runs, one rollback and three stops at gates,
  // and no gate asks twice.
  lemma RunsAreBounded(env: Env, c: Config, ds: seq<Decision>, g: Gate)
    requires c.at.AtClarifier? && c.s.retryCount == 0 && !c.s.fallback && c.s.retryLimit >= 0
    ensures Count(Through(env, c, ds), IsCoder) <= c.s.retryLimit + 2
    ensures Count(Through(env, c, ds), IsPlanner) <= 2
    ensures Count(Through(env, c, ds), IsRollback) <= 1
    ensures Count(Through(env, c, ds), AsksFor(g)) <= 1
    ensures Count(Through(env, c, ds), AsksAny) <= 3
  {
    GraphSound(env);
    RunBounds(env);
    AskBounds(env, g);
    ParkBounds(env);
    assert LeftFor(g)(c) <= 1 && ParksLeft(c) <= 3 && CoderRunsLeft(c) <= c.s.retryLimit + 2
        && PlannerRunsLeft(c) <= 2 && RollbacksLeft(c) <= 1;
    hide *;
    CountBounded(Graph(env), IsCoder, CoderRunsLeft, c, ds);
    CountBounded(Graph(env), IsPlanner, PlannerRunsLeft, c, ds);
    CountBounded(Graph(env), IsRollback, RollbacksLeft, c, ds);
    CountBounded(Graph(env), AsksFor(g), LeftFor(g), c, ds);
    CountBounded(Graph(env), AsksAny, ParksLeft, c, ds);
  }

  // Three decisions are always enough.
  lemma ThreeDecisionsSuffice(env: Env, c: Config, ds: seq<Decision>)
    requires c.at.AtClarifier? && |ds| >= 3
    ensures !Finally(env, c, ds).stop.Waiting?
  {
    GraphSound(env);
    ParkBounds(env);
    forall x ensures Graph(env).step(x, None).Parked? ==> AsksAny(x) {
      hide Run, Asks;
      StepShape(env, x, None);
    }
    hide Sound, Bounds, Run;
    NotLeftWaiting(Graph(env), AsksAny, ParksLeft, c, ds);
  }
}
