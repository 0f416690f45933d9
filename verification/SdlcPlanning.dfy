/**
 What a run has decided by the time it generates code: the text it works from, what it found in the
 clone, its design and tasks, and exactly the gates a run of its kind passes.
 */
module SdlcPlanning {
  import opened Prelude
  import opened Workspace
  import opened Runner
  import opened Sdlc
  import opened SdlcBounds
  import opened SdlcTheorems

  // How many of clarifying, reading the clone, designing and planning are behind.
  function Phase(at: At): nat {
    match at
    case AtClarifier => 0
    case AtReasoner => 1
    case AtArchitect => 2
    case AtPlanner => 3
    case AtReplanner => 3
    case _ => 4
  }

  predicate SameRun(s: GraphState, t: GraphState) {
    && s.runId == t.runId && s.scenario == t.scenario && s.mode == t.mode
    && s.requirementRaw == t.requirementRaw && s.retryLimit == t.retryLimit
  }

  // Only a greenfield run's human can put the requirement in other words.
  predicate Clarified(env: Env, s: GraphState) {
    && s.ambiguities == env.ambiguitiesIn(s.requirementRaw)
    && s.clarified ==
       if ClarificationApproval in s.gates && s.gates[ClarificationApproval].payload.clarified.Some?
       then s.gates[ClarificationApproval].payload.clarified.value
       else Strip(s.requirementRaw)
  }

  function Conflict(env: Env, s: GraphState, clone: Checkout): Option<string> {
    if s.scenario.Ambiguous? then env.conflictIn(clone.files) else None
  }

  // A greenfield run has nothing to read; the others read the clone.
  predicate Read(env: Env, s: GraphState, clone: Checkout) {
    if s.scenario.Greenfield? then s.impact == Impact(true, [], []) && !s.replanning
    else
      var found := env.impactOf(clone.files, if s.clarified == "" then s.requirementRaw else s.clarified);
      && s.impact == Impact(false, found.modules, found.apis)
      && (s.replanning <==> Conflict(env, s, clone).Some?)
      && (s.replanning ==> s.replanReason == Conflict(env, s, clone).value)
  }

  predicate Ids(tasks: seq<Task>, ids: seq<string>) {
    |tasks| == |ids| && forall i | 0 <= i < |tasks| :: tasks[i].id == ids[i]
  }

  // Each task but the first waits for earlier ones, and each but the last is waited for.
  predicate Ordered(tasks: seq<Task>) {
    && (forall i | 0 <= i < |tasks| :: tasks[i].dependsOn != [] <==> i > 0)
    && (forall i, id | 0 <= i < |tasks| && id in tasks[i].dependsOn :: exists j :: 0 <= j < i && tasks[j].id == id)
    && (forall j | 0 <= j < |tasks| - 1 :: exists i :: j < i < |tasks| && tasks[j].id in tasks[i].dependsOn)
  }

  // The tasks: implement the change, then test and document it, then prepare the release; after an
  // approved replanning the conflict is dealt with first.
  predicate Tasked(s: GraphState) {
    var revised := GateIs(s, ReplanningApproval, Approved);
    var change := if s.design.summary == "" then s.clarified else s.design.summary;
    && Ids(s.tasks, if revised then ["T0", "T1", "T2", "T3", "T4"] else ["T1", "T2", "T3", "T4"])
    && Ordered(s.tasks)
    && s.tasks[if revised then 1 else 0].description ==
       (if revised then "Implement (revised): " else "Implement: ") + change
    && (revised ==> s.tasks[0].description == "Reconcile with existing functionality: " + s.replanReason)
  }

  // Exactly the gates of the run's kind, each once it has been passed.
  predicate GatesPassed(env: Env, s: GraphState, clone: Checkout, at: At) {
    && (ClarificationApproval in s.gates <==> s.scenario.Greenfield? && Phase(at) >= 1)
    && (CodebaseImpactReview in s.gates <==> s.scenario.Brownfield? && Phase(at) >= 2)
    && (PlanApproval in s.gates <==> s.scenario.Greenfield? && Phase(at) >= 4)
    && (Phase(at) >= 4 ==> (ReplanningApproval in s.gates <==> Conflict(env, s, clone).Some?))
    && (at.AtReplanner? ==> Conflict(env, s, clone).Some? && ReplanningApproval !in s.gates)
    && (Phase(at) <= 2 ==> ReplanningApproval !in s.gates)
    && (ReplanningApproval in s.gates ==> Conflict(env, s, clone).Some?)
    && SpecialistDesignReview !in s.gates
  }

  // What is known after each phase.
  predicate PlanOk(env: Env, start: GraphState, clone: Checkout, c: Config) {
    var s, n := c.s, Phase(c.at);
    && SameRun(start, s)
    && (n < 4 ==> c.w == clone)
    && (c.at.AtReasoner? ==> !s.scenario.Greenfield?)
    && (n >= 1 ==> Clarified(env, s))
    && (if n >= 2 then Read(env, s, clone)
        else s.impact == Impact(true, [], []) && !s.replanning)
    && (n >= 3 ==> s.design == env.designFor(s.impact, s.clarified))
    && (n >= 4 ==> Tasked(s))
    && GatesPassed(env, s, clone, c.at)
  }

  lemma ClarifierKeeps(env: Env, start: GraphState, clone: Checkout, c: Config, d: Option<Decision>)
    requires c.at.AtClarifier? && PlanOk(env, start, clone, c)
    ensures KeptBy(Run(env, c, d), x => PlanOk(env, start, clone, x))
  {
    hide Strip, Decided, Tasked, Conflict;
  }

  lemma ReasonerKeeps(env: Env, start: GraphState, clone: Checkout, c: Config, d: Option<Decision>)
    requires c.at.AtReasoner? && PlanOk(env, start, clone, c)
    ensures KeptBy(Run(env, c, d), x => PlanOk(env, start, clone, x))
  {
    hide Strip, Decided;
  }

  lemma ArchitectKeeps(env: Env, start: GraphState, clone: Checkout, c: Config, d: Option<Decision>)
    requires c.at.AtArchitect? && PlanOk(env, start, clone, c)
    ensures KeptBy(Run(env, c, d), x => PlanOk(env, start, clone, x))
  {
    hide Strip, Tasked;
  }

  lemma ReplannerKeeps(env: Env, start: GraphState, clone: Checkout, c: Config, d: Option<Decision>)
    requires c.at.AtReplanner? && PlanOk(env, start, clone, c)
    ensures KeptBy(Run(env, c, d), x => PlanOk(env, start, clone, x))
  {
    hide Strip, Decided, Tasked;
  }

  lemma WaitsFor(tasks: seq<Task>, i: nat, j: nat)
    requires j < i < |tasks| && tasks[i].dependsOn == [tasks[j].id]
    ensures tasks[i].dependsOn != [] && tasks[j].id in tasks[i].dependsOn
    ensures forall id | id in tasks[i].dependsOn :: exists k :: 0 <= k < i && tasks[k].id == id
  {
  }

  lemma FourOrdered(tasks: seq<Task>)
    requires Ids(tasks, ["T1", "T2", "T3", "T4"]) && tasks[0].dependsOn == []
    requires tasks[1].dependsOn == ["T1"] && tasks[2].dependsOn == ["T1"] && tasks[3].dependsOn == ["T2", "T3"]
    ensures Ordered(tasks)
  {
    WaitsFor(tasks, 1, 0);
    WaitsFor(tasks, 2, 0);
    assert tasks[1].id in tasks[3].dependsOn && tasks[2].id in tasks[3].dependsOn;
  }

  lemma FiveOrdered(tasks: seq<Task>)
    requires Ids(tasks, ["T0", "T1", "T2", "T3", "T4"]) && tasks[0].dependsOn == [] && tasks[1].dependsOn == ["T0"]
    requires tasks[2].dependsOn == ["T1"] && tasks[3].dependsOn == ["T1"] && tasks[4].dependsOn == ["T2", "T3"]
    ensures Ordered(tasks)
  {
    WaitsFor(tasks, 1, 0);
    WaitsFor(tasks, 2, 1);
    WaitsFor(tasks, 3, 1);
    assert tasks[2].id in tasks[4].dependsOn && tasks[3].id in tasks[4].dependsOn;
  }

  lemma TasksAreTasked(s: GraphState)
    ensures Tasked(s.(tasks := TasksFor(s)))
  {
    var tasks := TasksFor(s);
    hide Ordered;
    if GateIs(s, ReplanningApproval, Approved) {
      FiveOrdered(tasks);
    } else {
      FourOrdered(tasks);
    }
  }

  // What planning leaves: the tasks, and the record of its gate.
  lemma PlannedOk(env: Env, start: GraphState, clone: Checkout, c: Config, n: Config, passed: bool)
    requires c.at.AtPlanner? && PlanOk(env, start, clone, c) && n.w == c.w && Tasked(n.s)
    requires passed <==> c.s.scenario.Greenfield?
    requires n.at == if NeedsReplanning(c.s) then AtReplanner else AtCoder
    requires n.s == c.s.(tasks := n.s.tasks, gates := n.s.gates, events := n.s.events)
    requires forall g: Gate | g != PlanApproval || !passed ::
               (g in n.s.gates <==> g in c.s.gates) && (g in c.s.gates ==> n.s.gates[g] == c.s.gates[g])
    requires passed ==> PlanApproval in n.s.gates
    ensures PlanOk(env, start, clone, n)
  {
    hide Strip, Ids, Ordered, Tasked;
  }

  lemma PlannerMoves(env: Env, c: Config, d: Option<Decision>)
    requires c.at.AtPlanner?
    ensures var o := Run(env, c, d);
            && (!o.Moved? ==> o == Parked(PlanApproval, c))
            && (o.Moved? ==>
                  var s, t, passed := c.s, o.next.s, c.s.scenario.Greenfield?;
                  && o.next.w == c.w && o.next.at == (if NeedsReplanning(s) then AtReplanner else AtCoder)
                  && t == s.(tasks := TasksFor(s), gates := t.gates, events := t.events)
                  && (passed ==> PlanApproval in t.gates)
                  && forall g: Gate | g != PlanApproval || !passed ::
                       (g in t.gates <==> g in s.gates) && (g in s.gates ==> t.gates[g] == s.gates[g]))
  {
    hide TasksFor, Decided;
  }

  lemma PlannerKeeps(env: Env, start: GraphState, clone: Checkout, c: Config, d: Option<Decision>)
    requires c.at.AtPlanner? && PlanOk(env, start, clone, c)
    ensures KeptBy(Run(env, c, d), x => PlanOk(env, start, clone, x))
  {
    hide Run, PlanOk, TasksFor, Tasked;
    PlannerMoves(env, c, d);
    var o := Run(env, c, d);
    if o.Moved? {
      PlannedTasks(c.s, o.next.s);
      PlannedOk(env, start, clone, c, o.next, c.s.scenario.Greenfield?);
    }
  }

  lemma PlannedTasks(s: GraphState, t: GraphState)
    requires t == s.(tasks := TasksFor(s), gates := t.gates, events := t.events)
    requires GateIs(s, ReplanningApproval, Approved) <==> GateIs(t, ReplanningApproval, Approved)
    ensures Tasked(t)
  {
    TasksAreTasked(s);
    hide TasksFor, Ids, Ordered;
  }

  // From the coder on nothing of this changes.
  predicate SamePlan(s: GraphState, t: GraphState) {
    && SameRun(s, t) && t.ambiguities == s.ambiguities && t.clarified == s.clarified && t.impact == s.impact
    && t.replanning == s.replanning && t.replanReason == s.replanReason && t.design == s.design && t.tasks == s.tasks
    && forall g: Gate | !g.MergeReleaseApproval? ::
         (g in t.gates <==> g in s.gates) && (g in s.gates ==> t.gates[g] == s.gates[g])
  }

  lemma SamePlanOk(env: Env, start: GraphState, clone: Checkout, c: Config, n: Config)
    requires Phase(c.at) == 4 && Phase(n.at) == 4 && PlanOk(env, start, clone, c) && SamePlan(c.s, n.s)
    ensures PlanOk(env, start, clone, n)
  {
    hide Strip, Ids, Ordered;
  }

  lemma CodingSamePlan(env: Env, c: Config, d: Option<Decision>)
    requires c.at.AtCoder? || c.at.AtFork? || c.at.AtSync?
    ensures KeptBy(Run(env, c, d), (x: Config) => Phase(x.at) == 4 && SamePlan(c.s, x.s))
  {
    hide Generate, Write, TestBranch, DocBranch;
  }

  lemma ClosingSamePlan(env: Env, c: Config, d: Option<Decision>)
    requires c.at.AtGate? || c.at.AtRollback? || c.at.AtEnd?
    ensures KeptBy(Run(env, c, d), (x: Config) => Phase(x.at) == 4 && SamePlan(c.s, x.s))
  {
    hide CommitAll, RevertTo, Decided, ViolationEvents, Blocked;
    match c.at
    case AtGate =>
    case _ =>
  }

  lemma PlanKept(env: Env, start: GraphState, clone: Checkout, c: Config, d: Option<Decision>)
    requires PlanOk(env, start, clone, c)
    ensures KeptBy(Run(env, c, d), x => PlanOk(env, start, clone, x))
  {
    hide Run, PlanOk, SamePlan;
    if Phase(c.at) == 4 {
      if c.at.AtCoder? || c.at.AtFork? || c.at.AtSync? {
        CodingSamePlan(env, c, d);
      } else {
        ClosingSamePlan(env, c, d);
      }
      forall n: Config | Phase(n.at) == 4 && SamePlan(c.s, n.s) ensures PlanOk(env, start, clone, n) {
        SamePlanOk(env, start, clone, c, n);
      }
    } else if c.at.AtClarifier? {
      ClarifierKeeps(env, start, clone, c, d);
    } else if c.at.AtReasoner? {
      ReasonerKeeps(env, start, clone, c, d);
    } else if c.at.AtPlanner? {
      PlannerKeeps(env, start, clone, c, d);
    } else if c.at.AtArchitect? {
      ArchitectKeeps(env, start, clone, c, d);
    } else {
      ReplannerKeeps(env, start, clone, c, d);
    }
  }

  // In every reachable state the run works from its own requirement, as the human of a greenfield run
  // worded it; what it found it found in the clone; its design and tasks follow from that; and it has
  // passed exactly the gates of its kind.
  lemma PlansAreFollowed(env: Env, clone: Checkout, start: Config, ds: seq<Decision>, c: Config)
    requires Starts(clone, start) && Reached(env, start, ds, c)
    ensures PlanOk(env, start.s, clone, c)
  {
    GraphSound(env);
    var inv := (x: Config) => PlanOk(env, start.s, clone, x);
    forall x, d | inv(x) ensures KeptBy(Graph(env).step(x, d), inv) {
      hide Run, PlanOk;
      PlanKept(env, start.s, clone, x, d);
    }
    assert inv(start);
    assert Kept(Graph(env), inv);
    hide PlanOk, Run, Sound, Kept;
    Invariant(Graph(env), inv, start, ds);
  }
}
