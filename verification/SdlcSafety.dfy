/**
 What every reachable state of an SDLC run satisfies.
 */
module SdlcSafety {
  import opened Prelude
  import opened Workspace
  import opened Runner
  import opened Sdlc
  import opened SdlcBounds

  // ---- The invariant ----

  predicate Lifecycle(c: Config) {
    && (c.s.status.Completed? <==> GateIs(c.s, MergeReleaseApproval, Approved))
    && (MergeReleaseApproval in c.s.gates ==> c.at.AtRollback? || c.at.AtEnd?)
    && (if c.at.AtEnd? then !c.s.status.Running? && c.s.finished && (c.s.safeStop ==> c.s.status.Failed?)
        else c.s.status.Running? && !c.s.finished && !c.s.safeStop && c.s.rollbackCount == 0)
    && (c.at.AtEnd? && c.s.status.Failed? && c.s.rollbackCount == 0 ==> c.s.safeStop)
    && (c.s.status.Completed? ==> c.s.rollbackCount == 0)
    && c.s.rollbackCount <= 1
  }

  // The test result on record is that of the attempt at hand.
  predicate Tested(env: Env, s: GraphState) {
    && s.attempts != [] && s.coder == s.attempts[|s.attempts| - 1]
    && s.test.attemptNumber == s.coder.attemptNumber
    && s.test.passed == env.tests(Latest(s)).passed
  }

  // No guardrail finding of the attempt at hand went by without an override.
  predicate Cleared(env: Env, s: GraphState) {
    var findings := env.findingsIn(s.coder.codeFiles);
    && MergeReleaseApproval in s.gates && |s.violations| == |findings|
    && (forall i | 0 <= i < |findings| :: s.violations[i].finding == findings[i]
          && s.violations[i].overriddenByHuman == s.gates[MergeReleaseApproval].payload.overrideGuardrails)
    && !Blocked(findings, s.gates[MergeReleaseApproval].payload)
  }

  predicate Quality(env: Env, c: Config) {
    && (c.at.AtSync? ==> Tested(env, c.s) && (c.s.hint.Proceed? <==> c.s.test.passed) && !c.s.hint.NoHint?)
    && (c.at.AtGate? || c.s.status.Completed? ==> Tested(env, c.s) && c.s.test.passed)
    && (c.at.AtFork? ==> c.s.attempts != [] && c.s.coder == c.s.attempts[|c.s.attempts| - 1])
    && (c.s.status.Completed? ==> Cleared(env, c.s))
  }

  predicate OnClone(clone: Checkout, w: Checkout) {
    w.commits == clone.commits && w.head == clone.head
  }

  function KnownGood(env: Env, clone: Checkout, s: GraphState): Option<CommitId> {
    if env.headReadable(Latest(s)) then clone.head else None
  }

  ghost predicate CheckoutOk(env: Env, clone: Checkout, c: Config)
    requires Valid(clone)
  {
    && (!c.s.status.Completed? ==> OnClone(clone, c.w))
    && (c.at.AtFork? || c.at.AtSync? || c.at.AtGate? || c.at.AtRollback? ==>
          c.s.coder.commitBefore == KnownGood(env, clone, c.s))
    && (c.s.status.Completed? ==> Released(env, clone, c))
    && (c.s.rollbackCount == 1 ==> RolledBack(env, clone, c))
  }

  // The commit step ran, on the clone's commit and the files at hand, and nothing came after it.
  predicate Released(env: Env, clone: Checkout, c: Config)
    requires Valid(clone)
  {
    var (w, commit) := CommitAll(env.rules, clone.(files := c.w.files), env.commitLuck);
    c.w == w && !commit.CommitFailed? && c.s.commitAfter == if env.releaseReadable then w.head else None
  }

  // Either the checkout is back where the clone left it, or the run safe-stopped; which of the two
  // is up to git alone.
  ghost predicate RolledBack(env: Env, clone: Checkout, c: Config)
    requires Valid(clone)
  {
    && (c.s.safeStop <==> KnownGood(env, clone, c.s).None? || !env.revert.Works?)
    && (!c.s.safeStop ==>
          && clone.head.Some?
          && exists before :: OnClone(clone, before) && Restored(env.rules, before, clone.head.value, c.w))
  }

  predicate Revised(s: GraphState) {
    s.tasks != [] && s.tasks[0].id == "T0"
  }

  predicate Planned(c: Config) {
    && (ReplanningApproval in c.s.gates ==> c.s.scenario.Ambiguous? && c.s.replanning)
    && (c.at.AtReplanner? ==> NeedsReplanning(c.s))
    && (!BeforeCoder(c.at) ==> (Revised(c.s) <==> GateIs(c.s, ReplanningApproval, Approved)) && !NeedsReplanning(c.s))
  }

  ghost predicate Inv(env: Env, clone: Checkout, c: Config)
    requires Valid(clone)
  {
    Lifecycle(c) && Quality(env, c) && CheckoutOk(env, clone, c) && Planned(c)
  }

  // ---- Every step keeps it ----

  predicate Coding(at: At) {
    at.AtCoder? || at.AtFork? || at.AtSync?
  }

  predicate Closing(at: At) {
    at.AtGate? || at.AtRollback? || at.AtEnd?
  }

  lemma LifecyclePlanning(env: Env, c: Config, d: Option<Decision>)
    requires BeforeCoder(c.at) && Lifecycle(c)
    ensures KeptBy(Run(env, c, d), x => Lifecycle(x))
  {
    hide Strip, TasksFor, Decided;
  }

  lemma LifecycleCoding(env: Env, c: Config, d: Option<Decision>)
    requires Coding(c.at) && Lifecycle(c)
    ensures KeptBy(Run(env, c, d), x => Lifecycle(x))
  {
    hide TasksFor, Decimal, Generate, Write, DocBranch;
  }

  lemma LifecycleClosing(env: Env, c: Config, d: Option<Decision>)
    requires Closing(c.at) && Lifecycle(c)
    ensures KeptBy(Run(env, c, d), x => Lifecycle(x))
  {
    hide Staged, Unchanged, Decided, ViolationEvents;
  }

  lemma QualityPlanning(env: Env, c: Config, d: Option<Decision>)
    requires BeforeCoder(c.at) && Lifecycle(c) && Quality(env, c)
    ensures KeptBy(Run(env, c, d), x => Quality(env, x))
  {
    hide Strip, TasksFor, Decided;
  }

  lemma QualityCoding(env: Env, c: Config, d: Option<Decision>)
    requires Coding(c.at) && Lifecycle(c) && Quality(env, c)
    ensures KeptBy(Run(env, c, d), x => Quality(env, x))
  {
    hide TasksFor, Decimal, Generate, Write, DocBranch;
  }

  lemma QualityClosing(env: Env, c: Config, d: Option<Decision>)
    requires Closing(c.at) && Lifecycle(c) && Quality(env, c)
    ensures KeptBy(Run(env, c, d), x => Quality(env, x))
  {
    hide Staged, Unchanged, Decided, ViolationEvents;
  }

  lemma RepositoryPlanning(env: Env, clone: Checkout, c: Config, d: Option<Decision>)
    requires BeforeCoder(c.at) && Valid(clone) && Lifecycle(c) && CheckoutOk(env, clone, c)
    ensures KeptBy(Run(env, c, d), x => CheckoutOk(env, clone, x))
  {
    hide Strip, TasksFor, Decided;
  }

  lemma RepositoryCoding(env: Env, clone: Checkout, c: Config, d: Option<Decision>)
    requires Coding(c.at) && Valid(clone) && Lifecycle(c) && CheckoutOk(env, clone, c)
    ensures KeptBy(Run(env, c, d), x => CheckoutOk(env, clone, x))
  {
    hide TasksFor, Decimal, Generate, Write, DocBranch;
  }

  lemma RepositoryEnd(env: Env, clone: Checkout, c: Config, d: Option<Decision>)
    requires c.at.AtEnd? && Valid(clone) && CheckoutOk(env, clone, c)
    ensures KeptBy(Run(env, c, d), x => CheckoutOk(env, clone, x))
  {
  }

  lemma RepositoryRelease(env: Env, clone: Checkout, c: Config, d: Option<Decision>)
    requires c.at.AtGate? && Valid(clone) && Lifecycle(c) && CheckoutOk(env, clone, c)
    ensures KeptBy(Run(env, c, d), x => CheckoutOk(env, clone, x))
  {
    hide Staged, Unchanged, Decided, ViolationEvents, Restored, RolledBack, GateIs, Blocked;
    assert c.w == clone.(files := c.w.files);
  }

  lemma RepositoryRollback(env: Env, clone: Checkout, c: Config, d: Option<Decision>)
    requires c.at.AtRollback? && Valid(clone) && Lifecycle(c) && CheckoutOk(env, clone, c)
    ensures KeptBy(Run(env, c, d), x => CheckoutOk(env, clone, x))
  {
    assert OnClone(clone, c.w);
    if clone.head.Some? && env.revert.Works? {
      RevertRestores(env.rules, c.w, clone.head.value);
    }
    hide Restored, CommitAll, ResetFiles, CleanFiles;
  }

  lemma TasksRevised(s: GraphState)
    ensures Revised(s.(tasks := TasksFor(s))) <==> GateIs(s, ReplanningApproval, Approved)
  {
    assert "T0" != "T1" by {
      assert "T0"[1] != "T1"[1];
    }
  }

  lemma PlannedEarly(env: Env, c: Config, d: Option<Decision>)
    requires (c.at.AtClarifier? || c.at.AtReasoner? || c.at.AtArchitect? || c.at.AtReplanner?) && Planned(c)
    ensures KeptBy(Run(env, c, d), x => Planned(x))
  {
    hide Strip, TasksFor, Decided;
    match c.at
    case AtReasoner =>
    case _ =>
  }

  lemma PlannedPlanner(env: Env, c: Config, d: Option<Decision>)
    requires c.at.AtPlanner? && Planned(c)
    ensures KeptBy(Run(env, c, d), x => Planned(x))
  {
    hide TasksFor, Decided;
    TasksRevised(c.s);
  }

  predicate SamePlan(c: Config, n: Config) {
    && n.s.tasks == c.s.tasks && n.s.scenario == c.s.scenario && n.s.replanning == c.s.replanning
    && (ReplanningApproval in n.s.gates <==> ReplanningApproval in c.s.gates)
    && (ReplanningApproval in c.s.gates ==> n.s.gates[ReplanningApproval] == c.s.gates[ReplanningApproval])
    && !BeforeCoder(n.at)
  }

  lemma SamePlanCoding(env: Env, c: Config, d: Option<Decision>)
    requires Coding(c.at)
    ensures KeptBy(Run(env, c, d), x => SamePlan(c, x))
  {
    hide Decimal, Generate, Write, TestBranch, DocBranch;
  }

  lemma SamePlanClosing(env: Env, c: Config, d: Option<Decision>)
    requires Closing(c.at)
    ensures KeptBy(Run(env, c, d), x => SamePlan(c, x))
  {
    hide CommitAll, RevertTo, Decided, ViolationEvents;
    match c.at
    case AtGate =>
    case _ =>
  }

  lemma SamePlanPlanned(c: Config, n: Config)
    requires !BeforeCoder(c.at) && Planned(c) && SamePlan(c, n)
    ensures Planned(n)
  {
  }

  lemma PlannedRest(env: Env, c: Config, d: Option<Decision>)
    requires !BeforeCoder(c.at) && Planned(c)
    ensures KeptBy(Run(env, c, d), x => Planned(x))
  {
    hide Run, Planned, SamePlan;
    forall n | SamePlan(c, n) ensures Planned(n) {
      SamePlanPlanned(c, n);
    }
    if Coding(c.at) {
      SamePlanCoding(env, c, d);
    } else {
      SamePlanClosing(env, c, d);
    }
  }

  lemma InvKept(env: Env, clone: Checkout, c: Config, d: Option<Decision>)
    requires Valid(clone) && Inv(env, clone, c)
    ensures KeptBy(Run(env, c, d), x => Inv(env, clone, x))
  {
    hide Run, Lifecycle, Quality, CheckoutOk, Planned;
    if BeforeCoder(c.at) {
      LifecyclePlanning(env, c, d);
      QualityPlanning(env, c, d);
      RepositoryPlanning(env, clone, c, d);
      if c.at.AtPlanner? {
        PlannedPlanner(env, c, d);
      } else {
        PlannedEarly(env, c, d);
      }
    } else if Coding(c.at) {
      LifecycleCoding(env, c, d);
      QualityCoding(env, c, d);
      RepositoryCoding(env, clone, c, d);
      PlannedRest(env, c, d);
    } else {
      LifecycleClosing(env, c, d);
      QualityClosing(env, c, d);
      if c.at.AtGate? {
        RepositoryRelease(env, clone, c, d);
      } else if c.at.AtRollback? {
        RepositoryRollback(env, clone, c, d);
      } else {
        RepositoryEnd(env, clone, c, d);
      }
      PlannedRest(env, c, d);
    }
  }
}
