/**
 What becomes of each attempt: where its files come from, what its tests lead to, and what a release
 decision makes of it.
 */
module SdlcAttempts {
  import opened Prelude
  import opened Workspace
  import opened Runner
  import opened Sdlc
  import opened SdlcBounds
  import S = SdlcSafety
  import opened SdlcTheorems
  import M = Metrics
  import T = SdlcTrail

  // ---- Where the files come from ----

  predicate Fits(f: Fixture, number: int, fallback: bool) {
    if fallback then f.fallback else f.attemptNumber == number
  }

  predicate FirstFit(fs: seq<Fixture>, i: nat, number: int, fallback: bool) {
    i < |fs| && Fits(fs[i], number, fallback) && forall j | 0 <= j < i :: !Fits(fs[j], number, fallback)
  }

  // The code files of attempt k: in live mode the builtin generator's, if the target is routed to it;
  // in replay the first recorded attempt of that number, or the first recorded fallback.
  ghost predicate Supplied(env: Env, mode: Mode, k: nat, number: int, fallback: bool, code: Files) {
    if mode.Live? then env.route(k).ToBuiltin? && env.live(k) == Some(code)
    else
      && !env.route(k).Unloadable? && env.recorded.Some?
      && exists i: nat :: FirstFit(env.recorded.value, i, number, fallback) && env.recorded.value[i].codeFiles == code
  }

  lemma Chosen(fs: seq<Fixture>, number: int, fallback: bool)
    ensures match SelectFixture(fs, number, fallback)
            case None => forall i: nat :: !FirstFit(fs, i, number, fallback)
            case Some(f) => exists i: nat :: FirstFit(fs, i, number, fallback) && fs[i] == f
  {
    FixtureChosen(fs, number, fallback);
    hide SelectFixture;
    match SelectFixture(fs, number, fallback)
    case None =>
      forall i: nat | i < |fs| ensures !Fits(fs[i], number, fallback) {
        assert fs[i] in fs;
      }
    case Some(f) =>
      var i :| 0 <= i < |fs| && fs[i] == f && Fits(f, number, fallback)
          && forall j | 0 <= j < i :: !Fits(fs[j], number, fallback);
      assert FirstFit(fs, i, number, fallback);
  }

  lemma OnlyOneFits(fs: seq<Fixture>, i: nat, j: nat, number: int, fallback: bool)
    requires FirstFit(fs, i, number, fallback) && FirstFit(fs, j, number, fallback)
    ensures i == j
  {
  }

  lemma GeneratesWhatIsSupplied(env: Env, s: GraphState)
    ensures var k, n := |s.attempts|, s.retryCount + 1;
            match Generate(env, s)
            case None => forall code :: !Supplied(env, s.mode, k, n, s.fallback, code)
            case Some(code) =>
              && Supplied(env, s.mode, k, n, s.fallback, code)
              && forall other | Supplied(env, s.mode, k, n, s.fallback, other) :: other == code
  {
    if s.mode.Replay? && env.recorded.Some? {
      var fs, n := env.recorded.value, s.retryCount + 1;
      Chosen(fs, n, s.fallback);
      forall i: nat, j: nat | FirstFit(fs, i, n, s.fallback) && FirstFit(fs, j, n, s.fallback) ensures i == j {
        OnlyOneFits(fs, i, j, n, s.fallback);
      }
      hide SelectFixture, FirstFit;
    }
  }

  // The coder ends the run as failed exactly when nothing is supplied.  Otherwise it writes what is, or
  // raises where that cannot be written, and the attempt on record is what it wrote.
  lemma CoderDecides(env: Env, c: Config, code: Files)
    requires c.at.AtCoder?
    ensures var o, k, n := Run(env, c, None), |c.s.attempts|, c.s.retryCount + 1;
            && ((forall files :: !Supplied(env, c.s.mode, k, n, c.s.fallback, files)) ==>
                  o.Moved? && o.next.at.AtEnd? && o.next.s.safeStop && o.next.s.status.Failed? && o.next.w == c.w
                  && o.next.s.attempts == c.s.attempts && o.next.s.coder == CoderOutput([], n, None))
            && (Supplied(env, c.s.mode, k, n, c.s.fallback, code) ==>
                  var (files, ok) := Write(env.rules, c.w.files, code);
                  && (o.Raised? <==> !ok) && (o.Moved? <==> ok)
                  && (o.Raised? ==> o.left == c.(w := c.w.(files := files)))
                  && (o.Moved? ==>
                        && o.next.at.AtFork? && o.next.w == c.w.(files := files)
                        && o.next.s.coder
                           == CoderOutput(code, n, if env.headReadable(k) then c.w.head else None)
                        && o.next.s.attempts == c.s.attempts + [o.next.s.coder]))
  {
    GeneratesWhatIsSupplied(env, c.s);
    hide Generate, Write, Supplied;
  }

  // ---- Every attempt of a run ----

  // The k-th attempt, counted from 0: retries are numbered up to the limit, and the one attempt after
  // that is the fallback, numbered like the last retry.
  ghost predicate AttemptOk(env: Env, start: GraphState, clone: Checkout, k: nat, a: CoderOutput) {
    var limit := M.Allowed(start.retryLimit);
    && a.attemptNumber == Min(k, limit) + 1
    && a.commitBefore == (if env.headReadable(k) then clone.head else None)
    && Supplied(env, start.mode, k, Min(k, limit) + 1, k > limit, a.codeFiles)
  }

  ghost predicate AttemptsOk(env: Env, start: GraphState, clone: Checkout, c: Config) {
    && c.s.mode == start.mode
    && forall k | 0 <= k < |c.s.attempts| :: AttemptOk(env, start, clone, k, c.s.attempts[k])
  }

  // The numbers at hand when the coder runs.
  predicate Numbered(limit: nat, c: Config) {
    c.at.AtCoder? ==> c.s.retryCount == Min(|c.s.attempts|, limit) && (c.s.fallback <==> |c.s.attempts| > limit)
  }

  lemma BookNumbers(env: Env, limit: nat, c: Config)
    requires M.Bookkept(env, limit, c) && (c.at.AtCoder? ==> !c.s.test.passed)
    ensures Numbered(limit, c)
  {
  }

  lemma CoderKeeps(env: Env, start: GraphState, clone: Checkout, c: Config, d: Option<Decision>)
    requires c.at.AtCoder? && AttemptsOk(env, start, clone, c) && c.w.head == clone.head
    requires Numbered(M.Allowed(start.retryLimit), c)
    ensures KeptBy(Run(env, c, d), x => AttemptsOk(env, start, clone, x))
  {
    GeneratesWhatIsSupplied(env, c.s);
    hide Generate, Write, Supplied;
  }

  lemma OthersKeep(env: Env, start: GraphState, clone: Checkout, c: Config, d: Option<Decision>)
    requires !c.at.AtCoder? && AttemptsOk(env, start, clone, c)
    ensures KeptBy(Run(env, c, d), x => AttemptsOk(env, start, clone, x))
  {
    SameAttempts(env, c, d);
    hide Run, AttemptOk;
  }

  predicate SameSoFar(c: Config, n: Config) {
    n.s.attempts == c.s.attempts && n.s.mode == c.s.mode
  }

  lemma ReadingSame(env: Env, c: Config, d: Option<Decision>)
    requires c.at.AtClarifier? || c.at.AtReasoner?
    ensures KeptBy(Run(env, c, d), x => SameSoFar(c, x))
  {
    hide Decided, Strip;
    match c.at
    case AtClarifier =>
    case _ =>
  }

  lemma PlanningSame(env: Env, c: Config, d: Option<Decision>)
    requires c.at.AtArchitect? || c.at.AtPlanner? || c.at.AtReplanner?
    ensures KeptBy(Run(env, c, d), x => SameSoFar(c, x))
  {
    hide Decided, TasksFor;
  }

  lemma ClosingSame(env: Env, c: Config, d: Option<Decision>)
    requires c.at.AtFork? || c.at.AtSync? || c.at.AtGate? || c.at.AtRollback? || c.at.AtEnd?
    ensures KeptBy(Run(env, c, d), x => SameSoFar(c, x))
  {
    hide CommitAll, RevertTo, Decided, TestBranch, DocBranch, Write, ViolationEvents, Blocked;
    match c.at
    case AtGate =>
    case _ =>
  }

  lemma SameAttempts(env: Env, c: Config, d: Option<Decision>)
    requires !c.at.AtCoder?
    ensures KeptBy(Run(env, c, d), x => SameSoFar(c, x))
  {
    hide Run;
    if c.at.AtClarifier? || c.at.AtReasoner? {
      ReadingSame(env, c, d);
    } else if c.at.AtArchitect? || c.at.AtPlanner? || c.at.AtReplanner? {
      PlanningSame(env, c, d);
    } else {
      ClosingSame(env, c, d);
    }
  }

  ghost predicate RunOk(env: Env, clone: Checkout, start: GraphState, c: Config)
    requires Valid(clone)
  {
    && S.Inv(env, clone, c) && M.TrailInv(start.retryLimit, c) && M.Bookkept(env, M.Allowed(start.retryLimit), c)
    && AttemptsOk(env, start, clone, c)
  }

  lemma RunKept(env: Env, clone: Checkout, start: GraphState, c: Config, d: Option<Decision>)
    requires Valid(clone) && RunOk(env, clone, start, c)
    ensures KeptBy(Run(env, c, d), x => RunOk(env, clone, start, x))
  {
    hide Run, S.Inv, M.TrailInv, M.Bookkept, AttemptsOk;
    S.InvKept(env, clone, c, d);
    M.TrailKept(env, start.retryLimit, c, d);
    M.BookKept(env, start.retryLimit, c, d);
    if c.at.AtCoder? {
      CoderNumbers(env, clone, start, c);
      CoderKeeps(env, start, clone, c, d);
    } else {
      OthersKeep(env, start, clone, c, d);
    }
  }

  lemma CoderNumbers(env: Env, clone: Checkout, start: GraphState, c: Config)
    requires Valid(clone) && RunOk(env, clone, start, c) && c.at.AtCoder?
    ensures c.w.head == clone.head && Numbered(M.Allowed(start.retryLimit), c)
  {
    hide AttemptsOk, M.Bookkept;
    BookNumbers(env, M.Allowed(start.retryLimit), c);
  }

  lemma ReachedRunOk(env: Env, clone: Checkout, start: Config, ds: seq<Decision>, c: Config)
    requires Starts(clone, start) && Reached(env, start, ds, c)
    ensures RunOk(env, clone, start.s, c)
  {
    GraphSound(env);
    var inv := (x: Config) => RunOk(env, clone, start.s, x);
    forall x, d | inv(x) ensures KeptBy(Graph(env).step(x, d), inv) {
      hide Run, RunOk;
      RunKept(env, clone, start.s, x, d);
    }
    assert inv(start) by {
      assert M.ArcOf([]) == M.Arc(None, None);
    }
    assert Kept(Graph(env), inv);
    hide RunOk, Run, Sound, Kept;
    Invariant(Graph(env), inv, start, ds);
  }

  // Whatever a run has generated came from where its mode and its target's route say, attempt by
  // attempt, and started from the clone's commit.
  lemma AttemptsAreSupplied(env: Env, clone: Checkout, start: Config, ds: seq<Decision>, c: Config, k: nat)
    requires Starts(clone, start) && Reached(env, start, ds, c) && k < |c.s.attempts|
    ensures AttemptOk(env, start.s, clone, k, c.s.attempts[k])
  {
    ReachedRunOk(env, clone, start, ds, c);
    hide S.Inv, M.TrailInv, M.Bookkept;
  }

  // ---- What its tests lead to ----

  // The branches of the fork: the result is that of the attempt's tests, the document says what the
  // run is about, and it is on disk before or after the tests did what they do.
  lemma ForkDecides(env: Env, c: Config)
    requires c.at.AtFork? && Run(env, c, None).Moved?
    ensures var n := Run(env, c, None).next;
            var run, first := env.tests(Latest(c.s)), env.documentationFirst(Latest(c.s));
            var path := "docs/CHANGE_" + (if |c.s.runId| < 8 then c.s.runId else c.s.runId[..8]) + ".md";
            var text := env.docText(if c.s.clarified == "" then c.s.requirementRaw else c.s.clarified, c.s.scenario,
                c.s.design.summary, c.s.coder.codeFiles, c.s.tasks);
            && n.s.test == TestResult(run.passed, if run.passed then [] else run.failures, c.s.coder.attemptNumber)
            && n.s.docs == [(path, text)]
            && n.w == c.w.(files := n.w.files)
            && var found := if first then c.w.files else run.leaves(c.w.files);
               var placed := env.rules.place(found, path);
               && placed.Some?
               && n.w.files == if first then run.leaves(found[placed.value := text]) else found[placed.value := text]
  {
    var k, id := Latest(c.s), c.s.runId;
    assert id[..Min(8, |id|)] == if |id| < 8 then id else id[..8];
    var docs := DocBranch(env, c.s).docs;
    WriteOne(env.rules, if env.documentationFirst(k) then c.w.files else env.tests(k).leaves(c.w.files), docs);
    hide Write, Decimal;
  }

  // Where the k-th attempt's tests lead: to the release gate if they pass; if not to another attempt as
  // long as retries or the fallback are left, and else to the rollback.
  lemma TestsDecide(env: Env, clone: Checkout, start: Config, ds: seq<Decision>, c: Config)
    requires Starts(clone, start) && Reached(env, start, ds, c) && c.at.AtSync?
    ensures c.s.attempts != []
    ensures var k, limit := |c.s.attempts| - 1, M.Allowed(start.s.retryLimit); var passed := env.tests(k).passed;
            && c.s.test.passed == passed && c.s.test.attemptNumber == Min(k, limit) + 1
            && c.s.retryCount == Min(if passed then k else k + 1, limit)
            && Run(env, c, None)
               == Moved(c.(at := if passed then AtGate else if k <= limit then AtCoder else AtRollback))
  {
    ReachedRunOk(env, clone, start, ds, c);
    AtSyncOk(env, clone, start.s, c);
  }

  lemma AtSyncOk(env: Env, clone: Checkout, start: GraphState, c: Config)
    requires Valid(clone) && RunOk(env, clone, start, c) && c.at.AtSync?
    ensures c.s.attempts != []
    ensures var k, limit := |c.s.attempts| - 1, M.Allowed(start.retryLimit); var passed := env.tests(k).passed;
            && c.s.test.passed == passed && c.s.test.attemptNumber == Min(k, limit) + 1
            && c.s.retryCount == Min(if passed then k else k + 1, limit)
            && Run(env, c, None)
               == Moved(c.(at := if passed then AtGate else if k <= limit then AtCoder else AtRollback))
  {
    hide S.CheckoutOk, M.TrailTold, Supplied;
    assert AttemptOk(env, start, clone, |c.s.attempts| - 1, c.s.attempts[|c.s.attempts| - 1]);
  }

  // ---- What a release decision makes of it ----

  // The decision releases exactly when it approves and every finding is overridden, if there are any;
  // a release commits the files at hand and completes the run, or raises where the commit fails, and
  // anything else goes to the rollback.  What goes on record is the decision itself, rejected where
  // findings stand in its way, and each finding with whether it was overridden.
  lemma ReleaseDecides(env: Env, c: Config, v: Decision)
    requires c.at.AtGate? && Valid(c.w)
    ensures var o, found := Run(env, c, Some(v)), env.findingsIn(c.s.coder.codeFiles);
            var cleared := found == [] || v.overrideGuardrails;
            var (w, commit) := CommitAll(env.rules, c.w, env.commitLuck);
            && (o.Raised? <==> v.status.Approved? && cleared && commit.CommitFailed?)
            && (o.Raised? ==> o.left == c)
            && (o.Moved? <==> !o.Raised?)
            && (o.Moved? ==>
                  var n := o.next;
                  && (n.at.AtEnd? <==> v.status.Approved? && cleared)
                  && (n.at.AtEnd? ==>
                        && n.s.status.Completed? && n.s.finished && n.w == w
                        && n.s.commitAfter == if env.releaseReadable then w.head else None)
                  && (!n.at.AtEnd? ==>
                        && n.at.AtRollback? && n.w == c.w && n.s.status == c.s.status
                        && n.s.commitAfter == c.s.commitAfter)
                  && MergeReleaseApproval in n.s.gates && n.s.gates[MergeReleaseApproval].payload == v
                  && var on := n.s.gates[MergeReleaseApproval].status;
                     && (on.Rejected? <==> v.status.Rejected? || !cleared)
                     && (!on.Rejected? ==> on == v.status))
  {
    hide CommitAll, ViolationEvents, Decided;
  }

  // And the trail says so: the node started, one event for each finding, the decision, the node ended.
  lemma ReleaseTells(env: Env, c: Config, v: Decision)
    requires c.at.AtGate? && Valid(c.w) && Run(env, c, Some(v)).Moved?
    ensures var n, found := Run(env, c, Some(v)).next, env.findingsIn(c.s.coder.codeFiles);
            var at := |c.s.events|;
            && |n.s.violations| == |found|
            && (forall i | 0 <= i < |found| :: n.s.violations[i] == Violation(found[i], v.overrideGuardrails))
            && |n.s.events| == at + |found| + 3 && n.s.events[..at] == c.s.events
            && n.s.events[at] == Note(ReleaseGate, NodeStart)
            && (forall i | at < i <= at + |found| :: n.s.events[i] == Note(ReleaseGate, GuardrailViolationEvent))
            && n.s.events[at + |found| + 1].kind.GateDecision?
            && n.s.events[at + |found| + 2] == Note(ReleaseGate, NodeEnd)
  {
    hide CommitAll, Decided, Blocked;
  }

  // In every reachable state the release gate's record is the human's decision, turned into a rejection
  // exactly where a finding was left standing.
  lemma ReleaseOnRecord(env: Env, clone: Checkout, start: Config, ds: seq<Decision>, c: Config)
    requires Starts(clone, start) && Reached(env, start, ds, c) && MergeReleaseApproval in c.s.gates
    ensures var on := c.s.gates[MergeReleaseApproval];
            var cleared := env.findingsIn(c.s.coder.codeFiles) == [] || on.payload.overrideGuardrails;
            && (on.status.Rejected? <==> on.payload.status.Rejected? || !cleared)
            && (!on.status.Rejected? ==> on.status == on.payload.status)
            && (c.s.status.Completed? <==> on.payload.status.Approved? && cleared)
  {
    GraphSound(env);
    var inv := (x: Config) => Recorded(env, x);
    forall x, d | inv(x) ensures KeptBy(Graph(env).step(x, d), inv) {
      hide Run, Recorded;
      RecordedKept(env, x, d);
    }
    assert inv(start);
    assert Kept(Graph(env), inv);
    ReachedInv(env, clone, start, ds, c);
    assert S.Lifecycle(c);
    hide Run, Sound, Kept, S.Inv;
    Invariant(Graph(env), inv, start, ds);
  }

  predicate Recorded(env: Env, c: Config) {
    && (MergeReleaseApproval in c.s.gates ==>
          var on := c.s.gates[MergeReleaseApproval];
          var cleared := env.findingsIn(c.s.coder.codeFiles) == [] || on.payload.overrideGuardrails;
          && (on.status.Rejected? <==> on.payload.status.Rejected? || !cleared)
          && (!on.status.Rejected? ==> on.status == on.payload.status))
    && (MergeReleaseApproval in c.s.gates ==> c.at.AtRollback? || c.at.AtEnd?)
  }

  lemma RecordedKept(env: Env, c: Config, d: Option<Decision>)
    requires Recorded(env, c)
    ensures KeptBy(Run(env, c, d), x => Recorded(env, x))
  {
    if c.at.AtGate? {
      GateRecorded(env, c, d);
    } else {
      OthersRecorded(env, c, d);
    }
  }

  lemma GateRecorded(env: Env, c: Config, d: Option<Decision>)
    requires Recorded(env, c) && c.at.AtGate?
    ensures KeptBy(Run(env, c, d), x => Recorded(env, x))
  {
    hide CommitAll, ViolationEvents, Decided;
  }

  lemma OthersRecorded(env: Env, c: Config, d: Option<Decision>)
    requires Recorded(env, c) && !c.at.AtGate?
    ensures KeptBy(Run(env, c, d), x => Recorded(env, x))
  {
    if c.at.AtRollback? || c.at.AtEnd? {
      EndRecorded(env, c, d);
    } else {
      var o := Run(env, c, d);
      M.StepLeaves(env, c, d);
      if o.Moved? {
        T.StepTells(env, c, d, ReleaseGate);
        hide Run, T.Told;
        assert MergeReleaseApproval !in o.next.s.gates;
      }
    }
  }

  lemma EndRecorded(env: Env, c: Config, d: Option<Decision>)
    requires Recorded(env, c) && (c.at.AtRollback? || c.at.AtEnd?)
    ensures KeptBy(Run(env, c, d), x => Recorded(env, x))
  {
    hide RevertTo;
  }
}
