/**
 The nodes that work step by step, on the checkout itself, each against its step of the machine.
 */
module SdlcNodes {
  import opened Prelude
  import opened Workspace
  import opened Runner
  import opened Sdlc

  function After(o: Step): Config {
    match o
    case Parked(_, left) => left
    case Moved(next) => next
    case Ended(last) => last
    case Raised(left) => left
  }

  method CoderNode(env: Env, repo: Repository, s: GraphState) returns (o: Step)
    modifies repo
    ensures o == Code(env, Config(AtCoder, s, old(repo.State()))) && repo.State() == After(o).w
  {
    var generated := Generate(env, s);
    if generated.None? {
      var stopped := s.(safeStop := true, status := Failed, finished := true,
          coder := CoderOutput([], s.retryCount + 1, None),
        events := s.events + [Note(Coder, SafeStopEvent)]);
      return Moved(Config(AtEnd, stopped, repo.State()));
    }
    var before := if env.headReadable(|s.attempts|) then repo.head else None;
    var ok := repo.WriteCodeFiles(env.rules, generated.value);
    if !ok {
      return Raised(Config(AtCoder, s, repo.State()));
    }
    var output := CoderOutput(generated.value, s.retryCount + 1, before);
    o := Moved(Config(AtFork, s.(coder := output, attempts := s.attempts + [output],
      events := s.events + [Note(Coder, NodeEnd)]), repo.State()));
  }

  method TestExecutorNode(run: TestRun, s: GraphState) returns (u: TestUpdates)
    ensures u == TestBranch(run, s)
  {
    var result := TestResult(run.passed, if run.passed then [] else run.failures, s.coder.attemptNumber);
    u := TestUpdates(result, NoHint, None, None, []);
    var events := [Note(TestExecutor, NodeStart)];
    var summary;
    if run.passed {
      summary := "tests passed";
      u := u.(hint := Proceed);
    } else if s.fallback {
      summary := TESTS_FAILED + " (fallback attempt also failed)";
      u := u.(hint := RollBack);
    } else if s.retryCount < s.retryLimit {
      u := u.(retryCount := Some(s.retryCount + 1), hint := Retry);
      summary := TESTS_FAILED + ", retrying (attempt " + Decimal(s.retryCount + 2) + " of "
          + Decimal(s.retryLimit + 1) + ")";
      events := events + [Event(TestExecutor, RetryEvent, summary, None)];
    } else {
      u := u.(fallback := Some(true), hint := FallbackAttempt);
      summary := RETRIES_EXHAUSTED;
      events := events + [Event(TestExecutor, FallbackEvent, summary, None)];
    }
    events := events + [Event(TestExecutor, NodeEnd, summary, None)];
    u := u.(events := events);
  }

  method ReleaseGateNode(env: Env, repo: Repository, s: GraphState, decision: Option<Decision>) returns (o: Step)
    requires Valid(repo.State())
    modifies repo
    ensures o == Release(env, Config(AtGate, s, old(repo.State())), decision) && repo.State() == After(o).w
  {
    var findings := env.findingsIn(s.coder.codeFiles);
    var violations: seq<Violation> := [];
    var events := [Note(ReleaseGate, NodeStart)];
    var i := 0;
    while i < |findings|
      invariant i <= |findings|
      invariant violations == seq(i, j requires 0 <= j < i => Violation(findings[j], false))
      invariant events == [Note(ReleaseGate, NodeStart)] + ViolationEvents(findings[..i])
      invariant repo.State() == old(repo.State())
    {
      violations := violations + [Violation(findings[i], false)];
      events := events + [Note(ReleaseGate, GuardrailViolationEvent)];
      assert ViolationEvents(findings[..i + 1]) == ViolationEvents(findings[..i])
          + [Note(ReleaseGate, GuardrailViolationEvent)];
      i := i + 1;
    }
    assert findings[..i] == findings;
    if decision.None? {
      return Parked(MergeReleaseApproval, Config(AtGate, s, repo.State()));
    }
    var v := decision.value;
    if v.overrideGuardrails {
      i := 0;
      while i < |violations|
        invariant i <= |violations| == |findings|
        invariant forall j | 0 <= j < |findings| :: violations[j] == Violation(findings[j], j < i)
        invariant repo.State() == old(repo.State())
      {
        violations := violations[i := violations[i].(overriddenByHuman := true)];
        i := i + 1;
      }
    }
    var status := if violations != [] && !v.overrideGuardrails then Rejected else v.status;
    assert violations == seq(|findings|, j requires 0 <= j < |findings| => Violation(findings[j],
        v.overrideGuardrails));
    events := events + [Decided(ReleaseGate, MergeReleaseApproval, status)] + [Note(ReleaseGate, NodeEnd)];
    var recorded := RecordGate(s, MergeReleaseApproval, status, v).(violations := violations,
        events := s.events + events);
    assert s.events + events == s.events + [Note(ReleaseGate, NodeStart)] + ViolationEvents(findings)
            + [Decided(ReleaseGate, MergeReleaseApproval, status), Note(ReleaseGate, NodeEnd)];
    if !status.Approved? {
      return Moved(Config(AtRollback, recorded, repo.State()));
    }
    var commit := repo.GitCommitAll(env.rules, env.commitLuck);
    if commit.CommitFailed? {
      return Raised(Config(AtGate, s, repo.State()));
    }
    var sha := if env.releaseReadable then repo.head else None;
    o := Moved(Config(AtEnd, recorded.(status := Completed, finished := true, commitAfter := sha), repo.State()));
  }

  method RollbackNode(env: Env, repo: Repository, s: GraphState) returns (o: Step)
    requires Valid(repo.State())
    modifies repo
    ensures o == RollBackRun(env, Config(AtRollback, s, old(repo.State()))) && repo.State() == After(o).w
  {
    var u := s.(rollbackCount := s.rollbackCount + 1, status := Failed);
    var target := s.coder.commitBefore;
    var reverted := false;
    if target.Some? && target.value < |repo.commits| {
      reverted := repo.GitRevertTo(env.rules, target.value, env.revert);
    }
    if reverted {
      u := u.(events := u.events + [Note(Rollback, RollbackEvent)]);
    } else {
      u := u.(safeStop := true, events := u.events + [Note(Rollback, SafeStopEvent)]);
    }
    o := Moved(Config(AtEnd, u.(finished := true), repo.State()));
  }
}
