/**
 What holds of every SDLC run, whatever was decided, generated, tested or failed along the way.
 */
module SdlcTheorems {
  import opened Prelude
  import opened Workspace
  import opened Runner
  import opened Sdlc
  import opened SdlcBounds
  import opened SdlcSafety

  // A run as the worker starts it: fresh state, the clone as git made it.
  predicate Starts(clone: Checkout, c: Config) {
    && Valid(clone)
    && c == Initial(c.s.runId, c.s.scenario, c.s.mode, c.s.requirementRaw, c.s.retryLimit, clone)
  }

  // Anywhere a run can be: on its way, parked, or where it stopped.
  ghost predicate Reached(env: Env, start: Config, ds: seq<Decision>, c: Config) {
    c in Through(env, start, ds) || c == Finally(env, start, ds).config
  }

  lemma ReachedInv(env: Env, clone: Checkout, start: Config, ds: seq<Decision>, c: Config)
    requires Starts(clone, start) && Reached(env, start, ds, c)
    ensures Inv(env, clone, c)
  {
    GraphSound(env);
    var inv := (x: Config) => Inv(env, clone, x);
    forall x, d | inv(x) ensures KeptBy(Graph(env).step(x, d), inv) {
      hide Run, Inv;
      InvKept(env, clone, x, d);
    }
    assert inv(start);
    assert Kept(Graph(env), inv);
    hide Inv, Run, Sound, Kept;
    Invariant(Graph(env), inv, start, ds);
  }

  lemma EndsWhereItIs(env: Env, c: Config, d: Option<Decision>)
    ensures Run(env, c, d).Ended? ==> c.at.AtEnd? && Run(env, c, d).last == c
  {
    hide CommitAll, RevertTo, Decided, TestBranch, TasksFor, Strip, Write;
  }

  lemma EndedAtEnd(env: Env, start: Config, ds: seq<Decision>)
    requires Finally(env, start, ds).stop.Done?
    ensures Finally(env, start, ds).config.at.AtEnd?
  {
    hide Run;
    GraphSound(env);
    var at, d := StopMeaning(Graph(env), start, ds);
    EndsWhereItIs(env, at, d);
  }

  lemma WriteOne(r: Rules, files: Tree, code: Files)
    requires |code| == 1
    ensures var at := r.place(files, code[0].0);
            Write(r, files, code) == if at.None? then (files, false) else (files[at.value := code[0].1], true)
  {
    assert code[1..] == [];
  }

  // When a node raises: the coder on a path it cannot write, the join of the branches on the
  // documentation's path or on unreadable test output, and an approved release whose commit fails.
  lemma RaisesExactlyWhen(env: Env, c: Config, d: Option<Decision>)
    requires Valid(c.w)
    ensures Run(env, c, d).Raised?
       <==> match c.at
            case AtCoder => Generate(env, c.s).Some? && !Write(env.rules, c.w.files, Generate(env, c.s).value).1
            case AtFork =>
              var k := Latest(c.s);
              var found := if env.documentationFirst(k) then c.w.files else env.tests(k).leaves(c.w.files);
              !env.testsReadable(k) || env.rules.place(found, DocBranch(env, c.s).docs[0].0).None?
            case AtGate =>
              d.Some? && d.value.status.Approved? && !Blocked(env.findingsIn(c.s.coder.codeFiles), d.value)
              && CommitAll(env.rules, c.w, env.commitLuck).1.CommitFailed?
            case _ => false
  {
    var docs := DocBranch(env, c.s).docs;
    forall files ensures Write(env.rules, files, docs).1 == env.rules.place(files, docs[0].0).Some? {
      WriteOne(env.rules, files, docs);
    }
    hide Generate, Write, CommitAll, RevertTo, Decided, TestBranch, TasksFor, Strip;
  }

  // Completed and an approved release gate are the same thing, and neither happens unless the
  // commit step ran, the attempt at hand passed its own tests, and every guardrail finding in
  // it was overridden.
  lemma CompletedMeansApproved(env: Env, clone: Checkout, start: Config, ds: seq<Decision>, c: Config)
    requires Starts(clone, start) && Reached(env, start, ds, c)
    ensures c.s.status.Completed? <==> GateIs(c.s, MergeReleaseApproval, Approved)
    ensures c.s.status.Completed? ==>
              && c.at.AtEnd? && c.s.finished && !c.s.safeStop && c.s.rollbackCount == 0
              && c.s.attempts != [] && c.s.coder == c.s.attempts[|c.s.attempts| - 1]
              && c.s.test.passed && c.s.test.attemptNumber == c.s.coder.attemptNumber
              && env.tests(|c.s.attempts| - 1).passed
              && (env.findingsIn(c.s.coder.codeFiles) == []
                  || c.s.gates[MergeReleaseApproval].payload.overrideGuardrails)
              && Released(env, clone, c)
  {
    ReachedInv(env, clone, start, ds, c);
  }

  // The end is reached only completed or failed, with finished_at set; a safe stop is a failure,
  // and the runner's classification agrees.
  lemma EndMeansFinished(env: Env, clone: Checkout, start: Config, ds: seq<Decision>)
    requires Starts(clone, start) && Finally(env, start, ds).stop.Done?
    ensures var s := Finally(env, start, ds).config.s;
            && s.finished && (s.status.Completed? || s.status.Failed?) && (s.safeStop ==> s.status.Failed?)
            && (TerminalStateOf(s.safeStop, s.status).RunCompleted? <==> s.status.Completed?)
            && (TerminalStateOf(s.safeStop, s.status).RunFailed? <==>
                s.status.Failed? && s.rollbackCount == 1 && !s.safeStop)
  {
    ReachedInv(env, clone, start, ds, Finally(env, start, ds).config);
    EndedAtEnd(env, start, ds);
  }

  // While a run waits it is running, and nothing of it is finished.
  lemma WaitingMeansRunning(env: Env, clone: Checkout, start: Config, ds: seq<Decision>)
    requires Starts(clone, start) && Finally(env, start, ds).stop.Waiting?
    ensures var cp := Finally(env, start, ds);
            cp.config.s.status.Running? && !cp.config.s.finished && !cp.config.s.safeStop
                && Asks(cp.config) == Some(cp.stop.gate)
  {
    ReachedInv(env, clone, start, ds, Finally(env, start, ds).config);
    GraphSound(env);
    var at, d := StopMeaning(Graph(env), start, ds);
    StepShape(env, at, d);
    hide Run;
  }

  // HEAD stays at the clone commit through every retry and fallback attempt, until a release.
  lemma HeadStaysUntilRelease(env: Env, clone: Checkout, start: Config, ds: seq<Decision>, c: Config)
    requires Starts(clone, start) && Reached(env, start, ds, c)
    requires !c.s.status.Completed?
    ensures c.w.commits == clone.commits && c.w.head == clone.head
  {
    ReachedInv(env, clone, start, ds, c);
  }

  // A run that ended with a rollback ended by running that node.
  lemma RollbackWasLast(env: Env, clone: Checkout, start: Config, ds: seq<Decision>) returns (before: Config)
    requires Starts(clone, start)
    requires Finally(env, start, ds).stop.Done? && Finally(env, start, ds).config.s.rollbackCount == 1
    ensures before in Through(env, start, ds) && before.at.AtRollback?
    ensures Run(env, before, None) == Moved(Finally(env, start, ds).config)
  {
    hide Run;
    GraphSound(env);
    var m, c := Graph(env), Finally(env, start, ds).config;
    var at, d := StopMeaning(m, start, ds);
    EndsWhereItIs(env, at, d);
    var x, e := CameFrom(m, start, ds, c);
    ReachedInv(env, clone, start, ds, x);
    ReachedInv(env, clone, start, ds, c);
    hide Sound, Quality, CheckoutOk, Planned;
    if !x.at.AtRollback? {
      OnlyRollbackCounts(env, x, e);
    }
    before := x;
    StepShape(env, x, e);
    if e.Some? {
      assert Run(env, x, e) == Run(env, x, None);
    }
  }

  lemma OnlyRollbackCounts(env: Env, c: Config, d: Option<Decision>)
    requires Run(env, c, d).Moved? && !c.at.AtRollback?
    ensures Run(env, c, d).next.s.rollbackCount == c.s.rollbackCount && !c.at.AtEnd?
  {
    hide CommitAll, Decided, TestBranch, DocBranch, TasksFor, Strip, Write, Generate;
    match c.at
    case AtClarifier =>
    case AtReasoner =>
    case AtGate =>
    case _ =>
  }

  // Rollback undoes the run as far as git does.  From the checkout the rollback found: the tracked
  // files are the clone's, and any other file left was there, untracked, unchanged and ignored by
  // the rules in force after the reset.  So it gives the clone back exactly when those rules ignore
  // none of the run's own files.  It safe-stops instead exactly when the last attempt could not
  // read HEAD, or git fails.
  lemma RollbackUndoesTheRun(env: Env, clone: Checkout, start: Config, ds: seq<Decision>) returns (before: Config)
    requires Starts(clone, start) && clone.files == Tracked(clone)
    requires Finally(env, start, ds).stop.Done? && Finally(env, start, ds).config.s.rollbackCount == 1
    ensures before in Through(env, start, ds) && before.at.AtRollback? && OnClone(clone, before.w) && Valid(before.w)
    ensures var c := Finally(env, start, ds).config;
            && (c.s.safeStop <==> clone.head.None? || !env.headReadable(Latest(c.s)) || !env.revert.Works?)
            && (!c.s.safeStop ==>
                  && Restored(env.rules, before.w, clone.head.value, c.w)
                  && var reset := ResetFiles(before.w, clone.head.value);
                     c.w == clone <==>
                     forall p | p in before.w.files && p !in clone.files :: !env.rules.ignored(reset, p))
  {
    var c := Finally(env, start, ds).config;
    before := RollbackWasLast(env, clone, start, ds);
    ReachedInv(env, clone, start, ds, before);
    ReachedInv(env, clone, start, ds, c);
    assert OnClone(clone, before.w);
    assert before.s.coder.commitBefore == KnownGood(env, clone, before.s);
    hide Lifecycle, Quality, Planned, ResetFiles, CleanFiles;
    if !c.s.safeStop {
      RevertRestores(env.rules, before.w, clone.head.value);
      RevertUndoesEverything(env.rules, clone, before.w);
    }
  }

  // The coder works from the revised plan exactly when replanning was approved, and only an
  // ambiguous run with a conflict ever gets there.
  lemma RevisedPlanMeansApproved(env: Env, clone: Checkout, start: Config, ds: seq<Decision>, c: Config)
    requires Starts(clone, start) && Reached(env, start, ds, c) && !BeforeCoder(c.at)
    ensures Revised(c.s) <==> GateIs(c.s, ReplanningApproval, Approved)
    ensures c.s.scenario.Ambiguous? && c.s.replanning ==> ReplanningApproval in c.s.gates
    ensures ReplanningApproval in c.s.gates ==> c.s.scenario.Ambiguous? && c.s.replanning
  {
    ReachedInv(env, clone, start, ds, c);
  }

  // The parallel branches commute: the same state but for the order of the events, and the same
  // way on from the join.
  lemma BranchesCommute(env: Env, s: GraphState, run: TestRun, w: Checkout)
    ensures var t, d := TestBranch(run, s), DocBranch(env, s);
            var x, y := ApplyDoc(ApplyTest(s, t), d), ApplyTest(ApplyDoc(s, d), t);
            && x.(events := []) == y.(events := [])
            && multiset(x.events) == multiset(y.events)
            && Sync(Config(AtSync, x, w)).next.at == Sync(Config(AtSync, y, w)).next.at
  {
    hide TestBranch, DocBranch;
    var t, d := TestBranch(run, s), DocBranch(env, s);
    assert multiset(s.events + t.events + d.events) == multiset(s.events) + multiset(t.events) + multiset(d.events);
    assert multiset(s.events + d.events + t.events) == multiset(s.events) + multiset(d.events) + multiset(t.events);
  }

  // Replay picks the first recorded entry that fits, and fails exactly when none does.
  lemma {:induction false} FixtureChosen(fs: seq<Fixture>, n: int, fallback: bool)
    ensures var fits := (f: Fixture) => if fallback then f.fallback else f.attemptNumber == n;
            match SelectFixture(fs, n, fallback)
            case None => forall f | f in fs :: !fits(f)
            case Some(f) => exists i | 0 <= i < |fs| :: fs[i] == f && fits(f) && forall j | 0 <= j < i :: !fits(fs[j])
    decreases |fs|
  {
    if fs != [] {
      FixtureChosen(fs[1..], n, fallback);
      var fits := (f: Fixture) => if fallback then f.fallback else f.attemptNumber == n;
      assert forall f | f in fs :: f == fs[0] || f in fs[1..];
      if !fits(fs[0]) && SelectFixture(fs, n, fallback).Some? {
        var f := SelectFixture(fs, n, fallback).value;
        var i :| 0 <= i < |fs[1..]| && fs[1..][i] == f && fits(f) && forall j | 0 <= j < i :: !fits(fs[1..][j]);
        assert fs[i + 1] == f;
        forall j | 0 <= j < i + 1 ensures !fits(fs[j]) {
          if j > 0 {
            assert fs[j] == fs[1..][j - 1];
          }
        }
      }
    }
  }
}
