/**
 Runs that show what the theorems leave open: unattended ones, in which no gate asks before the
 release and every attempt writes the same files.
 */
module SdlcRuns {
  import opened Prelude
  import opened Workspace
  import opened Runner
  import opened Sdlc
  import opened SdlcBounds
  import opened SdlcSafety
  import opened SdlcTheorems

  // An ignore file that names one path ignores it.
  function NamedByIgnoreFile(files: Tree, p: Path): bool {
    ".gitignore" in files && files[".gitignore"] == p
  }

  // Every attempt writes a scratch file, and an ignore file that hides it.
  const HIDDEN: Files := [(".gitignore", "junk"), ("junk", "x")]

  predicate Hides(files: Tree) {
    ".gitignore" in files && files[".gitignore"] == "junk" && "junk" in files
  }

  // git works, no module conflicts, nothing is found in the code; attempt k passes if `passes(k)`.
  function Unattended(passes: nat -> bool): Env {
    Env(
      Rules(NamedByIgnoreFile, p => false, (files, p) => Some(p)),
      t => [], (files, t) => Impact(false, [], []), files => None, (impact, t) => Design("", []),
      k => ToBuiltin, k => Some(HIDDEN), None, k => true,
      (k: nat) => TestRun(passes(k), [], files => files), k => true, k => true,
      (change, scenario, summary, files, tasks) => "", files => [],
      CommandsWork, true, Works)
  }

  predicate Drifting(c: Config) {
    c.s.scenario.Ambiguous? && c.s.mode.Live? && !c.s.replanning
  }

  lemma Steps(env: Env, c: Config, ds: seq<Decision>)
    requires Run(env, c, None).Moved?
    ensures Finally(env, c, ds) == Finally(env, Run(env, c, None).next, ds)
  {
    GraphSound(env);
    hide Run, Sound;
  }

  // What the two halves of an attempt leave alone.
  predicate SameRun(c: Config, n: Config) {
    && Drifting(n) && n.s.retryLimit == c.s.retryLimit && n.s.rollbackCount == c.s.rollbackCount
    && n.s.safeStop == c.s.safeStop
    && n.w.commits == c.w.commits && n.w.head == c.w.head
  }

  lemma ReachesCoder(passes: nat -> bool, c: Config, ds: seq<Decision>) returns (n: Config)
    requires c.at.AtClarifier? && Drifting(c)
    ensures Finally(Unattended(passes), c, ds) == Finally(Unattended(passes), n, ds)
    ensures n.at.AtCoder? && SameRun(c, n) && n.w == c.w
    ensures n.s.attempts == c.s.attempts && n.s.retryCount == c.s.retryCount && n.s.fallback == c.s.fallback
  {
    var env := Unattended(passes);
    hide Finally, Strip, TasksFor;
    var a := Run(env, c, None).next;
    Steps(env, c, ds);
    var b := Run(env, a, None).next;
    Steps(env, a, ds);
    var d := Run(env, b, None).next;
    Steps(env, b, ds);
    n := Run(env, d, None).next;
    Steps(env, d, ds);
  }

  lemma WritesHidden(passes: nat -> bool, files: Tree)
    ensures var (after, ok) := Write(Unattended(passes).rules, files, HIDDEN); ok && Hides(after)
  {
    assert HIDDEN[1..] == [("junk", "x")] && HIDDEN[1..][1..] == [];
  }

  lemma Codes(passes: nat -> bool, c: Config, ds: seq<Decision>) returns (n: Config)
    requires c.at.AtCoder? && Drifting(c)
    ensures Finally(Unattended(passes), c, ds) == Finally(Unattended(passes), n, ds)
    ensures n.at.AtFork? && SameRun(c, n) && Hides(n.w.files)
    ensures |n.s.attempts| == |c.s.attempts| + 1 && n.s.coder.commitBefore == c.w.head
    ensures n.s.retryCount == c.s.retryCount && n.s.fallback == c.s.fallback
  {
    var env := Unattended(passes);
    hide Finally, Write, Hides;
    WritesHidden(passes, c.w.files);
    n := Run(env, c, None).next;
    Steps(env, c, ds);
  }

  lemma Checks(passes: nat -> bool, c: Config, ds: seq<Decision>) returns (n: Config)
    requires c.at.AtFork? && Drifting(c) && Hides(c.w.files) && c.s.attempts != []
    ensures Finally(Unattended(passes), c, ds) == Finally(Unattended(passes), n, ds)
    ensures n.at.AtSync? && SameRun(c, n) && Hides(n.w.files)
    ensures n.s.attempts == c.s.attempts && n.s.coder == c.s.coder && n.s.test.passed == passes(|c.s.attempts| - 1)
    ensures if n.s.test.passed then n.s.hint.Proceed? && n.s.retryCount == c.s.retryCount
        && n.s.fallback == c.s.fallback
            else if c.s.fallback then n.s.hint.RollBack? && n.s.retryCount == c.s.retryCount && n.s.fallback
            else if c.s.retryCount < c.s.retryLimit then n.s.hint.Retry? && n.s.retryCount == c.s.retryCount + 1
                && !n.s.fallback
            else n.s.hint.FallbackAttempt? && n.s.retryCount == c.s.retryCount && n.s.fallback
  {
    var env := Unattended(passes);
    hide Finally, Decimal;
    var docs := DocBranch(env, c.s).docs;
    WriteOne(env.rules, c.w.files, docs);
    assert docs[0].0[0] == 'd' && ".gitignore"[0] == '.' && "junk"[0] == 'j';
    n := Run(env, c, None).next;
    Steps(env, c, ds);
  }

  // However many retries are allowed, a run whose tests all fail ends with a rollback that works.
  lemma {:induction false} RollsBack(passes: nat -> bool, c: Config, ds: seq<Decision>) returns (n: Config)
    requires c.at.AtCoder? && Drifting(c) && (forall k :: !passes(k)) && !c.s.safeStop && c.s.rollbackCount == 0
    requires Valid(c.w) && c.w.head.Some?
    ensures Finally(Unattended(passes), c, ds) == Checkpoint(n, Done)
    ensures n.s.rollbackCount == 1 && !n.s.safeStop
    ensures n.w.commits == c.w.commits && n.w.head == c.w.head
    ensures ".gitignore" !in Tracked(c.w) && "junk" !in Tracked(c.w) ==> "junk" in n.w.files
    decreases Budget(c.s)
  {
    var env := Unattended(passes);
    hide Finally, Hides;
    var coded := Codes(passes, c, ds);
    var checked := Checks(passes, coded, ds);
    var onward := Run(env, checked, None).next;
    Steps(env, checked, ds);
    if checked.s.hint.RollBack? {
      n := RevertsHidden(passes, onward, ds);
    } else {
      n := RollsBack(passes, onward, ds);
    }
  }

  lemma RevertsHidden(passes: nat -> bool, c: Config, ds: seq<Decision>) returns (n: Config)
    requires c.at.AtRollback? && Hides(c.w.files) && Valid(c.w) && c.w.head.Some? && c.s.coder.commitBefore == c.w.head
    requires !c.s.safeStop
    ensures Finally(Unattended(passes), c, ds) == Checkpoint(n, Done)
    ensures n.s.rollbackCount == c.s.rollbackCount + 1 && !n.s.safeStop
    ensures n.w.commits == c.w.commits && n.w.head == c.w.head
    ensures ".gitignore" !in Tracked(c.w) && "junk" !in Tracked(c.w) ==> "junk" in n.w.files
  {
    var env := Unattended(passes);
    n := Run(env, c, None).next;
    Steps(env, c, ds);
    GraphSound(env);
    hide Sound;
  }

  // An attempt can hide its files from the rollback: however many retries are allowed, a run that
  // writes an ignore file naming its scratch file is rolled back with success and the scratch file
  // is still there, although neither file is the clone's and the clone's rules ignore nothing.
  lemma RollbackMissesHiddenFiles(clone: Checkout, start: Config, ds: seq<Decision>) returns (env: Env)
    requires Starts(clone, start) && clone.head.Some? && clone.files == Tracked(clone)
    requires Drifting(start) && ".gitignore" !in clone.files && "junk" !in clone.files
    ensures forall p :: !env.rules.ignored(clone.files, p)
    ensures var cp := Finally(env, start, ds);
            && cp.stop.Done? && cp.config.s.rollbackCount == 1 && !cp.config.s.safeStop
            && "junk" in cp.config.w.files && cp.config.w != clone
  {
    env := Unattended(k => false);
    var c := ReachesCoder(k => false, start, ds);
    hide Finally;
    var n := RollsBack(k => false, c, ds);
  }

  // Without retries a run that fails, falls back and passes waits for its release.
  lemma FallsBack(passes: nat -> bool, clone: Checkout, start: Config) returns (n: Config)
    requires Starts(clone, start) && Drifting(start) && start.s.retryLimit <= 0
    requires !passes(0) && passes(1)
    ensures Finally(Unattended(passes), start, []) == Checkpoint(n, Waiting(MergeReleaseApproval))
    ensures n.at.AtGate? && |n.s.attempts| == 2 && n.s.test.passed
  {
    var env := Unattended(passes);
    var c := ReachesCoder(passes, start, []);
    var coded := Codes(passes, c, []);
    var failed := Checks(passes, coded, []);
    hide Finally, Hides;
    Steps(env, failed, []);
    var again := Codes(passes, Run(env, failed, None).next, []);
    var passed := Checks(passes, again, []);
    n := Run(env, passed, None).next;
    Steps(env, passed, []);
    WaitsAtGate(env, n);
  }

  lemma WaitsAtGate(env: Env, c: Config)
    requires c.at.AtGate? && Valid(c.w)
    ensures Finally(env, c, []) == Checkpoint(c, Waiting(MergeReleaseApproval))
  {
    GraphSound(env);
    hide Sound;
  }
}
