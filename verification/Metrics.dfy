/**
 Reliability metrics, read back from the trail the SDLC graph leaves.
 */
module Metrics {
  import opened Prelude
  import opened Workspace
  import opened Runner
  import opened Sdlc
  import opened SdlcBounds
  import opened SdlcSafety
  import opened SdlcTheorems
  import SdlcRuns

  // ---- Reading the trail ----

  function Lower(t: string): string {
    seq(|t|, i requires 0 <= i < |t| => if 'A' <= t[i] <= 'Z' then t[i] + 32 as char else t[i])
  }

  predicate StartsAt(t: string, part: string, i: nat) {
    i + |part| <= |t| && t[i..i + |part|] == part
  }

  predicate Contains(t: string, part: string) {
    exists i | 0 <= i <= |t| :: StartsAt(t, part, i)
  }

  predicate IsTestEnd(e: Event) {
    e.node.TestExecutor? && e.kind.NodeEnd?
  }

  // Where the trail first reports a failure, and where it first reports a success after one.
  datatype Arc = Arc(failure: Option<nat>, recovery: Option<nat>)

  function ArcOf(es: seq<Event>): Arc {
    if es == [] then Arc(None, None)
    else
      var before := ArcOf(es[..|es| - 1]);
      var e := es[|es| - 1];
      if !IsTestEnd(e) then before
      else if Contains(Lower(e.detail), "fail") && before.failure.None? then before.(failure := Some(|es| - 1))
      else if Contains(Lower(e.detail), "pass") && before.failure.Some? && before.recovery.None?
        then before.(recovery := Some(|es| - 1))
      else before
  }

  lemma {:induction false} ArcInRange(es: seq<Event>)
    ensures var a := ArcOf(es);
            && (a.failure.Some? ==> a.failure.value < |es|)
            && (a.recovery.Some? ==> a.failure.Some? && a.failure.value < a.recovery.value < |es|)
    decreases |es|
  {
    if es != [] {
      ArcInRange(es[..|es| - 1]);
    }
  }

  // A test end that says some word.
  predicate Says(es: seq<Event>, k: nat, word: string) {
    k < |es| && IsTestEnd(es[k]) && Contains(Lower(es[k].detail), word)
  }

  lemma SaysLater(es: seq<Event>, e: Event, k: nat, word: string)
    ensures Says(es + [e], k, word) <==>
            Says(es, k, word) || (k == |es| && IsTestEnd(e) && Contains(Lower(e.detail), word))
  {
    if k < |es| {
      assert (es + [e])[k] == es[k];
    }
  }

  // The failure is the first test that says so, the recovery the first that says it passed after that.
  lemma {:induction false} ArcMeans(es: seq<Event>, k: nat)
    ensures ArcOf(es).failure == Some(k) <==> Says(es, k, "fail") && forall j: nat | j < k :: !Says(es, j, "fail")
    ensures ArcOf(es).failure.None? <==> forall j: nat :: !Says(es, j, "fail")
    ensures var f := ArcOf(es).failure;
            ArcOf(es).recovery == Some(k) <==>
              && f.Some? && f.value < k && Says(es, k, "pass")
              && forall j: nat | f.value < j < k :: !Says(es, j, "pass")
    ensures var f := ArcOf(es).failure;
            f.Some? && ArcOf(es).recovery.None? ==> forall j: nat | f.value < j :: !Says(es, j, "pass")
    decreases |es|
  {
    hide Contains, Lower;
    ArcInRange(es);
    if es != [] {
      var n := |es| - 1;
      var init, e := es[..n], es[n];
      assert es == init + [e];
      forall j: nat ensures Says(es, j, "fail") <==> Says(init, j, "fail") || (j == n && Says(es, n, "fail")) {
        SaysLater(init, e, j, "fail");
      }
      forall j: nat ensures Says(es, j, "pass") <==> Says(init, j, "pass") || (j == n && Says(es, n, "pass")) {
        SaysLater(init, e, j, "pass");
      }
      ArcInRange(init);
      ArcMeans(init, k);
      ArcMeans(init, n);
      if ArcOf(init).failure.Some? {
        ArcMeans(init, ArcOf(init).failure.value);
      }
      if ArcOf(init).recovery.Some? {
        ArcMeans(init, ArcOf(init).recovery.value);
      }
    }
  }

  datatype RunSummary = RunSummary(
    runId: string, status: RunStatus, retryCount: nat, rollbackCount: nat,
    startedAt: real, finishedAt: Option<real>, firstFailureAt: Option<real>, recoveredAt: Option<real>)

  function At(times: seq<real>, i: Option<nat>): Option<real>
    requires i.Some? ==> i.value < |times|
  {
    if i.Some? then Some(times[i.value]) else None
  }

  // times: the timestamps of the events, which the graph state leaves out.
  method SummarizeRun(s: GraphState, times: seq<real>, startedAt: real, finishedAt: Option<real>)
      returns (r: RunSummary)
    requires |times| == |s.events|
    ensures var a := ArcOf(s.events);
            && (a.failure.Some? ==> a.failure.value < |times|) && (a.recovery.Some? ==> a.recovery.value < |times|)
            && r == RunSummary(s.runId, s.status, s.retryCount, s.rollbackCount, startedAt, finishedAt,
                At(times, a.failure), At(times, a.recovery))
  {
    var firstFailureAt: Option<real>, recoveredAt: Option<real> := None, None;
    var i := 0;
    while i < |s.events|
      invariant i <= |s.events|
      invariant var a := ArcOf(s.events[..i]);
                && (a.failure.Some? ==> a.failure.value < i) && (a.recovery.Some? ==> a.recovery.value < i)
                && firstFailureAt == At(times, a.failure) && recoveredAt == At(times, a.recovery)
    {
      var event := s.events[i];
      assert s.events[..i + 1][..i] == s.events[..i];
      if event.node.TestExecutor? && event.kind.NodeEnd? {
        var detail := Lower(event.detail);
        if Contains(detail, "fail") && firstFailureAt.None? {
          firstFailureAt := Some(times[i]);
        } else if Contains(detail, "pass") && firstFailureAt.Some? && recoveredAt.None? {
          recoveredAt := Some(times[i]);
        }
      }
      i := i + 1;
    }
    assert s.events[..i] == s.events;
    r := RunSummary(s.runId, s.status, s.retryCount, s.rollbackCount, startedAt, finishedAt, firstFailureAt,
        recoveredAt);
  }

  // ---- What the details say ----

  predicate NoCapitals(t: string) {
    forall i | 0 <= i < |t| :: !('A' <= t[i] <= 'Z')
  }

  predicate NoPair(t: string, a: char, b: char) {
    forall i | 0 < i < |t| :: !(t[i - 1] == a && t[i] == b)
  }

  lemma LowerIs(t: string)
    requires NoCapitals(t)
    ensures Lower(t) == t
  {
  }

  lemma NoPass(t: string)
    requires NoPair(t, 's', 's')
    ensures !Contains(t, "pass")
  {
    forall i | 0 <= i <= |t| ensures !StartsAt(t, "pass", i) {
      if i + 4 <= |t| {
        assert t[i..i + 4][2] == t[i + 3 - 1] && t[i..i + 4][3] == t[i + 3];
        assert "pass"[2] == 's' && "pass"[3] == 's';
      }
    }
  }

  lemma NoFail(t: string)
    requires NoPair(t, 'a', 'i')
    ensures !Contains(t, "fail")
  {
    forall i | 0 <= i <= |t| ensures !StartsAt(t, "fail", i) {
      if i + 4 <= |t| {
        assert t[i..i + 4][1] == t[i + 2 - 1] && t[i..i + 4][2] == t[i + 2];
        assert "fail"[1] == 'a' && "fail"[2] == 'i';
      }
    }
  }

  // No word straddles the seam.
  lemma Joined(a: string, b: string, x: char, y: char)
    requires NoCapitals(a) && NoCapitals(b) && NoPair(a, x, y) && NoPair(b, x, y)
    requires a != "" && b != "" && !(a[|a| - 1] == x && b[0] == y)
    ensures NoCapitals(a + b) && NoPair(a + b, x, y)
  {
  }

  lemma PassedDetail()
    ensures var t := Lower("tests passed"); Contains(t, "pass") && !Contains(t, "fail")
  {
    var t := "tests passed";
    LowerIs(t);
    NoFail(t);
    assert StartsAt(t, "pass", 6);
  }

  // Can follow anything without making a "ss".
  predicate Plain(t: string) {
    t != "" && NoCapitals(t) && NoPair(t, 's', 's') && t[0] != 's'
  }

  lemma PlainJoin(a: string, b: string)
    requires Plain(a) && Plain(b)
    ensures Plain(a + b)
  {
    Joined(a, b, 's', 's');
  }

  lemma PlainPieces()
    ensures Plain(", retrying (attempt ") && Plain(" of ") && Plain(")")
  {
  }

  lemma PlainNumber(n: nat)
    ensures Plain(Decimal(n))
  {
    DecimalDigits(n);
    hide Decimal;
  }

  lemma FailedDetail(rest: string)
    requires Plain(rest)
    ensures var t := Lower(TESTS_FAILED + rest); Contains(t, "fail") && !Contains(t, "pass")
  {
    var t := TESTS_FAILED + rest;
    Joined(TESTS_FAILED, rest, 's', 's');
    LowerIs(t);
    NoPass(t);
    assert t[6..10] == TESTS_FAILED[6..10] == "fail";
    assert StartsAt(t, "fail", 6);
  }

  predicate Wordless(t: string) {
    t != "" && NoCapitals(t) && NoPair(t, 's', 's') && NoPair(t, 'a', 'i')
  }

  // Neither word is in it.
  lemma ExhaustedDetail()
    ensures var t := Lower(RETRIES_EXHAUSTED); !Contains(t, "fail") && !Contains(t, "pass")
  {
    WordlessEnds();
    WordlessMiddle();
    WordlessScope();
    hide Wordless, Lower, Contains;
    WordlessJoin("retries ", "exhausted, ");
    WordlessJoin("retries " + "exhausted, ", "falling ");
    WordlessJoin("retries " + "exhausted, " + "falling ", "back to ");
    WordlessJoin("retries " + "exhausted, " + "falling " + "back to ", "reduced-scope ");
    WordlessJoin("retries " + "exhausted, " + "falling " + "back to " + "reduced-scope ", "prompt");
    WordlessHasNone(RETRIES_EXHAUSTED);
  }

  lemma WordlessEnds()
    ensures Wordless("retries ") && Wordless("prompt")
  {
  }

  lemma WordlessMiddle()
    ensures Wordless("exhausted, ") && Wordless("falling ") && Wordless("back to ")
  {
    assert Wordless("exhausted, ");
  }

  lemma WordlessScope()
    ensures Wordless("reduced-scope ")
  {
  }

  lemma WordlessHasNone(t: string)
    requires Wordless(t)
    ensures !Contains(Lower(t), "fail") && !Contains(Lower(t), "pass")
  {
    LowerIs(t);
    NoPass(t);
    NoFail(t);
  }

  lemma WordlessJoin(a: string, b: string)
    requires Wordless(a) && Wordless(b) && a[|a| - 1] == ' '
    ensures Wordless(a + b)
  {
    Joined(a, b, 's', 's');
    Joined(a, b, 'a', 'i');
  }

  lemma {:induction false} DecimalDigits(n: nat)
    ensures Decimal(n) != "" && forall i | 0 <= i < |Decimal(n)| :: '0' <= Decimal(n)[i] <= '9'
  {
    if n >= 10 {
      DecimalDigits(n / 10);
    }
  }

  lemma RetryDetail(n: nat, m: nat)
    ensures var t := Lower(TESTS_FAILED + ", retrying (attempt " + Decimal(n) + " of " + Decimal(m) + ")");
            Contains(t, "fail") && !Contains(t, "pass")
  {
    PlainPieces();
    hide Plain, Decimal, Lower, Contains;
    PlainNumber(n);
    PlainNumber(m);
    var a, c, e := ", retrying (attempt ", " of ", ")";
    RetryJoined(TESTS_FAILED, a, Decimal(n), c, Decimal(m), e);
    FailedDetail(a + Decimal(n) + c + Decimal(m) + e);
  }

  lemma RetryJoined(start: string, a: string, b: string, c: string, d: string, e: string)
    requires Plain(a) && Plain(b) && Plain(c) && Plain(d) && Plain(e)
    ensures Plain(a + b + c + d + e)
    ensures start + (a + b + c + d + e) == start + a + b + c + d + e
  {
    hide Plain;
    PlainJoin(a, b);
    PlainJoin(a + b, c);
    PlainJoin(a + b + c, d);
    PlainJoin(a + b + c + d, e);
  }

  // ---- The trail of every run ----

  predicate TrailTold(s: GraphState) {
    && (ArcOf(s.events).failure.Some? <==> s.retryCount > 0 || s.hint.RollBack?)
    && (ArcOf(s.events).recovery.Some? <==> s.retryCount > 0 && s.test.passed)
  }

  predicate TrailInv(limit: int, c: Config) {
    && TrailTold(c.s) && c.s.retryLimit == limit
    && (BeforeCoder(c.at) ==> c.s.retryCount == 0)
    && (BeforeCoder(c.at) || c.at.AtCoder? || c.at.AtFork? ==> !c.s.test.passed && !c.s.hint.RollBack?)
    && (c.at.AtSync? && (c.s.hint.Retry? || c.s.hint.FallbackAttempt?) ==> !c.s.test.passed)
    && (c.s.fallback ==> c.s.retryCount >= c.s.retryLimit)
    && (c.s.hint.RollBack? ==> c.s.fallback)
  }

  // Nothing the metrics look at was added.
  predicate OnlyOtherEvents(s: GraphState, n: GraphState) {
    && s.events <= n.events
    && forall k | |s.events| <= k < |n.events| :: !IsTestEnd(n.events[k])
  }

  lemma {:induction false} ArcUnchanged(es: seq<Event>, more: seq<Event>)
    requires forall e | e in more :: !IsTestEnd(e)
    ensures ArcOf(es + more) == ArcOf(es)
    decreases |more|
  {
    if more == [] {
      assert es + more == es;
    } else {
      var n := |more| - 1;
      assert (es + more)[..|es + more| - 1] == es + more[..n];
      ArcUnchanged(es, more[..n]);
    }
  }

  lemma OthersKeepArc(s: GraphState, n: GraphState)
    requires OnlyOtherEvents(s, n)
    ensures ArcOf(n.events) == ArcOf(s.events)
  {
    var more := n.events[|s.events|..];
    assert n.events == s.events + more;
    ArcUnchanged(s.events, more);
  }

  // What every node but the fork leaves alone.
  predicate Apart(c: Config, n: Config) {
    && OnlyOtherEvents(c.s, n.s)
    && n.s.retryCount == c.s.retryCount && n.s.retryLimit == c.s.retryLimit && n.s.fallback == c.s.fallback
    && n.s.hint == c.s.hint && n.s.test == c.s.test
    && (BeforeCoder(n.at) ==> BeforeCoder(c.at))
    && (n.at.AtCoder? ==> BeforeCoder(c.at) || (c.at.AtSync? && (c.s.hint.Retry? || c.s.hint.FallbackAttempt?)))
    && (n.at.AtFork? ==> c.at.AtCoder?)
    && !n.at.AtSync?
  }

  lemma ApartReading(env: Env, c: Config, d: Option<Decision>)
    requires (c.at.AtClarifier? || c.at.AtReasoner?) && Run(env, c, d).Moved?
    ensures Apart(c, Run(env, c, d).next)
  {
    hide Strip, Decided;
    if c.at.AtClarifier? {
      assert Apart(c, Clarify(env, c, d).next);
    } else {
      assert Apart(c, Reason(env, c, d).next);
    }
  }

  lemma ApartPlanning(env: Env, c: Config, d: Option<Decision>)
    requires (c.at.AtArchitect? || c.at.AtPlanner? || c.at.AtReplanner?) && Run(env, c, d).Moved?
    ensures Apart(c, Run(env, c, d).next)
  {
    hide TasksFor, Decided;
    match c.at
    case AtPlanner =>
    case _ =>
  }

  lemma ApartGate(env: Env, c: Config, d: Option<Decision>)
    requires c.at.AtGate? && Run(env, c, d).Moved?
    ensures Apart(c, Run(env, c, d).next)
  {
    hide CommitAll, Decided, Blocked;
  }

  lemma ApartRest(env: Env, c: Config, d: Option<Decision>)
    requires !BeforeCoder(c.at) && !c.at.AtFork? && Run(env, c, d).Moved?
    ensures Apart(c, Run(env, c, d).next)
  {
    hide Generate, Write, CommitAll, RevertTo, Decided;
    match c.at
    case AtGate => ApartGate(env, c, d);
    case AtRollback =>
    case _ =>
  }

  lemma ApartKeeps(limit: int, c: Config, n: Config)
    requires TrailInv(limit, c) && Apart(c, n)
    ensures TrailInv(limit, n)
  {
    OthersKeepArc(c.s, n.s);
    hide OnlyOtherEvents, ArcOf;
  }

  lemma ArcSnoc(es: seq<Event>, e: Event)
    ensures ArcOf(es + [e]) ==
      var before := ArcOf(es);
      if !IsTestEnd(e) then before
      else if Contains(Lower(e.detail), "fail") && before.failure.None? then before.(failure := Some(|es|))
      else if Contains(Lower(e.detail), "pass") && before.failure.Some? && before.recovery.None?
        then before.(recovery := Some(|es|))
      else before
  {
    assert (es + [e])[..|es|] == es;
  }

  // The last event a test run adds, and what can be read in it.
  lemma TestDetail(run: TestRun, s: GraphState)
    ensures var u := TestBranch(run, s);
            && u.events != []
            && var detail := Lower(u.events[|u.events| - 1].detail);
            && (run.passed ==> Contains(detail, "pass") && !Contains(detail, "fail"))
            && (!run.passed ==> !Contains(detail, "pass"))
            && (!run.passed ==> (Contains(detail, "fail") <==> u.hint.Retry? || u.hint.RollBack?))
  {
    hide Contains, Lower, Decimal, NoCapitals, NoPair;
    if run.passed {
      PassedDetail();
    } else if s.fallback {
      FailedDetail(" (fallback attempt also failed)");
    } else if s.retryCount < s.retryLimit {
      RetryDetail(s.retryCount + 2, s.retryLimit + 1);
    } else {
      ExhaustedDetail();
    }
  }

  lemma TestEnds(run: TestRun, s: GraphState) returns (before: seq<Event>, last: Event)
    ensures var u := TestBranch(run, s); var detail := Lower(last.detail);
            && u.events == before + [last] && IsTestEnd(last) && (forall e | e in before :: !IsTestEnd(e))
            && (run.passed ==> Contains(detail, "pass") && !Contains(detail, "fail"))
            && (!run.passed ==> !Contains(detail, "pass"))
            && (!run.passed ==> (Contains(detail, "fail") <==> u.hint.Retry? || u.hint.RollBack?))
  {
    TestDetail(run, s);
    hide Contains, Lower, Decimal, NoCapitals, NoPair;
    var events := TestBranch(run, s).events;
    before, last := events[..|events| - 1], events[|events| - 1];
  }

  // What one test run adds to the arc.
  lemma TestArc(run: TestRun, s: GraphState)
    ensures var before, after := ArcOf(s.events), ArcOf(s.events + TestBranch(run, s).events);
            var u := TestBranch(run, s);
            && (run.passed ==> after.failure == before.failure)
            && (run.passed ==> (after.recovery.Some? <==> before.recovery.Some? || before.failure.Some?))
            && (!run.passed ==>
                  && after.recovery == before.recovery
                  && (after.failure.Some? <==> before.failure.Some? || u.hint.Retry? || u.hint.RollBack?))
  {
    hide Contains, Lower, TestBranch;
    var before, last := TestEnds(run, s);
    assert s.events + TestBranch(run, s).events == (s.events + before) + [last];
    ArcUnchanged(s.events, before);
    ArcSnoc(s.events + before, last);
  }

  lemma ForkKeeps(env: Env, limit: int, c: Config)
    requires c.at.AtFork? && TrailInv(limit, c) && Fork(env, c).Moved?
    ensures TrailInv(limit, Fork(env, c).next)
  {
    var run := env.tests(Latest(c.s));
    var docs := DocBranch(env, c.s);
    TestArc(run, c.s);
    ArcUnchanged(c.s.events + TestBranch(run, c.s).events, docs.events);
    hide ArcOf, Decimal, DocBranch, Write;
  }

  lemma TrailKept(env: Env, limit: int, c: Config, d: Option<Decision>)
    requires TrailInv(limit, c)
    ensures KeptBy(Run(env, c, d), x => TrailInv(limit, x))
  {
    var o := Run(env, c, d);
    StepLeaves(env, c, d);
    if o.Moved? {
      if c.at.AtFork? {
        ForkKeeps(env, limit, c);
      } else if BeforeCoder(c.at) {
        if c.at.AtClarifier? || c.at.AtReasoner? {
          ApartReading(env, c, d);
        } else {
          ApartPlanning(env, c, d);
        }
        ApartKeeps(limit, c, o.next);
      } else {
        ApartRest(env, c, d);
        ApartKeeps(limit, c, o.next);
      }
    }
    hide TrailInv;
  }

  // A step that does not move on leaves the state alone.
  lemma StepLeaves(env: Env, c: Config, d: Option<Decision>)
    ensures var o := Run(env, c, d);
            && (o.Parked? ==> o.left.s == c.s && o.left.at == c.at)
            && (o.Raised? ==> o.left.s == c.s && o.left.at == c.at)
            && (o.Ended? ==> o.last == c)
  {
    hide CommitAll, RevertTo, Decided, TestBranch, DocBranch, TasksFor, Strip, Write, Generate;
  }

  // ---- The properties ----

  lemma ReachedTrail(env: Env, clone: Checkout, start: Config, ds: seq<Decision>, c: Config)
    requires Starts(clone, start) && Reached(env, start, ds, c)
    ensures TrailInv(start.s.retryLimit, c)
  {
    GraphSound(env);
    var limit := start.s.retryLimit;
    var inv := (x: Config) => TrailInv(limit, x);
    forall x, d | inv(x) ensures KeptBy(Graph(env).step(x, d), inv) {
      hide Run, TrailInv;
      TrailKept(env, limit, x, d);
    }
    assert ArcOf([]) == Arc(None, None);
    assert inv(start);
    assert Kept(Graph(env), inv);
    hide TrailInv, Run, Sound, Kept;
    Invariant(Graph(env), inv, start, ds);
  }

  // How many attempts have been tested.
  function Tested(c: Config): nat {
    if c.at.AtFork? && c.s.attempts != [] then |c.s.attempts| - 1 else |c.s.attempts|
  }

  // The tests of a run, and the bookkeeping as it follows from them: all fail but possibly the last.
  ghost predicate Bookkept(env: Env, limit: nat, c: Config) {
    var n := Tested(c);
    var failures := if c.s.test.passed && n > 0 then n - 1 else n;
    && (c.s.test.passed ==> n > 0)
    && (forall k :: 0 <= k < n ==> (env.tests(k).passed <==> k == n - 1 && c.s.test.passed))
    && failures <= limit + 2
    && c.s.retryCount == Min(failures, limit)
    && (c.s.fallback <==> failures > limit)
    && (c.s.hint.RollBack? <==> failures == limit + 2)
    && (c.at.AtFork? ==> c.s.attempts != [])
  }

  // What every node but the coder and the fork leaves alone.
  lemma ApartKeepsBook(env: Env, limit: nat, c: Config, n: Config)
    requires Bookkept(env, limit, c) && Apart(c, n) && Tested(n) == Tested(c) && !n.at.AtFork?
    ensures Bookkept(env, limit, n)
  {
    hide OnlyOtherEvents, Tested;
  }

  lemma SameAttempts(env: Env, c: Config, d: Option<Decision>)
    requires !c.at.AtCoder? && !c.at.AtFork? && Run(env, c, d).Moved?
    ensures var n := Run(env, c, d).next; n.s.attempts == c.s.attempts && !n.at.AtFork?
  {
    hide CommitAll, RevertTo, Decided, TasksFor, Strip;
    match c.at
    case AtClarifier =>
    case AtReasoner =>
    case AtGate =>
    case _ =>
  }

  lemma CoderKeepsBook(env: Env, limit: nat, c: Config, d: Option<Decision>)
    requires c.at.AtCoder? && Bookkept(env, limit, c) && Run(env, c, d).Moved?
    ensures Bookkept(env, limit, Run(env, c, d).next)
  {
    hide Generate, Write;
  }

  lemma ForkKeepsBook(env: Env, limit: nat, c: Config, d: Option<Decision>)
    requires c.at.AtFork? && Bookkept(env, limit, c) && Run(env, c, d).Moved?
    requires c.s.retryLimit == limit || (c.s.retryLimit < 0 && limit == 0)
    requires !c.s.test.passed && !c.s.hint.RollBack?
    ensures Bookkept(env, limit, Run(env, c, d).next)
  {
    hide Write, Decimal, DocBranch;
  }

  function Allowed(limit: int): nat {
    if limit < 0 then 0 else limit
  }

  lemma BookKept(env: Env, limit: int, c: Config, d: Option<Decision>)
    requires TrailInv(limit, c) && Bookkept(env, Allowed(limit), c)
    ensures KeptBy(Run(env, c, d), x => Bookkept(env, Allowed(limit), x))
  {
    hide Run, Bookkept, Apart, TrailTold;
    var o := Run(env, c, d);
    StepLeaves(env, c, d);
    forall x: Config | x.s == c.s && x.at == c.at ensures Bookkept(env, Allowed(limit), x) {
      SameBook(env, Allowed(limit), c, x);
    }
    if o.Moved? {
      if c.at.AtFork? {
        ForkKeepsBook(env, Allowed(limit), c, d);
      } else if c.at.AtCoder? {
        CoderKeepsBook(env, Allowed(limit), c, d);
      } else {
        SameAttempts(env, c, d);
        if c.at.AtClarifier? || c.at.AtReasoner? {
          ApartReading(env, c, d);
        } else if BeforeCoder(c.at) {
          ApartPlanning(env, c, d);
        } else {
          ApartRest(env, c, d);
        }
        ApartKeepsBook(env, Allowed(limit), c, o.next);
      }
    }
  }

  lemma SameBook(env: Env, limit: nat, c: Config, x: Config)
    requires Bookkept(env, limit, c) && x.s == c.s && x.at == c.at
    ensures Bookkept(env, limit, x)
  {
  }

  lemma ReachedBook(env: Env, clone: Checkout, start: Config, ds: seq<Decision>, c: Config)
    requires Starts(clone, start) && Reached(env, start, ds, c)
    ensures Bookkept(env, Allowed(start.s.retryLimit), c)
  {
    GraphSound(env);
    var limit := start.s.retryLimit;
    var inv := (x: Config) => TrailInv(limit, x) && Bookkept(env, Allowed(limit), x);
    forall x, d | inv(x) ensures KeptBy(Graph(env).step(x, d), inv) {
      hide Run, TrailInv, Bookkept;
      TrailKept(env, limit, x, d);
      BookKept(env, limit, x, d);
    }
    assert ArcOf([]) == Arc(None, None);
    assert inv(start);
    assert Kept(Graph(env), inv);
    hide TrailInv, Bookkept, Run, Sound, Kept;
    Invariant(Graph(env), inv, start, ds);
  }

  // What the metrics see of the tests a run has made.  With a retry allowed: a failure exactly when
  // a test failed, a recovery exactly when one passed after that.  Without: a failure exactly when
  // the first test and the fallback's both failed, and never a recovery.
  lemma MetricsSeeFailures(env: Env, clone: Checkout, start: Config, ds: seq<Decision>, c: Config)
    requires Starts(clone, start) && Reached(env, start, ds, c)
    ensures var arc, n := ArcOf(c.s.events), Tested(c);
            && (start.s.retryLimit >= 1 ==>
                  && (arc.failure.Some? <==> exists k :: 0 <= k < n && !env.tests(k).passed)
                  && (arc.recovery.Some? <==>
                        exists j, k :: 0 <= j < k < n && !env.tests(j).passed && env.tests(k).passed))
            && (start.s.retryLimit <= 0 ==>
                  && (arc.failure.Some? <==> n >= 2 && !env.tests(0).passed && !env.tests(1).passed)
                  && arc.recovery.None?)
    ensures start.s.retryLimit >= 1 ==> (ArcOf(c.s.events).failure.Some? <==> c.s.retryCount > 0)
  {
    ReachedTrail(env, clone, start, ds, c);
    ReachedBook(env, clone, start, ds, c);
    hide ArcOf;
    var n := Tested(c);
    if n > 0 {
      assert env.tests(0).passed || !env.tests(0).passed;
      assert env.tests(n - 1).passed <==> c.s.test.passed;
    }
  }

  // So without retries a run whose first test failed and whose fallback passed shows neither, and
  // there is such a run.
  lemma MetricsMissTheFallback(env: Env, clone: Checkout, start: Config, ds: seq<Decision>, c: Config)
    requires Starts(clone, start) && Reached(env, start, ds, c) && start.s.retryLimit <= 0
    requires !env.tests(0).passed && env.tests(1).passed
    ensures ArcOf(c.s.events) == Arc(None, None)
  {
    MetricsSeeFailures(env, clone, start, ds, c);
  }

  lemma SuchARun(clone: Checkout, start: Config) returns (env: Env, c: Config)
    requires Starts(clone, start) && SdlcRuns.Drifting(start) && start.s.retryLimit <= 0
    ensures Reached(env, start, [], c) && Tested(c) == 2 && !env.tests(0).passed && env.tests(1).passed
    ensures ArcOf(c.s.events) == Arc(None, None)
  {
    var passes := (k: nat) => k == 1;
    env := SdlcRuns.Unattended(passes);
    c := SdlcRuns.FallsBack(passes, clone, start);
    assert c == Finally(env, start, []).config;
    MetricsMissTheFallback(env, clone, start, [], c);
  }

  // ---- Aggregation ----

  function Total(runs: seq<RunSummary>, weight: RunSummary -> real): real {
    if runs == [] then 0.0 else Total(runs[..|runs| - 1], weight) + weight(runs[|runs| - 1])
  }

  function Completion(r: RunSummary): real {
    if r.status.Completed? then 1.0 else 0.0
  }

  function RetriesUsed(r: RunSummary): real {
    r.retryCount as real
  }

  function CoderInvocations(r: RunSummary): real {
    (r.retryCount + 1) as real
  }

  function RollbacksMade(r: RunSummary): real {
    r.rollbackCount as real
  }

  // A failure and a recovery from it.
  predicate HasArc(r: RunSummary) {
    r.firstFailureAt.Some? && r.recoveredAt.Some?
  }

  predicate Forward(r: RunSummary) {
    HasArc(r) ==> r.firstFailureAt.value <= r.recoveredAt.value
  }

  function DidRecover(r: RunSummary): real {
    if HasArc(r) then 1.0 else 0.0
  }

  function RepairTime(r: RunSummary): real {
    if HasArc(r) then r.recoveredAt.value - r.firstFailureAt.value else 0.0
  }

  function DidFinish(r: RunSummary): real {
    if r.finishedAt.Some? then 1.0 else 0.0
  }

  function Latency(r: RunSummary): real {
    if r.finishedAt.Some? then r.finishedAt.value - r.startedAt else 0.0
  }

  datatype RunMetrics = RunMetrics(
    successRate: Option<real>, retryFrequency: Option<real>, rollbackFrequency: Option<real>,
    mttrSeconds: Option<real>, e2eLatencySeconds: Option<real>)

  function Mean(total: real, count: real): Option<real> {
    if count == 0.0 then None else Some(total / count)
  }

  function ComputeMetrics(runs: seq<RunSummary>): RunMetrics {
    if runs == [] then RunMetrics(None, None, None, None, None)
    else
      var total := |runs| as real;
      var invocations := Total(runs, CoderInvocations);
      RunMetrics(
        Some(Total(runs, Completion) / total),
        Some(if invocations == 0.0 then 0.0 else Total(runs, RetriesUsed) / invocations),
        Some(Total(runs, RollbacksMade) / total),
        Mean(Total(runs, RepairTime), Total(runs, DidRecover)),
        Mean(Total(runs, Latency), Total(runs, DidFinish)))
  }

  // Summed from the other end.
  function Sum(runs: seq<RunSummary>, weight: RunSummary -> real): real {
    if runs == [] then 0.0 else weight(runs[0]) + Sum(runs[1..], weight)
  }

  lemma {:induction false} SumSnoc(runs: seq<RunSummary>, r: RunSummary, weight: RunSummary -> real)
    ensures Sum(runs + [r], weight) == Sum(runs, weight) + weight(r)
    decreases |runs|
  {
    if runs != [] {
      assert (runs + [r])[1..] == runs[1..] + [r];
      SumSnoc(runs[1..], r, weight);
    } else {
      assert [r][1..] == [];
    }
  }

  lemma {:induction false} TotalIsSum(runs: seq<RunSummary>, a: RunSummary -> real, b: RunSummary -> real)
    requires forall r | r in runs :: a(r) == b(r)
    ensures Total(runs, a) == Sum(runs, b)
    decreases |runs|
  {
    if runs != [] {
      var n := |runs| - 1;
      assert runs == runs[..n] + [runs[n]];
      TotalIsSum(runs[..n], a, b);
      SumSnoc(runs[..n], runs[n], b);
    }
  }

  // The rates in their own terms: how many of the runs completed, rollbacks per run, and retries among
  // what the runs count as calls of the coder.
  lemma RatesMeaning(runs: seq<RunSummary>)
    requires runs != []
    ensures var m, n := ComputeMetrics(runs), |runs| as real;
            var retries := Sum(runs, (r: RunSummary) => r.retryCount as real);
            && m.successRate == Some(Sum(runs, (r: RunSummary) => if r.status == Sdlc.Completed then 1.0 else 0.0) / n)
            && retries + n > 0.0 && m.retryFrequency == Some(retries / (retries + n))
            && m.rollbackFrequency == Some(Sum(runs, (r: RunSummary) => r.rollbackCount as real) / n)
  {
    var retries := (r: RunSummary) => r.retryCount as real;
    TotalIsSum(runs, Completion, (r: RunSummary) => if r.status == Sdlc.Completed then 1.0 else 0.0);
    TotalIsSum(runs, RetriesUsed, retries);
    CallsAreRetries(runs, retries);
    TotalIsSum(runs, RollbacksMade, (r: RunSummary) => r.rollbackCount as real);
    hide Total, Sum, Mean;
  }

  // The times in their own terms: the mean from failure to recovery, and from start to end, over the runs
  // that have both; none when no run does.
  lemma TimesMeaning(runs: seq<RunSummary>, a: RunSummary -> Option<real>, b: RunSummary -> Option<real>,
      time: RunSummary -> real, counts: RunSummary -> real)
    requires forall r :: time(r) == if a(r).Some? && b(r).Some? then b(r).value - a(r).value else 0.0
    requires forall r :: counts(r) == if a(r).Some? && b(r).Some? then 1.0 else 0.0
    ensures runs != [] && (forall r: RunSummary :: a(r) == r.firstFailureAt && b(r) == r.recoveredAt) ==>
              ComputeMetrics(runs).mttrSeconds
              == if Sum(runs, counts) == 0.0 then None else Some(Sum(runs, time) / Sum(runs, counts))
    ensures runs != [] && (forall r: RunSummary :: a(r) == Some(r.startedAt) && b(r) == r.finishedAt) ==>
              ComputeMetrics(runs).e2eLatencySeconds
              == if Sum(runs, counts) == 0.0 then None else Some(Sum(runs, time) / Sum(runs, counts))
  {
    if forall r: RunSummary :: a(r) == r.firstFailureAt && b(r) == r.recoveredAt {
      TotalIsSum(runs, DidRecover, counts);
      TotalIsSum(runs, RepairTime, time);
    }
    if forall r: RunSummary :: a(r) == Some(r.startedAt) && b(r) == r.finishedAt {
      TotalIsSum(runs, DidFinish, counts);
      TotalIsSum(runs, Latency, time);
    }
    hide Total, Sum;
  }

  lemma {:induction false} CallsAreRetries(runs: seq<RunSummary>, retries: RunSummary -> real)
    requires forall r: RunSummary :: retries(r) == r.retryCount as real
    ensures Total(runs, CoderInvocations) == Total(runs, retries) + |runs| as real
    ensures Total(runs, retries) == Sum(runs, retries) >= 0.0
    decreases |runs|
  {
    TotalIsSum(runs, retries, retries);
    if runs != [] {
      CallsAreRetries(runs[..|runs| - 1], retries);
    }
  }

  lemma {:induction false} TotalBetween(runs: seq<RunSummary>, weight: RunSummary -> real, lo: real, hi: real)
    requires forall r | r in runs :: lo <= weight(r) <= hi
    ensures lo * |runs| as real <= Total(runs, weight) <= hi * |runs| as real
    decreases |runs|
  {
    if runs != [] {
      TotalBetween(runs[..|runs| - 1], weight, lo, hi);
    }
  }

  lemma {:induction false} TotalDominates(runs: seq<RunSummary>, a: RunSummary -> real, b: RunSummary -> real,
      gap: real)
    requires forall r | r in runs :: a(r) + gap <= b(r)
    ensures Total(runs, a) + gap * |runs| as real <= Total(runs, b)
    decreases |runs|
  {
    if runs != [] {
      TotalDominates(runs[..|runs| - 1], a, b, gap);
    }
  }

  lemma SignOf(x: real, b: real)
    requires b > 0.0
    ensures (x > 0.0 <==> x * b > 0.0) && (x < 0.0 <==> x * b < 0.0)
  {
  }

  lemma RatioBetween(a: real, b: real)
    requires 0.0 <= a <= b && b > 0.0
    ensures 0.0 <= a / b <= 1.0 && (a < b ==> a / b < 1.0)
  {
    var q := a / b;
    assert q * b == a;
    SignOf(q, b);
    SignOf(q - 1.0, b);
    assert (q - 1.0) * b == a - b;
  }

  // Over any list of runs with at most one rollback each: the success and rollback rates lie
  // between 0 and 1, the retry frequency stays below 1.
  lemma RatesAreRates(runs: seq<RunSummary>)
    requires runs != [] && forall r | r in runs :: r.rollbackCount <= 1
    ensures var m := ComputeMetrics(runs);
            && m.successRate.Some? && 0.0 <= m.successRate.value <= 1.0
            && m.rollbackFrequency.Some? && 0.0 <= m.rollbackFrequency.value <= 1.0
            && m.retryFrequency.Some? && 0.0 <= m.retryFrequency.value < 1.0
  {
    var n := |runs| as real;
    TotalBetween(runs, Completion, 0.0, 1.0);
    TotalBetween(runs, RollbacksMade, 0.0, 1.0);
    TotalDominates(runs, RetriesUsed, CoderInvocations, 1.0);
    var zero := (r: RunSummary) => 0.0;
    TotalDominates(runs, zero, RetriesUsed, 0.0);
    TotalBetween(runs, zero, 0.0, 0.0);
    RatioBetween(Total(runs, Completion), n);
    RatioBetween(Total(runs, RollbacksMade), n);
    RatioBetween(Total(runs, RetriesUsed), Total(runs, CoderInvocations));
  }

  ghost predicate SummaryOfARun(r: RunSummary) {
    exists env, clone, start, ds :: Starts(clone, start)
        && r.rollbackCount == Finally(env, start, ds).config.s.rollbackCount
  }

  // So they do over any list of SDLC runs, wherever each of them stopped.
  lemma RatesOfRuns(runs: seq<RunSummary>)
    requires runs != [] && forall r | r in runs :: SummaryOfARun(r)
    ensures var m := ComputeMetrics(runs);
            && m.successRate.Some? && 0.0 <= m.successRate.value <= 1.0
            && m.rollbackFrequency.Some? && 0.0 <= m.rollbackFrequency.value <= 1.0
            && m.retryFrequency.Some? && 0.0 <= m.retryFrequency.value < 1.0
  {
    forall r | r in runs ensures r.rollbackCount <= 1 {
      assert SummaryOfARun(r);
      var env, clone, start, ds :| Starts(clone, start)
          && r.rollbackCount == Finally(env, start, ds).config.s.rollbackCount;
      ReachedInv(env, clone, start, ds, Finally(env, start, ds).config);
    }
    RatesAreRates(runs);
  }

  // A success rate of 1 means every run completed.
  lemma {:induction false} AllCompleted(runs: seq<RunSummary>)
    requires runs != []
    ensures ComputeMetrics(runs).successRate == Some(1.0) <==> forall r | r in runs :: r.status.Completed?
  {
    var n := |runs| as real;
    var c := Total(runs, Completion);
    assert c / n * n == c;
    CompletionsFull(runs);
    if c / n == 1.0 {
      assert c == n;
    }
  }

  lemma {:induction false} CompletionsFull(runs: seq<RunSummary>)
    ensures Total(runs, Completion) <= |runs| as real
    ensures Total(runs, Completion) == |runs| as real <==> forall r | r in runs :: r.status.Completed?
    decreases |runs|
  {
    if runs != [] {
      var n := |runs| - 1;
      CompletionsFull(runs[..n]);
      assert runs == runs[..n] + [runs[n]];
      if forall r | r in runs[..n] :: r.status.Completed? {
        if runs[n].status.Completed? {
          forall r | r in runs ensures r.status.Completed? {
          }
        } else {
          assert runs[n] in runs;
        }
      } else {
        var r :| r in runs[..n] && !r.status.Completed?;
        assert r in runs;
      }
    }
  }

  // Repair time is reported exactly when some run recovered, and is not negative when the trail's
  // timestamps do not go backwards.
  lemma RepairTimeMeaning(runs: seq<RunSummary>)
    requires runs != []
    ensures ComputeMetrics(runs).mttrSeconds.Some? <==> exists r | r in runs :: HasArc(r)
    ensures ComputeMetrics(runs).mttrSeconds.Some? && (forall r | r in runs :: Forward(r)) ==>
              ComputeMetrics(runs).mttrSeconds.value >= 0.0
  {
    RecoveredCount(runs);
    if forall r | r in runs :: Forward(r) {
      var zero := (r: RunSummary) => 0.0;
      TotalDominates(runs, zero, RepairTime, 0.0);
      TotalBetween(runs, zero, 0.0, 0.0);
      var a, b := Total(runs, RepairTime), Total(runs, DidRecover);
      if b > 0.0 {
        assert a / b * b == a;
        SignOf(a / b, b);
      }
    }
  }

  lemma {:induction false} RecoveredCount(runs: seq<RunSummary>)
    ensures Total(runs, DidRecover) >= 0.0
    ensures Total(runs, DidRecover) > 0.0 <==> exists r | r in runs :: HasArc(r)
    decreases |runs|
  {
    if runs != [] {
      var n := |runs| - 1;
      RecoveredCount(runs[..n]);
      assert runs == runs[..n] + [runs[n]];
      assert runs[n] in runs;
      if r :| r in runs[..n] && HasArc(r) {
        assert r in runs;
      }
    }
  }
}
