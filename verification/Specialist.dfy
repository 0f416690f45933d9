/**
 The specialist graph: design, a human gate, generate, a second gate, publish.  A second machine
 for the same runner.
 */
module Specialist {
  import opened Prelude
  import opened Workspace
  import opened Runner
  import opened Sdlc
  import Publish

  datatype Phase = DesignWork | GenerateWork

  datatype SpecialistState = SpecialistState(
    runId: string, specialist: string, runStatus: RunStatus, stopped: bool,
    record: map<Gate, GateRecord>, phases: map<Phase, string>,
    outputRepository: string, outputBranch: string, commitSha: Option<CommitId>,
    published: bool, publishBranch: string, trail: seq<Event>, ended: bool)

  // The repositories a run touches: the tenant's, which it reads, and its output's.  `output` is
  // None while that directory holds no checkout; `loose` is what the bare directory holds.
  datatype World = World(tenant: Checkout, output: Option<Checkout>, loose: Tree, remote: Publish.Remote)

  // What invoking a phase comes to, and whatever it did to the files.  Raises: its output is not text, or
  // its command cannot be executed.
  datatype Answer = Answers(detail: string) | Refuses | Raises
  datatype Invocation = Invocation(answer: Answer, tenantFiles: Tree -> Tree, outputFiles: Tree -> Tree)

  // What making the output checkout comes to.  Raises: anything but a CloneError, such as a failing
  // `git config` once the clone is on disk.
  datatype Making = Makes(checkout: Checkout) | MakingRefused | MakingRaises(onDisk: Option<Checkout>)

  // outputRepository: the one the route names, or "" when it names none.
  datatype SpecialistEnv = SpecialistEnv(
    rules: Rules, provisioned: Phase -> bool, invoke: Phase -> Invocation,
    outputRepository: string, outputBranch: string, making: Making,
    commitLuck: CommitLuck, mode: Publish.Mode, luck: Publish.Luck)

  datatype Stage = Designing | DesignReview | Generating | ReleaseReview | Publishing | Over

  datatype SpecialistConfig = SpecialistConfig(stage: Stage, s: SpecialistState, w: World)

  type SpecialistStep = Outcome<Gate, SpecialistConfig>

  const DESIGN_DIRECTORY: Path := ".specialist-design"
  const DESIGN_ARTIFACT: Path := ".specialist-design/design.json"

  function Fail(c: SpecialistConfig, node: Node): SpecialistStep {
    Moved(SpecialistConfig(Over, c.s.(stopped := true, runStatus := Failed, ended := true,
        trail := c.s.trail + [Note(node, SafeStopEvent)]), c.w))
  }

  function Finish(c: SpecialistConfig): SpecialistConfig {
    SpecialistConfig(Over, c.s.(runStatus := Completed, ended := true), c.w)
  }

  // Making the design directory is not guarded: a file of that name raises.
  function DesignNode(env: SpecialistEnv, c: SpecialistConfig): SpecialistStep {
    if !env.provisioned(DesignWork) then Fail(c, DesignPhase)
    else if DESIGN_DIRECTORY in c.w.tenant.files then Raised(c)
    else
      var call := env.invoke(DesignWork);
      var w := c.w.(tenant := c.w.tenant.(files := call.tenantFiles(c.w.tenant.files)));
      match call.answer
      case Raises => Raised(c.(w := w))
      case Refuses => Fail(c.(w := w), DesignPhase)
      case Answers(detail) =>
        Moved(SpecialistConfig(DesignReview, c.s.(phases := map[DesignWork := detail],
          trail := c.s.trail + [Note(DesignPhase, NodeEnd)]), w))
  }

  // Either gate: anything but an approval completes the run.
  function GateNode(c: SpecialistConfig, d: Option<Decision>, gate: Gate, node: Node, onward: Stage): SpecialistStep {
    match d
    case None => Parked(gate, c)
    case Some(v) =>
      var s := c.s.(record := c.s.record[gate := GateRecord(v.status, v)],
          trail := c.s.trail + [Decided(node, gate, v.status)]);
      if v.status.Approved? then Moved(SpecialistConfig(onward, s, c.w))
      else Moved(Finish(SpecialistConfig(Over, s, c.w)))
  }

  datatype Output = Ready(w: World) | NotReady(w: World) | ReadyRaises(w: World)

  // An existing checkout is used as it is.  A refused clone takes what the bare directory held with it.
  function OutputCheckout(env: SpecialistEnv, w: World): Output {
    var named := env.outputRepository != "";
    if w.output.Some? then Ready(w)
    else if env.making.MakingRaises? then ReadyRaises(if named then w.(output := env.making.onDisk) else w)
    else if !named then Ready(w)
    else if env.making.MakingRefused? then NotReady(w.(loose := map[]))
    else Ready(w.(output := Some(env.making.checkout)))
  }

  // What a phase does to the files of both repositories.
  function Generated(call: Invocation, w: World): World {
    w.(tenant := w.tenant.(files := call.tenantFiles(w.tenant.files)),
       output := if w.output.Some? then Some(w.output.value.(files := call.outputFiles(w.output.value.files)))
           else None,
       loose := if w.output.Some? then w.loose else call.outputFiles(w.loose))
  }

  predicate CanGenerate(env: SpecialistEnv, c: SpecialistConfig) {
    DesignWork in c.s.phases && env.provisioned(GenerateWork) && DESIGN_ARTIFACT in c.w.tenant.files
  }

  function GenerateNode(env: SpecialistEnv, c: SpecialistConfig): SpecialistStep {
    if !CanGenerate(env, c) then Fail(c, GeneratePhase)
    else
      match OutputCheckout(env, c.w)
      case ReadyRaises(w) => Raised(c.(w := w))
      case NotReady(w) => Fail(c.(w := w), GeneratePhase)
      case Ready(ready) =>
        var call := env.invoke(GenerateWork);
        var w := Generated(call, ready);
        match call.answer
        case Raises => Raised(c.(w := w))
        case Refuses => Fail(c.(w := w), GeneratePhase)
        case Answers(detail) =>
          var named := env.outputRepository != "";
          var s := c.s.(
            phases := c.s.phases[GenerateWork := detail],
            outputRepository := env.outputRepository,
            outputBranch := if named then env.outputBranch else "",
            trail := c.s.trail + [Note(GeneratePhase, NodeEnd)]);
          if named then Moved(SpecialistConfig(ReleaseReview, s, w)) else Moved(Finish(SpecialistConfig(Over, s, w)))
  }

  // A directory without a repository is made one before committing.
  function OutputRepository(w: World): Checkout {
    w.output.GetOr(Checkout([], None, w.loose))
  }

  function PublishNode(env: SpecialistEnv, c: SpecialistConfig): SpecialistStep
    requires Valid(OutputRepository(c.w))
  {
    var (repo, commit) := CommitAll(env.rules, OutputRepository(c.w), env.commitLuck);
    if commit.CommitFailed? then Fail(c, PublishPhase)
    else
      var (remote, r) := Publish.PublishChange(env.mode, repo, c.s.runId, env.luck, c.w.remote);
      var w := c.w.(output := Some(repo), remote := remote);
      if r.None? then Raised(c.(w := w))
      else
        Moved(Finish(SpecialistConfig(Over, c.s.(commitSha := repo.head, published := r.value.published,
          publishBranch := r.value.branch.GetOr(""), trail := c.s.trail + [Note(PublishPhase, NodeEnd)]), w)))
  }

  function Advance(env: SpecialistEnv, c: SpecialistConfig, d: Option<Decision>): SpecialistStep {
    match c.stage
    case Designing => DesignNode(env, c)
    case DesignReview => GateNode(c, d, SpecialistDesignReview, DesignReviewGate, Generating)
    case Generating => GenerateNode(env, c)
    case ReleaseReview => GateNode(c, d, MergeReleaseApproval, ReleaseReviewGate, Publishing)
    case Publishing => if Valid(OutputRepository(c.w)) then PublishNode(env, c) else Raised(c)
    case Over => Ended(c)
  }

  function StagesLeft(c: SpecialistConfig): nat {
    match c.stage
    case Designing => 5
    case DesignReview => 4
    case Generating => 3
    case ReleaseReview => 2
    case Publishing => 1
    case Over => 0
  }

  function SpecialistGraph(env: SpecialistEnv): Machine<Gate, SpecialistConfig, Decision> {
    Machine((c, d) => Advance(env, c, d), StagesLeft)
  }

  function SpecialistInitial(runId: string, specialist: string, tenant: Checkout, output: Option<Checkout>,
      loose: Tree, remote: Publish.Remote): SpecialistConfig {
    SpecialistConfig(Designing,
      SpecialistState(runId, specialist, Running, false, map[], map[], "", "", None, false, "", [], false),
      World(tenant, output, loose, remote))
  }

  // ---- Runs end, and slicing changes nothing ----

  lemma AdvanceShape(env: SpecialistEnv, c: SpecialistConfig, d: Option<Decision>)
    ensures var o := Advance(env, c, d);
            && (o.Parked? <==> d.None? && (c.stage.DesignReview? || c.stage.ReleaseReview?))
            && (o.Parked? ==> o.left == c)
            && (o.Ended? <==> c.stage.Over?) && (o.Ended? ==> o.last == c)
            && (o.Moved? ==> StagesLeft(o.next) < StagesLeft(c))
            && (!c.stage.DesignReview? && !c.stage.ReleaseReview? ==> o == Advance(env, c, None))
  {
    hide CommitAll, Publish.PublishChange, Decided;
  }

  lemma SpecialistSound(env: SpecialistEnv)
    ensures Sound(SpecialistGraph(env)) && Replayable(SpecialistGraph(env))
  {
    forall c, d
      ensures var o := Advance(env, c, d);
            && (o.Parked? <==> d.None? && (c.stage.DesignReview? || c.stage.ReleaseReview?))
            && (o.Parked? ==> o.left == c)
            && (o.Moved? ==> StagesLeft(o.next) < StagesLeft(c))
            && (!c.stage.DesignReview? && !c.stage.ReleaseReview? ==> o == Advance(env, c, None))
    {
      hide Advance;
      AdvanceShape(env, c, d);
    }
    hide Advance, StagesLeft;
  }

  ghost function Finally(env: SpecialistEnv, c: SpecialistConfig, ds: seq<Decision>)
    : Checkpoint<Gate, SpecialistConfig>
  {
    SpecialistSound(env);
    RunAll(SpecialistGraph(env), c, ds)
  }

  ghost function Through(env: SpecialistEnv, c: SpecialistConfig, ds: seq<Decision>): seq<SpecialistConfig> {
    SpecialistSound(env);
    Passed(SpecialistGraph(env), c, ds)
  }

  ghost function Served(env: SpecialistEnv, rs: seq<Request<SpecialistConfig, Decision>>)
    : Store<Gate, SpecialistConfig>
  {
    SpecialistSound(env);
    ServeAll(SpecialistGraph(env), rs)
  }

  // No decision came after a node had raised.
  ghost predicate NeverBroke(env: SpecialistEnv, hist: History<SpecialistConfig, Decision>) {
    SpecialistSound(env);
    Unbroken(SpecialistGraph(env), hist)
  }

  lemma SlicedIsUninterrupted(env: SpecialistEnv, rs: seq<Request<SpecialistConfig, Decision>>, run: Runner.RunId)
    requires HistoryOf(rs, run).Started? && NeverBroke(env, HistoryOf(rs, run))
    ensures var hist := HistoryOf(rs, run);
            run in Served(env, rs) && Served(env, rs)[run] == Finally(env, hist.initial, hist.decisions)
  {
    SpecialistSound(env);
    hide Sound, Replayable, Unbroken;
    ServedIsUninterrupted(SpecialistGraph(env), rs, run);
  }

  // ---- When a run breaks ----

  // HEAD of an output checkout names one of its commits.
  predicate OutputValid(w: World) {
    w.output.Some? ==> Valid(w.output.value)
  }

  predicate MakingValid(m: Making) {
    && (m.Makes? ==> Valid(m.checkout))
    && (m.MakingRaises? && m.onDisk.Some? ==> Valid(m.onDisk.value))
  }

  // The output checkout is there before the phase is invoked.
  predicate OutputReady(env: SpecialistEnv, w: World) {
    w.output.Some? || !(env.making.MakingRaises? || (env.making.MakingRefused? && env.outputRepository != ""))
  }

  // A node raises exactly when a file stands where the design directory goes, making the output
  // checkout raises, the specialist's answer does, or publishing does after a commit that worked.
  lemma RaisesExactlyWhen(env: SpecialistEnv, c: SpecialistConfig, d: Option<Decision>)
    requires OutputValid(c.w)
    ensures Advance(env, c, d).Raised?
       <==> match c.stage
            case Designing =>
              env.provisioned(DesignWork)
              && (DESIGN_DIRECTORY in c.w.tenant.files || env.invoke(DesignWork).answer.Raises?)
            case Generating =>
              CanGenerate(env, c)
              && if OutputReady(env, c.w) then env.invoke(GenerateWork).answer.Raises?
                 else env.making.MakingRaises?
            case Publishing =>
              && !env.mode.PublishNothing? && env.luck.push.PushRaises?
              && !CommitAll(env.rules, OutputRepository(c.w), env.commitLuck).1.CommitFailed?
            case _ => false
  {
    hide CommitAll, Decided;
  }

  // The world as the phases leave it, when each of them answers.
  function Designed(env: SpecialistEnv, w: World): World {
    w.(tenant := w.tenant.(files := env.invoke(DesignWork).tenantFiles(w.tenant.files)))
  }

  function Made(env: SpecialistEnv, w: World): World
    requires OutputReady(env, w)
  {
    Generated(env.invoke(GenerateWork), OutputCheckout(env, w).w)
  }

  predicate DesignBreaks(env: SpecialistEnv, w: World) {
    && env.provisioned(DesignWork)
    && (DESIGN_DIRECTORY in w.tenant.files || env.invoke(DesignWork).answer.Raises?)
  }

  // An approved design has an artifact to generate from.
  predicate DesignHolds(env: SpecialistEnv, w: World) {
    && env.provisioned(DesignWork) && DESIGN_DIRECTORY !in w.tenant.files && env.invoke(DesignWork).answer.Answers?
    && env.provisioned(GenerateWork) && DESIGN_ARTIFACT in Designed(env, w).tenant.files
  }

  predicate GenerateBreaks(env: SpecialistEnv, w: World) {
    if OutputReady(env, w) then env.invoke(GenerateWork).answer.Raises? else env.making.MakingRaises?
  }

  predicate PublishBreaks(env: SpecialistEnv, w: World)
    requires OutputValid(w) && MakingValid(env.making)
  {
    && OutputReady(env, w) && env.invoke(GenerateWork).answer.Answers? && env.outputRepository != ""
    && !env.mode.PublishNothing? && env.luck.push.PushRaises?
    && !CommitAll(env.rules, OutputRepository(Made(env, w)), env.commitLuck).1.CommitFailed?
  }

  predicate Approves(ds: seq<Decision>, n: nat) {
    n <= |ds| && forall k | 0 <= k < n :: ds[k].status.Approved?
  }

  // One node of a run.
  lemma FirstNode(env: SpecialistEnv, c: SpecialistConfig, ds: seq<Decision>)
    ensures var asks := Advance(env, c, None).Parked?;
            match Advance(env, c, if asks && ds != [] then Some(ds[0]) else None)
            case Parked(gate, left) => Finally(env, c, ds) == Checkpoint(left, Waiting(gate))
            case Moved(next) =>
              (asks ==> ds != []) && Finally(env, c, ds) == Finally(env, next, if asks then ds[1..] else ds)
            case Ended(last) => Finally(env, c, ds) == Checkpoint(last, Done)
            case Raised(left) => Finally(env, c, ds) == Checkpoint(left, Broken)
  {
    SpecialistSound(env);
    hide Advance;
  }

  lemma PublishingBreaks(env: SpecialistEnv, c: SpecialistConfig, ds: seq<Decision>)
    requires OutputValid(c.w) && (c.stage.Publishing? || c.stage.Over?)
    ensures Finally(env, c, ds).stop.Broken? <==> Advance(env, c, None).Raised?
  {
    hide Finally, CommitAll, Publish.PublishChange;
    FirstNode(env, c, ds);
    if Advance(env, c, None).Moved? {
      FirstNode(env, Advance(env, c, None).next, ds);
    }
  }

  lemma ReviewingBreaks(env: SpecialistEnv, c: SpecialistConfig, ds: seq<Decision>)
    requires OutputValid(c.w) && c.stage.ReleaseReview?
    ensures Finally(env, c, ds).stop.Broken? <==>
        Approves(ds, 1) && Advance(env, SpecialistConfig(Publishing, c.s, c.w), None).Raised?
  {
    hide Finally, PublishNode, Decided;
    FirstNode(env, c, ds);
    if ds != [] {
      var next := Advance(env, c, Some(ds[0])).next;
      PublishingBreaks(env, next, ds[1..]);
      RaisesExactlyWhen(env, next, None);
      RaisesExactlyWhen(env, SpecialistConfig(Publishing, c.s, c.w), None);
    }
  }

  lemma GeneratingBreaks(env: SpecialistEnv, c: SpecialistConfig, ds: seq<Decision>)
    requires OutputValid(c.w) && MakingValid(env.making) && c.stage.Generating?
    ensures Finally(env, c, ds).stop.Broken? <==>
        CanGenerate(env, c) && (GenerateBreaks(env, c.w) || (Approves(ds, 1) && PublishBreaks(env, c.w)))
  {
    hide Finally, CommitAll, PublishNode;
    FirstNode(env, c, ds);
    RaisesExactlyWhen(env, c, None);
    var o := Advance(env, c, None);
    if o.Moved? {
      if o.next.stage.ReleaseReview? {
        ReviewingBreaks(env, o.next, ds);
        RaisesExactlyWhen(env, SpecialistConfig(Publishing, o.next.s, o.next.w), None);
      } else {
        PublishingBreaks(env, o.next, ds);
      }
    }
  }

  lemma DesignReviewBreaks(env: SpecialistEnv, c: SpecialistConfig, ds: seq<Decision>)
    requires OutputValid(c.w) && MakingValid(env.making) && c.stage.DesignReview?
    ensures Finally(env, c, ds).stop.Broken? <==>
        Approves(ds, 1) && CanGenerate(env, c)
        && (GenerateBreaks(env, c.w) || (Approves(ds, 2) && PublishBreaks(env, c.w)))
  {
    hide Finally, GenerateNode, PublishNode, Decided, GenerateBreaks, PublishBreaks;
    FirstNode(env, c, ds);
    if ds != [] {
      var next := Advance(env, c, Some(ds[0])).next;
      if ds[0].status.Approved? {
        GeneratingBreaks(env, next, ds[1..]);
        assert Approves(ds, 2) <==> Approves(ds[1..], 1);
      } else {
        PublishingBreaks(env, next, ds[1..]);
      }
    }
  }

  // A run breaks exactly when its design does, or its approved design is generated from and that
  // breaks, or its approved result is committed and publishing that breaks.
  lemma BreaksExactlyWhen(env: SpecialistEnv, start: SpecialistConfig, ds: seq<Decision>)
    requires start.stage.Designing? && OutputValid(start.w) && MakingValid(env.making)
    ensures Finally(env, start, ds).stop.Broken? <==>
        || DesignBreaks(env, start.w)
        || (Approves(ds, 1) && DesignHolds(env, start.w) && GenerateBreaks(env, Designed(env, start.w)))
        || (Approves(ds, 2) && DesignHolds(env, start.w) && PublishBreaks(env, Designed(env, start.w)))
  {
    hide Finally, GenerateNode, PublishNode, GenerateBreaks, PublishBreaks;
    FirstNode(env, start, ds);
    RaisesExactlyWhen(env, start, None);
    var o := Advance(env, start, None);
    if o.Moved? {
      if o.next.stage.DesignReview? {
        DesignReviewBreaks(env, o.next, ds);
      } else {
        PublishingBreaks(env, o.next, ds);
      }
    }
  }

  // What there is to check beforehand: no file where the design directory goes, an output that is
  // there or can be made, a specialist that answers or says why not, a push that does.
  predicate Steady(env: SpecialistEnv, w: World) {
    && DESIGN_DIRECTORY !in w.tenant.files
    && (forall phase :: !env.invoke(phase).answer.Raises?)
    && (w.output.Some? || !env.making.MakingRaises?)
    && (env.mode.PublishNothing? || !env.luck.push.PushRaises?)
  }

  // Then no run breaks, and its slices are one uninterrupted run whatever the requests are.
  lemma SteadyRunsNeverBreak(env: SpecialistEnv, rs: seq<Request<SpecialistConfig, Decision>>, run: Runner.RunId)
    requires HistoryOf(rs, run).Started? && MakingValid(env.making)
    requires var start := HistoryOf(rs, run).initial;
             start.stage.Designing? && OutputValid(start.w) && Steady(env, start.w)
    ensures var hist := HistoryOf(rs, run);
            && NeverBroke(env, hist) && !Finally(env, hist.initial, hist.decisions).stop.Broken?
            && run in Served(env, rs) && Served(env, rs)[run] == Finally(env, hist.initial, hist.decisions)
  {
    var hist := HistoryOf(rs, run);
    SpecialistSound(env);
    BreaksExactlyWhen(env, hist.initial, hist.decisions);
    forall k | 0 <= k < |hist.decisions|
      ensures !RunAll(SpecialistGraph(env), hist.initial, hist.decisions[..k]).stop.Broken?
    {
      BreaksExactlyWhen(env, hist.initial, hist.decisions[..k]);
    }
    assert NeverBroke(env, hist);
    SlicedIsUninterrupted(env, rs, run);
  }

  // A tenant that keeps a file under that name breaks every run that gets past the preflight, before
  // anything happens.
  lemma FileInTheWayBreaks(env: SpecialistEnv, start: SpecialistConfig, ds: seq<Decision>)
    requires start.stage.Designing? && env.provisioned(DesignWork) && DESIGN_DIRECTORY in start.w.tenant.files
    ensures Finally(env, start, ds) == Checkpoint(start, Broken)
  {
    hide Finally;
    FirstNode(env, start, ds);
  }

  // ---- What every reachable state satisfies ----

  predicate Both(s: SpecialistState) {
    && SpecialistDesignReview in s.record && s.record[SpecialistDesignReview].status.Approved?
    && MergeReleaseApproval in s.record && s.record[MergeReleaseApproval].status.Approved?
  }

  predicate RejectedAnywhere(s: SpecialistState) {
    || (SpecialistDesignReview in s.record && !s.record[SpecialistDesignReview].status.Approved?)
    || (MergeReleaseApproval in s.record && !s.record[MergeReleaseApproval].status.Approved?)
  }

  // The checkout the run found or cloned for its output.
  function OutputBase(env: SpecialistEnv, start: World): Option<Checkout> {
    if start.output.Some? then start.output
    else if env.outputRepository == "" then None
    else match env.making
      case Makes(checkout) => Some(checkout)
      case MakingRefused => None
      case MakingRaises(onDisk) => onDisk
  }

  predicate SameHistory(a: Option<Checkout>, b: Option<Checkout>) {
    a.Some? == b.Some? && (a.Some? ==> a.value.commits == b.value.commits && a.value.head == b.value.head)
  }

  predicate Delivered(c: SpecialistConfig) {
    c.stage.Over? && c.s.runStatus.Completed? && Both(c.s)
  }

  // Gates and lifecycle.
  predicate Governed(env: SpecialistEnv, c: SpecialistConfig) {
    && (if c.stage.Over? then !c.s.runStatus.Running? && c.s.ended && (c.s.stopped <==> c.s.runStatus.Failed?)
        else c.s.runStatus.Running? && !c.s.ended && !c.s.stopped && !RejectedAnywhere(c.s))
    && (c.stage.Designing? || c.stage.DesignReview? ==> SpecialistDesignReview !in c.s.record)
    && (c.stage.Generating? ==> SpecialistDesignReview in c.s.record)
    && (c.stage.Designing? || c.stage.DesignReview? || c.stage.Generating? || c.stage.ReleaseReview? ==>
        MergeReleaseApproval !in c.s.record)
    && (MergeReleaseApproval in c.s.record || c.stage.ReleaseReview? ==>
          (env.outputRepository != "" && c.s.outputRepository == env.outputRepository
           && SpecialistDesignReview in c.s.record && c.s.record[SpecialistDesignReview].status.Approved?))
    && (c.stage.Publishing? ==> Both(c.s))
    && (c.stage.Over? && c.s.runStatus.Completed? && !Both(c.s) ==> RejectedAnywhere(c.s) || env.outputRepository == "")
  }

  // Nothing was committed: the output is as the run found it, or as it cloned it.
  predicate Untouched(env: SpecialistEnv, start: World, c: SpecialistConfig) {
    && c.w.remote == start.remote && c.s.commitSha.None? && !c.s.published
    && (c.stage.ReleaseReview? || c.stage.Publishing? ==>
        OutputBase(env, start).Some? && SameHistory(c.w.output, OutputBase(env, start)))
    && (SameHistory(c.w.output, start.output) || SameHistory(c.w.output, OutputBase(env, start)))
  }

  // One commit step in the output repository, on what the run found or cloned there, and what the push
  // then did.
  predicate CommittedAs(env: SpecialistEnv, start: World, c: SpecialistConfig) {
    && c.w.output.Some? && OutputBase(env, start).Some?
    && var before := OutputBase(env, start).value.(files := c.w.output.value.files);
       && Valid(before)
       && var (repo, commit) := CommitAll(env.rules, before, env.commitLuck);
          && !commit.CommitFailed? && c.w.output == Some(repo) && Valid(repo)
          && c.w.remote == Publish.PublishChange(env.mode, repo, c.s.runId, env.luck, start.remote).0
  }

  // And the run says so.
  predicate DeliveredAs(env: SpecialistEnv, start: World, c: SpecialistConfig) {
    && CommittedAs(env, start, c) && c.s.commitSha == c.w.output.value.head
    && var r := Publish.PublishChange(env.mode, c.w.output.value, c.s.runId, env.luck, start.remote).1;
       r.Some? && c.s.published == r.value.published && c.s.publishBranch == r.value.branch.GetOr("")
  }

  predicate SpecialistInv(env: SpecialistEnv, start: World, c: SpecialistConfig) {
    && c.w.tenant.commits == start.tenant.commits && c.w.tenant.head == start.tenant.head
    && Governed(env, c)
    && (if Delivered(c) then DeliveredAs(env, start, c) else Untouched(env, start, c))
  }

  // What a node that raises leaves: a commit only if it was the publishing one.
  predicate BrokenInv(env: SpecialistEnv, start: World, c: SpecialistConfig) {
    && c.w.tenant.commits == start.tenant.commits && c.w.tenant.head == start.tenant.head
    && Governed(env, c) && !Delivered(c) && c.s.commitSha.None? && !c.s.published
    && (Untouched(env, start, c) || (c.stage.Publishing? && CommittedAs(env, start, c)))
  }

  lemma GovernedKept(env: SpecialistEnv, c: SpecialistConfig, d: Option<Decision>)
    requires Governed(env, c)
    ensures KeptBy(Advance(env, c, d), x => Governed(env, x))
  {
    hide CommitAll, Publish.PublishChange, Decided;
  }

  lemma TenantKept(env: SpecialistEnv, c: SpecialistConfig, d: Option<Decision>)
    ensures KeptBy(Advance(env, c, d), (x: SpecialistConfig) => x.w.tenant.commits == c.w.tenant.commits
        && x.w.tenant.head == c.w.tenant.head)
  {
    hide CommitAll, Publish.PublishChange, Decided;
  }

  lemma OutputKept(env: SpecialistEnv, start: World, c: SpecialistConfig, d: Option<Decision>)
    requires Governed(env, c) && (if Delivered(c) then DeliveredAs(env, start, c) else Untouched(env, start, c))
    requires !c.stage.Publishing?
    ensures KeptBy(Advance(env, c, d), x => if Delivered(x) then DeliveredAs(env, start, x)
        else Untouched(env, start, x))
  {
    hide CommitAll, Publish.PublishChange, Decided, DeliveredAs;
  }

  lemma PublishDelivers(env: SpecialistEnv, start: World, c: SpecialistConfig, d: Option<Decision>)
    requires c.stage.Publishing? && Governed(env, c) && Untouched(env, start, c)
    ensures var o := Advance(env, c, d);
            if o.Raised? then
              o.left.stage.Publishing? && o.left.s == c.s
              && (Untouched(env, start, o.left) || CommittedAs(env, start, o.left))
            else KeptBy(o, x => if Delivered(x) then DeliveredAs(env, start, x) else Untouched(env, start, x))
  {
    assert c.w.output.value == OutputBase(env, start).value.(files := c.w.output.value.files);
    hide Staged, Unchanged, Publish.PublishChange;
  }

  lemma SpecialistInvKept(env: SpecialistEnv, start: World, c: SpecialistConfig, d: Option<Decision>)
    requires SpecialistInv(env, start, c)
    ensures var o := Advance(env, c, d);
            if o.Raised? then BrokenInv(env, start, o.left) else KeptBy(o, x => SpecialistInv(env, start, x))
  {
    assert Untouched(env, start, c) ==> c.s.commitSha.None? && !c.s.published;
    hide Advance, Governed, DeliveredAs, CommittedAs, Untouched;
    GovernedKept(env, c, d);
    TenantKept(env, c, d);
    if Advance(env, c, d).Raised? {
      RaisedSays(env, c, d);
    }
    if c.stage.Publishing? {
      PublishDelivers(env, start, c, d);
    } else {
      OutputKept(env, start, c, d);
    }
  }

  lemma RaisedSays(env: SpecialistEnv, c: SpecialistConfig, d: Option<Decision>)
    requires Advance(env, c, d).Raised?
    ensures !c.stage.Over? && Advance(env, c, d).left.s == c.s && Advance(env, c, d).left.stage == c.stage
  {
    hide CommitAll, Publish.PublishChange, Decided;
  }

  // ---- Every run ----

  predicate Starts(c: SpecialistConfig) {
    c == SpecialistInitial(c.s.runId, c.s.specialist, c.w.tenant, c.w.output, c.w.loose, c.w.remote)
  }

  ghost predicate Reached(env: SpecialistEnv, start: SpecialistConfig, ds: seq<Decision>, c: SpecialistConfig) {
    c in Through(env, start, ds) || c == Finally(env, start, ds).config
  }

  lemma ReachedSpecialistInv(env: SpecialistEnv, start: SpecialistConfig, ds: seq<Decision>, c: SpecialistConfig)
    requires Starts(start) && Reached(env, start, ds, c)
    ensures SpecialistInv(env, start.w, c)
        || (BrokenInv(env, start.w, c) && Finally(env, start, ds) == Checkpoint(c, Broken))
    ensures !Finally(env, start, ds).stop.Broken? ==> SpecialistInv(env, start.w, Finally(env, start, ds).config)
  {
    SpecialistSound(env);
    var m := SpecialistGraph(env);
    var inv := (x: SpecialistConfig) => SpecialistInv(env, start.w, x);
    var broke := (x: SpecialistConfig) => BrokenInv(env, start.w, x);
    forall x, d | inv(x) ensures if m.step(x, d).Raised? then broke(m.step(x, d).left) else KeptBy(m.step(x, d), inv) {
      hide Advance, SpecialistInv, BrokenInv;
      SpecialistInvKept(env, start.w, x, d);
    }
    assert inv(start);
    assert KeptOr(m, inv, broke);
    hide SpecialistInv, BrokenInv, Advance, Sound, KeptOr, Replayable;
    InvariantOr(m, inv, broke, start, ds);
  }

  // The tenant's history is never added to, whatever the specialist does to its files.  The
  // output's history and its remote change only once both gates approved a run whose route names
  // an output repository, and then by one commit step on what was found or cloned there.  A run that
  // completes so says what it did; only one that broke while publishing does not.
  lemma CommitsOnlyWhereApproved(env: SpecialistEnv, start: SpecialistConfig, ds: seq<Decision>, c: SpecialistConfig)
    requires Starts(start) && Reached(env, start, ds, c)
    ensures c.w.tenant.commits == start.w.tenant.commits && c.w.tenant.head == start.w.tenant.head
    ensures c.s.published || c.s.commitSha.Some? || c.w.remote != start.w.remote
            || !(SameHistory(c.w.output, start.w.output) || SameHistory(c.w.output, OutputBase(env, start.w))) ==>
              && Both(c.s) && env.outputRepository != "" && CommittedAs(env, start.w, c)
              && (c.s.runStatus.Completed? || Finally(env, start, ds) == Checkpoint(c, Broken))
    ensures Both(c.s) && c.s.runStatus.Completed? ==> DeliveredAs(env, start.w, c)
  {
    ReachedSpecialistInv(env, start, ds, c);
    hide DeliveredAs, CommittedAs, Finally;
    if Delivered(c) {
      DeliveredIsCommitted(env, start.w, c);
    }
  }

  lemma DeliveredIsCommitted(env: SpecialistEnv, start: World, c: SpecialistConfig)
    requires DeliveredAs(env, start, c)
    ensures CommittedAs(env, start, c)
  {
  }

  // The end is reached only completed or failed, with finished_at set, and failed exactly when
  // safe_stop is set.  A completed run that delivered nothing was turned down at a gate, or
  // nobody named a repository for it.
  lemma OverMeansFinished(env: SpecialistEnv, start: SpecialistConfig, ds: seq<Decision>)
    requires Starts(start) && Finally(env, start, ds).stop.Done?
    ensures var s := Finally(env, start, ds).config.s;
            && s.ended && (s.runStatus.Completed? || s.runStatus.Failed?) && (s.stopped <==> s.runStatus.Failed?)
            && (TerminalStateOf(s.stopped, s.runStatus).RunCompleted? <==> s.runStatus.Completed?)
            && (s.runStatus.Completed? && !Both(s) ==> RejectedAnywhere(s) || env.outputRepository == "")
            && (RejectedAnywhere(s) && s.runStatus.Completed? ==> s.commitSha.None? && !s.published)
  {
    SpecialistSound(env);
    ReachedSpecialistInv(env, start, ds, Finally(env, start, ds).config);
    var at, d := StopMeaning(SpecialistGraph(env), start, ds);
    AdvanceShape(env, at, d);
    hide Advance, DeliveredAs, Sound, Replayable;
  }

  // Two decisions are always enough, and neither gate asks twice.
  predicate AsksDesign(c: SpecialistConfig) { c.stage.DesignReview? }
  predicate AsksRelease(c: SpecialistConfig) { c.stage.ReleaseReview? }
  predicate AsksEither(c: SpecialistConfig) { AsksDesign(c) || AsksRelease(c) }
  function DesignAsksLeft(c: SpecialistConfig): nat { if StagesLeft(c) >= 4 then 1 else 0 }
  function ReleaseAsksLeft(c: SpecialistConfig): nat { if StagesLeft(c) >= 2 then 1 else 0 }
  function AsksLeft(c: SpecialistConfig): nat { DesignAsksLeft(c) + ReleaseAsksLeft(c) }

  lemma TwoDecisionsSuffice(env: SpecialistEnv, start: SpecialistConfig, ds: seq<Decision>)
    requires start.stage.Designing?
    ensures Count(Through(env, start, ds), AsksDesign) <= 1
    ensures Count(Through(env, start, ds), AsksRelease) <= 1
    ensures |ds| >= 2 ==> !Finally(env, start, ds).stop.Waiting?
  {
    SpecialistSound(env);
    var m := SpecialistGraph(env);
    forall c, d
      ensures m.step(c, d).Moved? ==> StagesLeft(m.step(c, d).next) < StagesLeft(c)
      ensures m.step(c, d).Parked? ==> AsksEither(c)
    {
      hide Advance;
      AdvanceShape(env, c, d);
    }
    hide Advance, Sound, Replayable;
    assert Bounds(m, AsksDesign, DesignAsksLeft) && Bounds(m, AsksRelease, ReleaseAsksLeft)
        && Bounds(m, AsksEither, AsksLeft);
    hide Bounds;
    CountBounded(m, AsksDesign, DesignAsksLeft, start, ds);
    CountBounded(m, AsksRelease, ReleaseAsksLeft, start, ds);
    if |ds| >= 2 {
      NotLeftWaiting(m, AsksEither, AsksLeft, start, ds);
    }
  }
}
