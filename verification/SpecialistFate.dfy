/**
 What a specialist run leaves: which files each repository holds at every stage and at each of its
 ends, what was committed, and what the run says about it.
 */
module SpecialistFate {
  import opened Prelude
  import opened Workspace
  import opened Runner
  import opened Sdlc
  import opened Specialist
  import Publish

  predicate Named(env: SpecialistEnv) {
    env.outputRepository != ""
  }

  // The design phase ran on the tenant's checkout.
  function AfterDesign(env: SpecialistEnv, w: World): World {
    w.(tenant := w.tenant.(files := env.invoke(DesignWork).tenantFiles(w.tenant.files)))
  }

  // Then the generate phase ran on that and on the output: the checkout found or cloned, or else the
  // bare directory.
  function AfterGenerate(env: SpecialistEnv, w: World): World {
    var call, base := env.invoke(GenerateWork), OutputBase(env, w);
    var tenant := w.tenant.(files := call.tenantFiles(AfterDesign(env, w).tenant.files));
    if base.Some? then w.(tenant := tenant, output := Some(base.value.(files := call.outputFiles(base.value.files))))
    else w.(tenant := tenant, loose := call.outputFiles(w.loose))
  }

  predicate Designs(env: SpecialistEnv) {
    env.provisioned(DesignWork) && env.invoke(DesignWork).answer.Answers?
  }

  // There is something to generate from.
  predicate HasDesign(env: SpecialistEnv, w: World) {
    env.provisioned(GenerateWork) && DESIGN_ARTIFACT in AfterDesign(env, w).tenant.files
  }

  predicate HasOutput(env: SpecialistEnv, w: World) {
    w.output.Some? || !Named(env) || env.making.Makes?
  }

  predicate Generates(env: SpecialistEnv, w: World) {
    Designs(env) && HasDesign(env, w) && HasOutput(env, w) && env.invoke(GenerateWork).answer.Answers?
  }

  predicate Said(s: SpecialistState, gate: Gate, yes: bool) {
    && gate in s.record && (s.record[gate].status.Approved? <==> yes)
    && s.record[gate].status == s.record[gate].payload.status
  }

  predicate HasDetails(env: SpecialistEnv, s: SpecialistState, generated: bool) {
    && env.invoke(DesignWork).answer.Answers?
    && (generated ==> env.invoke(GenerateWork).answer.Answers?)
    && s.phases.Keys == (if generated then {DesignWork, GenerateWork} else {DesignWork})
    && s.phases[DesignWork] == env.invoke(DesignWork).answer.detail
    && (generated ==>
          && s.phases[GenerateWork] == env.invoke(GenerateWork).answer.detail
          && s.outputRepository == env.outputRepository
          && s.outputBranch == if Named(env) then env.outputBranch else "")
  }

  const DESIGNED := Note(DesignPhase, NodeEnd)
  const GENERATED := Note(GeneratePhase, NodeEnd)

  function Reviewed(s: SpecialistState): Event
    requires SpecialistDesignReview in s.record
  {
    Decided(DesignReviewGate, SpecialistDesignReview, s.record[SpecialistDesignReview].status)
  }

  function Judged(s: SpecialistState): Event
    requires MergeReleaseApproval in s.record
  {
    Decided(ReleaseReviewGate, MergeReleaseApproval, s.record[MergeReleaseApproval].status)
  }

  // On the way.
  predicate OnTheWay(env: SpecialistEnv, w: World, c: SpecialistConfig) {
    match c.stage
    case Designing => c.w == w && c.s.trail == [] && c.s.record == map[]
    case DesignReview =>
      Designs(env) && c.w == AfterDesign(env, w) && HasDetails(env, c.s, false) && c.s.record == map[]
      && c.s.trail == [DESIGNED]
    case Generating =>
      && Designs(env) && c.w == AfterDesign(env, w) && HasDetails(env, c.s, false)
      && Said(c.s, SpecialistDesignReview, true) && c.s.record.Keys == {SpecialistDesignReview}
      && c.s.trail == [DESIGNED, Reviewed(c.s)]
    case ReleaseReview =>
      && Generates(env, w) && Named(env) && c.w == AfterGenerate(env, w) && HasDetails(env, c.s, true)
      && Said(c.s, SpecialistDesignReview, true) && c.s.record.Keys == {SpecialistDesignReview}
      && c.s.trail == [DESIGNED, Reviewed(c.s), GENERATED]
    case Publishing =>
      && Generates(env, w) && Named(env) && c.w == AfterGenerate(env, w) && HasDetails(env, c.s, true)
      && Said(c.s, SpecialistDesignReview, true) && Said(c.s, MergeReleaseApproval, true)
      && c.s.record.Keys == {SpecialistDesignReview, MergeReleaseApproval}
      && c.s.trail == [DESIGNED, Reviewed(c.s), GENERATED, Judged(c.s)]
    case Over => true
  }

  // Completed: turned down at either gate, done without a repository to publish to, or delivered by
  // one commit of what was generated.
  predicate CompletedAs(env: SpecialistEnv, w: World, c: SpecialistConfig) {
    && Designs(env)
    && ((Said(c.s, SpecialistDesignReview, false) && c.w == AfterDesign(env, w) && HasDetails(env, c.s, false)
         && c.s.trail == [DESIGNED, Reviewed(c.s)])
        || (Said(c.s, SpecialistDesignReview, true) && Generates(env, w) && HasDetails(env, c.s, true)
            && ((!Named(env) && MergeReleaseApproval !in c.s.record && c.w == AfterGenerate(env, w)
                 && c.s.trail == [DESIGNED, Reviewed(c.s), GENERATED])
                || (Named(env) && Said(c.s, MergeReleaseApproval, false) && c.w == AfterGenerate(env, w)
                    && c.s.trail == [DESIGNED, Reviewed(c.s), GENERATED, Judged(c.s)])
                || (Named(env) && Said(c.s, MergeReleaseApproval, true) && DeliveredFrom(env, w, c)
                    && c.s.trail == [DESIGNED, Reviewed(c.s), GENERATED, Judged(c.s), Note(PublishPhase, NodeEnd)]))))
  }

  predicate DeliveredFrom(env: SpecialistEnv, w: World, c: SpecialistConfig) {
    var after := AfterGenerate(env, w);
    && after.output.Some? && Valid(after.output.value)
    && var (repo, commit) := CommitAll(env.rules, after.output.value, env.commitLuck);
       && !commit.CommitFailed? && c.s.commitSha == repo.head
       && c.w == after.(output := Some(repo), remote := c.w.remote)
       && Valid(repo)
       && var (remote, r) := Publish.PublishChange(env.mode, repo, c.s.runId, env.luck, w.remote);
          r.Some? && c.w.remote == remote && c.s.published == r.value.published
          && c.s.publishBranch == r.value.branch.GetOr("")
  }

  // Failed: at the first thing that stood in the way, with what was done until then left as it is.
  predicate FailedAs(env: SpecialistEnv, w: World, c: SpecialistConfig) {
    if !Designs(env) then
      c.w == (if env.provisioned(DesignWork) then AfterDesign(env, w) else w)
      && c.s.trail == [Note(DesignPhase, SafeStopEvent)]
    else if !HasDesign(env, w) then c.w == AfterDesign(env, w) && StoppedGenerating(c.s)
    else if !HasOutput(env, w) then c.w == AfterDesign(env, w).(loose := map[]) && StoppedGenerating(c.s)
    else if env.invoke(GenerateWork).answer.Refuses? then c.w == AfterGenerate(env, w) && StoppedGenerating(c.s)
    else
      && Named(env) && c.w == AfterGenerate(env, w)
      && Said(c.s, SpecialistDesignReview, true) && Said(c.s, MergeReleaseApproval, true)
      && c.w.output.Some? && Valid(c.w.output.value)
      && CommitAll(env.rules, c.w.output.value, env.commitLuck).1.CommitFailed?
      && c.s.trail == [DESIGNED, Reviewed(c.s), GENERATED, Judged(c.s), Note(PublishPhase, SafeStopEvent)]
  }

  predicate StoppedGenerating(s: SpecialistState) {
    && Said(s, SpecialistDesignReview, true)
    && s.trail == [DESIGNED, Reviewed(s), Note(GeneratePhase, SafeStopEvent)]
  }

  // A node raised: nothing is said about it, but what it did outside its state stays.
  predicate BrokeAs(env: SpecialistEnv, start: SpecialistConfig, c: SpecialistConfig) {
    var w := start.w;
    && c.s.runId == start.s.runId && c.s.runStatus.Running?
    && match c.stage
       case Designing =>
         && OnTheWay(env, w, c.(w := w)) && env.provisioned(DesignWork)
         && if DESIGN_DIRECTORY in w.tenant.files then c.w == w
            else env.invoke(DesignWork).answer.Raises? && c.w == AfterDesign(env, w)
       case Generating =>
         && OnTheWay(env, w, c.(w := AfterDesign(env, w))) && HasDesign(env, w)
         && if w.output.None? && env.making.MakingRaises? then
              c.w == AfterDesign(env, w).(output := if Named(env) then env.making.onDisk else None)
            else HasOutput(env, w) && env.invoke(GenerateWork).answer.Raises? && c.w == AfterGenerate(env, w)
       case Publishing =>
         var after := AfterGenerate(env, w);
         && OnTheWay(env, w, c.(w := after)) && after.output.Some?
         && (if !Valid(after.output.value) then c.w == after else PushRaised(env, w, c))
       case _ => false
  }

  // The commit was made, and the branch is the run's if the push got that far.
  predicate PushRaised(env: SpecialistEnv, w: World, c: SpecialistConfig)
    requires AfterGenerate(env, w).output.Some? && Valid(AfterGenerate(env, w).output.value)
  {
    var after := AfterGenerate(env, w);
    var (repo, commit) := CommitAll(env.rules, after.output.value, env.commitLuck);
    && !commit.CommitFailed? && Valid(repo) && !env.mode.PublishNothing? && env.luck.push.PushRaises?
    && c.w == after.(output := Some(repo), remote := if env.luck.push.made && repo.head.Some?
         then w.remote[Publish.BranchName(c.s.runId) := Tracked(repo)] else w.remote)
  }

  predicate FateOk(env: SpecialistEnv, start: SpecialistConfig, c: SpecialistConfig) {
    && c.s.runId == start.s.runId
    && (!c.stage.Over? ==> c.s.runStatus.Running?)
    && OnTheWay(env, start.w, c)
    && (c.stage.Over? ==>
          if c.s.runStatus.Completed? then CompletedAs(env, start.w, c)
          else c.s.runStatus.Failed? && FailedAs(env, start.w, c))
  }

  lemma DesigningFate(env: SpecialistEnv, start: SpecialistConfig, c: SpecialistConfig)
    requires c.stage.Designing? && FateOk(env, start, c) && !Advance(env, c, None).Raised?
    ensures KeptBy(Advance(env, c, None), x => FateOk(env, start, x))
  {
    hide CompletedAs;
  }

  lemma DesignReviewFate(env: SpecialistEnv, start: SpecialistConfig, c: SpecialistConfig, d: Option<Decision>)
    requires c.stage.DesignReview? && FateOk(env, start, c)
    ensures KeptBy(Advance(env, c, d), x => FateOk(env, start, x))
  {
    hide DeliveredFrom, FailedAs, Decided;
  }

  // The output checkout as the phase finds it, and what the phase leaves.
  lemma GeneratedIs(env: SpecialistEnv, w: World)
    ensures var out := OutputCheckout(env, AfterDesign(env, w));
            && (HasOutput(env, w) && !out.ReadyRaises? ==>
                  out.Ready? && Generated(env.invoke(GenerateWork), out.w) == AfterGenerate(env, w))
            && (!HasOutput(env, w) && !out.ReadyRaises? ==> out == NotReady(AfterDesign(env, w).(loose := map[])))
  {
  }

  lemma GeneratingFate(env: SpecialistEnv, start: SpecialistConfig, c: SpecialistConfig)
    requires c.stage.Generating? && FateOk(env, start, c) && !Advance(env, c, None).Raised?
    ensures KeptBy(Advance(env, c, None), x => FateOk(env, start, x))
  {
    GeneratedIs(env, start.w);
    assert CanGenerate(env, c) <==> HasDesign(env, start.w);
    hide DeliveredFrom, Decided, AfterGenerate, AfterDesign, HasDesign, HasOutput, OutputCheckout, Generated,
      CanGenerate;
  }

  lemma ReleaseReviewFate(env: SpecialistEnv, start: SpecialistConfig, c: SpecialistConfig, d: Option<Decision>)
    requires c.stage.ReleaseReview? && FateOk(env, start, c)
    ensures KeptBy(Advance(env, c, d), x => FateOk(env, start, x))
  {
    if d.Some? {
      var record := c.s.record[MergeReleaseApproval := GateRecord(d.value.status, d.value)];
      assert record.Keys == {SpecialistDesignReview, MergeReleaseApproval};
      assert record[SpecialistDesignReview] == c.s.record[SpecialistDesignReview];
      var told := Decided(ReleaseReviewGate, MergeReleaseApproval, d.value.status);
      assert [DESIGNED, Reviewed(c.s), GENERATED] + [told] == [DESIGNED, Reviewed(c.s), GENERATED, told];
    }
    hide DeliveredFrom, FailedAs, Decided, Generates, AfterGenerate, AfterDesign;
  }

  lemma PublishingFate(env: SpecialistEnv, start: SpecialistConfig, c: SpecialistConfig)
    requires c.stage.Publishing? && FateOk(env, start, c) && !Advance(env, c, None).Raised?
    ensures KeptBy(Advance(env, c, None), x => FateOk(env, start, x))
  {
    assert Generates(env, start.w) && c.w == AfterGenerate(env, start.w) && c.w.output.Some?;
    hide CommitAll, Publish.PublishChange, Decided, AfterGenerate, AfterDesign, HasDesign, HasOutput;
    CommittedTreeOr(env.rules, c.w.output, env.commitLuck);
  }

  lemma FateKept(env: SpecialistEnv, start: SpecialistConfig, c: SpecialistConfig, d: Option<Decision>)
    requires FateOk(env, start, c) && !Advance(env, c, d).Raised?
    ensures KeptBy(Advance(env, c, d), x => FateOk(env, start, x))
  {
    AdvanceShape(env, c, d);
    hide Advance, FateOk;
    match c.stage
    case Designing => DesigningFate(env, start, c);
    case DesignReview => DesignReviewFate(env, start, c, d);
    case Generating => GeneratingFate(env, start, c);
    case ReleaseReview => ReleaseReviewFate(env, start, c, d);
    case Publishing => PublishingFate(env, start, c);
    case Over =>
  }

  lemma DesigningBroke(env: SpecialistEnv, start: SpecialistConfig, c: SpecialistConfig)
    requires c.stage.Designing? && FateOk(env, start, c) && Advance(env, c, None).Raised?
    ensures BrokeAs(env, start, Advance(env, c, None).left)
  {
    hide CompletedAs, FailedAs;
  }

  lemma GeneratingBroke(env: SpecialistEnv, start: SpecialistConfig, c: SpecialistConfig)
    requires c.stage.Generating? && FateOk(env, start, c) && Advance(env, c, None).Raised?
    ensures BrokeAs(env, start, Advance(env, c, None).left)
  {
    GeneratedIs(env, start.w);
    assert CanGenerate(env, c) <==> HasDesign(env, start.w);
    hide CompletedAs, FailedAs, Decided, AfterGenerate, HasDesign, Generated, CanGenerate;
  }

  lemma PublishingBroke(env: SpecialistEnv, start: SpecialistConfig, c: SpecialistConfig)
    requires c.stage.Publishing? && FateOk(env, start, c) && Advance(env, c, None).Raised?
    ensures BrokeAs(env, start, Advance(env, c, None).left)
  {
    assert Generates(env, start.w) && c.w == AfterGenerate(env, start.w) && c.w.output.Some?;
    hide CommitAll, CompletedAs, FailedAs, Decided, AfterGenerate, AfterDesign, HasDesign, HasOutput;
    CommittedTreeOr(env.rules, c.w.output, env.commitLuck);
  }

  lemma Broke(env: SpecialistEnv, start: SpecialistConfig, c: SpecialistConfig, d: Option<Decision>)
    requires FateOk(env, start, c) && Advance(env, c, d).Raised?
    ensures BrokeAs(env, start, Advance(env, c, d).left)
  {
    AdvanceShape(env, c, d);
    assert !c.stage.DesignReview? && !c.stage.ReleaseReview?;
    hide Advance, FateOk, BrokeAs;
    match c.stage
    case Designing => DesigningBroke(env, start, c);
    case Generating => GeneratingBroke(env, start, c);
    case Publishing => PublishingBroke(env, start, c);
    case _ =>
  }

  // Wherever a run stops, its repositories hold exactly what the phases it went
  // through made of what it found, its output one commit of what was generated if it was delivered, and
  // its state and trail say how it came to that.  Where a node raised, what it had done stays as well:
  // the files of the phase that raised, the checkout it made, the commit whose push raised.
  lemma RunsMeanWhatTheySay(env: SpecialistEnv, start: SpecialistConfig, ds: seq<Decision>)
    requires Starts(start)
    ensures var cp := Finally(env, start, ds);
            if cp.stop.Broken? then BrokeAs(env, start, cp.config) else FateOk(env, start, cp.config)
  {
    SpecialistSound(env);
    var m := SpecialistGraph(env);
    var inv := (x: SpecialistConfig) => FateOk(env, start, x);
    var broke := (x: SpecialistConfig) => BrokeAs(env, start, x);
    forall x, d | inv(x)
      ensures if m.step(x, d).Raised? then broke(m.step(x, d).left) else KeptBy(m.step(x, d), inv)
    {
      hide Advance, FateOk, BrokeAs;
      if m.step(x, d).Raised? {
        Broke(env, start, x, d);
      } else {
        FateKept(env, start, x, d);
      }
    }
    assert inv(start);
    assert KeptOr(m, inv, broke);
    hide FateOk, BrokeAs, Advance, Sound, KeptOr, Replayable;
    InvariantOr(m, inv, broke, start, ds);
  }

  // So what is delivered is what was generated: after both approvals the commit holds exactly the
  // output as the generate phase left it, as far as git takes it, the branch of the run holds that
  // commit if it says it published, and the tenant's files are as the two phases left them.
  lemma DeliversWhatWasGenerated(env: SpecialistEnv, start: SpecialistConfig, ds: seq<Decision>)
    requires Starts(start) && Finally(env, start, ds).stop.Done?
    requires var c := Finally(env, start, ds).config; c.s.runStatus.Completed? && Both(c.s)
    ensures var c, base := Finally(env, start, ds).config, OutputBase(env, start.w);
            && base.Some? && c.w.output.Some? && Valid(c.w.output.value)
            && c.w.tenant.files
               == env.invoke(GenerateWork).tenantFiles(env.invoke(DesignWork).tenantFiles(start.w.tenant.files))
            && var generated := base.value.(files := env.invoke(GenerateWork).outputFiles(base.value.files));
               && Valid(generated) && c.w.output.value.files == generated.files
               && Tracked(c.w.output.value) == Staged(env.rules, generated)
               && (c.s.published ==>
                     c.w.remote == start.w.remote[Publish.BranchName(c.s.runId) := Staged(env.rules, generated)])
  {
    RunsMeanWhatTheySay(env, start, ds);
    var c := Finally(env, start, ds).config;
    OverMeansFinished(env, start, ds);
    hide Finally;
    EndsOver(env, start, ds);
    var generated := AfterGenerate(env, start.w).output.value;
    CommittedTree(env.rules, generated, env.commitLuck);
    Publish.PublishedMeansPushed(env.mode, c.w.output.value, c.s.runId, env.luck, start.w.remote, c.s.runId);
  }

  lemma EndsOver(env: SpecialistEnv, start: SpecialistConfig, ds: seq<Decision>)
    requires Finally(env, start, ds).stop.Done?
    ensures Finally(env, start, ds).config.stage.Over?
  {
    SpecialistSound(env);
    var at, d := StopMeaning(SpecialistGraph(env), start, ds);
    AdvanceShape(env, at, d);
    hide Advance, Sound, Replayable;
  }

  lemma CommittedTreeOr(r: Rules, w: Option<Checkout>, luck: CommitLuck)
    ensures w.Some? && Valid(w.value) ==> Valid(CommitAll(r, w.value, luck).0)
  {
    hide Staged, Unchanged;
  }

  // After a commit step that worked HEAD holds what was staged.
  lemma CommittedTree(r: Rules, w: Checkout, luck: CommitLuck)
    requires Valid(w) && !CommitAll(r, w, luck).1.CommitFailed?
    ensures var after := CommitAll(r, w, luck).0;
            Valid(after) && Tracked(after) == Staged(r, w) && after.files == w.files
  {
  }
}
