/**
 From a human's approval to a tenant's branch: the graph, the worker and publishing together.
 */
module EndToEnd {
  import opened Prelude
  import opened Workspace
  import Runner
  import opened Sdlc
  import opened SdlcBounds
  import opened SdlcSafety
  import opened SdlcTheorems
  import Publish
  import L = Lifecycle
  import M = Metrics
  import O = LifecycleOutcomes

  // How the worker sees an SDLC run that stopped.
  function SliceOf(cp: Runner.Checkpoint<Gate, Config>): L.SliceResult {
    match cp.stop
    case Waiting(gate) => L.Parks(gate)
    case Done =>
      var s := cp.config.s;
      L.Ends(L.Ending(TerminalStateOf(s.safeStop, s.status), s.commitAfter,
          Publish.PublishResult(Publish.PublishNothing, false, None, None, false)))
    case Broken => L.Raises(true)
  }

  // Whatever the worker delivers was approved at the release gate, in an attempt that passed its
  // tests and whose findings were overridden if there were any; and the branch, if anything reaches
  // it, holds exactly the files at hand, without ignored files and without bytecode the tenant did not
  // have.
  lemma DeliveredMeansGoverned(env: Env, clone: Checkout, start: Config, ds: seq<Decision>,
                               run: L.RunId, d: L.Deployment, report: L.ReportLuck,
                               mode: Publish.Mode, luck: Publish.Luck, remote: Publish.Remote)
    requires Starts(clone, start)
    requires var after := L.AfterSlice(d, run, L.SdlcKind, SliceOf(Finally(env, start, ds)), report);
             |after.log| > |d.log| && after.log[|d.log|].Delivered?
    ensures var c := Finally(env, start, ds).config;
            && GateIs(c.s, MergeReleaseApproval, Approved)
            && c.s.attempts != [] && env.tests(|c.s.attempts| - 1).passed
            && (env.findingsIn(c.s.attempts[|c.s.attempts| - 1].codeFiles) == []
                || c.s.gates[MergeReleaseApproval].payload.overrideGuardrails)
            && Valid(c.w)
            && var (pushed, r) := Publish.PublishChange(mode, c.w, run, luck, remote);
               var tree := Staged(env.rules, clone.(files := c.w.files));
               && (r.Some? ==> pushed == if r.value.published then remote[Publish.BranchName(run) := tree] else remote)
               && (pushed == remote || pushed == remote[Publish.BranchName(run) := tree])
  {
    var cp := Finally(env, start, ds);
    DeliveredMeansCompleted(d, run, SliceOf(cp), report);
    EndMeansFinished(env, clone, start, ds);
    CompletedMeansApproved(env, clone, start, ds, cp.config);
    ReleasedTree(env, clone, cp.config);
    Publish.PublishedMeansPushed(mode, cp.config.w, run, luck, remote, run);
  }

  // What the worker says of an SDLC run is how the run stopped: completed if and only if its release
  // was approved and nothing stood in its way, safe-stopped if and only if its safe stop is set, failed
  // if it was rolled back or a node raised; and nothing while it waits.
  lemma ReportedAsItEnded(env: Env, clone: Checkout, start: Config, ds: seq<Decision>,
                          run: L.RunId, d: L.Deployment, report: L.ReportLuck, k: nat)
    requires Starts(clone, start)
    requires var e := L.Invoke(d, run, L.SdlcKind, SliceOf(Finally(env, start, ds)), report);
             |d.log| <= k < |e.log| && e.log[k].Reported?
    ensures var cp := Finally(env, start, ds);
            var told := L.Invoke(d, run, L.SdlcKind, SliceOf(cp), report).log[k];
            && told.run == run && told.state.OutcomeOf? && !cp.stop.Waiting?
            && (told.state.terminal.RunCompleted? <==> GateIs(cp.config.s, MergeReleaseApproval, Approved))
            && (told.state.terminal.SafeStopped? <==> cp.stop.Done? && cp.config.s.safeStop)
            && (told.state.terminal.RunFailed? <==>
                  cp.stop.Broken? || (cp.config.s.rollbackCount == 1 && !cp.config.s.safeStop))
            && (told.state.terminal.RunCompleted? ==> told.commitAfter == cp.config.s.commitAfter)
  {
    var cp := Finally(env, start, ds);
    match cp.stop
    case Waiting(gate) => O.ParkedSlice(d, run, L.SdlcKind, gate, report);
    case Broken =>
      O.RaisedSlice(d, run, L.SdlcKind, true, report);
      BrokenMeansUnapproved(env, clone, start, ds);
    case Done =>
      O.EndedSlice(d, run, L.SdlcKind, SliceOf(cp).ending, report);
      EndMeansFinished(env, clone, start, ds);
      CompletedMeansApproved(env, clone, start, ds, cp.config);
  }

  lemma BrokenMeansUnapproved(env: Env, clone: Checkout, start: Config, ds: seq<Decision>)
    requires Starts(clone, start) && Finally(env, start, ds).stop.Broken?
    ensures var c := Finally(env, start, ds).config;
            !GateIs(c.s, MergeReleaseApproval, Approved) && c.s.rollbackCount == 0 && !c.s.safeStop
  {
    GraphSound(env);
    var at, d := Runner.StopMeaning(Graph(env), start, ds);
    M.StepLeaves(env, at, d);
    ReachedInv(env, clone, start, ds, Finally(env, start, ds).config);
    EndNeverRaises(env, at, d);
    hide Run;
  }

  lemma EndNeverRaises(env: Env, c: Config, d: Option<Decision>)
    requires Run(env, c, d).Raised?
    ensures !c.at.AtEnd?
  {
  }

  lemma DeliveredMeansCompleted(d: L.Deployment, run: L.RunId, slice: L.SliceResult, report: L.ReportLuck)
    requires var after := L.AfterSlice(d, run, L.SdlcKind, slice, report);
             |after.log| > |d.log| && after.log[|d.log|].Delivered?
    ensures slice.Ends? && slice.ending.terminal.RunCompleted?
  {
  }

  lemma ReleasedTree(env: Env, clone: Checkout, c: Config)
    requires Valid(clone) && Released(env, clone, c)
    ensures Valid(c.w) && Tracked(c.w) == Staged(env.rules, clone.(files := c.w.files))
  {
  }
}
