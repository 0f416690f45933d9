/**
 What survives restarts: the target, the workspace, and the choice of graph.
 */
module LifecycleTheorems {
  import opened Prelude
  import opened Sdlc
  import opened Lifecycle
  import Publish

  // ---- What the effects say about one run ----

  // clone: where its current checkout came from.  settled: since then an outcome was reported or its
  // handler gave up.  invoked: the graphs that ran on it since then.  present: the checkout is still there.
  datatype View = View(clone: Option<(string, string)>, settled: bool, invoked: set<Kind>, present: bool)

  function Observe(v: View, e: Effect): View {
    match e
    case Cloned(_, repoUrl, branch) => View(Some((repoUrl, branch)), false, {}, true)
    case Invoked(_, kind) => v.(invoked := v.invoked + {kind})
    case Delivered(_, _, _) => v
    case Reported(_, _, _, _, _) => v.(settled := true)
    case Removed(_) => v.(present := false)
    case Abandoned(_) => v.(settled := true)
  }

  function ViewOf(log: seq<Effect>, run: RunId): View {
    if log == [] then View(None, false, {}, false)
    else
      var before := ViewOf(log[..|log| - 1], run);
      if log[|log| - 1].run == run then Observe(before, log[|log| - 1]) else before
  }

  // What each effect must find.
  predicate EffectOk(v: View, e: Effect) {
    match e
    case Cloned(_, _, _) => true
    case Invoked(_, kind) => v.clone.Some? && v.invoked <= {kind}
    case Delivered(_, repoUrl, branch) =>
      v.invoked == {SdlcKind} && (!v.settled ==> v.clone == Some((repoUrl, branch)) && v.present)
    case Reported(_, _, target, _, _) =>
      v.clone.Some? && !v.settled && target.Some? ==> v.clone == Some((target.value.repoUrl, target.value.branch))
    case Removed(_) => true
    case Abandoned(_) => true
  }

  predicate TraceOk(log: seq<Effect>) {
    forall k | 0 <= k < |log| :: EffectOk(ViewOf(log[..k], log[k].run), log[k])
  }

  predicate Names(d: Deployment, run: RunId, clone: Option<(string, string)>) {
    run in d.targets && clone == Some((d.targets[run].repoUrl, d.targets[run].branch))
  }

  // kept: the run, if any, whose checkpoint no startup sweep read half-way.  An SDLC run needs no
  // such luck.
  predicate Keeps(kept: Option<RunId>, run: RunId, kind: Kind) {
    kind.SdlcKind? || kept == Some(run)
  }

  predicate RunOk(kept: Option<RunId>, d: Deployment, run: RunId) {
    var v := ViewOf(d.log, run);
    && (run in d.saved ==> v.clone.Some? && v.invoked == {d.saved[run].kind})
    && (v.clone.Some? && !v.settled ==>
          run in d.saved && d.saved[run].progress.ParkedAt? && Names(d, run, v.clone)
          && (Keeps(kept, run, d.saved[run].kind) ==> run in d.workspaces && v.present))
  }

  ghost predicate Inv(kept: Option<RunId>, d: Deployment) {
    TraceOk(d.log) && forall run :: RunOk(kept, d, run)
  }

  // ---- Small steps ----

  // Nothing but this run is touched.
  ghost predicate Only(run: RunId, d: Deployment, e: Deployment) {
    forall r :: r != run ==>
      && ViewOf(e.log, r) == ViewOf(d.log, r)
      && (r in e.saved <==> r in d.saved) && (r in d.saved ==> e.saved[r] == d.saved[r])
      && (r in e.targets <==> r in d.targets) && (r in d.targets ==> e.targets[r] == d.targets[r])
      && (r in e.workspaces <==> r in d.workspaces)
  }

  lemma OnlyTwice(run: RunId, a: Deployment, b: Deployment, c: Deployment)
    requires Only(run, a, b) && Only(run, b, c)
    ensures Only(run, a, c)
  {
    hide ViewOf;
  }

  lemma OnlyKeeps(kept: Option<RunId>, run: RunId, d: Deployment, e: Deployment)
    requires Inv(kept, d) && Only(run, d, e) && TraceOk(e.log) && RunOk(kept, e, run)
    ensures Inv(kept, e)
  {
    forall r ensures RunOk(kept, e, r) {
      assert RunOk(kept, d, r);
    }
  }

  lemma EmitView(d: Deployment, e: Effect)
    requires TraceOk(d.log) && EffectOk(ViewOf(d.log, e.run), e)
    ensures TraceOk(Emit(d, e).log)
    ensures ViewOf(Emit(d, e).log, e.run) == Observe(ViewOf(d.log, e.run), e)
    ensures Only(e.run, d, Emit(d, e))
  {
    var log := Emit(d, e).log;
    assert log[..|log| - 1] == d.log;
    forall k | 0 <= k < |log| ensures EffectOk(ViewOf(log[..k], log[k].run), log[k]) {
      if k < |d.log| {
        assert log[..k] == d.log[..k] && log[k] == d.log[k];
      } else {
        assert log[..k] == d.log;
      }
    }
  }

  lemma CleanupView(d: Deployment, run: RunId)
    requires TraceOk(d.log)
    ensures var e := Cleanup(d, run);
            && TraceOk(e.log) && Only(run, d, e) && e.saved == d.saved && e.targets == d.targets
            && run !in e.workspaces
            && ViewOf(e.log, run) == if run in d.workspaces then ViewOf(d.log, run).(present := false)
                else ViewOf(d.log, run)
  {
    if run in d.workspaces {
      EmitView(d.(workspaces := d.workspaces - {run}), Removed(run));
    }
  }

  // An outcome's target, when it can be read, is the one the run was cloned from.
  lemma OutcomeView(d: Deployment, run: RunId, state: OutcomeState, commitAfter: Option<CommitId>,
      delivery: Option<Publish.PublishResult>, luck: ReportLuck)
    requires TraceOk(d.log)
    requires var v := ViewOf(d.log, run); v.clone.Some? && !v.settled ==> Names(d, run, v.clone)
    ensures var e := PublishOutcome(d, run, state, commitAfter, delivery, luck);
            && TraceOk(e.log) && Only(run, d, e) && e.saved == d.saved && e.workspaces == d.workspaces
            && ViewOf(e.log, run) == ViewOf(d.log, run).(settled := true)
            && |e.log| == |d.log| + 1
  {
    hide TraceOk, ViewOf, Only;
    var reported := Reported(run, state, TargetOf(d, run, luck.readForOutcome), commitAfter, delivery);
    EmitView(d, reported);
    ForgetOnly(d, Emit(d, reported), run);
  }

  lemma MarkOnly(d: Deployment, run: RunId, saved: SavedRun)
    ensures Only(run, d, d) && Only(run, d, d.(saved := d.saved[run := saved]))
  {
    hide ViewOf;
  }

  lemma ForgetOnly(d: Deployment, e: Deployment, run: RunId)
    requires Only(run, d, e)
    ensures Only(run, d, e.(targets := e.targets - {run}))
  {
    hide ViewOf;
  }

  lemma FailView(d: Deployment, run: RunId, luck: ReportLuck)
    requires TraceOk(d.log)
    requires var v := ViewOf(d.log, run); v.clone.Some? && !v.settled ==> Names(d, run, v.clone)
    ensures var e := FailRun(d, run, luck);
            && TraceOk(e.log) && Only(run, d, e) && e.saved == d.saved
            && ViewOf(e.log, run).settled
            && ViewOf(e.log, run).clone == ViewOf(d.log, run).clone
            && ViewOf(e.log, run).invoked == ViewOf(d.log, run).invoked
  {
    hide TraceOk, ViewOf, Only, PublishOutcome, Cleanup;
    var reported := PublishOutcome(d, run, OutcomeOf(RunFailed), None, None, luck);
    OutcomeView(d, run, OutcomeOf(RunFailed), None, None, luck);
    CleanupView(reported, run);
    OnlyTwice(run, d, reported, Cleanup(reported, run));
  }

  // ---- A slice ----

  // What a slice needs: a clone, the target that names it, the same graph as ever.
  predicate Ready(kept: Option<RunId>, d: Deployment, run: RunId, kind: Kind) {
    var v := ViewOf(d.log, run);
    && v.clone.Some? && v.invoked <= {kind}
    && (!v.settled ==> Names(d, run, v.clone) && (Keeps(kept, run, kind) ==> run in d.workspaces && v.present))
  }

  lemma DeliverView(kept: Option<RunId>, d: Deployment, run: RunId, kind: Kind, ending: Ending, luck: ReportLuck)
    requires TraceOk(d.log) && Ready(kept, d, run, kind) && ViewOf(d.log, run).invoked == {kind}
    ensures var e := DeliverIfCompleted(d, run, kind, ending, luck).0;
            && TraceOk(e.log) && Only(run, d, e) && e.saved == d.saved && e.targets == d.targets
            && e.workspaces == d.workspaces
            && ViewOf(e.log, run) == ViewOf(d.log, run)
  {
    var target := TargetOf(d, run, luck.readForDelivery);
    if ending.terminal.RunCompleted? && kind.SdlcKind? && target.Some? {
      EmitView(d, Delivered(run, target.value.repoUrl, target.value.branch));
    }
  }

  lemma EndsOk(kept: Option<RunId>, d: Deployment, run: RunId, kind: Kind, ending: Ending, luck: ReportLuck)
    requires TraceOk(d.log) && Ready(kept, d, run, kind) && ViewOf(d.log, run).invoked == {kind}
    ensures var e := AfterSlice(d, run, kind, Ends(ending), luck);
            TraceOk(e.log) && Only(run, d, e) && RunOk(kept, e, run)
  {
    var over := d.(saved := d.saved[run := SavedRun(kind, Over)]);
    MarkOnly(d, run, SavedRun(kind, Over));
    hide TraceOk, ViewOf, Only, DeliverIfCompleted, PublishOutcome, Cleanup;
    var (delivered, delivery) := DeliverIfCompleted(over, run, kind, ending, luck);
    DeliverView(kept, over, run, kind, ending, luck);
    OnlyTwice(run, d, over, delivered);
    if delivery.DeliveryRaises? {
      EmitView(delivered, Abandoned(run));
      OnlyTwice(run, d, delivered, Emit(delivered, Abandoned(run)));
    } else {
      OutcomeView(delivered, run, OutcomeOf(ending.terminal), ending.commitAfter, delivery.answer, luck);
      var reported := PublishOutcome(delivered, run, OutcomeOf(ending.terminal), ending.commitAfter, delivery.answer,
          luck);
      OnlyTwice(run, d, delivered, reported);
      CleanupView(reported, run);
      OnlyTwice(run, d, reported, Cleanup(reported, run));
    }
  }

  lemma RaisesOk(kept: Option<RunId>, d: Deployment, run: RunId, kind: Kind, checkpointed: bool, luck: ReportLuck)
    requires TraceOk(d.log) && Ready(kept, d, run, kind) && ViewOf(d.log, run).invoked == {kind}
    ensures var e := AfterSlice(d, run, kind, Raises(checkpointed), luck);
            TraceOk(e.log) && Only(run, d, e) && RunOk(kept, e, run)
  {
    var marked := if checkpointed || run in d.saved then d.(saved := d.saved[run := SavedRun(kind, Pending)]) else d;
    MarkOnly(d, run, SavedRun(kind, Pending));
    hide TraceOk, ViewOf, Only, FailRun;
    FailView(marked, run, luck);
    OnlyTwice(run, d, marked, FailRun(marked, run, luck));
  }

  lemma InvokeOk(kept: Option<RunId>, d: Deployment, run: RunId, kind: Kind, result: SliceResult, luck: ReportLuck)
    requires TraceOk(d.log) && Ready(kept, d, run, kind)
    ensures var e := Invoke(d, run, kind, result, luck);
            TraceOk(e.log) && Only(run, d, e) && RunOk(kept, e, run)
  {
    EmitView(d, Invoked(run, kind));
    var e := Emit(d, Invoked(run, kind));
    hide AfterSlice, TraceOk, RunOk, ViewOf, Only;
    forall f | Only(run, e, f) ensures Only(run, d, f) {
      OnlyTwice(run, d, e, f);
    }
    match result
    case Parks(gate) => ParksOk(kept, e, run, kind, gate, luck);
    case Ends(ending) => EndsOk(kept, e, run, kind, ending, luck);
    case Raises(checkpointed) => RaisesOk(kept, e, run, kind, checkpointed, luck);
  }

  lemma ParksOk(kept: Option<RunId>, d: Deployment, run: RunId, kind: Kind, gate: Gate, luck: ReportLuck)
    requires TraceOk(d.log) && Ready(kept, d, run, kind) && ViewOf(d.log, run).invoked == {kind}
    ensures var e := AfterSlice(d, run, kind, Parks(gate), luck);
            TraceOk(e.log) && Only(run, d, e) && RunOk(kept, e, run)
  {
  }

  // ---- Handlers ----

  lemma TriggerOk(kept: Option<RunId>, d: Deployment, run: RunId, repoUrl: string, branch: string, luck: TriggerLuck)
    requires Inv(kept, d)
    ensures Inv(kept, HandleTrigger(d, run, repoUrl, branch, luck))
  {
    hide TraceOk, RunOk, ViewOf;
    var e := HandleTrigger(d, run, repoUrl, branch, luck);
    if luck.readsKnown && run !in d.saved {
      assert ViewOf(d.log, run).clone.Some? ==> ViewOf(d.log, run).settled by {
        NotSavedIsSettled(kept, d, run);
      }
      if !luck.records {
        OutcomeView(d, run, OutcomeOf(RunFailed), None, None, luck.report);
        NotSavedOk(kept, e, run);
        OnlyKeeps(kept, run, d, e);
      } else {
        var recorded := d.(targets := d.targets[run := RunTarget(repoUrl, branch, None)]);
        var cleared := Cleanup(recorded, run);
        CleanupView(recorded, run);
        match luck.clone
        case CloneRefused =>
          OutcomeView(cleared, run, CloneFailed, None, None, luck.report);
          NotSavedOk(kept, e, run);
          OnlyKeeps(kept, run, d, e);
        case CloneRaises(onDisk) => AbandonedOk(kept, d, cleared, run, repoUrl, branch, onDisk);
        case ClonedAt(_) => ClonedOk(kept, d, cleared, run, repoUrl, branch, luck);
      }
    }
  }

  lemma PlaceView(d: Deployment, cleared: Deployment, run: RunId, repoUrl: string, branch: string)
    requires TraceOk(cleared.log) && Only(run, d, cleared)
    ensures var e := Place(cleared, run, repoUrl, branch);
            && TraceOk(e.log) && Only(run, d, e) && e.saved == cleared.saved && e.targets == cleared.targets
            && run in e.workspaces && ViewOf(e.log, run) == View(Some((repoUrl, branch)), false, {}, true)
  {
    hide TraceOk, ViewOf;
    var placed := cleared.(workspaces := cleared.workspaces + {run});
    EmitView(placed, Cloned(run, repoUrl, branch));
    OnlyTwice(run, d, placed, Place(cleared, run, repoUrl, branch));
  }

  lemma AbandonedOk(kept: Option<RunId>, d: Deployment, cleared: Deployment, run: RunId, repoUrl: string,
      branch: string, onDisk: bool)
    requires Inv(kept, d) && TraceOk(cleared.log) && Only(run, d, cleared) && run !in cleared.saved
    ensures Inv(kept, Emit(if onDisk then Place(cleared, run, repoUrl, branch) else cleared, Abandoned(run)))
  {
    PlaceView(d, cleared, run, repoUrl, branch);
    hide TraceOk, ViewOf, Only, Inv, Place, RunOk;
    var left := if onDisk then Place(cleared, run, repoUrl, branch) else cleared;
    EmitView(left, Abandoned(run));
    var e := Emit(left, Abandoned(run));
    OnlyTwice(run, d, left, e);
    NotSavedOk(kept, e, run);
    OnlyKeeps(kept, run, d, e);
  }

  lemma NotSavedIsSettled(kept: Option<RunId>, d: Deployment, run: RunId)
    requires Inv(kept, d) && run !in d.saved
    ensures ViewOf(d.log, run).clone.Some? ==> ViewOf(d.log, run).settled
  {
    assert RunOk(kept, d, run);
  }

  lemma NotSavedOk(kept: Option<RunId>, d: Deployment, run: RunId)
    requires run !in d.saved && ViewOf(d.log, run).settled
    ensures RunOk(kept, d, run)
  {
  }

  lemma ClonedOk(kept: Option<RunId>, d: Deployment, cleared: Deployment, run: RunId, repoUrl: string, branch: string,
      luck: TriggerLuck)
    requires Inv(kept, d) && TraceOk(cleared.log) && Only(run, d, cleared)
    requires run !in cleared.saved && run in cleared.targets && cleared.targets[run] == RunTarget(repoUrl, branch, None)
    requires luck.clone.ClonedAt?
    ensures var ready := NoteCommit(Place(cleared, run, repoUrl, branch), run,
                RunTarget(repoUrl, branch, luck.clone.commit), luck.recordsAgain);
            if luck.routing.None? then Inv(kept, PublishOutcome(ready, run, RoutingFailed, None, None, luck.report))
            else Inv(kept, Invoke(ready, run, luck.routing.value, luck.slice, luck.report))
  {
    hide TraceOk, RunOk, ViewOf, Invoke, PublishOutcome, Inv, Only, Place;
    PlaceView(d, cleared, run, repoUrl, branch);
    var cloned, target := Place(cleared, run, repoUrl, branch), RunTarget(repoUrl, branch, luck.clone.commit);
    var ready := NoteCommit(cloned, run, target, luck.recordsAgain);
    NotedOnly(d, cloned, run, target);
    if luck.routing.None? {
      OutcomeView(ready, run, RoutingFailed, None, None, luck.report);
      var e := PublishOutcome(ready, run, RoutingFailed, None, None, luck.report);
      NotSavedOk(kept, e, run);
      OnlyTwice(run, d, ready, e);
      OnlyKeeps(kept, run, d, e);
    } else {
      InvokeOk(kept, ready, run, luck.routing.value, luck.slice, luck.report);
      OnlyTwice(run, d, ready, Invoke(ready, run, luck.routing.value, luck.slice, luck.report));
      OnlyKeeps(kept, run, d, Invoke(ready, run, luck.routing.value, luck.slice, luck.report));
    }
  }

  lemma NotedOnly(d: Deployment, cloned: Deployment, run: RunId, target: RunTarget)
    requires Only(run, d, cloned)
    ensures Only(run, d, cloned.(targets := cloned.targets[run := target]))
  {
    hide ViewOf;
  }

  lemma SettledOk(kept: Option<RunId>, d: Deployment, e: Deployment, run: RunId)
    requires RunOk(kept, d, run) && e.saved == d.saved && ViewOf(e.log, run).settled
    requires ViewOf(e.log, run).clone == ViewOf(d.log, run).clone
        && ViewOf(e.log, run).invoked == ViewOf(d.log, run).invoked
    ensures RunOk(kept, e, run)
  {
  }

  lemma FailOk(kept: Option<RunId>, d: Deployment, run: RunId, luck: ReportLuck)
    requires Inv(kept, d)
    ensures Inv(kept, FailRun(d, run, luck))
  {
    assert RunOk(kept, d, run);
    hide TraceOk, ViewOf, FailRun;
    FailView(d, run, luck);
    SettledOk(kept, d, FailRun(d, run, luck), run);
    OnlyKeeps(kept, run, d, FailRun(d, run, luck));
  }

  lemma OutcomeOk(kept: Option<RunId>, d: Deployment, run: RunId, state: OutcomeState, luck: ReportLuck)
    requires Inv(kept, d)
    ensures Inv(kept, PublishOutcome(d, run, state, None, None, luck))
  {
    assert RunOk(kept, d, run);
    hide TraceOk, ViewOf, PublishOutcome;
    OutcomeView(d, run, state, None, None, luck);
    SettledOk(kept, d, PublishOutcome(d, run, state, None, None, luck), run);
    OnlyKeeps(kept, run, d, PublishOutcome(d, run, state, None, None, luck));
  }

  lemma DecisionOk(kept: Option<RunId>, d: Deployment, run: RunId, luck: DecisionLuck)
    requires Inv(kept, d)
    ensures Inv(kept, HandleDecision(d, run, luck))
  {
    assert RunOk(kept, d, run);
    hide TraceOk, ViewOf, FailRun, PublishOutcome, Invoke;
    match GraphForExisting(d, run, luck.lookup)
    case LookupFailed => FailOk(kept, d, run, luck.report);
    case RoutingMoved => OutcomeOk(kept, d, run, RoutingChanged, luck.report);
    case UseGraph(graph) =>
      if !luck.lookup.readsNext {
        FailOk(kept, d, run, luck.report);
      } else if HasNext(d, run, graph) {
        InvokeOk(kept, d, run, graph, luck.slice, luck.report);
        OnlyKeeps(kept, run, d, Invoke(d, run, graph, luck.slice, luck.report));
      }
  }

  // Taking a checkout that nobody counts on.
  lemma CleanupOk(kept: Option<RunId>, d: Deployment, run: RunId)
    requires Inv(kept, d)
    requires run in d.saved && Keeps(kept, run, d.saved[run].kind) ==>
        ViewOf(d.log, run).settled || ViewOf(d.log, run).clone.None?
    ensures Inv(kept, Cleanup(d, run))
  {
    assert RunOk(kept, d, run);
    hide TraceOk, ViewOf, Cleanup;
    CleanupView(d, run);
    OnlyKeeps(kept, run, d, Cleanup(d, run));
  }

  lemma {:induction false} SweepOk(kept: Option<RunId>, d: Deployment, stale: seq<RunId>, luck: ReportLuck)
    requires Inv(kept, d)
    ensures Inv(kept, SweepStale(d, stale, luck))
    decreases |stale|
  {
    if stale != [] {
      var run, before := stale[|stale| - 1], SweepStale(d, stale[..|stale| - 1], luck);
      SweepOk(kept, d, stale[..|stale| - 1], luck);
      hide Inv, ViewOf, PublishOutcome, Cleanup;
      OutcomeOk(kept, before, run, Stale, luck);
      var reported := PublishOutcome(before, run, Stale, None, None, luck);
      assert ViewOf(reported.log, run).settled by {
        ReportSettles(kept, before, run, luck);
      }
      CleanupOk(kept, reported, run);
    }
  }

  lemma ReportSettles(kept: Option<RunId>, d: Deployment, run: RunId, luck: ReportLuck)
    requires Inv(kept, d)
    ensures ViewOf(PublishOutcome(d, run, Stale, None, None, luck).log, run).settled
  {
    assert RunOk(kept, d, run);
    OutcomeView(d, run, Stale, None, None, luck);
  }

  // The one pattern of reads that makes a startup sweep take a run's checkout by mistake.
  predicate ReadHalfway(luck: LookupLuck) {
    !luck.readsKind && luck.readsNext
  }

  lemma ResumableUnlessReadHalfway(d: Deployment, run: RunId, luck: LookupLuck)
    requires run in d.saved && !d.saved[run].progress.Over?
    ensures IsResumable(d, run, luck) == Some(false) <==> d.saved[run].kind.SpecialistKind? && ReadHalfway(luck)
  {
  }

  lemma {:induction false} ReconcileOk(kept: Option<RunId>, d: Deployment, found: seq<RunId>, luck: RunId -> LookupLuck)
    requires Inv(kept, d)
    requires kept.Some? && kept.value in found ==> !ReadHalfway(luck(kept.value))
    ensures Inv(kept, Reconcile(d, found, luck)) && Reconcile(d, found, luck).saved == d.saved
    ensures forall run ::
              ViewOf(Reconcile(d, found, luck).log, run).(present := false) == ViewOf(d.log, run).(present := false)
    decreases |found|
  {
    if found != [] {
      var run, before := found[|found| - 1], Reconcile(d, found[..|found| - 1], luck);
      ReconcileOk(kept, d, found[..|found| - 1], luck);
      if IsResumable(d, run, luck(run)) == Some(false) {
        assert RunOk(kept, before, run);
        if run in d.saved && !d.saved[run].progress.Over? {
          ResumableUnlessReadHalfway(d, run, luck(run));
        }
        hide TraceOk, Cleanup, ViewOf;
        CleanupOk(kept, before, run);
        CleanupView(before, run);
      }
    }
  }

  // No startup that found this run's checkout read its checkpoint half-way.
  predicate ReadsOk(ops: seq<Op>, run: RunId) {
    forall k | 0 <= k < |ops| :: ops[k].Restarted? && run in ops[k].found ==> !ReadHalfway(ops[k].lookup(run))
  }

  lemma {:induction false} HistoryOk(kept: Option<RunId>, ops: seq<Op>)
    requires kept.Some? ==> ReadsOk(ops, kept.value)
    ensures Inv(kept, DoAll(ops))
    decreases |ops|
  {
    if ops != [] {
      var init, op, d := ops[..|ops| - 1], ops[|ops| - 1], DoAll(ops[..|ops| - 1]);
      HistoryOk(kept, init);
      hide Inv;
      match op
      case Triggered(run, repoUrl, branch, luck) => TriggerOk(kept, d, run, repoUrl, branch, luck);
      case DecisionCame(run, luck) => DecisionOk(kept, d, run, luck);
      case Swept(found, expired, luck) => SweepOk(kept, d, OnlyStale(d, found, expired), luck);
      case Restarted(found, luck) => ReconcileOk(kept, d, found, luck);
    }
  }

  // ---- The properties ----

  // A checkpointed run with no outcome since its clone, whose handler did not give up either, is
  // parked, and its target is on record and names the repository and branch it was cloned from:
  // through restarts, redeliveries, failed writes and everything that happens to other runs.
  lemma TargetSurvives(ops: seq<Op>, run: RunId)
    requires var d := DoAll(ops); run in d.saved && !ViewOf(d.log, run).settled
    ensures var d := DoAll(ops); d.saved[run].progress.ParkedAt? && Names(d, run, ViewOf(d.log, run).clone)
  {
    HistoryOk(None, ops);
    assert RunOk(None, DoAll(ops), run);
  }

  // Unless the handler gave up on it, the first outcome after a clone names what was cloned, or nothing
  // when that cannot be read.
  lemma FirstOutcomeNamesTheClone(ops: seq<Op>, k: nat)
    requires k < |DoAll(ops).log| && DoAll(ops).log[k].Reported?
    ensures var log := DoAll(ops).log; var v := ViewOf(log[..k], log[k].run);
            v.clone.Some? && !v.settled && log[k].target.Some? ==>
              v.clone == Some((log[k].target.value.repoUrl, log[k].target.value.branch))
  {
    HistoryOk(None, ops);
    var log := DoAll(ops).log;
    assert EffectOk(ViewOf(log[..k], log[k].run), log[k]);
  }

  // One run, one graph: whatever slice is run on a checkout is run by the graph the run started
  // on.
  lemma SameGraphOrRefused(ops: seq<Op>, run: RunId, k: nat)
    ensures run in DoAll(ops).saved ==> ViewOf(DoAll(ops).log, run).invoked == {DoAll(ops).saved[run].kind}
    ensures var log := DoAll(ops).log;
            k < |log| && log[k].Invoked? ==> ViewOf(log[..k], log[k].run).invoked <= {log[k].kind}
  {
    HistoryOk(None, ops);
    assert RunOk(None, DoAll(ops), run);
    var log := DoAll(ops).log;
    if k < |log| && log[k].Invoked? {
      assert EffectOk(ViewOf(log[..k], log[k].run), log[k]);
    }
  }

  // The worker itself delivers SDLC runs only, to where they were cloned from, while the checkout
  // is still there; a specialist run's tenant repository is never delivered to.
  lemma OnlySdlcRunsAreDelivered(ops: seq<Op>, k: nat)
    requires k < |DoAll(ops).log| && DoAll(ops).log[k].Delivered?
    ensures var log := DoAll(ops).log; var v := ViewOf(log[..k], log[k].run);
            && v.invoked == {SdlcKind}
            && (!v.settled ==> v.clone == Some((log[k].repoUrl, log[k].branch)) && v.present)
  {
    HistoryOk(None, ops);
    var log := DoAll(ops).log;
    assert EffectOk(ViewOf(log[..k], log[k].run), log[k]);
  }

  // No restart takes the checkout of a run that still waits: of an SDLC run never, of a specialist
  // run as long as no startup reads its own checkpoint half-way.
  lemma WaitingRunsKeepTheirCheckout(ops: seq<Op>, run: RunId)
    requires var d := DoAll(ops); run in d.saved && !ViewOf(d.log, run).settled
    requires DoAll(ops).saved[run].kind.SdlcKind? || ReadsOk(ops, run)
    ensures run in DoAll(ops).workspaces && ViewOf(DoAll(ops).log, run).present
  {
    var kept := if DoAll(ops).saved[run].kind.SdlcKind? then None else Some(run);
    HistoryOk(kept, ops);
    assert RunOk(kept, DoAll(ops), run);
  }

  lemma {:induction false} ReconcileTakes(d: Deployment, found: seq<RunId>, luck: RunId -> LookupLuck, run: RunId)
    requires run in d.workspaces
    ensures run !in Reconcile(d, found, luck).workspaces <==>
        run in found && IsResumable(d, run, luck(run)) == Some(false)
    decreases |found|
  {
    if found != [] {
      var init := found[..|found| - 1];
      assert found == init + [found[|found| - 1]];
      ReconcileTakes(d, init, luck, run);
    }
  }

  // After any history, a restart leaves a waiting run waiting, and takes its checkout exactly when
  // it is a specialist's, the sweep finds it, and of the two reads of its checkpoint the first fails
  // and the second does not.
  lemma SweptByMistake(ops: seq<Op>, run: RunId, found: seq<RunId>, luck: RunId -> LookupLuck)
    requires var d := DoAll(ops); run in d.saved && !ViewOf(d.log, run).settled && run in d.workspaces
    ensures var d, e := DoAll(ops), DoAll(ops + [Restarted(found, luck)]);
            && e.saved == d.saved && d.saved[run].progress.ParkedAt? && !ViewOf(e.log, run).settled
            && (run !in e.workspaces <==>
                  run in found && d.saved[run].kind.SpecialistKind? && !luck(run).readsKind && luck(run).readsNext)
  {
    var d := DoAll(ops);
    assert (ops + [Restarted(found, luck)])[..|ops|] == ops;
    HistoryOk(None, ops);
    assert RunOk(None, d, run);
    ReconcileOk(None, d, found, luck);
    ReconcileTakes(d, found, luck, run);
    ResumableUnlessReadHalfway(d, run, luck(run));
  }

  // Publishing this completion raises.
  predicate PublishRaises(d: Deployment, run: RunId, kind: Kind, result: SliceResult, luck: ReportLuck) {
    && result.Ends? && result.ending.terminal.RunCompleted? && kind.SdlcKind?
    && TargetOf(d, run, luck.readForDelivery).Some? && luck.delivery.None?
  }

  // The effects of completing a run that has a target: an SDLC run is published to where it was
  // cloned from whenever the target can be read, a specialist run never is, and the checkout goes
  // last.  When publishing raises nothing is reported and nothing goes.
  function Completion(run: RunId, kind: Kind, target: RunTarget, ending: Ending, luck: ReportLuck): seq<Effect> {
    var publishes := kind.SdlcKind? && luck.readForDelivery;
    (if publishes then [Delivered(run, target.repoUrl, target.branch)] else [])
      + if publishes && luck.delivery.None? then [Abandoned(run)]
        else
          [Reported(run, OutcomeOf(RunCompleted), if luck.readForOutcome then Some(target) else None,
              ending.commitAfter,
              if kind.SpecialistKind? then Some(ending.publishedInGraph)
              else if publishes then luck.delivery else None),
           Removed(run)]
  }

  lemma SliceCompletes(d: Deployment, run: RunId, kind: Kind, ending: Ending, luck: ReportLuck)
    requires ending.terminal.RunCompleted? && run in d.workspaces && run in d.targets
    ensures var e := AfterSlice(d, run, kind, Ends(ending), luck);
            && e.log == d.log + Completion(run, kind, d.targets[run], ending, luck)
            && (run in e.workspaces <==> PublishRaises(d, run, kind, Ends(ending), luck))
  {
  }

  predicate Reaches(kind: Kind, luck: LookupLuck) {
    luck.readsNext && (kind.SpecialistKind? ==> luck.readsKind && luck.routing == Some(SpecialistKind))
  }

  // A run parked across any number of restarts, redeliveries, sweeps and runs of others: when a
  // decision that reaches its graph completes it, the change goes to the repository and branch the
  // run was cloned from, while the checkout that holds the commit is still there, and only then is
  // the checkout removed.
  lemma ParkedRunIsDelivered(ops: seq<Op>, run: RunId, luck: DecisionLuck)
    requires var d := DoAll(ops); run in d.saved && !ViewOf(d.log, run).settled
    requires DoAll(ops).saved[run].kind.SdlcKind? || ReadsOk(ops, run)
    requires Reaches(DoAll(ops).saved[run].kind, luck.lookup)
    requires luck.slice.Ends? && luck.slice.ending.terminal.RunCompleted?
    ensures var d, e := DoAll(ops), DoAll(ops + [DecisionCame(run, luck)]); var kind := d.saved[run].kind;
            && run in d.workspaces && Names(d, run, ViewOf(d.log, run).clone)
            && e.log == d.log + [Invoked(run, kind)]
                 + Completion(run, kind, d.targets[run], luck.slice.ending, luck.report)
            && (run in e.workspaces <==> PublishRaises(d, run, kind, luck.slice, luck.report))
  {
    var d := DoAll(ops);
    assert (ops + [DecisionCame(run, luck)])[..|ops|] == ops;
    TargetSurvives(ops, run);
    WaitingRunsKeepTheirCheckout(ops, run);
    var kind, started := d.saved[run].kind, Emit(d, Invoked(run, d.saved[run].kind));
    SliceCompletes(started, run, kind, luck.slice.ending, luck.report);
    assert HandleDecision(d, run, luck) == AfterSlice(started, run, kind, luck.slice, luck.report);
    hide AfterSlice, ViewOf;
  }

  // So does a run that never parks: cloned, run, delivered to where it came from, reported, removed.
  // If its commit could not be noted, only the reported target lacks it.
  lemma UnattendedRunIsDelivered(ops: seq<Op>, run: RunId, repoUrl: string, branch: string, luck: TriggerLuck)
    requires run !in DoAll(ops).saved
    requires luck.readsKnown && luck.records && luck.clone.ClonedAt? && luck.routing.Some?
    requires luck.slice.Ends? && luck.slice.ending.terminal.RunCompleted?
    ensures var d, e := DoAll(ops), DoAll(ops + [Triggered(run, repoUrl, branch, luck)]);
            var kind := luck.routing.value;
            var target := RunTarget(repoUrl, branch, if luck.recordsAgain then luck.clone.commit else None);
            && e.log == d.log + (if run in d.workspaces then [Removed(run)] else [])
                 + [Cloned(run, repoUrl, branch), Invoked(run, kind)]
                 + Completion(run, kind, target, luck.slice.ending, luck.report)
            && (run in e.workspaces <==> kind.SdlcKind? && luck.report.readForDelivery && luck.report.delivery.None?)
  {
    var d := DoAll(ops);
    assert (ops + [Triggered(run, repoUrl, branch, luck)])[..|ops|] == ops;
    var cleared := Cleanup(d.(targets := d.targets[run := RunTarget(repoUrl, branch, None)]), run);
    var cloned := Place(cleared, run, repoUrl, branch);
    var kind, noted := luck.routing.value, RunTarget(repoUrl, branch, luck.clone.commit);
    var started := Emit(NoteCommit(cloned, run, noted, luck.recordsAgain), Invoked(run, kind));
    assert HandleTrigger(d, run, repoUrl, branch, luck) == AfterSlice(started, run, kind, luck.slice, luck.report) by {
      hide AfterSlice;
    }
    SliceCompletes(started, run, kind, luck.slice.ending, luck.report);
    hide AfterSlice, Completion;
    assert started.log == cleared.log + [Cloned(run, repoUrl, branch), Invoked(run, kind)];
  }

  function Outcomes(log: seq<Effect>): nat {
    if log == [] then 0 else Outcomes(log[..|log| - 1]) + if log[|log| - 1].Reported? then 1 else 0
  }

  lemma OutcomesEmit(d: Deployment, e: Effect)
    ensures Outcomes(Emit(d, e).log) == Outcomes(d.log) + if e.Reported? then 1 else 0
  {
    assert Emit(d, e).log[..|d.log|] == d.log;
  }

  lemma OutcomesCleanup(d: Deployment, run: RunId)
    ensures Outcomes(Cleanup(d, run).log) == Outcomes(d.log)
  {
    OutcomesEmit(d.(workspaces := d.workspaces - {run}), Removed(run));
  }

  lemma OutcomesReport(d: Deployment, run: RunId, state: OutcomeState, commitAfter: Option<CommitId>,
      delivery: Option<Publish.PublishResult>, luck: ReportLuck)
    ensures Outcomes(PublishOutcome(d, run, state, commitAfter, delivery, luck).log) == Outcomes(d.log) + 1
  {
    OutcomesEmit(d, Reported(run, state, TargetOf(d, run, luck.readForOutcome), commitAfter, delivery));
  }

  lemma OutcomesFail(d: Deployment, run: RunId, luck: ReportLuck)
    ensures Outcomes(FailRun(d, run, luck).log) == Outcomes(d.log) + 1
  {
    OutcomesReport(d, run, OutcomeOf(RunFailed), None, None, luck);
    OutcomesCleanup(PublishOutcome(d, run, OutcomeOf(RunFailed), None, None, luck), run);
  }

  lemma OutcomesInvoke(d: Deployment, run: RunId, kind: Kind, result: SliceResult, luck: ReportLuck)
    ensures Outcomes(Invoke(d, run, kind, result, luck).log) == Outcomes(d.log)
        + if result.Parks? || PublishRaises(d, run, kind, result, luck) then 0 else 1
  {
    OutcomesEmit(d, Invoked(run, kind));
    var e := Emit(d, Invoked(run, kind));
    match result
    case Parks(_) =>
    case Ends(ending) =>
      var over := e.(saved := e.saved[run := SavedRun(kind, Over)]);
      var (delivered, delivery) := DeliverIfCompleted(over, run, kind, ending, luck);
      var target := TargetOf(over, run, luck.readForDelivery);
      if target.Some? {
        OutcomesEmit(over, Delivered(run, target.value.repoUrl, target.value.branch));
      }
      if delivery.DeliveryRaises? {
        OutcomesEmit(delivered, Abandoned(run));
      } else {
        OutcomesReport(delivered, run, OutcomeOf(ending.terminal), ending.commitAfter, delivery.answer, luck);
        OutcomesCleanup(
            PublishOutcome(delivered, run, OutcomeOf(ending.terminal), ending.commitAfter, delivery.answer, luck), run);
      }
    case Raises(checkpointed) =>
      var known := checkpointed || run in e.saved;
      OutcomesFail(if known then e.(saved := e.saved[run := SavedRun(kind, Pending)]) else e, run, luck);
  }

  // A decision reports exactly one outcome, or none at all: when the run parks again, when the run is
  // unknown, over, or read through the wrong graph, and when publishing its change raises.
  lemma DecisionReportsOnce(d: Deployment, run: RunId, luck: DecisionLuck)
    ensures var lookup := GraphForExisting(d, run, luck.lookup);
            var quiet := lookup.UseGraph? && luck.lookup.readsNext
                && (!HasNext(d, run, lookup.kind) || luck.slice.Parks?
                    || PublishRaises(d, run, lookup.kind, luck.slice, luck.report));
            Outcomes(HandleDecision(d, run, luck).log) == Outcomes(d.log) + if quiet then 0 else 1
  {
    match GraphForExisting(d, run, luck.lookup)
    case LookupFailed => OutcomesFail(d, run, luck.report);
    case RoutingMoved => OutcomesReport(d, run, RoutingChanged, None, None, luck.report);
    case UseGraph(graph) =>
      OutcomesFail(d, run, luck.report);
      OutcomesInvoke(d, run, graph, luck.slice, luck.report);
  }

  // What becomes of a decision for a run that waits for one.  It reaches the run's own graph
  // exactly when both reads work and the target still routes the same way; otherwise the run is
  // refused and kept, or the decision is dropped without a word, or a failed read or an
  // unloadable table ends it as failed and takes its checkout.
  lemma DecisionFate(d: Deployment, run: RunId, luck: DecisionLuck)
    requires run in d.saved && !d.saved[run].progress.Over? && run in d.workspaces
    ensures var e := HandleDecision(d, run, luck); var l := luck.lookup;
            var kind := d.saved[run].kind;
            var refused := kind.SpecialistKind? && l.readsKind && l.routing == Some(SdlcKind);
            var dropped := kind.SpecialistKind? && !l.readsKind && l.readsNext;
            var reached := l.readsNext && (kind.SpecialistKind? ==> l.readsKind && l.routing == Some(SpecialistKind));
            && (reached ==> e == Invoke(d, run, kind, luck.slice, luck.report))
            && (refused ==> e == PublishOutcome(d, run, RoutingChanged, None, None, luck.report) && run in e.workspaces)
            && (dropped <==> e == d)
            && (!reached && !refused && !dropped ==> e == FailRun(d, run, luck.report) && run !in e.workspaces)
  {
    InvokeLeavesTrace(d, run, d.saved[run].kind, luck.slice, luck.report);
  }

  lemma InvokeLeavesTrace(d: Deployment, run: RunId, kind: Kind, result: SliceResult, luck: ReportLuck)
    ensures |Invoke(d, run, kind, result, luck).log| > |d.log|
  {
  }

  // A trigger reports exactly one outcome, or none at all: when it is a redelivery, when the
  // checkpointer cannot be asked, when the run parks, and when the clone or publishing raises.
  lemma TriggerReportsOnce(d: Deployment, run: RunId, repoUrl: string, branch: string, luck: TriggerLuck)
    ensures var parksOrRaises := luck.routing.Some?
                && (luck.slice.Parks?
                    || (luck.slice.Ends? && luck.slice.ending.terminal.RunCompleted? && luck.routing.value.SdlcKind?
                        && luck.report.readForDelivery && luck.report.delivery.None?));
            var quiet := !luck.readsKnown || run in d.saved
                || (luck.records && (luck.clone.CloneRaises? || (luck.clone.ClonedAt? && parksOrRaises)));
            Outcomes(HandleTrigger(d, run, repoUrl, branch, luck).log) == Outcomes(d.log) + if quiet then 0 else 1
  {
    hide Outcomes, PublishOutcome, Invoke;
    if luck.readsKnown && run !in d.saved {
      if !luck.records {
        OutcomesReport(d, run, OutcomeOf(RunFailed), None, None, luck.report);
      } else {
        var recorded := d.(targets := d.targets[run := RunTarget(repoUrl, branch, None)]);
        OutcomesCleanup(recorded, run);
        assert Cleanup(recorded, run).targets == recorded.targets;
        hide Cleanup, Emit;
        OutcomesTrigger(Cleanup(recorded, run), run, repoUrl, branch, luck);
      }
    }
  }

  // From the cleared workspace on.
  lemma OutcomesTrigger(cleared: Deployment, run: RunId, repoUrl: string, branch: string, luck: TriggerLuck)
    ensures Outcomes(PublishOutcome(cleared, run, CloneFailed, None, None, luck.report).log) ==
        Outcomes(cleared.log) + 1
    ensures Outcomes(Emit(Place(cleared, run, repoUrl, branch), Abandoned(run)).log) == Outcomes(cleared.log)
    ensures Outcomes(Emit(cleared, Abandoned(run)).log) == Outcomes(cleared.log)
    ensures luck.clone.ClonedAt? && run in cleared.targets ==>
              var ready := NoteCommit(Place(cleared, run, repoUrl, branch), run,
                  RunTarget(repoUrl, branch, luck.clone.commit), luck.recordsAgain);
              && Outcomes(PublishOutcome(ready, run, RoutingFailed, None, None, luck.report).log)
                   == Outcomes(cleared.log) + 1
              && (luck.routing.Some? ==>
                    Outcomes(Invoke(ready, run, luck.routing.value, luck.slice, luck.report).log) ==
                    Outcomes(cleared.log) +
                    if luck.slice.Parks?
                       || (luck.slice.Ends? && luck.slice.ending.terminal.RunCompleted?
                           && luck.routing.value.SdlcKind? && luck.report.readForDelivery
                           && luck.report.delivery.None?)
                    then 0 else 1)
  {
    hide Outcomes, PublishOutcome, Invoke;
    var cloned := Place(cleared, run, repoUrl, branch);
    OutcomesEmit(cleared.(workspaces := cleared.workspaces + {run}), Cloned(run, repoUrl, branch));
    OutcomesEmit(cloned, Abandoned(run));
    OutcomesEmit(cleared, Abandoned(run));
    OutcomesReport(cleared, run, CloneFailed, None, None, luck.report);
    if luck.clone.ClonedAt? {
      var ready := NoteCommit(cloned, run, RunTarget(repoUrl, branch, luck.clone.commit), luck.recordsAgain);
      OutcomesReport(ready, run, RoutingFailed, None, None, luck.report);
      if luck.routing.Some? {
        OutcomesInvoke(ready, run, luck.routing.value, luck.slice, luck.report);
      }
    }
  }

  lemma {:induction false} ReconcileReportsNothing(d: Deployment, found: seq<RunId>, luck: RunId -> LookupLuck)
    ensures var e := Reconcile(d, found, luck);
            e.targets == d.targets && e.saved == d.saved && Outcomes(e.log) == Outcomes(d.log)
    decreases |found|
  {
    if found != [] {
      var init := found[..|found| - 1];
      ReconcileReportsNothing(d, init, luck);
      OutcomesCleanup(Reconcile(d, init, luck), found[|found| - 1]);
    }
  }

  lemma OneMore(ops: seq<Op>, op: Op)
    ensures DoAll(ops + [op]) == Do(DoAll(ops), op)
  {
    assert (ops + [op])[..|ops|] == ops;
  }

  // A clone step that raises instead of refusing loses the run.  Its target is on record and its
  // checkout may be on disk, but there is no checkpoint and no outcome; the next startup that finds the
  // checkout and can read takes it, and still says nothing.
  lemma CloneThatRaisesIsSilent(ops: seq<Op>, run: RunId, repoUrl: string, branch: string, luck: TriggerLuck,
      found: seq<RunId>, lookup: RunId -> LookupLuck)
    requires run !in DoAll(ops).saved && luck.readsKnown && luck.records && luck.clone.CloneRaises?
    ensures var d, e := DoAll(ops), DoAll(ops + [Triggered(run, repoUrl, branch, luck)]);
            && e.targets == d.targets[run := RunTarget(repoUrl, branch, None)]
            && run !in e.saved && Outcomes(e.log) == Outcomes(d.log)
            && (run in e.workspaces <==> luck.clone.onDisk)
    ensures var e := DoAll(ops + [Triggered(run, repoUrl, branch, luck)]);
            var f := DoAll(ops + [Triggered(run, repoUrl, branch, luck)] + [Restarted(found, lookup)]);
            && f.targets == e.targets && run !in f.saved && Outcomes(f.log) == Outcomes(e.log)
            && (luck.clone.onDisk ==> (run !in f.workspaces <==> run in found && lookup(run).readsNext))
  {
    var d := DoAll(ops);
    OneMore(ops, Triggered(run, repoUrl, branch, luck));
    OneMore(ops + [Triggered(run, repoUrl, branch, luck)], Restarted(found, lookup));
    hide DoAll, Outcomes, Reconcile;
    TriggerReportsOnce(d, run, repoUrl, branch, luck);
    var e := HandleTrigger(d, run, repoUrl, branch, luck);
    ReconcileReportsNothing(e, found, lookup);
    if luck.clone.onDisk {
      ReconcileTakes(e, found, lookup, run);
    }
  }

  lemma ParksAtOnce(run: RunId, gate: Gate, luck: TriggerLuck)
    requires luck.readsKnown && luck.records && luck.clone == ClonedAt(None) && luck.slice == Parks(gate)
    requires luck.routing == Some(SpecialistKind)
    ensures var d := HandleTrigger(EMPTY, run, "tenant", "main", luck);
            && run in d.saved && d.saved[run] == SavedRun(SpecialistKind, ParkedAt(gate)) && run in d.workspaces
            && !ViewOf(d.log, run).settled && Outcomes(d.log) == 0
  {
    TriggerReportsOnce(EMPTY, run, "tenant", "main", luck);
    var cloned, invoked := Cloned(run, "tenant", "main"), Invoked(run, SpecialistKind);
    var d := HandleTrigger(EMPTY, run, "tenant", "main", luck);
    assert d.log == [] + [cloned] + [invoked];
    assert [cloned, invoked][..1] == [cloned];
  }

  // A specialist run that parks and then meets the restart `SweptByMistake` describes: it goes on
  // waiting, without its checkout.
  lemma ParkedWithoutCheckout(run: RunId, gate: Gate, routing: Option<Kind>) returns (ops: seq<Op>)
    ensures |ops| == 2 && ops[0].Triggered? && ops[0].run == run
    ensures ops[1].Restarted? && ops[1].found == [run] && ops[1].lookup(run) == LookupLuck(false, routing, true)
    ensures var d := DoAll(ops);
            && run in d.saved && d.saved[run] == SavedRun(SpecialistKind, ParkedAt(gate))
            && !ViewOf(d.log, run).settled && Outcomes(d.log) == 0
            && run !in d.workspaces
  {
    var report := ReportLuck(true, true, true, None);
    var luck := TriggerLuck(true, true, ClonedAt(None), true, Some(SpecialistKind), Parks(gate), report);
    var first, lookup := Triggered(run, "tenant", "main", luck), (_: RunId) => LookupLuck(false, routing, true);
    ops := [first] + [Restarted([run], lookup)];
    OneMore([], first);
    assert [] + [first] == [first];
    OneMore([first], Restarted([run], lookup));
    ParksAtOnce(run, gate, luck);
    hide HandleTrigger, ViewOf, Outcomes, Reconcile;
    SweptByMistake([first], run, [run], lookup);
    ReconcileReportsNothing(DoAll([first]), [run], lookup);
  }
}
