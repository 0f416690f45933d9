/**
 What each handler tells the world, effect by effect, and why each outcome was reported.
 */
module LifecycleOutcomes {
  import opened Prelude
  import opened Sdlc
  import opened Lifecycle
  import LifecycleTheorems
  import Publish

  function Row(d: Deployment, run: RunId): Option<RunTarget> {
    if run in d.targets then Some(d.targets[run]) else None
  }

  function Taken(d: Deployment, run: RunId): seq<Effect> {
    if run in d.workspaces then [Removed(run)] else []
  }

  function Forgotten(d: Deployment, run: RunId, forgets: bool): map<RunId, RunTarget> {
    if forgets then d.targets - {run} else d.targets
  }

  // ---- Slices ----

  // A slice that parks tells nothing.
  lemma ParkedSlice(d: Deployment, run: RunId, kind: Kind, gate: Gate, luck: ReportLuck)
    ensures Invoke(d, run, kind, Parks(gate), luck)
         == d.(log := d.log + [Invoked(run, kind)], saved := d.saved[run := SavedRun(kind, ParkedAt(gate))])
  {
  }

  // One that raises is reported as failed, once, and loses its checkout; what can be resumed of it
  // stays on record.
  lemma RaisedSlice(d: Deployment, run: RunId, kind: Kind, checkpointed: bool, luck: ReportLuck)
    ensures var e := Invoke(d, run, kind, Raises(checkpointed), luck);
            && e.log == d.log
                 + [Invoked(run, kind),
                    Reported(run, OutcomeOf(RunFailed), if luck.readForOutcome then Row(d, run) else None, None, None)]
                 + Taken(d, run)
            && e.workspaces == d.workspaces - {run} && e.targets == Forgotten(d, run, luck.forgets)
            && e.saved == if checkpointed || run in d.saved then d.saved[run := SavedRun(kind, Pending)] else d.saved
  {
  }

  predicate Publishes(d: Deployment, run: RunId, kind: Kind, ending: Ending, luck: ReportLuck) {
    ending.terminal.RunCompleted? && kind.SdlcKind? && luck.readForDelivery && Row(d, run).Some?
  }

  // What an ended run's outcome says of its delivery.
  function Answer(d: Deployment, run: RunId, kind: Kind, ending: Ending, luck: ReportLuck)
    : Option<Publish.PublishResult>
  {
    if !ending.terminal.RunCompleted? then None
    else if kind.SpecialistKind? then Some(ending.publishedInGraph)
    else if Publishes(d, run, kind, ending, luck) then luck.delivery
    else None
  }

  function EndEffects(d: Deployment, run: RunId, kind: Kind, ending: Ending, luck: ReportLuck): seq<Effect> {
    (if Publishes(d, run, kind, ending, luck)
     then [Delivered(run, Row(d, run).value.repoUrl, Row(d, run).value.branch)] else [])
      + if Publishes(d, run, kind, ending, luck) && luck.delivery.None? then [Abandoned(run)]
        else
          [Reported(run, OutcomeOf(ending.terminal), if luck.readForOutcome then Row(d, run) else None,
              ending.commitAfter, Answer(d, run, kind, ending, luck))]
          + Taken(d, run)
  }

  // One that ends is reported as what it ended as, with the commit it ended on, once; it is published
  // before that if it is an SDLC run that completed and its target can be read, and loses its checkout
  // after.  When publishing raises neither of the two happens.
  lemma EndedSlice(d: Deployment, run: RunId, kind: Kind, ending: Ending, luck: ReportLuck)
    ensures var e := Invoke(d, run, kind, Ends(ending), luck);
            var raises := Publishes(d, run, kind, ending, luck) && luck.delivery.None?;
            && e.log == d.log + [Invoked(run, kind)] + EndEffects(d, run, kind, ending, luck)
            && e.workspaces == (if raises then d.workspaces else d.workspaces - {run})
            && e.targets == (if raises then d.targets else Forgotten(d, run, luck.forgets))
            && e.saved == d.saved[run := SavedRun(kind, Over)]
  {
    if Publishes(d, run, kind, ending, luck) {
      PublishedSlice(d, run, kind, ending, luck);
    } else {
      UnpublishedSlice(d, run, kind, ending, luck);
    }
    hide Invoke;
  }

  lemma PublishedSlice(d: Deployment, run: RunId, kind: Kind, ending: Ending, luck: ReportLuck)
    requires Publishes(d, run, kind, ending, luck)
    ensures var e := Invoke(d, run, kind, Ends(ending), luck);
            && e.log == d.log + [Invoked(run, kind)] + EndEffects(d, run, kind, ending, luck)
            && e.workspaces == (if luck.delivery.None? then d.workspaces else d.workspaces - {run})
            && e.targets == (if luck.delivery.None? then d.targets else Forgotten(d, run, luck.forgets))
            && e.saved == d.saved[run := SavedRun(kind, Over)]
  {
  }

  lemma UnpublishedSlice(d: Deployment, run: RunId, kind: Kind, ending: Ending, luck: ReportLuck)
    requires !Publishes(d, run, kind, ending, luck)
    ensures var e := Invoke(d, run, kind, Ends(ending), luck);
            && e.log == d.log + [Invoked(run, kind)] + EndEffects(d, run, kind, ending, luck)
            && e.workspaces == d.workspaces - {run} && e.targets == Forgotten(d, run, luck.forgets)
            && e.saved == d.saved[run := SavedRun(kind, Over)]
  {
  }

  // ---- Triggers ----

  // A trigger that cannot be recorded is reported as failed, whose clone is refused as that, and whose
  // target cannot be routed as that.  None of them runs anything.
  lemma UnrecordedTrigger(d: Deployment, run: RunId, repoUrl: string, branch: string, luck: TriggerLuck)
    requires luck.readsKnown && run !in d.saved && !luck.records
    ensures var e := HandleTrigger(d, run, repoUrl, branch, luck);
            && e.log == d.log
                 + [Reported(run, OutcomeOf(RunFailed), if luck.report.readForOutcome then Row(d, run) else None,
                      None, None)]
            && e.workspaces == d.workspaces && e.saved == d.saved
  {
  }

  lemma UnclonedTrigger(d: Deployment, run: RunId, repoUrl: string, branch: string, luck: TriggerLuck)
    requires luck.readsKnown && run !in d.saved && luck.records && luck.clone.CloneRefused?
    ensures var e, target := HandleTrigger(d, run, repoUrl, branch, luck), RunTarget(repoUrl, branch, None);
            && e.log == d.log + Taken(d, run)
                 + [Reported(run, CloneFailed, if luck.report.readForOutcome then Some(target) else None, None, None)]
            && e.workspaces == d.workspaces - {run} && e.saved == d.saved
  {
  }

  lemma UnroutedTrigger(d: Deployment, run: RunId, repoUrl: string, branch: string, luck: TriggerLuck)
    requires luck.readsKnown && run !in d.saved && luck.records && luck.clone.ClonedAt? && luck.routing.None?
    ensures var e := HandleTrigger(d, run, repoUrl, branch, luck);
            var target := RunTarget(repoUrl, branch, if luck.recordsAgain then luck.clone.commit else None);
            && e.log == d.log + Taken(d, run)
                 + [Cloned(run, repoUrl, branch),
                    Reported(run, RoutingFailed, if luck.report.readForOutcome then Some(target) else None, None, None)]
            && e.workspaces == d.workspaces + {run} && e.saved == d.saved
  {
    var cleared := Cleanup(d.(targets := d.targets[run := RunTarget(repoUrl, branch, None)]), run);
    assert cleared.log == d.log + Taken(d, run) && cleared.workspaces == d.workspaces - {run};
    hide Cleanup;
  }

  // Any other starts from a fresh checkout and the target it was given, on the graph it routes to.
  lemma StartedTrigger(d: Deployment, run: RunId, repoUrl: string, branch: string, luck: TriggerLuck)
    requires luck.readsKnown && run !in d.saved && luck.records && luck.clone.ClonedAt? && luck.routing.Some?
    ensures var target := RunTarget(repoUrl, branch, if luck.recordsAgain then luck.clone.commit else None);
            HandleTrigger(d, run, repoUrl, branch, luck)
              == Invoke(
                   Deployment(d.targets[run := target], d.saved, d.workspaces + {run},
                     d.log + Taken(d, run) + [Cloned(run, repoUrl, branch)]),
                   run, luck.routing.value, luck.slice, luck.report)
  {
    hide Invoke;
    var first := RunTarget(repoUrl, branch, None);
    var target := RunTarget(repoUrl, branch, if luck.recordsAgain then luck.clone.commit else None);
    var cleared := Cleanup(d.(targets := d.targets[run := first]), run);
    assert cleared == Deployment(d.targets[run := first], d.saved, d.workspaces - {run}, d.log + Taken(d, run)) by {
      assert run !in d.workspaces ==> d.workspaces - {run} == d.workspaces && d.log + [] == d.log;
    }
    assert d.targets[run := first][run := target] == d.targets[run := target];
    assert d.workspaces - {run} + {run} == d.workspaces + {run};
  }

  // ---- Decisions for a run that waits for none ----

  // Nothing is run.  Unless a read fails, or the target of a specialist run that is over no longer
  // routes to one, nothing happens at all.
  lemma IdleDecision(d: Deployment, run: RunId, luck: DecisionLuck)
    requires run !in d.saved || d.saved[run].progress.Over?
    ensures var e, l := HandleDecision(d, run, luck), luck.lookup;
            var specialist := run in d.saved && d.saved[run].kind.SpecialistKind? && l.readsKind;
            if specialist && l.routing == Some(SdlcKind) then
              e.log == d.log + [Reported(run, RoutingChanged,
                if luck.report.readForOutcome then Row(d, run) else None, None, None)]
            else if !l.readsNext || (specialist && l.routing.None?) then
              e.log == d.log
                + [Reported(run, OutcomeOf(RunFailed), if luck.report.readForOutcome then Row(d, run) else None,
                    None, None)]
                + Taken(d, run)
            else e == d
  {
  }

  // ---- Sweeps ----

  // What the sweep goes for: SDLC runs that wait, past their time.
  predicate Expired(d: Deployment, run: RunId, expired: RunId -> bool) {
    && run in d.saved && d.saved[run].kind.SdlcKind? && !d.saved[run].progress.Over?
    && expired(run)
  }

  lemma {:induction false} OnlyStaleExpired(d: Deployment, found: seq<RunId>, expired: RunId -> bool)
    ensures forall run :: run in OnlyStale(d, found, expired) <==> run in found && Expired(d, run, expired)
    decreases |found|
  {
    if found != [] {
      var init := found[..|found| - 1];
      assert found == init + [found[|found| - 1]];
      OnlyStaleExpired(d, init, expired);
    }
  }

  predicate StaleFor(e: Effect, run: RunId) {
    e.Reported? && e.run == run && e.state.Stale?
  }

  // Each of the stale runs is reported so and loses its checkout, and nobody else hears or loses anything.
  lemma {:induction false} SweepStaleTells(d: Deployment, stale: seq<RunId>, luck: ReportLuck)
    ensures var e := SweepStale(d, stale, luck);
            && e.saved == d.saved && d.log <= e.log
            && (forall run :: run in e.workspaces <==> run in d.workspaces && run !in stale)
            && (forall run :: run in stale <==> exists k :: |d.log| <= k < |e.log| && StaleFor(e.log[k], run))
            && (forall k | |d.log| <= k < |e.log| :: e.log[k].Removed? || StaleFor(e.log[k], e.log[k].run))
    decreases |stale|
  {
    if stale != [] {
      var n := |stale| - 1;
      var run, before := stale[n], SweepStale(d, stale[..n], luck);
      SweepStaleTells(d, stale[..n], luck);
      assert stale == stale[..n] + [run];
      var e := SweepStale(d, stale, luck);
      var told := Reported(run, Stale, TargetOf(before, run, luck.readForOutcome), None, None);
      assert e.log == before.log + [told] + Taken(before, run);
      assert e.log[|before.log|] == told && StaleFor(told, run);
      forall r ensures r in stale <==> exists k :: |d.log| <= k < |e.log| && StaleFor(e.log[k], r) {
        if r in stale[..n] {
          var k :| |d.log| <= k < |before.log| && StaleFor(before.log[k], r);
          assert e.log[k] == before.log[k];
        }
        if k :| |d.log| <= k < |e.log| && StaleFor(e.log[k], r) {
          if k < |before.log| {
            assert e.log[k] == before.log[k];
          }
        }
      }
      forall k | |d.log| <= k < |e.log| ensures e.log[k].Removed? || StaleFor(e.log[k], e.log[k].run) {
        if k < |before.log| {
          assert e.log[k] == before.log[k];
        }
      }
    }
  }

  // A sweep reports as stale exactly the SDLC runs it finds waiting past their time, takes exactly
  // their checkouts, and does nothing else.
  lemma SweepTells(d: Deployment, found: seq<RunId>, expired: RunId -> bool, luck: ReportLuck, run: RunId)
    ensures var e := Do(d, Swept(found, expired, luck));
            var stale := run in found && Expired(d, run, expired);
            && e.saved == d.saved && d.log <= e.log
            && (run in e.workspaces <==> run in d.workspaces && !stale)
            && (stale <==> exists k :: |d.log| <= k < |e.log| && StaleFor(e.log[k], run))
            && (forall k | |d.log| <= k < |e.log| :: e.log[k].Removed? || StaleFor(e.log[k], e.log[k].run))
  {
    OnlyStaleExpired(d, found, expired);
    SweepStaleTells(d, OnlyStale(d, found, expired), luck);
  }

  // ---- Startup ----

  // A checkout whose run is unknown or over goes at startup, whenever that can be found out.
  lemma OrphansGo(d: Deployment, found: seq<RunId>, luck: RunId -> LookupLuck, run: RunId)
    requires run in d.workspaces && (run !in d.saved || d.saved[run].progress.Over?)
    ensures var e, l := Do(d, Restarted(found, luck)), luck(run);
            run !in e.workspaces <==>
              run in found && l.readsNext
              && (run in d.saved && d.saved[run].kind.SpecialistKind? && l.readsKind ==>
                    l.routing == Some(SpecialistKind))
  {
    LifecycleTheorems.ReconcileTakes(d, found, luck, run);
  }

  // ---- Why an outcome was reported ----

  function SliceIn(op: Op): SliceResult
    requires op.Triggered? || op.DecisionCame?
  {
    if op.Triggered? then op.trigger.slice else op.decision.slice
  }

  // Something other than a slice's own end that makes a run failed.
  predicate FailsOtherwise(op: Op)
    requires op.Triggered? || op.DecisionCame?
  {
    || SliceIn(op).Raises?
    || (op.Triggered? && !op.trigger.records)
    || (op.DecisionCame? && (!op.decision.lookup.readsNext || op.decision.lookup.routing.None?))
  }

  predicate Because(op: Op, e: Effect)
    requires e.Reported?
  {
    match e.state
    case Stale => op.Swept? && e.run in op.found && op.expired(e.run)
    case CloneFailed => op.Triggered? && op.run == e.run && op.trigger.clone.CloneRefused?
    case RoutingFailed => op.Triggered? && op.run == e.run && op.trigger.routing.None?
    case RoutingChanged => op.DecisionCame? && op.run == e.run && op.decision.lookup.routing == Some(SdlcKind)
    case OutcomeOf(terminal) =>
      && (op.Triggered? || op.DecisionCame?) && op.run == e.run
      && ((SliceIn(op).Ends? && SliceIn(op).ending.terminal == terminal
           && SliceIn(op).ending.commitAfter == e.commitAfter)
          || (terminal.RunFailed? && e.commitAfter.None? && FailsOtherwise(op)))
  }

  // Of the effects an operation adds, each outcome has its reason.
  predicate AllBecause(op: Op, before: seq<Effect>, after: seq<Effect>) {
    && before <= after
    && forall k | |before| <= k < |after| && after[k].Reported? :: Because(op, after[k])
  }

  lemma AddedBecause(op: Op, before: seq<Effect>, more: seq<Effect>)
    requires forall e | e in more :: e.Reported? ==> Because(op, e)
    ensures AllBecause(op, before, before + more)
  {
    forall k | |before| <= k < |before + more| && (before + more)[k].Reported? ensures Because(op, (before + more)[k]) {
      assert (before + more)[k] == more[k - |before|];
    }
  }

  lemma SliceBecause(op: Op, d: Deployment, kind: Kind, luck: ReportLuck)
    requires op.Triggered? || op.DecisionCame?
    ensures AllBecause(op, d.log, Invoke(d, op.run, kind, SliceIn(op), luck).log)
  {
    hide Invoke, AllBecause;
    var e := Invoke(d, op.run, kind, SliceIn(op), luck);
    match SliceIn(op)
    case Parks(gate) =>
      ParkedSlice(d, op.run, kind, gate, luck);
      AddedBecause(op, d.log, [Invoked(op.run, kind)]);
    case Raises(checkpointed) =>
      RaisedSlice(d, op.run, kind, checkpointed, luck);
      var told := Reported(op.run, OutcomeOf(RunFailed), if luck.readForOutcome then Row(d, op.run) else None, None,
          None);
      assert e.log == d.log + ([Invoked(op.run, kind), told] + Taken(d, op.run));
      AddedBecause(op, d.log, [Invoked(op.run, kind), told] + Taken(d, op.run));
    case Ends(ending) =>
      EndedSlice(d, op.run, kind, ending, luck);
      var more := EndEffects(d, op.run, kind, ending, luck);
      EndBecause(op, d, kind, ending, luck);
      hide EndEffects;
      assert e.log == d.log + ([Invoked(op.run, kind)] + more);
      AddedBecause(op, d.log, [Invoked(op.run, kind)] + more);
  }

  lemma EndBecause(op: Op, d: Deployment, kind: Kind, ending: Ending, luck: ReportLuck)
    requires (op.Triggered? || op.DecisionCame?) && SliceIn(op) == Ends(ending)
    ensures forall e | e in EndEffects(d, op.run, kind, ending, luck) :: e.Reported? ==> Because(op, e)
  {
    hide Publishes, Answer;
  }

  lemma TriggerBecause(d: Deployment, op: Op)
    requires op.Triggered?
    ensures AllBecause(op, d.log, Do(d, op).log)
  {
    var run, luck := op.run, op.trigger;
    if luck.readsKnown && run !in d.saved {
      if luck.records && luck.clone.ClonedAt? && luck.routing.Some? {
        StartedTrigger(d, run, op.repoUrl, op.branch, luck);
        hide HandleTrigger;
        var target := RunTarget(op.repoUrl, op.branch, if luck.recordsAgain then luck.clone.commit else None);
        var cloned := Deployment(d.targets[run := target], d.saved, d.workspaces + {run},
            d.log + Taken(d, run) + [Cloned(run, op.repoUrl, op.branch)]);
        SliceBecause(op, cloned, luck.routing.value, luck.report);
        hide Invoke;
      } else if !luck.records {
        UnrecordedTrigger(d, run, op.repoUrl, op.branch, luck);
        hide HandleTrigger;
      } else if luck.clone.CloneRefused? {
        UnclonedTrigger(d, run, op.repoUrl, op.branch, luck);
        hide HandleTrigger;
      } else if luck.clone.ClonedAt? {
        UnroutedTrigger(d, run, op.repoUrl, op.branch, luck);
        hide HandleTrigger;
      }
    }
  }

  lemma DecisionBecause(d: Deployment, op: Op)
    requires op.DecisionCame?
    ensures AllBecause(op, d.log, Do(d, op).log)
  {
    var lookup := GraphForExisting(d, op.run, op.decision.lookup);
    if lookup.UseGraph? && op.decision.lookup.readsNext && HasNext(d, op.run, lookup.kind) {
      SliceBecause(op, d, lookup.kind, op.decision.report);
      hide Invoke;
    }
  }

  lemma SweepBecause(d: Deployment, op: Op)
    requires op.Swept?
    ensures AllBecause(op, d.log, Do(d, op).log)
  {
    var e := Do(d, op);
    OnlyStaleExpired(d, op.found, op.expired);
    SweepStaleTells(d, OnlyStale(d, op.found, op.expired), op.report);
    var stale := OnlyStale(d, op.found, op.expired);
    hide SweepStale, OnlyStale;
    forall k | |d.log| <= k < |e.log| && e.log[k].Reported? ensures Because(op, e.log[k]) {
      assert StaleFor(e.log[k], e.log[k].run);
      assert e.log[k].run in stale;
    }
  }

  lemma {:induction false} RestartBecause(op: Op, d: Deployment, found: seq<RunId>, luck: RunId -> LookupLuck)
    ensures AllBecause(op, d.log, Reconcile(d, found, luck).log)
    decreases |found|
  {
    if found != [] {
      RestartBecause(op, d, found[..|found| - 1], luck);
    }
  }

  // Whatever was ever reported was reported by one operation, for a reason of its own: a run is said to
  // have completed, safe-stopped or failed because that is what its slice came to, or failed because
  // the slice raised, or because it could not be recorded, found or routed; stale because a sweep found
  // it past its time; and so on.
  lemma {:induction false} ReportedBy(ops: seq<Op>, k: nat) returns (i: nat)
    requires k < |DoAll(ops).log| && DoAll(ops).log[k].Reported?
    ensures i < |ops| && |DoAll(ops[..i]).log| <= k < |DoAll(ops[..i + 1]).log|
    ensures Because(ops[i], DoAll(ops).log[k])
    decreases |ops|
  {
    var n := |ops| - 1;
    var d, op := DoAll(ops[..n]), ops[n];
    assert AllBecause(op, d.log, Do(d, op).log) by {
      match op
      case Triggered(_, _, _, _) => TriggerBecause(d, op);
      case DecisionCame(_, _) => DecisionBecause(d, op);
      case Swept(_, _, _) => SweepBecause(d, op);
      case Restarted(found, luck) => RestartBecause(op, d, found, luck);
    }
    assert ops[..n + 1] == ops;
    hide Do, Because;
    if k < |d.log| {
      i := ReportedBy(ops[..n], k);
      assert ops[..n][..i] == ops[..i] && ops[..n][..i + 1] == ops[..i + 1];
    } else {
      i := n;
    }
  }
}
