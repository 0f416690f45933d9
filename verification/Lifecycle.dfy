/**
 A run's life around its graph: where its change goes, where its checkout is, which graph it runs
 on.  All three have to survive the process that started it.

 What a slice of either graph comes to is a parameter (the graphs are modelled elsewhere), and so
 is whether each read and write of the database works.
 */
module Lifecycle {
  import opened Prelude
  import opened Sdlc
  import Publish
  import Workspace

  type RunId = string
  type CommitId = Workspace.CommitId

  datatype Kind = SdlcKind | SpecialistKind

  datatype RunTarget = RunTarget(repoUrl: string, branch: string, commitBefore: Option<CommitId>)

  // Pending: the checkpoint still names a next node, parked or not.
  datatype Progress = ParkedAt(gate: Gate) | Pending | Over

  datatype SavedRun = SavedRun(kind: Kind, progress: Progress)

  datatype OutcomeState = OutcomeOf(terminal: Terminal) | CloneFailed | RoutingFailed | RoutingChanged | Stale

  // What the rest of the world can see of a run, in order.  Abandoned: its handler raised half-way,
  // which the worker's loop only logs.
  datatype Effect =
    | Cloned(run: RunId, repoUrl: string, branch: string)
    | Invoked(run: RunId, kind: Kind)
    | Delivered(run: RunId, repoUrl: string, branch: string)
    | Reported(run: RunId, state: OutcomeState, target: Option<RunTarget>, commitAfter: Option<CommitId>,
        delivery: Option<Publish.PublishResult>)
    | Removed(run: RunId)
    | Abandoned(run: RunId)

  // targets and saved are database tables, workspaces the directories under the root.
  datatype Deployment = Deployment(targets: map<RunId, RunTarget>, saved: map<RunId, SavedRun>,
      workspaces: set<RunId>, log: seq<Effect>)

  // ---- What can go one way or the other ----

  datatype Ending = Ending(terminal: Terminal, commitAfter: Option<CommitId>, publishedInGraph: Publish.PublishResult)

  datatype SliceResult = Parks(gate: Gate) | Ends(ending: Ending) | Raises(checkpointed: bool)

  // delivery: what publishing answers, or None when it raises.
  datatype ReportLuck = ReportLuck(readForDelivery: bool, readForOutcome: bool, forgets: bool,
      delivery: Option<Publish.PublishResult>)

  // Raises: anything but a CloneError, such as a failing `git config` once the checkout is on disk.
  datatype CloneResult = ClonedAt(commit: Option<CommitId>) | CloneRefused | CloneRaises(onDisk: bool)

  datatype TriggerLuck = TriggerLuck(
    readsKnown: bool, records: bool, clone: CloneResult, recordsAgain: bool,
    routing: Option<Kind>, slice: SliceResult, report: ReportLuck)

  // The two reads of a checkpoint, and the routing table between them.
  datatype LookupLuck = LookupLuck(readsKind: bool, routing: Option<Kind>, readsNext: bool)

  datatype DecisionLuck = DecisionLuck(lookup: LookupLuck, slice: SliceResult, report: ReportLuck)

  // ---- Targets, outcomes and workspaces ----

  function Emit(d: Deployment, e: Effect): Deployment {
    d.(log := d.log + [e])
  }

  // Never raises: an unreadable row is an absent one.
  function TargetOf(d: Deployment, run: RunId, readable: bool): Option<RunTarget> {
    if readable && run in d.targets then Some(d.targets[run]) else None
  }

  function PublishOutcome(d: Deployment, run: RunId, state: OutcomeState, commitAfter: Option<CommitId>,
      delivery: Option<Publish.PublishResult>, luck: ReportLuck): Deployment {
    var reported := Emit(d, Reported(run, state, TargetOf(d, run, luck.readForOutcome), commitAfter, delivery));
    if luck.forgets then reported.(targets := reported.targets - {run}) else reported
  }

  function Cleanup(d: Deployment, run: RunId): Deployment {
    if run in d.workspaces then Emit(d.(workspaces := d.workspaces - {run}), Removed(run)) else d
  }

  function FailRun(d: Deployment, run: RunId, luck: ReportLuck): Deployment {
    Cleanup(PublishOutcome(d, run, OutcomeOf(RunFailed), None, None, luck), run)
  }

  // answer: what there is to report of it.
  datatype Delivery = DeliveryReturns(answer: Option<Publish.PublishResult>) | DeliveryRaises

  // A specialist run has delivered in its own graph; an SDLC run is delivered here.
  function DeliverIfCompleted(d: Deployment, run: RunId, kind: Kind, ending: Ending, luck: ReportLuck)
    : (Deployment, Delivery)
  {
    if !ending.terminal.RunCompleted? then (d, DeliveryReturns(None))
    else if kind.SpecialistKind? then (d, DeliveryReturns(Some(ending.publishedInGraph)))
    else
      var target := TargetOf(d, run, luck.readForDelivery);
      if target.None? then (d, DeliveryReturns(None))
      else (Emit(d, Delivered(run, target.value.repoUrl, target.value.branch)),
          if luck.delivery.Some? then DeliveryReturns(luck.delivery) else DeliveryRaises)
  }

  // ---- Invoking a graph ----

  // A run that is over is published, then reported, then cleared away, in that order.  When
  // publishing raises, the other two do not happen.
  function AfterSlice(d: Deployment, run: RunId, kind: Kind, result: SliceResult, luck: ReportLuck): Deployment {
    match result
    case Parks(gate) => d.(saved := d.saved[run := SavedRun(kind, ParkedAt(gate))])
    case Ends(ending) =>
      var over := d.(saved := d.saved[run := SavedRun(kind, Over)]);
      var (delivered, delivery) := DeliverIfCompleted(over, run, kind, ending, luck);
      if delivery.DeliveryRaises? then Emit(delivered, Abandoned(run))
      else
        Cleanup(PublishOutcome(delivered, run, OutcomeOf(ending.terminal), ending.commitAfter, delivery.answer, luck),
            run)
    case Raises(checkpointed) =>
      var known := checkpointed || run in d.saved;
      FailRun(if known then d.(saved := d.saved[run := SavedRun(kind, Pending)]) else d, run, luck)
  }

  function Invoke(d: Deployment, run: RunId, kind: Kind, result: SliceResult, luck: ReportLuck): Deployment {
    AfterSlice(Emit(d, Invoked(run, kind)), run, kind, result, luck)
  }

  // ---- Handlers ----

  function Place(d: Deployment, run: RunId, repoUrl: string, branch: string): Deployment {
    Emit(d.(workspaces := d.workspaces + {run}), Cloned(run, repoUrl, branch))
  }

  // The second write of the target, which may fail without consequence.
  function NoteCommit(d: Deployment, run: RunId, target: RunTarget, works: bool): Deployment {
    if works then d.(targets := d.targets[run := target]) else d
  }

  function HandleTrigger(d: Deployment, run: RunId, repoUrl: string, branch: string, luck: TriggerLuck): Deployment {
    if !luck.readsKnown || run in d.saved then d
    else if !luck.records then PublishOutcome(d, run, OutcomeOf(RunFailed), None, None, luck.report)
    else
      var cleared := Cleanup(d.(targets := d.targets[run := RunTarget(repoUrl, branch, None)]), run);
      match luck.clone
      case CloneRefused => PublishOutcome(cleared, run, CloneFailed, None, None, luck.report)
      case CloneRaises(onDisk) =>
        Emit(if onDisk then Place(cleared, run, repoUrl, branch) else cleared, Abandoned(run))
      case ClonedAt(commit) =>
        var ready := NoteCommit(Place(cleared, run, repoUrl, branch), run, RunTarget(repoUrl, branch, commit),
            luck.recordsAgain);
        if luck.routing.None? then PublishOutcome(ready, run, RoutingFailed, None, None, luck.report)
        else Invoke(ready, run, luck.routing.value, luck.slice, luck.report)
  }

  datatype Lookup = UseGraph(kind: Kind) | RoutingMoved | LookupFailed

  // Which graph a run that exists belongs to, from its checkpoint alone; one that cannot be
  // identified is taken for an SDLC run.
  function GraphForExisting(d: Deployment, run: RunId, luck: LookupLuck): Lookup {
    if !luck.readsKind || run !in d.saved || d.saved[run].kind.SdlcKind? then UseGraph(SdlcKind)
    else match luck.routing
      case None => LookupFailed
      case Some(SdlcKind) => RoutingMoved
      case Some(SpecialistKind) => UseGraph(SpecialistKind)
  }

  // Read through the wrong graph, a checkpoint names no next node.
  predicate HasNext(d: Deployment, run: RunId, graph: Kind) {
    run in d.saved && !d.saved[run].progress.Over? && d.saved[run].kind == graph
  }

  function HandleDecision(d: Deployment, run: RunId, luck: DecisionLuck): Deployment {
    match GraphForExisting(d, run, luck.lookup)
    case LookupFailed => FailRun(d, run, luck.report)
    case RoutingMoved => PublishOutcome(d, run, RoutingChanged, None, None, luck.report)
    case UseGraph(graph) =>
      if !luck.lookup.readsNext then FailRun(d, run, luck.report)
      else if !HasNext(d, run, graph) then d
      else Invoke(d, run, graph, luck.slice, luck.report)
  }

  // Parked past the TTL.  The sweep asks the SDLC graph about every workspace.
  predicate IsStale(d: Deployment, run: RunId, expired: RunId -> bool) {
    HasNext(d, run, SdlcKind) && expired(run)
  }

  function SweepStale(d: Deployment, stale: seq<RunId>, luck: ReportLuck): Deployment {
    if stale == [] then d
    else
      var run := stale[|stale| - 1];
      Cleanup(PublishOutcome(SweepStale(d, stale[..|stale| - 1], luck), run, Stale, None, None, luck), run)
  }

  // None: it could not be determined, and the workspace stays.
  function IsResumable(d: Deployment, run: RunId, luck: LookupLuck): Option<bool> {
    match GraphForExisting(d, run, luck)
    case LookupFailed => None
    case RoutingMoved => None
    case UseGraph(graph) => if luck.readsNext then Some(HasNext(d, run, graph)) else None
  }

  function Reconcile(d: Deployment, runs: seq<RunId>, luck: RunId -> LookupLuck): Deployment {
    if runs == [] then d
    else
      var run := runs[|runs| - 1];
      var before := Reconcile(d, runs[..|runs| - 1], luck);
      if IsResumable(d, run, luck(run)) == Some(false) then Cleanup(before, run) else before
  }

  // ---- Whole histories ----

  // Swept and Restarted list the workspaces found on disk; the sweep acts on the stale ones.
  datatype Op =
    | Triggered(run: RunId, repoUrl: string, branch: string, trigger: TriggerLuck)
    | DecisionCame(run: RunId, decision: DecisionLuck)
    | Swept(found: seq<RunId>, expired: RunId -> bool, report: ReportLuck)
    | Restarted(found: seq<RunId>, lookup: RunId -> LookupLuck)

  function OnlyStale(d: Deployment, found: seq<RunId>, expired: RunId -> bool): seq<RunId> {
    if found == [] then []
    else
      var init := OnlyStale(d, found[..|found| - 1], expired);
      var run := found[|found| - 1];
      if IsStale(d, run, expired) then init + [run] else init
  }

  function Do(d: Deployment, op: Op): Deployment {
    match op
    case Triggered(run, repoUrl, branch, luck) => HandleTrigger(d, run, repoUrl, branch, luck)
    case DecisionCame(run, luck) => HandleDecision(d, run, luck)
    case Swept(found, expired, luck) => SweepStale(d, OnlyStale(d, found, expired), luck)
    case Restarted(found, luck) => Reconcile(d, found, luck)
  }

  const EMPTY := Deployment(map[], map[], {}, [])

  function DoAll(ops: seq<Op>): Deployment {
    if ops == [] then EMPTY else Do(DoAll(ops[..|ops| - 1]), ops[|ops| - 1])
  }

  // ---- The object ----

  class Worker {
    var targets: map<RunId, RunTarget>
    var saved: map<RunId, SavedRun>
    var workspaces: set<RunId>
    var log: seq<Effect>

    function State(): Deployment
      reads this
    {
      Deployment(targets, saved, workspaces, log)
    }

    method CleanupRun(run: RunId)
      modifies this
      ensures State() == Cleanup(old(State()), run)
    {
      if run in workspaces {
        workspaces := workspaces - {run};
        log := log + [Removed(run)];
      }
    }

    method Report(run: RunId, state: OutcomeState, commitAfter: Option<CommitId>,
        delivery: Option<Publish.PublishResult>, luck: ReportLuck)
      modifies this
      ensures State() == PublishOutcome(old(State()), run, state, commitAfter, delivery, luck)
    {
      log := log + [Reported(run, state, TargetOf(State(), run, luck.readForOutcome), commitAfter, delivery)];
      if luck.forgets {
        targets := targets - {run};
      }
    }

    method Fail(run: RunId, luck: ReportLuck)
      modifies this
      ensures State() == FailRun(old(State()), run, luck)
    {
      Report(run, OutcomeOf(RunFailed), None, None, luck);
      CleanupRun(run);
    }

    method Deliver(run: RunId, kind: Kind, ending: Ending, luck: ReportLuck)
        returns (delivery: Delivery)
      modifies this
      ensures (State(), delivery) == DeliverIfCompleted(old(State()), run, kind, ending, luck)
    {
      if !ending.terminal.RunCompleted? {
        return DeliveryReturns(None);
      }
      if kind.SpecialistKind? {
        return DeliveryReturns(Some(ending.publishedInGraph));
      }
      var target := TargetOf(State(), run, luck.readForDelivery);
      if target.None? {
        return DeliveryReturns(None);
      }
      log := log + [Delivered(run, target.value.repoUrl, target.value.branch)];
      return if luck.delivery.Some? then DeliveryReturns(luck.delivery) else DeliveryRaises;
    }

    method RunSlice(run: RunId, kind: Kind, result: SliceResult, luck: ReportLuck)
      modifies this
      ensures State() == Invoke(old(State()), run, kind, result, luck)
    {
      log := log + [Invoked(run, kind)];
      match result {
        case Parks(gate) =>
          saved := saved[run := SavedRun(kind, ParkedAt(gate))];
        case Ends(ending) =>
          saved := saved[run := SavedRun(kind, Over)];
          var delivery := Deliver(run, kind, ending, luck);
          if delivery.DeliveryRaises? {
            log := log + [Abandoned(run)];
            return;
          }
          Report(run, OutcomeOf(ending.terminal), ending.commitAfter, delivery.answer, luck);
          CleanupRun(run);
        case Raises(checkpointed) =>
          if checkpointed || run in saved {
            saved := saved[run := SavedRun(kind, Pending)];
          }
          Fail(run, luck);
      }
    }

    method Trigger(run: RunId, repoUrl: string, branch: string, luck: TriggerLuck)
      modifies this
      ensures State() == HandleTrigger(old(State()), run, repoUrl, branch, luck)
    {
      if !luck.readsKnown || run in saved {
        return;
      }
      if !luck.records {
        Report(run, OutcomeOf(RunFailed), None, None, luck.report);
        return;
      }
      targets := targets[run := RunTarget(repoUrl, branch, None)];
      CleanupRun(run);
      if luck.clone.CloneRefused? {
        Report(run, CloneFailed, None, None, luck.report);
        return;
      }
      if luck.clone.ClonedAt? || luck.clone.onDisk {
        workspaces := workspaces + {run};
        log := log + [Cloned(run, repoUrl, branch)];
      }
      if luck.clone.CloneRaises? {
        log := log + [Abandoned(run)];
        return;
      }
      if luck.recordsAgain {
        targets := targets[run := RunTarget(repoUrl, branch, luck.clone.commit)];
      }
      if luck.routing.None? {
        Report(run, RoutingFailed, None, None, luck.report);
        return;
      }
      RunSlice(run, luck.routing.value, luck.slice, luck.report);
    }

    method Decide(run: RunId, luck: DecisionLuck)
      modifies this
      ensures State() == HandleDecision(old(State()), run, luck)
    {
      var lookup := GraphForExisting(State(), run, luck.lookup);
      if lookup.RoutingMoved? {
        Report(run, RoutingChanged, None, None, luck.report);
        return;
      }
      if lookup.LookupFailed? || !luck.lookup.readsNext {
        Fail(run, luck.report);
        return;
      }
      if !HasNext(State(), run, lookup.kind) {
        return;
      }
      RunSlice(run, lookup.kind, luck.slice, luck.report);
    }

    method SweepStaleRuns(found: seq<RunId>, expired: RunId -> bool, luck: ReportLuck) returns (stale: seq<RunId>)
      modifies this
      ensures stale == OnlyStale(old(State()), found, expired)
      ensures State() == SweepStale(old(State()), stale, luck)
    {
      stale := [];
      var i := 0;
      while i < |found|
        invariant i <= |found| && State() == old(State())
        invariant stale == OnlyStale(State(), found[..i], expired)
      {
        assert found[..i + 1][..i] == found[..i];
        if IsStale(State(), found[i], expired) {
          stale := stale + [found[i]];
        }
        i := i + 1;
      }
      assert found[..i] == found;
      i := 0;
      while i < |stale|
        invariant i <= |stale| && State() == SweepStale(old(State()), stale[..i], luck)
      {
        assert stale[..i + 1][..i] == stale[..i];
        Report(stale[i], Stale, None, None, luck);
        CleanupRun(stale[i]);
        i := i + 1;
      }
      assert stale[..i] == stale;
    }

    method ReconcileWorkspaces(found: seq<RunId>, luck: RunId -> LookupLuck) returns (removed: seq<RunId>)
      modifies this
      ensures State() == Reconcile(old(State()), found, luck)
      ensures forall run :: run in removed <==> run in found && IsResumable(old(State()), run, luck(run)) == Some(false)
    {
      removed := [];
      var i := 0;
      while i < |found|
        invariant i <= |found| && State() == Reconcile(old(State()), found[..i], luck)
        invariant saved == old(saved)
        invariant forall run :: run in removed <==>
            run in found[..i] && IsResumable(old(State()), run, luck(run)) == Some(false)
      {
        assert found[..i + 1][..i] == found[..i];
        var run := found[i];
        var resumable := IsResumable(State(), run, luck(run));
        if resumable == Some(false) {
          CleanupRun(run);
          removed := removed + [run];
        }
        i := i + 1;
      }
      assert found[..i] == found;
    }
  }
}
