# A verified model of the agentic control plane

The control plane turns drift events into code changes: it reads triggers and human decisions from
Kafka, hands them durably to one worker, drives a run through a graph of nodes with human gates,
keeps a hash-chained audit file, and delivers an approved change to a branch. This project models
that behaviour in Dafny and proves what it is meant to guarantee.

| file | what it models |
|---|---|
| `Prelude.dfy` | shared vocabulary |
| `HandOff.dfy`, `HandOffProofs.dfy`, `HandOffTheorems.dfy`, `HandOffProgress.dfy` | Kafka, inbox, queue and worker as a step relation with crashes, and its theorems |
| `ControlPlane.dfy` | the same hand-off as objects: inbox, Kafka client, poll loop, worker, startup |
| `AuditLog.dfy`, `AuditSink.dfy` | the hash-chained file, its verifier, and the sink that writes it |
| `Runner.dfy` | running any graph to its next gate, checkpointing, resuming |
| `Workspace.dfy`, `Publish.dfy` | git operations on a checkout; publishing |
| `Sdlc.dfy`, `SdlcNodes.dfy`, `SdlcBounds.dfy`, `SdlcSafety.dfy`, `SdlcTheorems.dfy`, `SdlcPlanning.dfy`, `SdlcAttempts.dfy`, `SdlcTrail.dfy`, `SdlcLedger.dfy`, `SdlcVerdicts.dfy`, `SdlcRuns.dfy` | the SDLC graph, its imperative nodes, termination and bounds, invariants, theorems, what planning decides, what becomes of each attempt, what the trail says, what early verdicts change, two runs worth knowing |
| `Specialist.dfy`, `SpecialistFate.dfy` | the specialist graph on the same runner; what each of its runs leaves |
| `Lifecycle.dfy`, `LifecycleTheorems.dfy`, `LifecycleOutcomes.dfy` | targets, workspaces and choice of graph across processes; what is reported and why |
| `EndToEnd.dfy` | graph, worker and publishing together |
| `Routing.dfy`, `Metrics.dfy` | the routing table and repository names; the reliability metrics |

`dafny verify dfyconfig.toml` verifies the whole project.

## How the outside world appears

- Kafka is a log, a committed offset and a position per partition; Postgres a table of rows and a map
  of checkpoints; git a list of trees, a HEAD and the files on disk.
- Every outcome the program cannot choose is either a nondeterministic step (hand-off), an oracle
  in `Env` indexed by the attempt it belongs to (graphs), or a `Luck` record (lifecycle,
  publishing). Theorems quantify over all of them.
- The digest is a parameter. Tamper evidence assumes only that it has no collision among the records
  at hand.
- A node that raises, or parks, keeps what it did outside its state (`Outcome.left`).

## What the code does that its documentation does not say

- `agentic_control_plane/consumer.py:33-40` still describes losing queued work in a crash; the inbox closed that gap, and
  `NoAcceptedWorkLost` proves it. `agentic_control_plane/main.py:188-194` logs queued work as lost for the same reason.
- The diagram in the repository's `README.md:103-104` sends a failed test to the replanner. The code sends it from
  `sync` back to the coder; the replanner sits before the coder.
- `agentic_control_plane/tools.py:233-234` calls `git_commit_all` safe when nothing changed. It is not when stray bytecode is left that git does
  not ignore: `NoOpSafety` gives the exact condition, `NoOpSafetyFails` an input.
- `agentic_control_plane/state.py:139` says each field has one writing node. `gates`, `run_status` and `safe_stop` have several.
- A rejected plan is carried out: only the release gate can stop a run (`EarlyVerdictsOnlyRecord`).
- `agentic_control_plane/workspace.py:96-97` promises a CloneError on any failure. Setting the committer's identity
  (`agentic_control_plane/workspace.py:180-189`) raises others, which no handler expects: the run is lost without an
  outcome (`CloneThatRaisesIsSilent`).
- `agentic_control_plane/publish.py:210` and `agentic_control_plane/consumer.py:614-616` say that delivering never raises. A push does when
  what git prints is not text, and then a completed run is neither reported nor cleaned up, pushed or
  not (`PublishedMeansPushed`, `DecisionReportsOnce`, `ParkedRunIsDelivered`). `agentic_control_plane/consumer.py:711-713` forgets the
  work all the same, as already reported.
- `agentic_control_plane/specialist_graph.py:87` says that every failure ends a specialist run in a stated, terminal way, and
  `agentic_control_plane/specialist_invocation.py:144-146` that a caller handles them all alike. Making the design directory
  (`agentic_control_plane/specialist_graph.py:147`) is not guarded, and neither are a clone step that raises something else
  (`agentic_control_plane/specialist_graph.py:288-291`), a specialist whose output is not text, or one that cannot be executed
  (`agentic_control_plane/specialist_invocation.py:165-188`): `Specialist.RaisesExactlyWhen`, `FileInTheWayBreaks`.
- The repository's `README.md:121` lists the terminal states without `routing_failed` and `routing_changed`.
- With no retry allowed, a failed first test leaves a detail with neither "fail" nor "pass" in it, so
  the metrics miss it (`MetricsMissTheFallback`, `SuchARun`). The worker never gets there: it starts
  runs with the default limit of 3 (`agentic_control_plane/run_routing.py:128-131`, `agentic_control_plane/state.py:173`).
- A rollback leaves what git ignores by the rules on disk after the reset, and an attempt can write
  those: "undoes the whole run" holds exactly when it did not hide anything (`RollbackUndoesTheRun`,
  `RollbackMissesHiddenFiles`).
- A decision that arrives while Postgres cannot be read ends the waiting run as failed and deletes its
  checkout (`DecisionFate`). A waiting specialist run whose checkpoint is read half-way at startup loses its
  checkout (`SweptByMistake`, `ParkedWithoutCheckout`).
- An audit file whose last line lost its newline in a kill stops verifying at the next record, although
  an ordinary restart is meant to extend the chain (`TornTailBreaks`, `WhatIsWrittenVerifies`).

## Model

| member | source | states |
|---|---|---|
| HandOffTheorems.NoAcceptedWorkLost | agentic_control_plane/consumer.py:287-368 | over every interleaving, crash, failed discard and restart, each offset below a committed one is dead-lettered poison, work with an inbox row, or work the worker has been through |
| HandOffTheorems.CommitStopsAtFrontier | agentic_control_plane/consumer.py:781-821 | the argument-less commit moves each partition exactly to its first unaccepted message when nothing was refused, nowhere otherwise, and never back |
| HandOffTheorems.CommittedNeverDecreases | agentic_control_plane/consumer.py:810-821 | committed positions never decrease over any execution |
| HandOffTheorems.ExactlyOnceInOrder | agentic_control_plane/consumer.py:781-809 | in one process with a stable assignment, what the worker took followed by the queue is per partition exactly the valid messages up to the first unaccepted one, once each and in order; the queue holds at most 32 |
| HandOffTheorems.ValidMessagesMeaning | agentic_control_plane/consumer.py:782-793 | the valid messages of a range are exactly its parsed offsets, ascending, each with its own work |
| HandOffTheorems.RestoresOldestFirst | agentic_control_plane/consumer.py:337-363 | a restart restores the oldest rows it can decode, as many as the queue holds |
| HandOffTheorems.SortedIdsAscending | agentic_control_plane/inbox.py:91-95 | rows are scanned in ascending id order |
| HandOffProgress.BackpressureOnlyDelays | agentic_control_plane/consumer.py:724-734 | after any amount of refusing, rewinding and pausing, whatever the process then does of its own accord (no write failing, nothing new arriving, neither stopped nor reassigned), it comes to a point where everything is accepted and every valid message it started reading from is finished |
| HandOffProgress.OwnStepHelps | agentic_control_plane/consumer.py:756-821 | every step the process takes by itself brings it nearer to that point |
| HandOffProgress.DrainedMeansFinished | agentic_control_plane/consumer.py:692-715 | once nothing is queued or unread, every valid message since the process started has been worked on |
| ControlPlane.ReachesSafe | agentic_control_plane/consumer.py:737-821 | whatever state the imperative poll loop and worker reach from a safe one is safe |
| ControlPlane.Inbox.Record | agentic_control_plane/inbox.py:66-73 | an insert returns a new id with exactly this row, or raises, with or without having taken effect |
| ControlPlane.Inbox.Discard | agentic_control_plane/inbox.py:75-88 | a delete removes the one row if the table can be reached, and never raises |
| ControlPlane.Inbox.Pending | agentic_control_plane/inbox.py:91-95 | the rows, by ascending id |
| ControlPlane.Process.Offer | agentic_control_plane/consumer.py:309-323 | the item is queued exactly when there is room, otherwise its row is forgotten again if it can be; one step of the relation |
| ControlPlane.Process.RecordDurably | agentic_control_plane/consumer.py:298-308 | the durable write that precedes the queue; a failure refuses the message |
| ControlPlane.Process.Submit | agentic_control_plane/consumer.py:287-323 | accepted work is last in the queue and its row is in the inbox; the worker was given exactly this message more; a refusal means that the write failed or that the queue was full, leaves the loop at the same message, and takes the row away again if it can; the states passed are steps of the relation |
| ControlPlane.Process.RewindAndPause | agentic_control_plane/consumer.py:796-802 | the partition goes back to the refused offset and is paused, the rest of its batch is dropped |
| ControlPlane.Process.EndCycle | agentic_control_plane/consumer.py:810-821 | everything is committed at its position if nothing was refused, nothing otherwise |
| ControlPlane.Process.ResumeDrained | agentic_control_plane/consumer.py:724-734 | paused partitions resume exactly when the queue is at most half full |
| ControlPlane.Process.ProcessMessage | agentic_control_plane/consumer.py:783-808 | a valid message goes to the worker or, for a reason, is rewound to and its partition paused; poison goes to the dead-letter topic and is never refused |
| ControlPlane.Process.ProcessBatch | agentic_control_plane/consumer.py:782-808 | up to the first refusal, which has its reason and where the partition is rewound and paused, exactly the valid messages went to the worker, in order, and the others to the dead-letter topic |
| ControlPlane.Process.ProcessAll | agentic_control_plane/consumer.py:781-808 | after the nested loops every fetched partition is wholly accepted or, for a reason, rewound into its batch and paused; nothing else moves or is paused, and the flag says which |
| ControlPlane.Process.PollCycle | agentic_control_plane/consumer.py:757-821 | one pass: paused partitions resume exactly when the queue is at most half full; unless the poll raises, every partition not paused, with messages and served, is read from where it stood; each is accepted to its end or, because a write failed or the queue was full, stands at the message turned back and is paused; nothing else is paused or moved, and everything is committed exactly when nothing was turned back |
| ControlPlane.Process.PollLoop | agentic_control_plane/consumer.py:756-779 | the loop gives up exactly at the tenth consecutive poll that raises, and each pass is such a pass |
| ControlPlane.Process.RunOnce | agentic_control_plane/consumer.py:692-715 | one item is taken, handled whatever happens, and its row is gone if the table can be reached |
| ControlPlane.Process.Forget | agentic_control_plane/consumer.py:710-715 | the row of the item handled goes if the table can be reached, whatever became of the work |
| ControlPlane.Process.RestoreRows | agentic_control_plane/consumer.py:339-363 | the queue gets the decodable rows in order up to its bound; only undecodable rows are deleted, and those met before the queue is found full are, if the table can be reached |
| ControlPlane.Process.RestorePending | agentic_control_plane/consumer.py:330-368 | startup is one restart step: oldest rows first, no decodable row dropped, undecodable ones deleted as the scan meets them |
| AuditLog.VerifyChain | agentic_control_plane/telemetry.py:86-147 | answers ok exactly for a chained log, with the number of records; otherwise names the first line that breaks it, the records before it, and why |
| AuditLog.TruncationVerifies | agentic_control_plane/telemetry.py:100-147 | every prefix of a verifying log verifies |
| AuditLog.SameHashSameHistory | agentic_control_plane/telemetry.py:71-74 | without collisions, two verifying logs that carry one hash carry it at the same index and agree on every record up to it |
| AuditLog.AnchorDeterminesLog | agentic_control_plane/telemetry.py:71-74 | a verifying log is determined by its length and last hash |
| AuditLog.TamperingIsCaught | agentic_control_plane/telemetry.py:86-147 | any edit that leaves a later original record in place fails verification at or before that record |
| AuditLog.AppendVerifies | agentic_control_plane/telemetry.py:232-251 | appending a record keeps a file verifying exactly when it verified, its last line was whole, and the record continues the chain |
| AuditLog.DamageStays | agentic_control_plane/telemetry.py:232-251 | an append neither moves nor hides the first broken line |
| AuditSink.WhatIsWrittenVerifies | agentic_control_plane/telemetry.py:208-253 | from a verifying file, through any flushes, forgets, interleaved runs, restarts and kills, the file verifies if and only if no kill left a fragment of a record and nothing was written after one that left a record without its newline; then it holds exactly the old records and those written |
| AuditSink.UntornIsWhole | agentic_control_plane/telemetry.py:208-253 | without such kills it always verifies |
| AuditSink.DamageIsPermanent | agentic_control_plane/telemetry.py:175-183 | a file broken at line k stays broken at line k whatever is written later |
| AuditSink.TornTailBreaks | agentic_control_plane/telemetry.py:163-173 | from a file whose last line lost its newline, the next record breaks the chain at that line |
| AuditSink.RewriteVerifies | agentic_control_plane/telemetry.py:86-147 | the chain alone does not stop whoever rewrites the whole file |
| AuditSink.RecordsAreTheRunsEvents | agentic_control_plane/telemetry.py:211-253 | in one process and before its forget, a run's records are exactly its events, once each and in order, however other runs interleave |
| AuditSink.EveryEventStaysPresent | agentic_control_plane/telemetry.py:208-253 | across restarts, kills in mid-flush and forgets, a run's last flushed list is one contiguous piece of what was written for it |
| AuditSink.TelemetrySink.FlushNewEvents | agentic_control_plane/telemetry.py:223-253 | writes and returns exactly the events past the run's cursor, chained, and moves the cursor |
| AuditSink.TelemetrySink.Forget | agentic_control_plane/telemetry.py:214-221 | drops one run's cursor and nothing else |
| AuditSink.TelemetrySink.constructor | agentic_control_plane/telemetry.py:208-212 | a new sink continues the file's chain with no cursors |
| AuditSink.ResumeChain | agentic_control_plane/telemetry.py:150-183 | the chain goes on after the last record that is not blank, or at genesis when it cannot be read |
| Runner.ServedIsUninterrupted | agentic_control_plane/runner.py:188-231 | however starts, resumes, redeliveries and surplus decisions of many runs interleave, a run that was sent no decision after one of its nodes raised stands where one uninterrupted run with its decisions would |
| Runner.RefusalsChangeNothing | agentic_control_plane/runner.py:156-231 | for such a run a request is refused, unchanged, exactly when a known run is started again, an unknown one resumed, or one resumed that reached its end |
| Runner.OneMoreDecision | agentic_control_plane/runner.py:205-231 | resuming a run none of whose nodes raised equals having had the decision from the start |
| Runner.StopMeaning | agentic_control_plane/runner.py:130-149 | where a run stops, its node did what the stop says |
| Runner.CountBounded | agentic_control_plane/runner.py:188-231 | a node that uses up a bound runs at most that often |
| Runner.Checkpointer.Invoke | agentic_control_plane/runner.py:198-202 | superstep by superstep, the saved checkpoint ends as the slice |
| Runner.Checkpointer.StartRun | agentic_control_plane/runner.py:156-202 | already_known, as the trigger handler asks it, and then start_run: a first start runs one slice, a second one changes nothing |
| Runner.Checkpointer.ResumeRun | agentic_control_plane/runner.py:205-231 | unknown and terminal runs are told apart and refused; any other, one whose node raised included, runs a slice |
| Workspace.CommitMeaning | agentic_control_plane/tools.py:230-278 | a commit adds one tree holding every unignored file as it is on disk, and bytecode only as the history had it |
| Workspace.CommitsExactlyWhen | agentic_control_plane/tools.py:230-278 | a commit is made if and only if git works and some path that is not bytecode is changed, gone, or new and not ignored; otherwise nothing changes |
| Workspace.WritesInOrder | agentic_control_plane/tools.py:147-159 | writing one more file overwrites what is where it goes, after all the others, unless one of them or itself cannot be written |
| Workspace.NoOpSafety | agentic_control_plane/tools.py:230-274 | with nothing to commit the call is a no-op if and only if the commands before the commit work and no reportable bytecode lies about |
| Workspace.NoOpSafetyFails | agentic_control_plane/tools.py:233-234 | a checkout on which nothing changed and the commit fails |
| Workspace.CommitTwice | agentic_control_plane/tools.py:230-278 | a second commit finds nothing to commit, or fails on stray bytecode |
| Workspace.RevertRestores | agentic_control_plane/tools.py:281-291 | a revert leaves exactly the commit's files and, besides them, untouched ignored ones |
| Workspace.RevertMeaning | agentic_control_plane/tools.py:281-291 | it works if and only if both commands do; a file is left if and only if the commit has it or git neither tracks it nor, after the reset, stops ignoring it; when a command fails, the history and HEAD still are as said |
| Workspace.RevertUndoesEverything | agentic_control_plane/tools.py:281-291 | reverting to the commit a clone is on gives the clone back if and only if the ignore rules in force after the reset cover none of the other files |
| Workspace.Repository.WriteCodeFiles | agentic_control_plane/tools.py:147-159 | files are written in order up to the first path that cannot be written, outside the checkout or in the way of what is there |
| Workspace.Repository.GitCommitAll | agentic_control_plane/tools.py:230-278 | the commit step on the object |
| Workspace.Repository.GitRevertTo | agentic_control_plane/tools.py:281-291 | hard reset, then clean, either of which may fail |
| SdlcBounds.GraphSound | agentic_control_plane/graph.py:100-134 | every SDLC run terminates: a measure over node, retries left and fallback decreases with every node, for any outcomes and decisions |
| SdlcBounds.GraphReplayable | agentic_control_plane/nodes/release_gate.py:29-67 | no node does anything outside its state before it asks for a decision |
| SdlcBounds.SlicedIsUninterrupted | agentic_control_plane/runner.py:188-231 | start_run and one resume_run per decision end in the same state, events and checkout as a run given all decisions, unless a decision came after a node had raised |
| SdlcBounds.RunsAreBounded | agentic_control_plane/graph.py:100-190 | at most retry_limit + 2 coder runs, two planner runs, one rollback and three stops at gates; no gate asks twice |
| SdlcBounds.ThreeDecisionsSuffice | agentic_control_plane/graph.py:154-190 | a run given three decisions does not end up waiting |
| SdlcSafety.InvKept | agentic_control_plane/graph.py:37-134 | every node keeps the invariant from which the theorems below follow |
| SdlcTheorems.CompletedMeansApproved | agentic_control_plane/nodes/release_gate.py:61-98 | a reachable run is completed if and only if the release gate is approved, and then the commit step ran, the attempt at hand passed its own tests, and its findings were empty or overridden |
| SdlcTheorems.EndMeansFinished | agentic_control_plane/runner.py:120-127 | the end is reached only completed or failed with finished_at set; a safe stop is a failure; the classification agrees |
| SdlcTheorems.WaitingMeansRunning | agentic_control_plane/runner.py:130-142 | a parked run is running, unfinished, and names the gate it asks at |
| SdlcTheorems.HeadStaysUntilRelease | agentic_control_plane/nodes/coder.py:377-386 | HEAD and the history stay the clone's through every attempt until a release |
| SdlcTheorems.RollbackUndoesTheRun | agentic_control_plane/graph.py:45-97 | from the checkout the rollback found: tracked files are the clone's, any other file left was there, untracked, unchanged, and ignored by the rules in force after the reset; so the clone is back if and only if those rules ignore none of the run's own files; it safe-stops if and only if HEAD was unreadable at the last attempt, there was none, or git fails |
| SdlcRuns.RollbackMissesHiddenFiles | agentic_control_plane/tools.py:281-291 | whatever the retry limit, a run whose attempts write an ignore file naming their scratch file is rolled back with success and the scratch file stays, though the clone's rules ignore nothing |
| SdlcTheorems.RaisesExactlyWhen | agentic_control_plane/nodes/coder.py:377-378 | a node raises if and only if the coder or the documentation writes where it cannot, the test output is not text, or the commit of an approved release fails |
| SdlcPlanning.PlansAreFollowed | agentic_control_plane/graph.py:100-134 | in every reachable state the run works from its own requirement, as the human of a greenfield run worded it; impact and conflict are those of the clone, design and tasks follow from them, tasks depend on earlier ones only; and the gates on record are exactly those of its kind |
| SdlcAttempts.CoderDecides | agentic_control_plane/nodes/coder.py:340-400 | the coder safe-stops if and only if nothing is supplied (in live mode by the builtin generator of a target routed to it, in replay by the first recorded attempt numbered retry_count + 1, or the first fallback); otherwise it writes exactly that, raises if it cannot, and records it |
| SdlcAttempts.AttemptsAreSupplied | agentic_control_plane/nodes/coder.py:335-365 | over whole runs the k-th attempt holds what was supplied for it, is numbered by the retries used, and starts from the clone's commit |
| SdlcAttempts.ForkDecides | agentic_control_plane/nodes/documentation.py:33-70 | the test result, the document and the files on disk after both branches, in whichever order they ran |
| SdlcAttempts.TestsDecide | agentic_control_plane/graph.py:122-127 | after the k-th attempt a run goes to the release gate if its tests passed, to another attempt if retries or the fallback are left, and else to the rollback |
| SdlcAttempts.ReleaseDecides | agentic_control_plane/nodes/release_gate.py:61-117 | the gate releases if and only if the decision approves and there are no findings or they are overridden; then it commits or raises; the verdict on record is a rejection if and only if the human's is or findings stand |
| SdlcAttempts.ReleaseTells | agentic_control_plane/nodes/release_gate.py:29-98 | each finding is on record with whether it was overridden, and the trail has one event for each between the node's own |
| SdlcAttempts.ReleaseOnRecord | agentic_control_plane/nodes/release_gate.py:66-84 | in every reachable state the gate's record is the human's decision, a rejection exactly where a finding was left standing, and the run is completed if and only if it was approved with none |
| SdlcTheorems.RevisedPlanMeansApproved | agentic_control_plane/nodes/decomposer_planner.py:31-68 | the coder works from the revised plan if and only if replanning was approved; only an ambiguous run with a conflict asks |
| SdlcVerdicts.EarlyVerdictsOnlyRecord | agentic_control_plane/graph.py:100-113 | two runs that differ only in the verdicts at the first three gates stop at the same place with the same files, commits, attempts and status: a rejected plan is carried out |
| SdlcVerdicts.StepAlike | agentic_control_plane/nodes/decomposer_planner.py:78-101 | every node takes states that agree up to the trail and the record of those gates to states that agree |
| SdlcTheorems.BranchesCommute | agentic_control_plane/graph.py:176-183 | test and documentation updates in either order give the same state but for event order, the same event multiset, and the same route after the join |
| SdlcTheorems.FixtureChosen | agentic_control_plane/nodes/coder.py:270-290 | replay takes the first recorded entry that fits and fails exactly when none does |
| SdlcTrail.EveryDecisionIsInTheTrail | agentic_control_plane/nodes/release_gate.py:61-84 | in every reachable state the trail holds exactly one decision event for each gate on record, with the recorded verdict (a forced rejection included), and none for any other gate |
| SdlcTrail.StepTells | agentic_control_plane/nodes/decomposer_planner.py:78-101 | a node given a decision records that decision under the gate it asked at and adds one decision event; every other gate and every other node's decisions stay |
| SdlcTrail.EveryNodeIsInTheTrail | agentic_control_plane/state.py:35-50 | the trail of a run holds, for every node, as many starts and as many ends (or safe stops, or rollbacks) as the run went through it |
| SdlcLedger.TheTrailAddsUp | agentic_control_plane/graph.py:47-99 | in every reachable state the trail holds as many retry events as the run counts retries, one fallback event for a fallback, one violation event for each finding, and for a rollback either a rollback event, when the revert worked, or a safe stop; a coder that stops the run leaves a safe stop too, and there are no others |
| SdlcNodes.CoderNode | agentic_control_plane/nodes/coder.py:340-400 | the coder on the checkout: its step of the machine, which CoderDecides characterises |
| SdlcNodes.TestExecutorNode | agentic_control_plane/nodes/test_executor.py:35-82 | the four branches of the retry bookkeeping, built step by step |
| SdlcNodes.ReleaseGateNode | agentic_control_plane/nodes/release_gate.py:26-117 | the loops over findings, the forced rejection and the commit: its step of the machine, which ReleaseDecides and ReleaseTells characterise |
| SdlcNodes.RollbackNode | agentic_control_plane/graph.py:45-97 | the revert and its three endings |
| Publish.PublishedMeansPushed | agentic_control_plane/publish.py:200-250 | published holds if and only if this run's branch now has the commit; a failed pull request does not undo it; no other run's branch changes; only when the call raises can the commit be there untold |
| Specialist.SpecialistSound | agentic_control_plane/specialist_graph.py:468-519 | every specialist run terminates, and no node acts before it asks |
| Specialist.SlicedIsUninterrupted | agentic_control_plane/runner.py:188-231 | the slicing theorem for the specialist graph, unless a decision came after a node had raised |
| Specialist.RaisesExactlyWhen | agentic_control_plane/specialist_graph.py:134-161 | a node raises if and only if a file stands where the design directory goes, making the output checkout raises, the specialist's answer does, or publishing does after a commit that worked |
| Specialist.BreaksExactlyWhen | agentic_control_plane/specialist_graph.py:249-308 | a whole run, given its decisions, breaks if and only if its design does, its approved design has an artifact and generating from it does, or its approved result is committed and publishing it does |
| Specialist.SteadyRunsNeverBreak | agentic_control_plane/specialist_graph.py:224-246 | with no such file, an output that is there or can be made, a specialist that answers or refuses and a push that does, no run ever breaks and slicing is exact for every history |
| Specialist.FileInTheWayBreaks | agentic_control_plane/specialist_graph.py:146-147 | a tenant with a file named .specialist-design breaks every run that passes the preflight, before anything happens |
| Specialist.CommitsOnlyWhereApproved | agentic_control_plane/specialist_graph.py:396-439 | the tenant's history never changes; the output's history, its remote and the reported commit change only after both gates approved a run with a named output repository, by one commit step; a completed run reports it, one that broke while publishing does not |
| Specialist.OverMeansFinished | agentic_control_plane/specialist_graph.py:86-94 | the end is reached completed or failed, failed if and only if safe_stop; a completed run without delivery was rejected or had no repository |
| SpecialistFate.RunsMeanWhatTheySay | agentic_control_plane/specialist_graph.py:134-439 | wherever a run stops: which files the tenant, the output and its bare directory hold, what was committed and pushed, which details and decisions are on record, and which events in the trail, for each way a run can complete, fail, wait, or break because a node raised (then what the node had already done stays) |
| SpecialistFate.DeliversWhatWasGenerated | agentic_control_plane/specialist_graph.py:294-305 | after both approvals the commit and the branch hold the output as the generate phase left it on what was found or cloned, and the tenant's files are as the two phases left them |
| Specialist.TwoDecisionsSuffice | agentic_control_plane/specialist_graph.py:442-465 | neither gate asks twice and two decisions suffice |
| LifecycleTheorems.TargetSurvives | agentic_control_plane/consumer.py:382-437 | through restarts, failed writes and other runs, a checkpointed run with no outcome since its clone (and no handler that gave up) is parked and its target on record names what was cloned |
| LifecycleTheorems.FirstOutcomeNamesTheClone | agentic_control_plane/consumer.py:663-690 | the first outcome after a clone nobody gave up on names the cloned repository and branch, or nothing when the row cannot be read |
| LifecycleTheorems.SameGraphOrRefused | agentic_control_plane/run_routing.py:160-183 | every slice run on one checkout is run by the graph the run started on |
| LifecycleTheorems.OnlySdlcRunsAreDelivered | agentic_control_plane/consumer.py:606-661 | after any history, whatever can be read, the worker delivers SDLC runs only, to where they were cloned from, while the checkout is still there |
| LifecycleTheorems.WaitingRunsKeepTheirCheckout | agentic_control_plane/workspace.py:239-272 | no startup sweep ever takes the checkout of a waiting SDLC run, nor of a specialist run whose own checkpoint no startup read half-way |
| LifecycleTheorems.SweptByMistake | agentic_control_plane/main.py:87-91 | after any history, a startup sweep leaves a waiting run waiting and takes its checkout if and only if the run is a specialist's, is found, and the first read of its checkpoint fails and the second does not |
| LifecycleTheorems.ParkedWithoutCheckout | agentic_control_plane/run_routing.py:140-170 | such a history: a specialist run that parks, meets that restart, and waits on without its checkout and without an outcome |
| LifecycleTheorems.CloneThatRaisesIsSilent | agentic_control_plane/workspace.py:155-189 | after any history, a clone step that raises leaves the target on record, no checkpoint and no outcome, and a later startup takes the checkout without a word |
| LifecycleTheorems.DecisionFate | agentic_control_plane/consumer.py:439-476 | exactly when a decision reaches its run's own graph, is refused, is dropped, or ends the run as failed |
| LifecycleTheorems.ParkedRunIsDelivered | agentic_control_plane/consumer.py:525-543 | after any history, a waiting run whose decision completes it is delivered to the repository and branch it was cloned from (specialist runs are not delivered here), then reported with its recorded target, and only then loses its checkout; if publishing raises the last two do not happen |
| LifecycleTheorems.UnattendedRunIsDelivered | agentic_control_plane/consumer.py:374-437 | so is a run that completes without parking; a second target write that fails costs the reported commit only |
| LifecycleTheorems.DecisionReportsOnce | agentic_control_plane/consumer.py:439-476 | a decision reports one outcome, or none exactly when it is ignored, the run parks, or publishing raises |
| LifecycleTheorems.TriggerReportsOnce | agentic_control_plane/consumer.py:374-437 | a trigger reports one outcome, or none exactly when it is a redelivery, the checkpointer cannot be asked, the run parks, or the clone step or publishing raises |
| LifecycleTheorems.HistoryOk | agentic_control_plane/consumer.py:374-543 | the invariant of every history of triggers, decisions, sweeps and restarts |
| LifecycleOutcomes.ReportedBy | agentic_control_plane/consumer.py:374-543 | every outcome of every history was reported by one operation for its own reason: completed, safe-stopped or failed because its slice ended so, failed because it raised or could not be recorded, routed or read, stale because a sweep found it past its time |
| LifecycleOutcomes.EndedSlice | agentic_control_plane/consumer.py:525-543 | a slice that ends is reported once, as what it ended as and with its commit, after it was published if it is a completed SDLC run and before its checkout goes; if publishing raises, neither |
| LifecycleOutcomes.RaisedSlice | agentic_control_plane/consumer.py:495-507 | a slice that raises is reported as failed once and loses its checkout |
| LifecycleOutcomes.ParkedSlice | agentic_control_plane/consumer.py:525-534 | a slice that parks reports nothing and keeps everything |
| LifecycleOutcomes.UnclonedTrigger | agentic_control_plane/consumer.py:401-408 | a refused clone is reported as that and leaves no checkout |
| LifecycleOutcomes.UnroutedTrigger | agentic_control_plane/consumer.py:416-428 | a routing table that does not load is reported as that, with the target as noted, and runs nothing |
| LifecycleOutcomes.StartedTrigger | agentic_control_plane/consumer.py:374-437 | any other trigger starts its graph on a fresh checkout with its own target on record |
| LifecycleOutcomes.IdleDecision | agentic_control_plane/consumer.py:439-476 | a decision for an unknown or finished run runs nothing, and does nothing at all unless a read fails or its target routes elsewhere |
| LifecycleOutcomes.SweepTells | agentic_control_plane/consumer.py:509-523 | a sweep reports as stale and takes exactly the SDLC runs found waiting past their time, and does nothing else |
| LifecycleOutcomes.OrphansGo | agentic_control_plane/workspace.py:239-272 | at startup a checkout whose run is unknown or over goes if and only if it is found and that can be read |
| Lifecycle.Worker.Trigger | agentic_control_plane/consumer.py:374-437 | the trigger handler on the object, with a clone that works, is refused or raises |
| Lifecycle.Worker.Decide | agentic_control_plane/consumer.py:439-476 | the decision handler on the object |
| Lifecycle.Worker.RunSlice | agentic_control_plane/consumer.py:525-543 | one slice and what follows it, which stops at a delivery that raises |
| Lifecycle.Worker.Report | agentic_control_plane/consumer.py:663-690 | one outcome from the target on record, which is then forgotten if that works |
| Lifecycle.Worker.Deliver | agentic_control_plane/consumer.py:606-661 | delivery of a completed SDLC run, which may raise; a specialist's own delivery is passed on |
| Lifecycle.Worker.Fail | agentic_control_plane/consumer.py:495-507 | a failed outcome, then cleanup |
| Lifecycle.Worker.SweepStaleRuns | agentic_control_plane/consumer.py:509-523 | reports and cleans up exactly the found runs the SDLC graph sees waiting past their time |
| Lifecycle.Worker.ReconcileWorkspaces | agentic_control_plane/workspace.py:239-272 | removes exactly the found workspaces whose run is known not to be resumable |
| EndToEnd.DeliveredMeansGoverned | agentic_control_plane/consumer.py:606-661 | whatever the worker delivers was approved, tested and cleared, and what reaches the branch is exactly the files at hand without ignored files and new bytecode |
| EndToEnd.ReportedAsItEnded | agentic_control_plane/runner.py:120-149 | an SDLC run is reported completed if and only if its release gate is approved, safe-stopped if and only if its safe stop is set, failed if and only if it was rolled back or a node raised, and not at all while it waits |
| Routing.CheckReferentialIntegrity | agentic_control_plane/specialists.py:212-245 | passes exactly the tables with a builtin default, defined specialists and no repository twice; otherwise names the first offence |
| Routing.ResolveTarget | agentic_control_plane/specialists.py:265-286 | the search loop |
| Routing.ResolvesTotally | agentic_control_plane/specialists.py:265-286 | on a checked table every target has a specialist: the one route that names it, or the builtin default |
| Routing.ResolvesWhateverTheCase | agentic_control_plane/specialists.py:273-276 | names that fold alike resolve alike |
| Routing.ResolvesInAnyOrder | agentic_control_plane/specialists.py:265-286 | permuting the routes of a checked table changes nothing, and it stays checked |
| Routing.OrderMattersUnchecked | agentic_control_plane/specialists.py:215-218 | an unchecked table on which the order matters |
| Routing.SpellingsAgree | agentic_control_plane/specialists.py:248-262 | every spelling (https, scp, backslashes, .git, slashes, blanks) leads back to the plain name if and only if it keeps .git or the name does not end in it |
| Metrics.SummarizeRun | agentic_control_plane/metrics.py:32-59 | the first failure in the trail and the first success after it, with their times |
| Metrics.ArcMeans | agentic_control_plane/metrics.py:40-48 | the failure is the first test end that says so, the recovery the first after it that says it passed |
| Metrics.MetricsSeeFailures | agentic_control_plane/metrics.py:39-48 | in every reachable state with a retry allowed: a failure is seen if and only if a test failed (equally, a retry was used), a recovery if and only if one passed after it; with none allowed: a failure if and only if the first test and the fallback's both failed, never a recovery |
| Metrics.MetricsMissTheFallback | agentic_control_plane/metrics.py:44-48 | with no retry allowed, a run whose first test failed and whose fallback passed shows neither |
| Metrics.SuchARun | agentic_control_plane/metrics.py:44-48 | there is such a run |
| Metrics.RatesOfRuns | agentic_control_plane/metrics.py:62-76 | over any runs the success and rollback rates lie in [0,1] and the retry frequency below 1 |
| Metrics.RatesMeaning | agentic_control_plane/metrics.py:62-76 | the rates are the completed runs and the rollbacks per run, and the retries among retries plus runs |
| Metrics.TimesMeaning | agentic_control_plane/metrics.py:78-91 | repair time and latency are the means, over the runs that have both ends, of the time between them; none when no run has |
| Metrics.AllCompleted | agentic_control_plane/metrics.py:66-68 | a success rate of 1 means every run completed |
| Metrics.RepairTimeMeaning | agentic_control_plane/metrics.py:78-83 | a repair time is reported if and only if some run recovered, and is not negative when time does not run backwards |

## Left out

- Kafka, Postgres, git, pytest, HTTP and LangGraph themselves: only their effects are modelled.
- Prompt building, keyword scans, guardrail patterns, JSON parsing, credentials, Docker probing, logging and heartbeat; guardrail findings are a function of the code files.
- Event details other than the test executor's, and all times inside the graph state; the metrics take the timestamps beside it.
- Parsing of triggers and decisions: a message is invalid or carries work, a decision is approved, rejected or edited.
- SdlcTheorems.RaisesExactlyWhen: git is taken to be installed and the output of its commands on a checkout to be text; otherwise a node could raise where the model has a failed command.
- Removing a directory, and publishing an event, are taken to work; a target write that fails is taken not to have happened.
- Crashes in the middle of a graph slice, or between the end of a run and its delivery.
- HandOffTheorems.ExactlyOnceInOrder: does not cover a consumer group rebalance, which resets positions to the committed ones and redelivers; the safety theorems do cover it.
- HandOffProgress.BackpressureOnlyDelays: says nothing of a process whose inbox writes keep failing; each failure only rewinds and pauses.
- ControlPlane.Process.PollLoop: the stop event is a number of passes.
- ControlPlane.Process.PollCycle: how many messages of a partition the broker serves is a parameter, and so is whether each database call works.
- Order across a restart with more rows than the queue holds: the newest rows wait for a later start.
- Runner.ServedIsUninterrupted: a decision sent after a node raised runs that node again, here as in the program; the comparison with an uninterrupted run is not stated for histories that contain one.
- A decision carries no gate name, so a replayed one may answer the next gate; nothing is claimed about which gate a human meant.
- Decisions for a run whose workspace is gone (stale, failed or routing_changed) run a slice like any other in the lifecycle model; what such a slice does to an empty checkout is not modelled.
- LifecycleTheorems.TriggerReportsOnce: handlers and the sweep are taken one at a time; the program runs the sweep on its own thread.
- Expiry of parked specialist runs: the sweep asks the SDLC graph only, and the model does too. Being resumed by the same specialist is not checked by the program.
- Only the last attempt's files are scanned by the guardrails; files of earlier attempts stay on disk.
- Tests, generated code and specialists that run git themselves, writes under `.git`, and nested repositories that `git clean` spares.
- Audit lines that are JSON but not objects, extra keys in a record, and writes of the audit file that fail half-way without ending the process (a kill half-way is modelled).
- Strings beyond Latin-1 blanks: `str.strip` knows more whitespace, and case folding is a parameter.
