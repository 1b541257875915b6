# Verified model of the unattended coding-agent loop

This project models the loop that takes tickets off a backlog, has agents build, verify and review
them, and merges or escalates the result; the batch planner that prepares tickets; the bounded
child-process runner everything rests on; and the backlog edits an autopilot run may commit.
`dafny verify dfyconfig.toml` checks all of it.

## What is modelled

**Ticket lifecycle and run driver.** `RunStores.RunStore` holds the snapshots and event logs; a
snapshot write is atomic, and any write or append may fail. Its ghost field `disks` is the list of
everything that was ever durably on disk, so a crash is a position in that list. Agents, git,
GitHub and file scans answer arbitrarily and leave effects on a ghost trace (`Evidence`). The
kernel, the ticket context, the failure handler, the two bounded agent loops, the CI observer, the
merge gate and the driver are methods over these, in the form the source has them. Three things
are carried through all of them: the store's invariant (coherent snapshots, legal moves only), the
evidence automaton on the trace (no merge without the whole chain), and `Proven` (what the log
claims about shipping happened). When no state is lost and nothing throws, what a ticket did and what
the log was told is exactly the account `TicketScripts` gives of it, from the answers the outside gave;
the driver's `passes` are the looks it took at the backlog, what each found, and what it took.

**Planning a batch.** `TopoOrders` runs Kahn's algorithm with counters against a definition on the
dependency graph. `Autoplans` runs each wave as workers that step in any order over the shared
queue, approvals and outcomes. `PlanningLoops` is the draft/review/decide loop of one ticket.

**Bounded child process.** `BoundedExecs` has one method per event (data, three timers, close,
error) tied to one step function, and statements about every possible sequence of events.

**Backlog edits.** `Frontmatters` has the flat frontmatter writer and the parser that reads it,
`DependencyEdits` and `AcceptanceCriteria` the two safe text edits, `TicketIds` and `TicketStubs`
what structural edits create, `BacklogFiles` the write-commit-or-roll-back step, `Refinements` the
whole pass and `RefinementFates` what it comes to, edit by edit. `StubScans` and `DependencyScans`
say what a scan reads of the result for every title and every name, `Escalations` what is left of a
parking once the ticket is approved, `SectionCopies` when replacing a section settles. Documents are
sequences of lines; characters matter where keys, lists, headings and list items are recognised.

## Where the code and its description part

Each of these is a lemma, with the exact condition under which the description holds.

- Merge checks: the gate before review summarizes the diff and compares the golden output so that no
  empty or behaviour-changing build ships, but a fix the reviewer asked for is built afterwards and is
  only verified. Both checks are of the build that merges exactly when no builder call follows the
  diff (`Evidence.ChecksSawTheMergedBuildIff`), that is when no review round spent a fix
  (`ReviewSteps.ReviewStep`), which is certain exactly with `maxReviewRounds` at most 1
  (`ReviewSteps.FixNeedsSecondRound`); then every merge is of the checked build
  (`Evidence.MergeRestsOnEvidence`), and with more rounds `Evidence.FixRoundOutdatesChecks` is a merge
  after a fix.
- Autonomy: the module comment gives `min(request ?? default, ceiling)`, while the function does not
  clamp an absent request; it meets the formula for every request exactly when the default is not above
  the ceiling (`MergeGates.AutonomyMeetsDocumentation`). The launch check in src/config.ts refuses every
  other configuration, so a launched loop always meets it (`MergeGates.LaunchedAutonomyIsDocumented`).
- Failure routing works from the persisted phase; from a mirror one move behind it would land only
  from Close behind MergeGate (`LoopStates.RoutingFromStaleMirror`).
- Planning: the comment on the loop (src/planning.ts:532-537) gives an ESCALATE one auto-decision, while
  the code (src/planning.ts:567-594) parks the ticket at once (`PlanningLoops.EscalateParks`).
- Approving: an approved ticket is promised not to read as escalated too. Its keys never do
  (`Frontmatters.ApprovedReadsBack`); of the findings a parking wrote, everything from their first line
  that opens a section stays, possibly under the very heading that was to go, so the ticket is the one
  approved at once exactly when they hold no such line (`Escalations.ApprovingAfterParking`,
  `Escalations.QuotedHeadingExample`).
- Child process: a comment says no timer is left after settling, but the data handler does not look
  at the latch, so a child whose kill failed arms a timer again by printing on. Options under which some
  run ends so are exactly those with a grace timer and a completion signal, or an idle timer whose kill
  note is not itself a signal; without signals, exactly those with an idle timer
  (`BoundedExecs.TimerOutlivesIff`, `BoundedExecs.LateOutputExample`). Without late output none is
  armed (`BoundedExecs.QuietAfterSettling`).
- Child process: a comment says a hard timeout is reported as "error"; with `allowFail` it is
  reported as "clean", with a nonzero code unless the grace timer fired too (`BoundedExecs.HardTimeoutReports`).
- Frontmatter: an upsert replaces the first of several equal keys while the parser reads the last,
  so a repeated key keeps its old reading (`Frontmatters.UpsertReadsBack`).
- Body sections: replacing a section is called idempotent; in a document with at most one such section
  it is exactly when no line of the new body opens a section of its own (`Frontmatters.ReplaceIsIdempotentIff`).
  With more than one it is not even for a plain body (`Frontmatters.TwoSectionsExample`), except when what
  follows the first one left over is copies of the section being written, up to the end
  (`SectionCopies.ReplaceSettlesIff`).
- Sharpening: criteria already stated are promised to be a no-op, and any strings are accepted as
  criteria. A criterion with a newline inside is read back as several lines, so it is never found again:
  a second pass changes nothing, and the section states what was proposed, exactly when no criterion has
  one (`AcceptanceCriteria.SharpenIsIdempotentIff`, `AcceptanceCriteria.SharpeningAddsExactly`,
  `AcceptanceCriteria.BrokenCriterionExample`).
- Adding a dependency: the editor edits the first list it recognises, the parser reads the last entry
  and accepts an indented one. The new dependency is lost when a later entry overrides the list edited,
  and the earlier ones are lost when only the parser saw them (`DependencyEdits.AddDependencyReadsBack`,
  `DependencyEdits.IndentedEntryIsHidden`).
- Adding a dependency: a duplicate is called a no-op. For a name of one line, adding it twice is adding it
  once exactly when it was listed before or its own reading is just itself or nothing; a comma or a closing
  bracket in it is enough to have it added every time (`DependencyScans.AddDependencyIsIdempotentIff`,
  `DependencyScans.RefindableExamples`).
- Adding a dependency: no other field is meant to change. A newline in the name puts what follows it into
  the block as lines of their own, which the parser reads (`DependencyScans.OtherFieldsAfterAdding`,
  `DependencyScans.ReleasingNameAdded`); without one every other field is kept
  (`DependencyScans.OneLineNameKeepsFields`).
- Stubs: a stub is called not loop-ready until a human acts, but its title and its dependencies are written
  as they come. A stub reads as sketched, unreleased and without pointers exactly when the lines behind
  a newline in them say nothing else under those keys, which is certain when there is no newline
  (`StubScans.StubReadsAsMeantIff`, `StubScans.OneLineStubIsUnreleased`); a title with a fence of its own
  decides every key, and one of them makes the stub loop-ready (`StubScans.ClosingTitleRules`,
  `StubScans.ReleasingTitleExample`).
- Rollback: a file whose own write failed half-way is not among those restored, so the tree is as
  before exactly when the failing write left that file alone (`BacklogFiles.Backlog.CommitChanges`,
  `BacklogFiles.TornWriteExample`).
- Allocation: ids above 999 are allocated but no scan accepts them (`TicketIds.AllocatedIdIsScannableIff`).
- Dependency gate: an unresolved empty dependency name counts as "nothing unresolved" and hides the
  names after it (`Autoplans.GateMeans`, `Autoplans.EmptyNameHidesDependencies`); the scan produces no such name.

## Model

| member | source | states |
|---|---|---|
| LoopStates.TerminalIffNoSuccessors | src/loopState.ts:62-115 | the terminal states are exactly those without a legal move out |
| LoopStates.RoutingFromPersistedPhase | src/ticketFailure.ts:86-104 | routing a failure from the phase on disk is legal move by move and lands on SelectTicket exactly when the run is not over |
| LoopStates.RoutingFromStaleMirror | src/ticketFailure.ts:77-104 | routing from a mirror one legal move behind lands exactly when the mirror says Close and MergeGate is persisted |
| LoopStates.NamesRoundTrip | src/loopState.ts:107-140 | a persisted phase name reads back as its state, nothing else is accepted, and null reads as Idle |
| Budgets.NoProgressScan | src/budget.ts:147-167 | the two index scans compute the starts since, and the time of, the last progress event as defined on the log |
| Budgets.EvaluatorMeaning | src/budget.ts:169-208 | within budget exactly when no arm is at its ceiling; a trip names the tripped arm of highest precedence |
| Budgets.MarkerMeans | src/budget.ts:139-193 | the evaluator measures all starts, the starts at positions after the last progress event, the time since the run started, and the time since that event, or since the start without one; progress is a merge decision, or a flag where flags count |
| Budgets.VerdictMeans | src/budget.ts:194-208 | on those measures: wall clock, starts, starts without progress, time without progress, in this order, each tripped at its ceiling |
| Budgets.GuardAgreesWithEvaluator | src/budget.ts:220-273 | on the views the loop head writes, the guard denies every move except into BudgetExceeded, NoProgress and NeedsHuman, with the evaluator's arm, exactly when the evaluator trips |
| Budgets.UntrippedMeansNoDenial | src/budget.ts:243-273 | untripped views mean no denial of any move; for a move not into BudgetExceeded, NoProgress or NeedsHuman no denial means untripped views |
| Budgets.TripsPersist | src/budget.ts:139-208 | a trip stays a trip as time passes and events without progress are appended |
| RunStores.TerminalNeverLeft | src/runStore.ts:280-375 | over everything ever on disk, a run once in a terminal phase stays in it |
| RunStores.HistoryIsMonotone | src/runStore.ts:280-375 | over everything ever on disk, logs only grow and a run that stopped running never runs again |
| RunStores.RunStore.WriteState | src/runStore.ts:100-135 | a coherent snapshot reachable by a legal write is replaced atomically and recorded on disk, or everything is as before |
| RunStores.RunStore.AppendEvent | src/runStore.ts:280-375 | one stamped event joins the log, or everything is as before |
| LoopKernels.Check | src/loopKernel.ts:41-56 | a move passes only if the table allows it and the guard does not deny it; a refusal of a legal move is a guard denial; nothing is written |
| LoopKernels.MovedIsOk | src/loopKernel.ts:57-69 | a legal, allowed move keeps the snapshot coherent (ticket recorded exactly inside a lifecycle, status matching a terminal phase) and is a legal write |
| LoopKernels.MovedMeans | src/loopKernel.ts:57-69 | a move writes its phase and ticket, at the end of a run also the status with no ticket in hand, and nothing else |
| LoopKernels.Advance | src/loopKernel.ts:41-71 | the move and its event are both durable, or the failure left at most the snapshot moved and the event missing; a rejected move writes nothing |
| TicketContexts.TicketRunContext.Enter | src/ticketRunContext.ts:39-42 | a move succeeds only if legal from the persisted phase and then the snapshot is exactly the moved one; failures are an illegal move or a store fault |
| TicketContexts.TicketRunContext.Flagged | src/ticketFailure.ts:59-76 | one flag of the ticket, at the phase given, is on the log and the ticket no longer counts as cleanly shipped, or after exactly three attempts the record failure is thrown and only a write fault causes it |
| TicketContexts.TicketRunContext.PersistedPhase | src/ticketFailure.ts:77-85 | with readable state the phase returned is the one on disk |
| TicketContexts.TicketRunContext.FailAndContinue | src/ticketFailure.ts:90-104 | with readable state, under any write faults: a flag at the persisted phase is on the log, only legal moves were made, and returning means SelectTicket with no current ticket |
| TicketContexts.TicketRunContext.Route | src/ticketFailure.ts:93-103 | the routing moves, made from the persisted phase, settle the run or fail on a store fault only |
| MergeGates.SubstantiveIff | src/ticketExecutionGate.ts:31-50 | a changed file counts exactly when it is not the ticket file and no segment of its path is node_modules |
| Text.SplitRejoins | src/ticketExecutionGate.ts:31-50 | the segments of a path, none holding a separator, give the path again |
| MergeGates.ProtectedFilesIff | src/mergeGate.ts:27-52 | nothing is reported exactly when no changed file matches a protected path |
| Text.IncludesIff | src/mergeGate.ts:27-52 | one text includes another exactly when it is that one with something or nothing on either side |
| MergeGates.ClassifyRisk | src/mergeGate.ts:27-52 | the reasons are exactly those that hold of the diff, each with its files, lines or finding, and risk is low exactly when there is none, which is exactly the low-risk condition |
| MergeGates.AutonomyMeetsDocumentation | src/autonomy.ts:44-72 | the mode is the documented one for every request exactly when the default does not exceed the ceiling; a request that is present always meets the formula |
| MergeGates.RequestIsReported | src/autonomy.ts:56-71 | the source says epic exactly when a request was made, clamped exactly when it was autopilot under a review ceiling, invalid exactly when it was neither mode |
| MergeGates.LaunchedAutonomyIsDocumented | src/config.ts:88-104 | under a configuration the launch accepts, the mode is the documented one and within the ceiling for every request, and autopilot needs the ceiling flag to say so |
| MergeGates.AutoMergeIff | src/mergeGate.ts:54-84 | the gate merges exactly on green CI, APPROVE, low risk and an effective autopilot mode |
| Evidence.StageHolds | src/mergeGateStep.ts:27-73 | every step the evidence automaton remembers stands in the trace, in order, with nothing after it that would undo it |
| Evidence.MergeRestsOnEvidence | src/mergeGateStep.ts:27-73 | any merge in an accepted trace has before it a build verified and not touched since, its substantive diff, then (where a baseline was captured before any build) its unchanged golden output, and after these APPROVE, close, push, PR, green poll, low risk, autopilot in order; the last build, that one or a later fix, was verified before the APPROVE, and is the one checked where the configuration allows a single review round; resumed at Review, the build is taken on trust but any new one was verified |
| Evidence.ChecksSawTheMergedBuildIff | src/reviewStep.ts:66-84 | the build the diff and the golden output were checked on is the one that merges exactly when no builder call follows the diff; otherwise the merged one was built between the checks and the approval |
| Evidence.FixRoundOutdatesChecks | src/reviewStep.ts:66-84 | wherever a second review round is allowed: one fix round of a refactor ticket, carried through to a merge whose build is later than the diff and the golden compare |
| TicketOutcomes.OutcomeIsLocal | src/ticketOutcomes.ts:60-123 | a ticket's outcome from the full log equals its outcome from its own events |
| TicketOutcomes.AccountMeans | src/ticketOutcomes.ts:60-123 | by the positions of a ticket's events: built, verified and decided as last told, closed if ever told, flagged since the decision exactly if a flag is later, flagged at the gate exactly if some flag says so |
| TicketOutcomes.DeriveTicketOutcomes | src/ticketOutcomes.ts:60-123 | one outcome per ticket in order of first appearance, each the position-free account of the log (decision, flag since it, flag at the gate) |
| TicketOutcomes.FeedMatches | src/ticketOutcomes.ts:74-101 | each event keeps the positional accumulator and the position-free account in agreement |
| ExecutePlans.ExecutePlan | src/executePlan.ts:85-210 | returns what the attempts amount to, with one builder call and one verification per attempt and one consult per grant; verified leaves a verified build |
| ExecutePlans.ExecuteOutcomeMeans | src/executePlan.ts:107-210 | between 1 and max attempts; verified exactly when the last verification passed; consults at most min(cap, max-1); plan-unworkable never on the last attempt; stalled only after three failures with one signature |
| PlanRules.OutcomeIs | src/executePlan.ts:107-210 | with diagnosis: verified, stalled, plan-unworkable or exhausted exactly by the rules read off the attempts, a consult that does not say no overturning a local no, and no attempt before the last having met one of them |
| PlanRules.BlindOutcomeIs | src/executePlan.ts:120-134 | without diagnosis: verified exactly when the last attempt passed, else exhausted with no diagnosis |
| PlanRules.TraceIs | src/executePlan.ts:107-180 | each attempt builds and verifies once, and asks for a consult exactly where a repeat or a doubt about the plan wants one, any is left, codex is there and the attempt is not the last |
| ExecutePlans.MemoryMeans | src/executePlan.ts:107-165 | the loop's memory counts consults exactly and holds only signatures that were seen, a stalled one twice in a row |
| ExecutePlans.ConstantFailureStopsAtThree | src/executePlan.ts:165-205 | one constant failing signature with every diagnosis favourable stops at exactly attempt 3 when max allows |
| ReviewSteps.ReviewStep | src/reviewStep.ts:36-90 | never returns REQUEST_CHANGES; approval exactly when the verdict is APPROVE, on a build verified since it was last touched; the verdict is what the rounds amount to, and what was done is one review a round and one build and verification a fix; with one round allowed the build is the one the step began with |
| ReviewSteps.FixNeedsSecondRound | src/reviewStep.ts:49-90 | every approval is of a build no fix touched exactly when at most one round is allowed |
| CiObservers.GreenMeans | src/ci.ts:60-112 | green exactly when the last poll listed checks and none failed, was cancelled or is pending; red exactly on a failed one; a pending timeout only with every poll spent |
| CiObservers.MaxPollsMeans | src/ci.ts:63-63 | the number of polls is the least that, an interval each, covers the timeout, and at least one |
| CiObservers.NoSignalMeans | src/ci.ts:68-112 | when nothing is reported: not before the third poll, and then at once; otherwise only with every poll spent |
| CiObservers.ObserveCi | src/ci.ts:60-112 | at most the computed number of polls; the observation is what they amount to; green exactly when the evidence for it is on the trace |
| TicketLifecycles.PrepareTicketWorktree | src/ticketStart.ts:19-94 | a worktree with the start phase persisted, or the ticket refused and the run back at SelectTicket; undisturbed, exactly the account's start |
| TicketLifecycles.ExecutionGate | src/ticketExecutionGate.ts:52-146 | passes only with a verified, substantive build and, where captured, an unchanged golden output; otherwise already routed back; undisturbed, it passes exactly when the account says so and did exactly its build and checks |
| TicketLifecycles.ReviewAndClose | src/ticketReviewClose.ts:23-61 | review, close and gate end settled with exactly the account's effects and words, or fail in a way the failure handler can route |
| TicketLifecycles.MergeGateStep | src/mergeGateStep.ts:23-96 | from a closed ticket: returning normally it is settled and has done and told exactly the account of the gate, which GateMergesIff reads: the merge it decided on or the escalation; it fails only when something threw or was lost, never with an illegal or denied move |
| TicketLifecycles.RunTicket | src/orchestrator.ts:46-75 | under every pattern of failed writes and appends: no illegal or denied move when state is readable; returning normally the run is at SelectTicket with no ticket, and what the log claims shipped was shipped. When no state is lost and nothing throws, what was done and told is exactly the ticket's account; when something throws, the last word is a flag |
| TicketScripts.GateMergesIff | src/mergeGateStep.ts:33-94 | push and pull request come first; the merge is there exactly with a green last poll, an APPROVE, a low-risk diff and a request that resolves to autopilot, else the escalation; the decision on the log names the one made |
| TicketScripts.MergedIff | src/orchestrator.ts:60-67 | an undisturbed ticket is merged exactly when it was started or resumed, built and verified with a change that counts and an unchanged golden output where one was captured, approved in its last review, and the gate had a remote, a green last poll, a low-risk diff and a request for autopilot |
| TicketScripts.FlaggedIff | src/orchestrator.ts:60-67 | an undisturbed ticket is flagged exactly when it did not start, was not built, or a fix in its review broke the build |
| LoopDependencies.LoopDeps.RecordStart | src/controlledRunners.ts:144-200 | the record of a runner call says its place among the calls of the run, its directory, and the ticket and phase in hand |
| Resumes.LastStartedIsLast | src/resume.ts:31-40 | the event found is the last runner.started of that phase and ticket |
| Resumes.LatestResumableRun | src/runStore.ts:359-368 | a running run started no earlier than any other running one, and none only when nothing runs |
| Resumes.ResolveResumePoint | src/resume.ts:23-50 | the point of the latest running run, or null only when nothing runs or that run has no point |
| Resumes.PointIsFaithful | src/resume.ts:23-50 | a point's phase and ticket are the snapshot's, its run is running and unended, its directory is that of the last matching start; there is none exactly when the run was not building or reviewing, had no ticket, has ended, or its last call for that ticket and phase is missing or names no directory |
| Resumes.CallIsResumedFrom | src/resume.ts:31-50 | once a runner call is on record, with a directory, it is the run's point until the run ends, moves on or calls again |
| Resumes.EveryCrashIsResumable | src/orchestrator.ts:88-111 | after a crash between any two durable writes, the point resolved meets everything re-entering the ticket requires |
| RunLogs.StartKeeps | src/orchestrator.ts:219-262 | a start the loop head allowed keeps the log's bounds: starts within the ceiling, starts since progress within theirs, no flagged ticket restarted |
| RunLogs.StartlessKeeps | src/orchestrator.ts:198-274 | events that start nothing keep those bounds |
| RunLogs.OwnLogKeepsIds | src/orchestrator.ts:258-266 | a ticket's lifecycle starts no ticket and flags itself or none |
| RunLoops.CheckBudget | src/orchestrator.ts:218-235 | the run is ended, with the tripped arm on the log, exactly as the evaluator says; otherwise exactly the views are written, and they deny nothing |
| RunLoops.PickNext | src/scanTickets.ts:221-230 | the least id among the loop-ready tickets not skipped whose dependencies are all done; none only when there is none |
| RunLoops.ProcessTicket | src/orchestrator.ts:248-273 | the ticket is started once and appended to the processed ones, its lifecycle is what was done in between, complete unless something threw and then flagged; flagged tickets join the skip set, every bound on the log kept |
| RunLoops.PickAndRun | src/orchestrator.ts:237-273 | a ticket is taken exactly when one in the scan is due (loop-ready, not flagged in this run, every dependency done), the least such id, started once and carried through its lifecycle; with none due the loop ends exactly when it is drained or runs for one ticket, and else sleeps a poll interval |
| RunLoops.TakeTurn | src/orchestrator.ts:198-274 | one pass: the kill switch stops the run, a tripped arm stops it with that arm on the log, else a look at the backlog as in PickAndRun |
| RunLoops.Grind | src/orchestrator.ts:198-274 | at most maxTicketsPerRun + ceil(maxWallClockMs / poll interval) + 1 passes, each but the last going on; what they took is what the log started and the queue processed, what they did is all that was done; the loop is left with as many taken as allowed, or drained, or stopped for the reason its last pass gives; no guard denial or illegal move, every bound kept |
| RunLoops.Finish | src/orchestrator.ts:276-284 | Done, then run.completed as the only end of the log, agreeing with the status |
| RunLoops.ResumeRun | src/orchestrator.ts:88-111 | from a faithful point, re-entering the ticket and advancing to Done makes only legal moves, whatever writes fail; once the worktree is reopened it fails only by faults, and undisturbed what was done is the account of the ticket taken up in that phase |
| RunLoops.Reenter | src/orchestrator.ts:89-126 | the crashed run is completed, or, unless writes fail, marked stopped |
| RunLoops.RunFresh | src/orchestrator.ts:140-339 | a run that returns logged exactly one end, agreeing with its status; completed means every pass took the ticket due and nothing is left to take, stopped means its last pass says why; what was done is what its passes did; bounds on starts, progress and restarts hold however it ended |
| RunLoops.RunLoop | src/orchestrator.ts:77-339 | for any configuration and any faults with readable state: never a loop-state error, never an incoherent snapshot, at most the bounded passes; the latest running run is tried exactly if it has a point, and is then resumed or, unless writes fail, stopped; a run that returns, fresh or resumed, has one end on its log agreeing with its status, and what it claims shipped was shipped; without faults a loop that passed its preflight returns |
| RunLoops.RestartAfterCrash | src/orchestrator.ts:86-139 | the same for a loop started on whatever a crashed one had on disk, the run resumed being the latest running one on it, at its point |
| RunLoops.ReportedOutcomesHappened | src/ticketOutcomes.ts:103-123 | merged in the outcome report means the merge happened with all its evidence; no cleanup pending means the worktree cleanup completed |
| Ids.LessIff | src/planning.ts:186-201 | one id sorts before another exactly if it stops inside it or is smaller where they first differ |
| Ids.ListingIsUnique | src/planning.ts:186-201 | a set of ids has one sorted listing, so sorting forgets how the ids came |
| Ids.SortLists | src/planning.ts:186-201 | sorting distinct ids lists exactly their set in order |
| TopoOrders.TopoOrder | src/planning.ts:174-208 | the counters and the ready queue compute the order of the dependency graph; what is left comes back in input order |
| TopoOrders.OrderRespectsDependencies | src/planning.ts:169-208 | no id twice, and every in-batch dependency before its dependent |
| TopoOrders.LeftoverIsGreatestStuckSet | src/planning.ts:169-208 | each leftover id depends on a leftover id, and every set of ids with that property is part of the leftover |
| TopoOrders.OrderIgnoresPresentation | src/planning.ts:179-201 | the order is the same for any order of the input and any repetition of edges |
| TopoOrders.OrderAndLeftoverPartition | src/planning.ts:203-207 | order and leftover together are a permutation of the input |
| TopoOrders.ChargeDependents | src/planning.ts:193-201 | one placement lowers each waiting counter by one where due and frees exactly the ids that wait for nothing else |
| Autoplans.GateMeans | src/planning.ts:224-235 | the gate opens exactly when every dependency is approved or satisfied outside the batch, or the check stopped at an empty name that is neither |
| Autoplans.EmptyNameHidesDependencies | src/planning.ts:291-296 | an empty name before an unresolved dependency lets the ticket through; after it, not |
| Autoplans.ReferenceIsConsistent | src/planning.ts:248-342 | planning one at a time settles every ticket against the final approvals, not just those so far |
| Autoplans.AdvanceKeepsWave | src/planning.ts:154-167 | any step of any worker keeps every ticket of the wave where planning it alone would have it |
| Autoplans.AdvanceLawful | src/planning.ts:265-317 | any step keeps approvals equal to the persisted ones, and drafts only what they open the gate for |
| Autoplans.RunWithCap | src/planning.ts:154-167 | for every cap and interleaving the wave drains with at most the cap in flight, every ticket settles as it would alone, and drafting stays safe |
| Autoplans.SomeoneIsReady | src/planning.ts:320-325 | no wave is empty: the defensive break is never taken |
| Autoplans.WaveAgrees | src/planning.ts:319-328 | a ticket whose in-batch dependencies are settled settles as in the sequential run |
| Autoplans.AutoplanEpic | src/planning.ts:248-342 | for every cap and interleaving, with at most the cap in flight: the sequential outcome array, one outcome per ticket, the sequential log ticket by ticket; each ordered ticket is drafted, with the plan's own outcome or its error recorded, exactly when every dependency before an empty name is approved or satisfied outside, else it waits for the first that is not, undrafted; a record that fails to persist is a planning error; only safe drafts, though a draft may read what the ticket's own dependencies left behind |
| Autoplans.ApprovalRestsOnDependencies | src/planning.ts:224-317 | an approved ticket without empty dependency names has each dependency approved in the results with a completed persist, or satisfied outside the batch |
| Autoplans.OneTerminalEach | src/planning.ts:265-336 | exactly one terminal event per ticket, drafted or not, persisted or not, thrown or not |
| PlanningLoops.PlanningDeps.DraftAndReview | src/planning.ts:555-557 | one draft and its one review, of the artifacts just drafted, counted as the next round |
| PlanningLoops.RunPlanningLoop | src/planning.ts:542-637 | with a budget of all rounds for a brainstorm and at most two otherwise: at most max(budget, 0) + 2 drafts, one review each, at most one decision; calls follow the protocol; what is returned, a parked ticket's findings included, is what the last answers justify; one terminal event, none on a throw |
| PlanningLoops.EscalateParks | src/planning.ts:567-594 | after an ESCALATE nothing is drafted, reviewed or decided |
| PlanningLoops.DecisionIsKeptFirst | src/planning.ts:606-621 | a draft that follows a decision follows a durable record of that very decision on those very findings |
| PlanningLoops.ApprovalIsOfTheLastDraft | src/planning.ts:563-566 | what is approved is what the last draft produced and the last review read |
| BoundedExecs.ChildRun.SettleOnce | src/runners.ts:80-89 | the first caller settles, disarms every timer and reports; later callers change nothing |
| BoundedExecs.ChildRun.OnData | src/runners.ts:137-162 | output grows and the timer of the resulting mode is armed, as one step of the model |
| BoundedExecs.ChildRun.OnClose | src/runners.ts:176-202 | a closing child settles by grace, idle kill, hard timeout or code, with its output, as one step of the model |
| BoundedExecs.BeforeSettling | src/runners.ts:91-174 | while unsettled the flags are exactly the timers that fired, and while not killed the armed timer is exactly the configured one: idle before the signal, grace after |
| BoundedExecs.SettlesOnce | src/runners.ts:78-89 | whatever follows, the first settlement and its one report stand |
| BoundedExecs.SettledIff | src/runners.ts:176-207 | a run has settled, with exactly one report, exactly when a close or error arrived |
| BoundedExecs.ResultIs | src/runners.ts:176-207 | the exact result and report of every run at its first end: output, code and rejection by the timers that fired before it, the code the child closed with, and whether failure is allowed |
| BoundedExecs.OutputIsCaptured | src/runners.ts:91-162 | the output is the chunks and the notes of the hard and idle timers in the order they came |
| BoundedExecs.InGraceIff | src/runners.ts:137-162 | the grace period began exactly when the output held a completion signal after some chunk |
| BoundedExecs.ResolvesZeroIff | src/runners.ts:176-207 | code 0 exactly when the first end is a close after a grace kill, or a close with code 0 or none and no timer fired |
| BoundedExecs.ReasonsMean | src/runners.ts:176-207 | completion-grace always resolves 0; idle-timeout is 124 or a rejection; an error that ends the run is 127 or a rejection |
| BoundedExecs.HardTimeoutReports | src/runners.ts:91-105 | a child that closes after a hard timeout resolves 0 exactly when the grace timer fired too; with no other timer fired an error is reported exactly when failure is not allowed |
| BoundedExecs.GraceRestsOnSignal | src/runners.ts:137-162 | the grace period, and success by it, rests on a completion signal in the output |
| BoundedExecs.QuietAfterSettling | src/runners.ts:80-89 | after settling no timer is armed as long as no output arrives |
| BoundedExecs.SettlingDisarms | src/runners.ts:80-89 | the event that settles leaves no timer armed |
| BoundedExecs.LateOutputRearms | src/runners.ts:137-162 | output after settling arms a timer again exactly when the timer of its mode is configured |
| BoundedExecs.TimerOutlivesIff | src/runners.ts:80-162 | some run a child can make happen ends settled with a timer armed exactly under options a caller can check: a grace timer and a signal, or an idle timer whose kill note leaves room |
| BoundedExecs.LateOutputExample | src/runners.ts:108-162 | such a run: the idle timer fires, the kill is refused, and the child goes on printing |
| TicketIds.IdRoundTrip | src/structuralRefinement.ts:13-25 | an id reads back as the number it was made from, padding or not |
| TicketIds.AllocationIsFresh | src/structuralRefinement.ts:19-25 | allocated ids are pairwise distinct and differ from every existing id |
| TicketIds.AllocationExtends | src/applyRefinement.ts:199-210 | asking for more ids repeats those handed out and goes on from there |
| TicketIds.AllocatedIdIsScannableIff | src/scanTickets.ts:27-33 | an allocated id is one a scan accepts exactly up to number 999 |
| TicketIds.PathTellsTheTicket | src/applyRefinement.ts:221-225 | stubs with different numbers have different paths, whatever their slugs |
| TicketIds.SlugifyTicketTitle | src/structuralRefinement.ts:37-48 | as many whole words as fit under the cap, at least one, an overlong one cut |
| TicketIds.SlugIsClean | src/structuralRefinement.ts:37-48 | a slug is nonempty, at most 50 characters of letters, digits and hyphens, no hyphen at an end |
| Frontmatters.EntryRoundTrip | src/frontmatter.ts:34-45 | a written entry reads back as its key and its value, outer blanks aside |
| Frontmatters.ParseFrontmatter | src/scanTickets.ts:44-63 | the record read is exactly the last value of each key of the block, and empty without a block |
| Frontmatters.QuotedReads | src/scanTickets.ts:51-60 | quotes around a value are not part of it and keep it from being a flag or a list |
| Frontmatters.UpsertFrontmatter | src/frontmatter.ts:26-50 | walking the block with a shrinking map of updates rewrites first occurrences in place and appends the rest |
| Frontmatters.UpsertReadsBack | src/frontmatter.ts:26-50 | every updated key not repeated in the block reads as written, a repeated one as before, other keys as before, and the text after the block is untouched |
| Frontmatters.UpsertIsIdempotent | src/frontmatter.ts:26-50 | the same upsert again changes nothing |
| Frontmatters.RemovedKeysAreGone | src/frontmatter.ts:56-68 | removed keys are gone for the reader; other keys and the text after the block are as before |
| Frontmatters.SectionRemovalKeepsBlock | src/frontmatter.ts:80-83 | removing a body section leaves the frontmatter alone unless its heading stands inside it |
| Frontmatters.ReplaceIsIdempotentIff | src/frontmatter.ts:86-91 | with at most one such section, replacing twice is replacing once exactly when no line of the body opens a section |
| SectionCopies.ReplaceSettlesIff | src/frontmatter.ts:71-91 | for every document: replacing twice is replacing once exactly when no such section is left and no line of the body opens one, or those left are copies of the section written, up to the end |
| SectionCopies.ShiftIsCopies | src/frontmatter.ts:80-91 | lines that come back unchanged after their first section was cut and the new one put behind are copies of it |
| Frontmatters.TwoSectionsExample | src/frontmatter.ts:86-91 | a document with two such sections that a second replacement changes again |
| Escalations.ApprovingAfterParking | src/planning.ts:459-505 | trailing blanks aside, parking a ticket and approving it later gives the ticket approved at once and after it what the findings hold from their first section line on, so the same ticket exactly when they hold none |
| Escalations.EscalatedReadsBack | src/planning.ts:495-505 | a parked ticket reads with its three stamps, a repeated key and every other key as before |
| Escalations.QuotedHeadingExample | src/planning.ts:459-505 | findings that quote the section's own heading leave that section in the approved ticket |
| Frontmatters.ApprovedReadsBack | src/planning.ts:459-476 | an approved ticket reads back planned and released with both pointers and date and no escalation key; a repeated key and every other key keep their reading |
| DependencyEdits.AddDependencyIsIdempotent | src/applyRefinement.ts:50-66 | adding a plain dependency name again changes nothing |
| DependencyEdits.AddDependencyTouchesOneLine | src/applyRefinement.ts:50-66 | one recognised list line is replaced or one line added at the block's end; every other line stays |
| DependencyEdits.AddDependencyReadsBack | src/applyRefinement.ts:50-66 | whatever entries the block repeats: a scan then reads what it read before if a later entry overrides the list edited, the new dependency alone if only the parser saw the earlier ones, else the earlier ones and the new one |
| DependencyEdits.IndentedEntryIsHidden | src/applyRefinement.ts:35-36 | indenting an entry hides it from the editor and not from the parser |
| DependencyScans.AddDependencyIsIdempotentIff | src/applyRefinement.ts:50-66 | for every name of one line, written and read again: adding it twice is adding it once exactly when it was listed or its own tokens are itself or none |
| DependencyScans.RefindableExamples | src/applyRefinement.ts:57-61 | a name with a comma and one with a bracket are not found again |
| DependencyScans.OtherFieldsAfterAdding | src/applyRefinement.ts:45-66 | for every name: under any other key a scan then reads what it read, unless the lines behind the name's newlines say otherwise or close the block before it |
| DependencyScans.OneLineNameKeepsFields | src/applyRefinement.ts:45-66 | a name of one line changes no other field |
| DependencyScans.ReleasingNameAdded | src/applyRefinement.ts:50-66 | a name after which any ticket whose file has no list the editor knows reads as released |
| AcceptanceCriteria.DedupeNew | src/applyRefinement.ts:111-120 | the normal forms not seen before, each once, in order |
| AcceptanceCriteria.ApplySharpenCriteria | src/applyRefinement.ts:73-108 | the lines spliced, joined and read again are the edit the other statements are about, newlines inside criteria included |
| AcceptanceCriteria.SharpeningAddsExactly | src/applyRefinement.ts:73-108 | afterwards the section states exactly the criteria it stated and those proposed, compared by normal form, exactly when no criterion has a newline inside |
| AcceptanceCriteria.SharpenIsIdempotentIff | src/applyRefinement.ts:73-120 | sharpening by the same proposal again changes nothing exactly when no criterion has a newline inside, and otherwise makes the text longer |
| AcceptanceCriteria.BrokenCriterionExample | src/applyRefinement.ts:73-120 | the criterion of two lines that is stated as its first line only and added again |
| AcceptanceCriteria.SharpenKeepsLines | src/applyRefinement.ts:73-108 | new lines stand in one place between the old ones, or after the text with its trailing blanks trimmed |
| AcceptanceCriteria.SharpenKeepsBlock | src/applyRefinement.ts:73-108 | the frontmatter is untouched if no line in it reads as a section heading |
| TicketStubs.StubReads | src/structuralRefinement.ts:55-124 | with a title of one line and plain dependency names, whatever the text, the file read back has the title, the status, no release, no pointers and the dependencies given |
| StubScans.StubFieldReads | src/structuralRefinement.ts:55-124 | for every title and every list of dependencies: under status, loop, spec and plan a scan reads what the lines behind their newlines say last, else what was meant, else (the title having closed the block) nothing |
| StubScans.StubReadsAsMeantIff | src/structuralRefinement.ts:55-124 | a stub reads as sketched, unreleased and without pointers exactly when those lines are harmless |
| StubScans.ReleasedByExtraOnly | src/scanTickets.ts:108-175 | a stub a scan finds loop-ready, whatever files there are, is released by those lines: they say loop: true and give both pointers |
| StubScans.OneLineStubIsUnreleased | src/structuralRefinement.ts:55-124 | without a newline in title and dependencies no scan finds the stub loop-ready |
| StubScans.ClosingTitleRules | src/structuralRefinement.ts:55-71 | a title with entries and a fence of its own has the last word on every key |
| StubScans.ReleasingTitleExample | src/scanTickets.ts:108-175 | such a title makes any stub loop-ready once one file is there |
| StubScans.ReleasingNameExample | src/structuralRefinement.ts:50-71 | a dependency name with a newline makes a stub under an ordinary title read as released |
| BacklogFiles.Backlog.CommitChanges | src/applyRefinement.ts:306-336 | committed exactly when every write and the commit succeed: the tree overridden on the changed paths only, one commit of exactly those; rolled back: the tree as before exactly when no write failed or the one that did had left its own file alone; never anything outside the changes |
| BacklogFiles.Backlog.RollBack | src/applyRefinement.ts:324-330 | restoring what was written, created files deleted, gives back the tree but for a torn file |
| BacklogFiles.TornWriteExample | src/applyRefinement.ts:315-330 | a failing first write that truncates its file: the rollback succeeds and the file stays truncated |
| Refinements.FoldEdits | src/applyRefinement.ts:193-301 | the loop over the edits computes the fold the other statements are about |
| Refinements.FoldKeeps | src/applyRefinement.ts:193-301 | every file remembers what the tree held, the files to create are exactly the stubs made, and structural edits stay within the cap |
| Refinements.OneRecordEach | src/applyRefinement.ts:212-301 | each edit has exactly one applied or skipped record; at most two structural ones are applied |
| Refinements.CreatedIdsAreNew | src/applyRefinement.ts:199-210 | the ids created are pairwise distinct and unequal to every existing id, despite blocks consumed by skipped edits |
| Refinements.FileIsItsEdits | src/applyRefinement.ts:275-301 | an existing file ends as its own edits one after the other, whatever the other edits did, and only a file with edits is touched |
| RefinementFates.EveryFate | src/applyRefinement.ts:193-301 | the record of each edit: over the cap with two structural ones applied, unknown without exactly one (sketched, for a text edit) ticket of its id, a collision on a name taken, unreadable, a no-op exactly if the text would not change, else applied with the next free numbers |
| RefinementFates.StubsAre | src/applyRefinement.ts:223-273 | the stubs are those of the structural edits applied: number, name, title, text, and the dependencies proposed, or those of the ticket that was split |
| RefinementFates.FileTextIs | src/applyRefinement.ts:275-301 | an existing file is touched exactly by the text edits for the one sketched ticket in it, and ends as they make it one after the other |
| RefinementFates.RecordsAreSplit | src/applyRefinement.ts:212-301 | skipped and applied records are all the records |
| RefinementFates.SkipsAreTold | src/applyRefinement.ts:303-304 | one event for each skipped record, in order |
| RefinementFates.AppliedAreTold | src/applyRefinement.ts:338-340 | one event for each applied record, in order |
| RefinementFates.WiringIsAskedFor | src/applyRefinement.ts:341-342 | wiring into the epic is asked for exactly for the structural edits applied |
| Refinements.RunApplyRefinement | src/applyRefinement.ts:161-343 | nothing is touched exactly in review mode, with the kill switch or a tripped budget, and the reason recorded is the first of these; otherwise landed exactly when something changed, no write failed and the commit went through, unchanged exactly when nothing did, else undone or reported, with records after the commit; only a failed rollback throws |
| RefinementReplays.AllAreNoops | src/applyRefinement.ts:292-300 | after a sequence of safe edits to a file, each of them is a no-op |
| RefinementReplays.SatisfiedStays | src/applyRefinement.ts:50-108 | no safe edit takes away what another asked for |
| RefinementReplays.LandedIsItsEdits | src/applyRefinement.ts:275-320 | a landed proposal leaves each existing file as its own edits make it |
| RefinementReplays.ReplaySkipsEverything | src/applyRefinement.ts:161-343 | applying a landed safe proposal again skips every edit of it |
| RefinementReplays.LandTwice | src/applyRefinement.ts:161-343 | two passes of one safe proposal: if the first went through, the second records a skip for every edit and touches neither the tree nor the history |

## Left out

- MergeRestsOnEvidence: a run resumed at Review is not asked for the build, diff and golden evidence of before the crash, because the source takes it from the persisted phase.
- RunTicket: its exact account is promised when no state is lost and nothing throws; what was done before a throw is bounded by the evidence automaton alone.
- RunLoop: state is assumed readable (writes, appends and files may fail); failed reads are modelled inside a ticket, where the settle guarantee is stated for readable state.
- RunFresh: state is assumed readable, as in RunLoop.
- RestartAfterCrash: state is assumed readable, as in RunLoop.
- RunTicket: the path without a run id, where recording is a no-op, is not modelled; with state that cannot be read only coherence and merge evidence are promised.
- PickAndRun: the kill switch, the scan and which dependencies are done are arbitrary answers, and the tickets of a scan are taken as it gives them.
- ResumeRun: finding the ticket and reopening its worktree are arbitrary answers.
- ObserveCi: the poll interval is a shipped constant, 30; a zero, whose quotient is infinite or no number, would count as one poll.
- PickNext: ids are compared by code point, the source by locale; equal for ids of one letter case.
- ReviewStep: review texts and failure signatures are values without structure.
- ExecutePlan: prompts, sessions and log pointers are not modelled; a signature is a text the verification reports.
- DeriveTicketOutcomes: the phase of a flag is the event's own field; the fallback to the event's data, and the verification command text, are not modelled.
- RunStore.WriteState: run ids are numbers, and the temporary file and the rename are one atomic write.
- AutoplanEpic: the wording around the detail in a finding is abbreviated; timestamps, and an external dependency check or event sink that throws, are not modelled; ticket ids are distinct.
- RunPlanningLoop: a clock or event sink that throws is not modelled.
- TopoOrder: ids are distinct; the guard against a ticket queued twice is a proved fact and has no branch.
- SettleOnce: the report is recorded as data; a report callback that throws is not modelled.
- IdRoundTrip: numbers are unbounded, so ids with more digits than a double holds exactly are read exactly here.
- SlugifyTicketTitle: letter case outside ASCII is not folded.
- ParseFrontmatter: a key named like an object's prototype slot is an ordinary key.
- AddDependency: a bracketed list broken over several lines, which no scan accepts, is not recognised.
- AddDependencyReadsBack: no line of the block holds a carriage return or a Unicode line separator.
- ReplaceIsIdempotentIff: documents left with another such section are the matter of ReplaceSettlesIff.
- StubReads: the title is one line and dependency names are plain, for the title and the list to read back; what releases a stub is stated in StubFieldReads for all of them. The wording below the frontmatter is a placeholder.
- StubFieldReads: the id is one without a newline, as every allocated id is.
- ClosingTitleRules: the entries in the title are ones the parser accepts, each key once.
- ApprovingAfterParking: the closing fence stands on a line of its own with something after it, and the ticket has at most one such section; stamps are one line.
- OtherFieldsAfterAdding: the dependencies themselves, after a name with a newline, are not characterised.
- AddDependencyIsIdempotentIff: names of one line; a second pass over a name with a newline inside would meet a list broken over several lines, see AddDependency.
- LandTwice: both passes scan the same tickets, and the files aimed at can be read in both.
- RunApplyRefinement: event appends succeed, tickets the scan listed are still there, all stubs go to one directory, and checking whether a file exists never fails.
- Prompts, model and provider selection, skills and manifests: text and narrowing with no state to keep.
- Risk and signature patterns: findings are an arbitrary list.
- Command line, reports, doctor, conductor bridge: presentation only.
- Retention pruning of old run directories, coverage thresholds, comprehension reports, ticket allocation across epics: they read what runs leave behind and steer none of it.
