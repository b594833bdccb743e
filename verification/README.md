# DevRail orchestration core, in Dafny

DevRail hands tasks to agent runs. Several independent writers change the same task rows: the
scheduler claims queued tasks, the dependency reconciler fails or skips tasks whose prerequisites
ended badly, continuation requests take a finished task back into work, users and the scheduler start
runs, approvals put a run and its task on hold, and the API edits tasks and their dependencies. This
project models those writers and proves what they keep
together: which states are reachable, who may act on a row and until when, what a sequence of calls
undoes, and where repeated passes end up. Four smaller parts of the backend with real loops or trees
are modelled as well: the approval ledger, the department forest, the task event log with its stream,
and the audit archiver.

How the modules fit together:

- `Types`, `Extremes`, `Graph`: ids and statuses, least and greatest members, reachability and cycles.
- `Propagation`, `PropagationPass`: one reconciler pass as a function on statuses, and the loop that
  computes it.
- `DependencyLedger`: edits to the dependency graph, their replay and revision checks.
- `Protocol`: the transactions of the continuation, run start, run end, scheduler, propagation,
  approval, task-update and dependency code, each as one atomic step on the task, request, run and
  dependency tables. "Every run" below means every sequence of these steps. `Store` is the code of more than one
  statement, with its loops and rollbacks, each method proved equal to its step.
- `RequestInvariants`, `RequestMatching`, `RequestTheorems`, `RequestFencing`, `RequestAccount`,
  `LiveRuns`, `RevisionWindow`, `Scheduling`, `Interruptions`, `Lockstep`, `GraphRuns`: what holds over every
  run of those steps.
- `Admissions`: exactly when the transactions go through and what they write, stated on the columns alone.
- `Approvals`, `Departments`, `DepartmentMoves`, `Events`, `Archive`: the smaller parts.

What the model takes as given:

- One organization. Data scopes are part of the actor; `visible_departments` is a set in the actor.
- Transactions are serial. `SKIP LOCKED` lets a batch be any part of the rows that qualify, or, for
  scheduler claims, takes away an arbitrary set of locked rows.
- The clock is an integer that never goes back; every step reads it once.
- Claim tokens are random UUIDs: fencing theorems assume that a run never draws a token twice.
- Row ids come from sequences and are passed in; digests, payloads and JSON are opaque or absent.
- Runs are inserted in `starting`. A run's parent exists, is older, and is a run of the same task.
- Why a run ended is given: its outcome, whether it will be tried again, whether it ends as
  interrupted for drift, which needs an interruption by the reconciler, and the new hook counter.
- What a service reads just before its transaction it reads with it: the start of a run sees the task
  it inserts for. Where a result needs the status guard of the dependency service, it says so.
- Integers are unbounded; the widths of database columns are not modelled.

Where code and prose differ, the model follows the code. Five results are about that difference.
Propagation does not always settle on the verdict that the dependency rules suggest, and
`Propagation.SettlesOnVerdictIffConfluent` gives the exact condition. A claimed task can be failed by
the next reconciliation, and `Scheduling.ClaimSurvivesReconcileIff` says exactly when. A pending task can
lose its open request, a waiting run and its task can fall out of step, and a live child can drift;
`RequestMatching.MatchedIff`, `Lockstep.InStepIff` and `RevisionWindow.DriftIffRaised` say exactly by which
of the modelled steps.

## Model

| member | source | states |
|---|---|---|
| `Graph.Closure` | backend/src/repositories/devrail.rs:1376-1383 | the recursive reachability query ends on every graph, cyclic ones included, and returns exactly the nodes reachable over one or more edges |
| `Graph.ReplaceCycleExact` | backend/src/repositories/devrail.rs:1376-1396 | on an acyclic graph, some new prerequisite reaches the task in the old graph if and only if the graph after the replacement has a cycle |
| `Graph.FreshSourceAcyclic` | backend/src/repositories/devrail.rs:209-216 | edges out of a task that nothing depends on yet close no cycle |
| `Propagation.SettlesWithinLongestChain` | backend/src/repositories/devrail.rs:778-951 | from any statuses, as many passes as the longest dependency chain has links reach a state that a further pass leaves alone |
| `Propagation.SettlesOnAcyclic` | backend/src/repositories/devrail.rs:778-951 | on every acyclic graph passes settle, within the number of tasks that are a prerequisite of another |
| `Propagation.ZeroStaysZero` | backend/src/repositories/devrail.rs:835-951 | once a pass changes no task, no later pass does |
| `Propagation.PassLosesWeight` | backend/src/repositories/devrail.rs:835-951 | twice the queued tasks plus the skipped ones never grows, and shrinks in every pass that changes a task |
| `Propagation.VerdictsSolve` | backend/src/repositories/devrail.rs:770-951 | the verdict defined by recursion over the graph (fail beats skip beats wait, only queued and skipped tasks move) is a solution of the pass equation |
| `Propagation.ConfluentSettles` | backend/src/repositories/devrail.rs:770-951 | under the condition on the dependency rows, wherever passes settle every task holds its verdict |
| `Propagation.SettlesOnVerdictIffConfluent` | backend/src/repositories/devrail.rs:770-951 | on an acyclic graph, passes settle on the verdicts from every starting point if and only if no prerequisite that timed out before has a timeout action weaker than its failure action that could matter: whatever can fail it asks at least as much of the dependent directly |
| `Propagation.ViolationShows` | backend/src/repositories/devrail.rs:770-951 | every violation of that condition, on any graph, comes with statuses from which passes settle on something else than the verdicts |
| `Propagation.DisagreementExample` | backend/src/repositories/devrail.rs:791-797 | on a chain of three tasks one pass settles with the last task skipped, while its verdict is to stay queued; the graph is acyclic and violates the condition |
| `Propagation.PassByColumns` | backend/src/repositories/devrail.rs:778-951 | what a pass does to a task by the columns of its dependency rows: a queued or skipped task fails exactly if a cancelled prerequisite has `fail` for cancelled, a failed and timed-out one for timeout, or another failed or a skipped one for failure; a queued task is skipped likewise when none says `fail`; everything else stays |
| `PropagationPass.Winner` | backend/src/repositories/devrail.rs:844-847 | the minimum over a group has the least rank in it, and in query order it is the group's first row |
| `PropagationPass.GroupEnd` | backend/src/repositories/devrail.rs:838-842 | the inner loop cuts out exactly the rows of one task |
| `PropagationPass.GroupDecides` | backend/src/repositories/devrail.rs:843-859 | the winner of a group moves its task exactly as the strongest action among all its prerequisites asks |
| `PropagationPass.CandidateByColumns` | backend/src/repositories/devrail.rs:791-797 | a row of the query carries the column for how its prerequisite ended: cancelled, timed out, failed or skipped |
| `PropagationPass.TaskTable.QueryCandidates` | backend/src/repositories/devrail.rs:780-834 | the query yields, in order, exactly the dependencies with a terminal prerequisite, each with the action its status and timeout call for and its newest history row |
| `PropagationPass.TaskTable.ReconcileTaskDependencies` | backend/src/repositories/devrail.rs:778-951 | one run of the loop, which updates statuses one at a time, gives the simultaneous pass on the old statuses; it returns the number of tasks that changed and adds one history row for each |
| `DependencyLedger.AppliedIffAcyclic` | backend/src/repositories/devrail.rs:1354-1403 | a replacement that passes lookup, replay and revision checks and names distinct other tasks is applied if and only if the graph it asks for is acyclic; otherwise the answer is the cycle error and nothing is written |
| `DependencyLedger.AppliedIff` | backend/src/repositories/devrail.rs:1320-1404 | for every call: applied if and only if the caller sees the task, its key is new and its revision current, every prerequisite is a task the caller sees, they are distinct and none is the task itself, and the new graph is acyclic |
| `DependencyLedger.RefusedInOrder` | backend/src/repositories/devrail.rs:1328-1396 | which refusal a call gets, each with its exact condition: unknown task or used key, then stale revision, then unknown prerequisite, then cycle, then constraint; a refusal writes nothing |
| `DependencyLedger.AppliedWrites` | backend/src/repositories/devrail.rs:1384-1403 | an applied replacement leaves exactly one row with its rule for each dependency it names, every row of other tasks, one revision more and its key with digest and revision |
| `DependencyLedger.RunKeepsInv` | backend/src/repositories/devrail.rs:1320-1404 | every serial run of replacements, follow-up creations and revision bumps keeps the graph acyclic and its foreign keys |
| `DependencyLedger.AppliedOnce` | backend/src/repositories/devrail.rs:1342-1353 | of two applied replacements of one task the keys differ and the later one names a later revision, so no key and no revision is used twice |
| `DependencyLedger.LateReplay` | backend/src/repositories/devrail.rs:1342-1350 | a call that repeats an applied key changes nothing however late it comes; it is a replay or a conflict by its digest |
| `DependencyLedger.LateFollowup` | backend/src/repositories/devrail.rs:167-208 | the same for follow-ups: a repeated key is a replay or a conflict by its digest, whatever happened since |
| `DependencyLedger.LastAppliedStands` | backend/src/repositories/devrail.rs:1384-1403 | after any run the stored dependencies of a task are those of the last applied replacement |
| `DependencyLedger.QuotaHolds` | backend/src/repositories/devrail.rs:167-208 | a source run never gets more follow-ups than its quota, over any run |
| `DependencyLedger.DependencyStore.ReplaceTaskDependencies` | backend/src/repositories/devrail.rs:1320-1404 | the statements with their rollback equal the atomic replacement |
| `DependencyLedger.DependencyStore.LockTasks` | backend/src/repositories/devrail.rs:1354-1375 | comparing counts of locked and requested rows decides whether every prerequisite exists and is visible |
| `DependencyLedger.DependencyStore.WouldFormCycle` | backend/src/repositories/devrail.rs:1376-1383 | the loop over prerequisites answers yes exactly if one of them reaches the task |
| `DependencyLedger.DependencyStore.InsertAll` | backend/src/repositories/devrail.rs:1389-1396 | inserting row by row succeeds exactly if there is no self-dependency and no duplicate, and then stores exactly the requested rows |
| `DependencyLedger.DependencyStore.CreateFollowupTask` | backend/src/repositories/devrail.rs:167-220 | the statements with their rollback equal the atomic follow-up creation |
| `RequestInvariants.StepKeepsInv` | backend/src/repositories/devrail_continuations.rs:375-1379 | every step of every modelled writer keeps: request rows agree with their task and child, the task of a run that has not ended is not pending, a parent is a run of the same task, and keys, sequences and evidence are unique per task |
| `RequestInvariants.RunKeepsInv` | backend/src/repositories/devrail_continuations.rs:375-1379 | so does every run of these steps in any order |
| `RequestInvariants.QuietSteps` | backend/src/repositories/devrail.rs:605-1516 | claims of requests, the scheduler, propagation, interruptions, waiting and resumed approvals, API updates and new dependencies move no task into or out of `continuation_pending` and open or close no request |
| `RequestInvariants.SchedulerTends` | backend/src/repositories/devrail.rs:605-738 | claims, renewals, releases, retries and clean-up change no run, request or revision, and move a task at most from queued to failed |
| `RequestInvariants.StartEffect` | backend/src/services/devrail_runs.rs:468-640 | a run start that goes through inserts one starting run without a request, on a task with no live run, below a parent of the same task if any, and sets that task running; nothing else changes; a scheduled start met a queued task, a user's may have met any status |
| `RequestInvariants.DispatchEffect` | backend/src/workers/task_scheduler.rs:1110-1190 | a dispatch that goes through had an unexpired claim, inserted a new child for the pending task with no live run, and moved request and task together |
| `RequestInvariants.SettledFits` | backend/src/repositories/devrail_continuations.rs:1034-1060 | the request that the lineage lookup finds is dispatched and belongs to the task of the run that ends |
| `RequestInvariants.FinishEffect` | backend/src/workers/harness_supervisor.rs:1697-1813 | ending a run changes that run, its own task and at most one request: requeued with one more retry, completed together with the request, left alone on drift, or given the outcome, though the task writes look at no status |
| `RequestMatching.HoldsAtFirst` | backend/src/repositories/devrail_continuations.rs:440-526 | the invariant and the match of requests and pending tasks hold before the first request is made |
| `RequestMatching.MatchedIff` | backend/src/services/devrail_runs.rs:625-627 | a modelled step keeps "a task is pending exactly while one request for it is open" if and only if it is none of: a user's run start admitted on a pending task, a rejected approval of a run of a pending task, an aborted start that writes to a pending task |
| `RequestMatching.RunKeepsMatched` | backend/src/repositories/devrail_continuations.rs:440-526 | so every run without such a step keeps the match |
| `RequestMatching.PendingIffOneOpen` | backend/src/repositories/devrail_continuations.rs:440-526 | after every run without such a step a task has exactly one open request if it is `continuation_pending` and none otherwise |
| `RequestMatching.TaskNeverChangesUnderneath` | backend/src/repositories/devrail_continuations.rs:842-862 | while requests and pending tasks match, the "task state changed" errors of cancel, reject and dispatch do not occur |
| `RequestMatching.StartStrandsRequest` | backend/src/services/devrail_runs.rs:394-627 | a user's start on a pending task leaves its request open on a running task, and cancelling it then fails with "task state changed" |
| `RequestMatching.StartDisruptsPending` | backend/src/services/devrail_runs.rs:394-627 | such a state, with a run start that is admitted and breaks the match |
| `RequestTheorems.UniqueKeysNeverRefuse` | backend/src/repositories/devrail_continuations.rs:383-490 | an actor who may insert sees every earlier request of the task, so the scoped replay lookup finds everything the unique keys would refuse, and no insert with the next sequence number violates a constraint |
| `RequestTheorems.LookupFinds` | backend/src/repositories/devrail_continuations.rs:383-431 | a visible request answers the lookup for its key, or for its evidence when the key is new |
| `RequestTheorems.ReplayReturnsOriginal` | backend/src/repositories/devrail_continuations.rs:383-431 | after any run, by any actor who sees the task, repeating a creation returns the original request and changes nothing |
| `RequestTheorems.KeyAnswers` | backend/src/repositories/devrail_continuations.rs:383-412 | after any run, a call whose key a visible request of the task holds changes nothing; it gets that request back if and only if source run, trigger, evidence, evidence digest and input digest are the stored ones, and a conflict otherwise |
| `RequestTheorems.EvidenceAnswers` | backend/src/repositories/devrail_continuations.rs:383-412 | the same for a request found by its evidence under a key that is new to the caller: both digests decide |
| `RequestTheorems.RunKeeps` | backend/src/repositories/devrail_continuations.rs:462-490 | over every run requests stay, keep their identity, source, digests and prior status, and tasks keep owner and department |
| `RequestFencing.StepMovesRow` | backend/src/repositories/devrail_continuations.rs:904-1379 | what any single step may do to the lease, attempts and child of a request row |
| `RequestFencing.LostClaimIsFenced` | backend/src/repositories/devrail_continuations.rs:1220-1294 | once the holder of a lease has lost it in any way, its token is refused by renew, release, reject and dispatch for the rest of every run |
| `RequestFencing.StepKeepsLeasesIssued` | backend/src/repositories/devrail_continuations.rs:1152-1187 | every step keeps that each lease carries a token that some claim issued |
| `RequestFencing.RunKeepsLeasesIssued` | backend/src/repositories/devrail_continuations.rs:1152-1187 | so in every reachable state a lease carries an issued token |
| `RequestFencing.DispatchedOnce` | backend/src/repositories/devrail_continuations.rs:904-931 | a dispatched request keeps its child id for ever and every later dispatch is refused |
| `RequestFencing.DispatchByNewestClaimant` | backend/src/repositories/devrail_continuations.rs:904-931 | over every run only the latest claimant, with an unexpired lease, dispatches |
| `RequestFencing.AttemptsCountClaims` | backend/src/repositories/devrail_continuations.rs:1152-1187 | `dispatch_attempts` grows by exactly the number of times the run claimed the request |
| `RequestFencing.VersionCountsMoves` | backend/src/repositories/devrail_continuations.rs:904-1379 | over every run `status_version` grows by exactly the changes of status |
| `RequestFencing.RenewOrExpire` | backend/src/repositories/devrail_continuations.rs:1220-1247 | at every clock value a claimed request is renewable by its holder or freed by the expiry worker, never both and never neither; a renewal lasts 10 to 3600 seconds |
| `RequestFencing.BackOffHolds` | backend/src/repositories/devrail_continuations.rs:1152-1166 | over every run a released request is not claimed before its back-off is over: it stays as it was or is withdrawn |
| `RequestAccount.RevisionCountsRecordings` | backend/src/repositories/devrail_continuations.rs:513-526 | over a run of continuation steps the task revision grows by exactly the number of requests created, cancelled, rejected, dispatched and completed |
| `RequestAccount.ClaimsLeaveTasks` | backend/src/repositories/devrail_continuations.rs:1152-1266 | claims, renewals, releases and expiries leave every task as it was |
| `RequestAccount.CreateThenCloseRestores` | backend/src/repositories/devrail_continuations.rs:842-852 | creating a request and cancelling or rejecting it, with any claim traffic in between, gives back the whole task table, except that the task's revision is two higher |
| `LiveRuns.StepMovesRuns` | backend/src/repositories/devrail_runs.rs:198-247 | no step of any modelled writer revives an ended run or changes what a run belongs to, and a new run comes only to a task without a live one |
| `LiveRuns.RunKeepsOneLive` | backend/src/repositories/devrail_runs.rs:198-247 | so over every run a task never has two live runs |
| `LiveRuns.StepKeepsLiveDispatched` | backend/src/repositories/devrail_continuations.rs:1022-1060 | no step settles the request of a child that is still live, though every ending run looks through its whole lineage |
| `LiveRuns.RunKeepsLiveDispatched` | backend/src/repositories/devrail_continuations.rs:1022-1060 | so over every run the request of a live child is dispatched |
| `LiveRuns.FinishSettlesOwn` | backend/src/repositories/devrail_continuations.rs:1034-1060 | a live child that ends for good settles its own request, whatever its ancestors left open |
| `LiveRuns.FinishSettlesInherited` | backend/src/repositories/devrail_continuations.rs:1034-1060 | a run without a request settles one if and only if an ended run in its lineage left its request dispatched |
| `LiveRuns.RetryLeavesOpen` | backend/src/workers/harness_supervisor.rs:1794-1809 | a child that is tried again leaves its request dispatched, for a later run to settle |
| `LiveRuns.ExpiryLeavesOpen` | backend/src/repositories/devrail_approvals.rs:232-277 | so does a child whose approval expires |
| `LiveRuns.RejectionLeavesOpen` | backend/src/services/devrail_approvals.rs:241-260 | so does a child whose approval is rejected |
| `RevisionWindow.StepGuardsTask` | backend/src/repositories/devrail.rs:1397-1516 | while a run is live, no modelled step but an admitted API edit of inputs or an applied replacement of dependencies raises the revision of its task, each by one; a task in hand leaves it if and only if an admitted API update moves it away or the outcome of an ended run of it is written |
| `RevisionWindow.RevisionCountsRaises` | backend/src/repositories/devrail.rs:1397-1399 | over every run, as long as a run is live the revision of its task grows by exactly the API edits of its inputs and the applied replacements of its dependencies |
| `RevisionWindow.DispatchStart` | backend/src/repositories/devrail_continuations.rs:952-973 | a dispatched child starts one revision behind its task, inside the reconciler's window |
| `RevisionWindow.DriftIffRaised` | backend/src/repositories/devrail.rs:993-1015 | after any run a child that is still live shows revision drift if and only if the inputs of its task have been edited or its dependencies replaced since the dispatch |
| `RevisionWindow.StartedDriftIffRaised` | backend/src/repositories/devrail.rs:993-1015 | the same for runs that a user or the scheduler started, with no revision of leeway |
| `RevisionWindow.WindowOfKind` | backend/src/repositories/devrail.rs:993-1015 | the window of each kind of run, as a distance of revisions |
| `RevisionWindow.InHandNeverRaised` | backend/src/services/devrail.rs:2261-2266 | as long as nothing takes the task of a live run out of hand it is never edited, and with the service's guard (dependencies change on drafts and queued tasks only), taken as tested with the write, its dependencies are not replaced either |
| `RevisionWindow.ClearingApplies` | backend/src/repositories/devrail.rs:1320-1404 | replacing the dependencies of a task by none, at its revision and under a new key, always goes through, whatever its status |
| `RevisionWindow.ReplacementDrifts` | backend/src/repositories/devrail.rs:1397-1399 | at a concrete state the API fails and requeues the task of a live child, then its dependencies are replaced: without an edit the child has drifted |
| `Scheduling.RenewOrTakeover` | backend/src/repositories/devrail.rs:634-714 | a claim on a task that is otherwise claimable is at every clock value renewable by its holder or open to takeover, never both and never neither |
| `Scheduling.LostTaskIsFenced` | backend/src/repositories/devrail.rs:678-738 | after any loss of its claim a worker's token is refused by renew, release, retry and fail, and is not current, for the rest of every run |
| `Scheduling.RunKeepsClaimsIssued` | backend/src/repositories/devrail.rs:605-676 | in every reachable state a claim on a task carries a token that some claim issued |
| `Scheduling.TakeoverLosesClaim` | backend/src/repositories/devrail.rs:634-665 | a takeover by another token is such a loss |
| `Scheduling.RetryCountGrows` | backend/src/repositories/devrail.rs:1163-1187 | over every run the retry count grows by exactly the accepted retries, the requeued endings of runs and the starts requeued after a hook failure |
| `Scheduling.RetriesBounded` | backend/src/repositories/devrail.rs:1163-1187 | while a task stays queued under a fixed limit it accepts at most limit minus starting count retries, or one if that is less |
| `Scheduling.BudgetOrExhausted` | backend/src/repositories/devrail.rs:629-630 | on due queued tasks the claim's budget test and the reconciler's exhaustion test are complements |
| `Scheduling.NoneStuckOnBudget` | backend/src/repositories/devrail.rs:967-979 | reconciling fails exactly the due queued tasks over budget, so none left is kept from a claim by its budget |
| `Scheduling.ClaimSurvivesReconcileIff` | backend/src/repositories/devrail.rs:967-979 | a task just claimed keeps its claim through a reconciliation if and only if the attempt it was claimed for is below the limit or a hook failure is being retried |
| `Scheduling.SingleAttemptLostToReconcile` | backend/src/repositories/devrail.rs:967-979 | a task limited to one attempt is failed right after its first claim |
| `Scheduling.AheadIsTotalOrder` | backend/src/repositories/devrail.rs:644-657 | the claim order is a strict total order on task rows |
| `Scheduling.OlderIsAlwaysAhead` | backend/src/repositories/devrail.rs:645-653 | with equal due dates an older task of equal or higher priority is ahead at every clock value |
| `Scheduling.HigherIsAlwaysAhead` | backend/src/repositories/devrail.rs:645-653 | of two tasks created together the one with the higher priority is ahead at every clock value |
| `Scheduling.LowDrawsLevel` | backend/src/repositories/devrail.rs:645-657 | aging stops after three periods: a low task that has waited as long or longer is ahead of a fresh urgent one exactly by due date and then age |
| `Scheduling.EarlierDueAhead` | backend/src/repositories/devrail.rs:654-657 | at equal effective priority the earlier due date is ahead and none comes last |
| `Scheduling.AgedOvertakesFresh` | backend/src/repositories/devrail.rs:645-653 | a task above low priority that has waited three aging periods is ahead of every task younger than one |
| `Scheduling.Pick` | backend/src/repositories/devrail.rs:644-658 | order and limit take exactly the first rows of that order, in order |
| `Store.ProtocolStore.FindEarlier` | backend/src/repositories/devrail_continuations.rs:383-412 | the lookup returns a request with the key before one with the evidence, the lowest id first |
| `Store.ProtocolStore.Create` | backend/src/repositories/devrail_continuations.rs:375-611 | the statements equal the atomic creation (`RequestTheorems.KeyAnswers` and `Admissions.InsertedIff` give its answers); the final guarded task update cannot miss |
| `Store.ProtocolStore.Cancel` | backend/src/repositories/devrail_continuations.rs:800-902 | the statements with their rollback equal the atomic cancellation |
| `Store.ProtocolStore.RejectClaim` | backend/src/repositories/devrail_continuations.rs:1268-1379 | likewise for rejection |
| `Store.ProtocolStore.CloseAndRestore` | backend/src/repositories/devrail_continuations.rs:842-852 | closing the request first and reopening it when the task cannot be restored equals testing the task first: both rows change or neither |
| `Store.ProtocolStore.MarkDispatched` | backend/src/repositories/devrail_continuations.rs:904-1020 | request and task move together or not at all |
| `Store.ProtocolStore.Dispatch` | backend/src/repositories/devrail_runs.rs:198-247 | creating or finding the child and marking it dispatched is one step, rolled back as a whole |
| `Store.ProtocolStore.FindSettled` | backend/src/repositories/devrail_continuations.rs:1030-1062 | the run's own dispatched request comes before an ancestor's |
| `Store.ProtocolStore.CompleteForChildRun` | backend/src/repositories/devrail_continuations.rs:1022-1150 | the statements with their rollback equal the atomic completion |
| `Store.ProtocolStore.FinishRun` | backend/src/workers/harness_supervisor.rs:1697-1813 | hook counter, terminal write, and then requeue, completion or outcome are one step (`Admissions.EndingDecidesTask` gives the statuses); when the completion fails all of it is rolled back |
| `Store.ProtocolStore.StartRun` | backend/src/services/devrail_runs.rs:433-640 | claim test, insert, root and task update are one step, which inserts nothing and leaves the task alone when the task, the parent, the claim or a unique key does not fit |
| `Store.ProtocolStore.RejectApproval` | backend/src/services/devrail_approvals.rs:241-260 | the run fails unless it had ended, its task fails in any case |
| `Store.ProtocolStore.ClaimSchedulerTasks` | backend/src/repositories/devrail.rs:605-676 | a claim takes exactly the first `limit` eligible tasks not locked by others, best effective priority first, and gives each its next attempt number (`Admissions.ClaimTakesReady` gives eligibility by columns) |
| `Store.ProtocolStore.ReconcileSchedulerState` | backend/src/repositories/devrail.rs:959-979 | the two statements in order equal one step on the old rows; the second counter is the number of tasks whose status moved |
| `Store.ReconcileInTwo` | backend/src/repositories/devrail.rs:959-979 | clearing claims first does not change which tasks are exhausted |
| `Store.ProtocolStore.MarkWaiting` | backend/src/repositories/devrail_approvals.rs:147-189 | on success run and task both wait, otherwise neither row changed; runs and tasks stay in lockstep |
| `Store.ProtocolStore.MarkResumed` | backend/src/repositories/devrail_approvals.rs:191-230 | exactly a waiting pair leaves waiting, together; runs and tasks stay in lockstep |
| `Store.ProtocolStore.FailExpiredRun` | backend/src/repositories/devrail_approvals.rs:232-277 | exactly a waiting pair fails, together; runs and tasks stay in lockstep |
| `Admissions.ClaimTakesReady` | backend/src/repositories/devrail.rs:605-676 | a claim takes exactly the named tasks that are queued, unarchived, environment-ready, due, within budget, unclaimed or claimed too long ago, without a live run, and with every prerequisite succeeded; each gets one more than its highest attempt, and every other task stays as it was |
| `Admissions.TokenGivenIff` | backend/src/repositories/devrail.rs:605-676 | so with a new token a task holds it after the claim if and only if it was named and all of that held |
| `Admissions.ClaimThenRelease` | backend/src/repositories/devrail.rs:605-676 | claiming a task and releasing it gives the task back, but for its attempt |
| `Admissions.PutOffNotClaimed` | backend/src/repositories/devrail.rs:1163-1187 | a task put off by a retry is not claimed before its time |
| `Admissions.ReconcileKeepsClaim` | backend/src/repositories/devrail.rs:959-979 | a reconciliation keeps a claim exactly on the queued tasks it does not fail, and fails exactly the due ones over budget |
| `Admissions.StartedIff` | backend/src/services/devrail_runs.rs:433-640 | a run start goes through if and only if, by columns: task visible, unarchived, at its revision and without a live run; for the scheduler also queued, under its current claim, with every prerequisite succeeded, a free attempt, and after a retry the newest failed run as parent |
| `Admissions.StartedRow` | backend/src/services/devrail_runs.rs:539-627 | the row a start inserts, column by column, and the task it sets running |
| `Admissions.DispatchedIff` | backend/src/repositories/devrail_continuations.rs:904-1020 | a dispatch goes through if and only if its worker holds an unexpired claim, the task pends at the expected revision without a live run, the source run of the same task has ended, and the child id is new |
| `Admissions.DispatchedRow` | backend/src/repositories/devrail_runs.rs:198-247 | the child it inserts, column by column, in the lineage of the source run |
| `Admissions.RunOrigin` | backend/src/services/devrail_runs.rs:468-480 | every run that is there after a run of steps and was not before was inserted by exactly one of them, a dispatch or a start that met those conditions at that point; so a scheduled run is only ever inserted when all prerequisites of its task have succeeded |
| `Admissions.FinishedIff` | backend/src/workers/harness_supervisor.rs:1697-1813 | a run ends if and only if it has not ended, is no repair, the given reasons fit it, and the task of a request it settles is running or queued |
| `Admissions.EndingDecidesTask` | backend/src/workers/harness_supervisor.rs:1746-1813 | which status the end of a run gives its task: succeeded, cancelled or failed exactly as the run completed, was cancelled or failed; queued when it is tried again; the old one when it was interrupted and settles no request |
| `Admissions.CutWrites` | backend/src/services/devrail_runs.rs:641-815 | an aborted start or rejected approval fails the run unless it had ended, and writes the status, claim, retry time and hook counter of its task |
| `Admissions.InterruptedIff` | backend/src/repositories/devrail.rs:980-1010 | the reconciler interrupts exactly the starting and active runs whose task is over or archived |
| `Admissions.HoldIff` | backend/src/repositories/devrail_approvals.rs:147-277 | exactly when a run is put on hold, resumed or failed by an expired approval |
| `Admissions.HoldThenResume` | backend/src/repositories/devrail_approvals.rs:147-230 | holding a run and resuming it gives back the state, but that a starting run comes back active |
| `Admissions.InsertedIff` | backend/src/repositories/devrail_continuations.rs:375-611 | a request is inserted if and only if task and source run are visible and fit, nothing is live and key, sequence and evidence are new to the task; then the row holds what the call said and the task pends one revision on |
| `Admissions.CancelledIff` | backend/src/repositories/devrail_continuations.rs:800-862 | a request is withdrawn exactly while it is open, visible to the caller, and its task pends |
| `Admissions.RejectedIff` | backend/src/repositories/devrail_continuations.rs:1268-1320 | a request is rejected exactly by the worker that holds its claim, expired or not, while its task pends |
| `Admissions.UpdatedIff` | backend/src/repositories/devrail.rs:1474-1480 | an API update goes through exactly on an unarchived task in scope, along the listed moves, and changes inputs only while they are not frozen |
| `Admissions.ApiStartsNoWork` | backend/src/repositories/devrail.rs:1405-1516 | over any number of API updates a task that is not in hand never gets in hand, pending, succeeded, skipped or back to draft, and an archived one stays as it is |
| `GraphRuns.ReplacementCommutes` | backend/src/repositories/devrail.rs:1320-1404 | replacing dependencies in the protocol is the replacement of the dependency ledger, with the same answer, and touches nothing else |
| `GraphRuns.RunKeepsGraph` | backend/src/repositories/devrail.rs:1376-1404 | over every run of all modelled steps the graph stays acyclic with both ends of each edge in the table, so propagation is never refused |
| `GraphRuns.PropagationWrites` | backend/src/repositories/devrail.rs:835-951 | a reconciliation writes to each task what the columns of its dependency rows say, and takes the claim of a task it moves |
| `GraphRuns.ReconcilingSettles` | backend/src/repositories/devrail.rs:778-951 | from every state that a run reaches, as many reconciliations as there are prerequisite tasks lead to a state that one more leaves exactly as it is |
| `Lockstep.InStepIff` | backend/src/repositories/devrail_approvals.rs:147-277 | with one live run per task and interrupted runs stopped, a modelled step keeps "a run waits exactly while its task waits" if and only if it is none of: an admitted API update that moves a task into or out of waiting, the rejected approval or the aborted start of an ended run whose task waits with another |
| `Lockstep.RunsStayInStep` | backend/src/repositories/devrail_approvals.rs:147-277 | so every run without such a step keeps it, ending runs, drifted ones and expired approvals included |
| `Lockstep.WaitingChildHolds` | backend/src/repositories/devrail_continuations.rs:1088-1103 | a waiting child of a request cannot be ended for good: its completion fails and rolls everything back |
| `Lockstep.UpdateSeparates` | backend/src/repositories/devrail.rs:1474-1480 | at a concrete state the API fails a waiting task and leaves its run waiting |
| `Lockstep.RejectionSeparates` | backend/src/services/devrail_approvals.rs:241-260 | at a concrete state the approval of an ended run is rejected: the task fails and leaves another run of it waiting |
| `Lockstep.WaitingNotDrifted` | backend/src/workers/harness_supervisor.rs:1697-1813 | a waiting run that settles no request does not end as interrupted |
| `Interruptions.StepKeepsStopped` | backend/src/repositories/devrail.rs:980-1010 | no step lets an interrupted run without a request wait or brings its task back in hand while it is live |
| `Interruptions.RunKeepsStopped` | backend/src/repositories/devrail.rs:980-1010 | so over every run, and a task archived under such a run stays out of hand |
| `Interruptions.InterruptedNeverWaits` | backend/src/workers/harness_supervisor.rs:318-331 | over every run an interrupted run without a request never waits for approval |
| `Interruptions.ArchivedChildMayWait` | backend/src/repositories/devrail.rs:1000-1005 | a run at work on an archived running task (by `RunKeepsStopped`, a dispatched child) can be interrupted and then wait |
| `Approvals.RunKeepsInv` | backend/src/repositories/devrail_approvals.rs:38-145 | over every run the decision log is exactly one row for each decided approval, run and key are unique, and deciders are who they may be |
| `Approvals.OneLogRowPerDecision` | backend/src/repositories/devrail_approvals.rs:107-145 | the log holds a decision once if it is the approval's final status and author, and not at all otherwise |
| `Approvals.DecidedByOneStep` | backend/src/repositories/devrail_approvals.rs:107-145 | in any run a decided approval left pending at exactly one step and never changed again: a verdict came before the deadline from somebody else in scope, an expiry not before it, a withdrawal from the requester |
| `Approvals.VerdictOrExpiry` | backend/src/repositories/devrail_approvals.rs:107-145 | at every clock value a pending approval can take a verdict or is due to expire, never both and never neither |
| `Approvals.OverdueTakesNoVerdict` | backend/src/repositories/devrail_approvals.rs:107-145 | past its deadline an approval never takes a verdict, over any run: it stays pending, expires or is withdrawn |
| `Approvals.OverdueWithdrawal` | backend/src/repositories/devrail_approvals.rs:121-133 | withdrawal has no deadline: an overdue approval can still be withdrawn |
| `Approvals.RequesterNeverDecides` | backend/src/repositories/devrail_approvals.rs:38-133 | whoever raises an approval never decides it over any run, only they may withdraw it, and its scope and deadline stay as raised |
| `Approvals.ReplayChangesNothing` | backend/src/repositories/devrail_approvals.rs:38-60 | raising an approval again under its run and key, after any run, changes nothing and finds the one row from the start |
| `Approvals.ApprovalStore.CreatePending` | backend/src/repositories/devrail_approvals.rs:38-60 | the returned row is the only one with that run and key |
| `Approvals.ApprovalStore.Decide` | backend/src/repositories/devrail_approvals.rs:107-119 | a decision leaves the log exact, and afterwards nobody can decide or withdraw the approval and it is not due to expire |
| `Approvals.ApprovalStore.Withdraw` | backend/src/repositories/devrail_approvals.rs:121-133 | a withdrawal leaves the log exact, and afterwards nobody can decide the approval and it is not due to expire |
| `Approvals.ApprovalStore.ExpireDue` | backend/src/repositories/devrail_approvals.rs:135-145 | the loop logs exactly one row for each approval it expired, and leaves the log exact |
| `Departments.Expand` | backend/src/repositories/departments.rs:23-41 | on a forest the `UNION ALL` recursion ends and lists every descendant of its base rows exactly once, with its path and distance, without looking for duplicates |
| `Departments.CycleNeverEnds` | backend/src/repositories/departments.rs:125-133 | started at a department on a cycle, the recursion finds rows in every round: being a forest is what makes it end |
| `Departments.List` | backend/src/repositories/departments.rs:21-56 | the listing holds exactly the departments the scope allows, once each, with depth equal to distance, sorted by path |
| `Departments.ListIsPreorder` | backend/src/repositories/departments.rs:24-49 | that order is pre-order: ancestors first, descendants in one block, siblings by id, top rows included |
| `Departments.AncestorIsPrefix` | backend/src/repositories/departments.rs:25-37 | one path is a proper prefix of another exactly if its department is an ancestor of the other |
| `Departments.ScopeFollowsTree` | backend/src/repositories/devrail_continuations.rs:23-27 | who sees a row: organization scopes every row, the own scope its owner, the department scopes the rows of the department or of those below it in the tree |
| `DepartmentMoves.CycleTestExact` | backend/src/repositories/departments.rs:118-140 | the new parent is the department or one below it if and only if the moved tree is no forest |
| `DepartmentMoves.MoveAdmitsIff` | backend/src/services/departments.rs:99-119 | a move of a department that is no root to an existing parent goes through if and only if the result is a forest |
| `DepartmentMoves.RunKeepsForest` | backend/src/repositories/departments.rs:142-217 | every serial run of creations, moves and deletions keeps the forest, the set of roots, and the department of every user who names one |
| `DepartmentMoves.DepartmentStore.ParentWouldCreateCycle` | backend/src/repositories/departments.rs:118-140 | the query answers yes exactly for the department itself and those below it |
| `DepartmentMoves.DepartmentStore.Create` | backend/src/repositories/departments.rs:142-159 | a child under an existing parent keeps the forest and the roots |
| `DepartmentMoves.DepartmentStore.Move` | backend/src/services/departments.rs:86-140 | the guarded update keeps the forest and the roots, and reports whether it went through |
| `DepartmentMoves.DepartmentStore.DeleteIfEmpty` | backend/src/repositories/departments.rs:187-217 | exactly a childless department that is no root and has no active user is deleted, users deleted earlier let go of it, and otherwise nothing changes |
| `Events.RunKeepsInv` | backend/src/repositories/devrail.rs:1283-1295 | whatever is appended, the cursors of each task are 1 to n, its keys are unique, and its log only grows at the end |
| `Events.ReplayReturnsOriginal` | backend/src/repositories/devrail.rs:1283-1295 | an append repeated after any others changes nothing and its key still names the first row |
| `Events.EventLog.AppendTaskEvent` | backend/src/repositories/devrail.rs:1283-1295 | the insert returns the row that holds the key, and a new one takes the next cursor |
| `Events.MaxCursor` | backend/src/repositories/devrail.rs:1292-1292 | the highest cursor of a task is the number of its events |
| `Events.ListRows` | backend/src/repositories/devrail.rs:1297-1318 | filter, order and limit give the slice of the task's log after the cursor |
| `Events.ListTaskEvents` | backend/src/services/devrail.rs:2358-2386 | a page is that slice, and there is a next cursor exactly if events are left |
| `Events.ReadAll` | backend/src/services/devrail.rs:2358-2386 | following next cursors ends and reads exactly the events after the first cursor |
| `Events.InitialCursor` | backend/src/handlers/devrail.rs:1058-1067 | the query's cursor wins, then the reconnect header's, then zero; a negative one counts as zero |
| `Events.Stream` | backend/src/handlers/devrail.rs:1052-1085 | over any polls and any appends in between, the stream sends the events numbered from the initial cursor plus one on, in order, none skipped or repeated, up to a hundred per poll, until the first error |
| `Events.StreamCatchesUp` | backend/src/handlers/devrail.rs:1067-1083 | while the log stands still, k polls bring the cursor to its end or a hundred times k further |
| `Archive.FreshName` | backend/src/bin/archive_audit_logs.rs:84-95 | a batch gets a file name that no earlier file of the run has, so no file of the run is overwritten |
| `Archive.RunKeepsInv` | backend/src/bin/archive_audit_logs.rs:43-59 | every interleaving of fetch, write and delete with inserts, foreign removals and failures keeps rows, files and count consistent |
| `Archive.NoRowIsLost` | backend/src/bin/archive_audit_logs.rs:43-59 | at every point of every run a row from the start is unchanged in the table, or unchanged in exactly one file, or removed by somebody else; a row that is not old never leaves by this program |
| `Archive.FinishedIsComplete` | backend/src/bin/archive_audit_logs.rs:43-59 | when the run ends, exactly the old rows that nobody else removed are filed, each once, and the total counts them |
| `Archive.UndisturbedTotal` | backend/src/bin/archive_audit_logs.rs:43-63 | with no old inserts and no foreign removals, the total is the number of old rows at the start, all of them are filed once and gone from the table, and the newer rows are all still there |
| `Archive.FirstIdsAreLeast` | backend/src/repositories/audit_logs.rs:9-26 | the batch holds the lowest ids |
| `Archive.Archiver.ArchiveBatch` | backend/src/repositories/audit_logs.rs:9-26 | the query selects the lowest old ids up to the batch size |
| `Archive.Archiver.DeleteArchived` | backend/src/repositories/audit_logs.rs:28-54 | all ids are deleted, or the table is as before and the call failed |
| `Archive.Archiver.WriteArchive` | backend/src/bin/archive_audit_logs.rs:79-139 | the batch is stored under the name made of its first id, last id and cutoff |
| `Archive.Archiver.Round` | backend/src/bin/archive_audit_logs.rs:44-58 | one turn of the loop is the steps fetch, write, delete, and a successful one leaves fewer old rows |
| `Archive.Archiver.ArchiveAll` | backend/src/bin/archive_audit_logs.rs:43-63 | the loop ends for every table and every fault, is a run of those steps, succeeds when no round fails, and then reports the number of old rows |

## Left out

- Services and handlers around the repositories, except where a guard decides a transition: they would only add easy members.
- Further writers: the end of repair runs, quality gates, recovery after a restart, and approvals recovered by the service. Results on "every run" are about runs of the modelled steps.
- Reads outside a transaction: the start of a run finds task, parent and scope, and the dependency service its status guard, before the transaction begins.
- RevisionWindow.InHandNeverRaised: takes the status guard of the dependency service as tested with the write, because the service reads the status earlier.
- Interruptions.InterruptedNeverWaits: says nothing of children of requests, because `ArchivedChildMayWait` shows that they may wait.
- The idempotency key of a run start, workspaces and the choice of the environment.
- The approval row behind a rejection: the protocol may reject for any run, `Approvals` says when a verdict is taken.
- Interruptions for a cancelled task, an invalid environment or a revision: only the one for a task that is over ends without writing to the task.
- A class method for every single guarded `UPDATE` (claims, renewals, releases, retries, task updates): these are steps of the protocol, and a method would repeat them.
- The stale-run branch of the scheduler reconciliation, which depends on process liveness.
- Row-level interleavings inside one transaction: acyclicity and the other invariants are stated for serial runs, because the dependency locks cover only the task and its direct prerequisites.
- Changes of priority and due date by the task API, which only reorder claims.
- Environments, beyond one flag for "enabled and not archived"; tasks that timed out are given as a set.
- Audit, notification and outbox rows, JSON payloads, digest computation, pagination of requests and approvals.
- Request handoffs, chain depth and the checks of an assignee when a follow-up is created.
- Department codes, names, status and the actor's scope on writes; event visibility, since events carry their task's owner and department.
- A task event that cannot be serialized, which the stream would skip.
- File contents beyond the rows: hashes, manifests, temporary files and syncing.
- RequestFencing.LostClaimIsFenced: assumes that no claim token is drawn twice.
- Scheduling.LostTaskIsFenced: assumes that no claim token is drawn twice.
- The order by creation time and the limit of a batch of request claims: any part of the due requests may be claimed.
