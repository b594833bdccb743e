/**
  Exactly when the main transactions go through, and what they write, in terms of the columns they
  read. The conditions here are stated on their own and do not use the predicates of the steps.
 */
module Admissions {
  import opened Types
  import opened Extremes
  import opened Graph
  import opened Protocol
  import opened RequestInvariants
  import opened RevisionWindow
  import opened LiveRuns
  import opened Scheduling

  /** Every prerequisite of task `t` that is in the table has succeeded. */
  ghost predicate PrerequisitesSucceeded(s: State, t: Id)
  {
    forall p :: (t, p) in s.rules && p in s.tasks ==> s.tasks[p].status == Succeeded
  }

  /** No run of task `t` is starting, active or on hold. */
  ghost predicate Idle(s: State, t: Id)
  {
    forall r :: r in s.runs && s.runs[r].task == t ==> s.runs[r].status in {RunCompleted, RunFailed, RunCancelled}
  }

  lemma IdleIsNoLiveRun(s: State, t: Id)
    ensures Idle(s, t) <==> !HasLiveRun(s, t)
  {
  }

  // ------------------------------------------------------------- scheduler claims

  /** What a task must be for a claim with a lease of `seconds`. */
  ghost predicate Ready(s: State, t: Id, seconds: int)
    requires t in s.tasks
  {
    var x := s.tasks[t];
    && x.status == Queued && !x.archived && x.environmentReady
    && (x.retryAt.Some? ==> x.retryAt.value <= s.now)
    && (x.attempt < x.maxAttempts || 0 < x.hookFailures < 5)
    && (x.claim.Some? ==> x.claim.value.at < s.now - seconds)
    && Idle(s, t) && PrerequisitesSucceeded(s, t)
  }

  /** `n` is one, or one more than the highest attempt of a run of task `t`. */
  ghost predicate IsNextAttempt(s: State, t: Id, n: int)
  {
    && n >= 1 && (forall r :: r in s.runs && s.runs[r].task == t ==> s.runs[r].attempt < n)
    && (n == 1 || exists r :: r in s.runs && s.runs[r].task == t && s.runs[r].attempt == n - 1)
  }

  lemma NextAttemptIsNext(s: State, t: Id)
    ensures IsNextAttempt(s, t, NextAttempt(s, t))
  {
    var attempts := set r | r in TaskRuns(s, t) :: s.runs[r].attempt;
    if TaskRuns(s, t) != {} {
      var x :| x in TaskRuns(s, t);
      assert s.runs[x].attempt in attempts;
      var r :| r in TaskRuns(s, t) && s.runs[r].attempt == Greatest(attempts);
    }
    forall r | r in s.runs && s.runs[r].task == t ensures s.runs[r].attempt < NextAttempt(s, t) {
      assert r in TaskRuns(s, t) && s.runs[r].attempt in attempts;
    }
  }

  lemma ReadyIsEligible(s: State, t: Id, seconds: int)
    requires t in s.tasks
    ensures Ready(s, t, seconds) <==> Eligible(s, t, seconds)
  {
    hide Idle, HasLiveRun, Unblocked, PrerequisitesSucceeded;
    IdleIsNoLiveRun(s, t);
    UnblockedIsSucceeded(s, t);
  }

  /** A claim takes exactly the named tasks that are ready, each for its next attempt, and leaves the others alone. */
  lemma ClaimTakesReady(s: State, ids: set<Id>, k: Token, seconds: int, t: Id)
    requires t in s.tasks
    ensures var b := Step(s, ClaimTasks(ids, k, seconds)).0;
      && t in b.tasks
      && (if t in ids && Ready(s, t, seconds)
          then && b.tasks[t] == s.tasks[t].(claim := Some(Claim(k, s.now)), attempt := b.tasks[t].attempt)
               && IsNextAttempt(s, t, b.tasks[t].attempt)
          else b.tasks[t] == s.tasks[t])
  {
    ReadyIsEligible(s, t, seconds);
    NextAttemptIsNext(s, t);
    hide Ready, Eligible, NextAttempt, IsNextAttempt, OnRequests, OnRuns, OnApprovals, OnTasks;
  }

  /** With a token that nobody has drawn before, a task holds it after the claim exactly if it was ready. */
  lemma TokenGivenIff(s: State, ids: set<Id>, k: Token, seconds: int, t: Id)
    requires ClaimsIssued(s) && k !in s.issued && t in s.tasks
    ensures HoldsToken(Step(s, ClaimTasks(ids, k, seconds)).0, t, k) ==> t in ids && Ready(s, t, seconds)
    ensures t in ids && Ready(s, t, seconds) ==>
      var b := Step(s, ClaimTasks(ids, k, seconds)).0;
      t in b.tasks && b.tasks[t].claim == Some(Claim(k, s.now)) && b.tasks[t].status == Queued
  {
    hide Step;
    ClaimTakesReady(s, ids, k, seconds, t);
  }

  /** Claiming a ready task and releasing it gives the task back, but for the attempt it was claimed for. */
  lemma ClaimThenRelease(s: State, ids: set<Id>, k: Token, seconds: int, t: Id)
    requires t in s.tasks && t in ids && Ready(s, t, seconds)
    ensures var b := Step(s, ClaimTasks(ids, k, seconds)).0;
      var (c, answer) := Step(b, ReleaseTask(t, k));
      && answer == Done && t in b.tasks && t in c.tasks && IsNextAttempt(s, t, c.tasks[t].attempt)
      && c.tasks[t] == s.tasks[t].(claim := None, attempt := c.tasks[t].attempt)
  {
    hide Ready, IsNextAttempt;
    ReadyIsQueued(s, t, seconds);
    ClaimTakesReady(s, ids, k, seconds, t);
    var b := Step(s, ClaimTasks(ids, k, seconds)).0;
    assert TaskHeldBy(b, t, k);
    HolderActs(b, t, k, 0, 0);
  }

  lemma ReadyIsQueued(s: State, t: Id, seconds: int)
    requires t in s.tasks && Ready(s, t, seconds)
    ensures s.tasks[t].status == Queued
  {
  }

  /**
    What the holder of a claim on a queued task may do: renew it within the lease, give it up, put the
    task off until `at` or fail it when its retries are used up, or fail it. Nobody else may.
   */
  lemma HolderActs(s: State, t: Id, k: Token, seconds: int, at: int)
    ensures var held := t in s.tasks && s.tasks[t].status == Queued && s.tasks[t].claim.Some?
                        && s.tasks[t].claim.value.token == k;
      && Step(s, ReleaseTask(t, k))
         == (if held then (s.(tasks := s.tasks[t := s.tasks[t].(claim := None)]), Done) else (s, Refused))
      && Step(s, FailTask(t, k))
         == (if held then (s.(tasks := s.tasks[t := s.tasks[t].(claim := None, status := Failed)]), Done)
             else (s, Refused))
      && Step(s, RenewTask(t, k, seconds))
         == (if held && s.now <= s.tasks[t].claim.value.at + seconds
             then (s.(tasks := s.tasks[t := s.tasks[t].(claim := Some(Claim(k, s.now)))]), Done) else (s, Refused))
      && Step(s, ScheduleRetry(t, k, at))
         == (if held
             then var n := s.tasks[t].retryCount + 1;
               (s.(tasks := s.tasks[t := s.tasks[t].(claim := None, retryCount := n, retryAt := Some(at),
                     status := if n < s.tasks[t].maxAttempts then Queued else Failed)]), Done)
             else (s, Refused))
  {
    hide OnRequests, OnRuns, OnApprovals, OnTasks, DoClaimTasks, DoReconcileScheduler, DoPropagate;
  }

  /** A task that was put off is not claimed before its time. */
  lemma PutOffNotClaimed(s: State, t: Id, k: Token, at: int, elapsed: nat, ids: set<Id>, k': Token, seconds: int)
    requires Step(s, ScheduleRetry(t, k, at)).1 == Done && s.now + elapsed < at
    ensures var b := Step(Step(s, ScheduleRetry(t, k, at)).0, Tick(elapsed)).0;
      && t in b.tasks && t in Step(b, ClaimTasks(ids, k', seconds)).0.tasks
      && Step(b, ClaimTasks(ids, k', seconds)).0.tasks[t] == b.tasks[t]
  {
    HolderActs(s, t, k, 0, at);
    var a := Step(s, ScheduleRetry(t, k, at)).0;
    var b := Step(a, Tick(elapsed)).0;
    assert b == a.(now := a.now + elapsed);
    hide Step, Idle, PrerequisitesSucceeded;
    ClaimTakesReady(b, ids, k', seconds, t);
  }

  /** A reconciliation keeps a claim exactly on the queued tasks that it does not fail. */
  lemma ReconcileKeepsClaim(s: State, t: Id)
    requires t in s.tasks
    ensures var b, x := Step(s, ReconcileScheduler).0, s.tasks[t];
      var spent := x.status == Queued && !x.archived && (x.retryAt.Some? ==> x.retryAt.value <= s.now)
                   && x.attempt >= x.maxAttempts && !(0 < x.hookFailures < 5);
      && t in b.tasks
      && b.tasks[t] == x.(status := if spent then Failed else x.status,
                          claim := if x.status == Queued && !spent then x.claim else None)
  {
    hide OnRequests, OnRuns, OnApprovals, OnTasks, DoClaimTasks, DoPropagate;
  }

  // --------------------------------------------------------------- where runs come from

  predicate EndedRunOf(s: State, t: Id, r: Id)
  {
    r in s.runs && s.runs[r].task == t && s.runs[r].status in {RunCompleted, RunFailed, RunCancelled}
  }

  /** A scheduled start holds a current claim on a queued task, with nothing left to wait for. */
  ghost predicate ClaimFits(s: State, t: Id, k: Token, seconds: int)
    requires t in s.tasks
  {
    && s.tasks[t].status == Queued && PrerequisitesSucceeded(s, t) && s.tasks[t].claim.Some?
    && s.tasks[t].claim.value.token == k && s.tasks[t].claim.value.at >= s.now - seconds
  }

  /**
    A scheduled start of a task that has been retried follows its newest failed run, by attempt, and
    any other scheduled start follows none.
   */
  ghost predicate LineageFits(s: State, t: Id, parent: Option<Id>)
    requires t in s.tasks
  {
    if s.tasks[t].retryCount <= 0 then parent.None?
    else
      && parent.Some? && parent.value in s.runs && s.runs[parent.value].task == t
      && s.runs[parent.value].status == RunFailed
      && forall r :: r in s.runs && s.runs[r].task == t && s.runs[r].status == RunFailed
           ==> s.runs[r].attempt <= s.runs[parent.value].attempt
  }

  /** What the start of a run needs; one by a user looks at no status, one by the scheduler at claim and lineage. */
  ghost predicate StartFits(s: State, a: Actor, n: NewRun)
  {
    && n.task in s.tasks && !s.tasks[n.task].archived && s.tasks[n.task].revision == n.revision && Idle(s, n.task)
    && Visible(a, s.tasks[n.task].owner, s.tasks[n.task].department)
    && (n.claim.None? && n.parent.Some? ==> EndedRunOf(s, n.task, n.parent.value))
    && (n.claim.Some? ==>
          && ClaimFits(s, n.task, n.claim.value, n.seconds) && LineageFits(s, n.task, n.parent)
          && (forall r :: r in s.runs && s.runs[r].task == n.task ==> s.runs[r].attempt != ClaimedAttempt(s, n.task)))
  }

  function ClaimedAttempt(s: State, t: Id): int
    requires t in s.tasks
  {
    if s.tasks[t].attempt > 1 then s.tasks[t].attempt else 1
  }

  /** A dispatch meets an unexpired claim of its worker, a pending task and an ended source run. */
  ghost predicate DispatchFits(s: State, id: Id, w: string, k: Token, v: int)
  {
    && id in s.requests && s.requests[id].status == Claimed && s.requests[id].lease.Some?
    && var q, lease := s.requests[id], s.requests[id].lease.value;
      && lease.owner == w && lease.token == k && lease.expires > s.now
      && q.task in s.tasks && s.tasks[q.task].status == ContinuationPending && s.tasks[q.task].revision == v
      && q.sourceRun in s.runs && s.runs[q.sourceRun].task == q.task
      && s.runs[q.sourceRun].status in {RunCompleted, RunFailed, RunCancelled} && Idle(s, q.task)
  }

  /** A dispatch goes through exactly if it fits and its child id is new. */
  lemma DispatchedIff(s: State, id: Id, w: string, k: Token, c: Id, v: int)
    requires Inv(s)
    ensures Step(s, DispatchRequest(id, w, k, c, v)).1 == Done <==> DispatchFits(s, id, w, k, v) && c !in s.runs
  {
    hide Inv, Idle, HasLiveRun, NextAttempt, OnRuns, OnScheduler, OnApprovals, OnTasks;
    if id in s.requests {
      IdleIsNoLiveRun(s, s.requests[id].task);
      if Open(s.requests[id]) {
        OpenHasNoChild(s, id);
      }
    }
    if DoDispatch(s, id, w, k, c, v).1 == Done {
      DispatchEffect(s, id, w, k, c, v);
    }
  }

  /** The child it inserts: in the lineage of the source run, for the owner of the request. */
  lemma DispatchedRow(s: State, id: Id, w: string, k: Token, c: Id, v: int)
    requires Inv(s) && DispatchFits(s, id, w, k, v) && c !in s.runs
    ensures var b, q := Step(s, DispatchRequest(id, w, k, c, v)).0, s.requests[id];
      && c in b.runs && b.runs == s.runs[c := b.runs[c]]
      && b.tasks == s.tasks[q.task := s.tasks[q.task].(status := Running, revision := v + 1)]
      && b.requests == s.requests[id := q.(status := Dispatched, version := q.version + 1, child := Some(c),
                                           lease := None)]
      && var x, source := b.runs[c], s.runs[q.sourceRun];
        && x.task == q.task && x.status == Starting && x.kind == Continuation && x.request == Some(id)
        && x.parent == Some(q.sourceRun) && x.taskRevision == v && IsNextAttempt(s, q.task, x.attempt)
        && x.owner == q.owner && x.department == q.department
        && x.root == (if source.root.Some? then source.root else Some(q.sourceRun))
  {
    hide Inv, DispatchFits, DoDispatch, NextAttempt, IsNextAttempt, CanSpawn;
    hide OnRuns, OnScheduler, OnApprovals, OnTasks;
    DispatchedIff(s, id, w, k, c, v);
    DispatchEffect(s, id, w, k, c, v);
    SpawnsAt(s, s.requests[id], c, v);
    NextAttemptIsNext(s, s.requests[id].task);
  }

  lemma SpawnsAt(s: State, q: Request, c: Id, v: int)
    requires CanSpawn(s, q, c, v)
    ensures q.task in s.tasks && s.tasks[q.task].revision == v && q.sourceRun in s.runs
  {
  }

  lemma UnblockedIsSucceeded(s: State, t: Id)
    ensures Unblocked(s, t) <==> PrerequisitesSucceeded(s, t)
  {
    if PrerequisitesSucceeded(s, t) {
      forall e | e in s.rules && e.0 == t && e.1 in s.tasks ensures s.tasks[e.1].status == Succeeded {
        assert (t, e.1) in s.rules;
      }
    }
    if Unblocked(s, t) {
      forall p | (t, p) in s.rules && p in s.tasks ensures s.tasks[p].status == Succeeded {
        var e: Edge := (t, p);
        assert e in s.rules && e.0 == t && e.1 in s.tasks;
      }
    }
  }

  lemma ParentIsLineage(s: State, n: NewRun)
    requires n.task in s.tasks
    ensures ParentFits(s, n) <==>
      if n.claim.Some? then LineageFits(s, n.task, n.parent)
      else n.parent.Some? ==> EndedRunOf(s, n.task, n.parent.value)
  {
  }

  lemma AttemptIsFree(s: State, n: NewRun)
    requires n.task in s.tasks
    ensures (forall r :: r in TaskRuns(s, n.task) ==> s.runs[r].attempt != StartAttempt(s, n)) <==>
      (n.claim.Some? ==>
         forall r :: r in s.runs && s.runs[r].task == n.task ==> s.runs[r].attempt != ClaimedAttempt(s, n.task))
  {
    NextAttemptIsNext(s, n.task);
    hide NextAttempt;
    assert forall r :: r in TaskRuns(s, n.task) <==> r in s.runs && s.runs[r].task == n.task;
  }

  /** A start goes through exactly if it fits and its id is new. */
  lemma StartedIff(s: State, a: Actor, n: NewRun)
    ensures Step(s, StartRun(a, n)).1 == Done <==> StartFits(s, a, n) && n.id !in s.runs
  {
    hide Idle, HasLiveRun, NextAttempt, TaskRuns, LineageFits, ParentFits, EndedRunOf, StartAttempt, ClaimedAttempt;
    hide Unblocked, PrerequisitesSucceeded, StartedRun, OnRequests, OnScheduler, OnApprovals, OnTasks;
    if n.task in s.tasks {
      IdleIsNoLiveRun(s, n.task);
      UnblockedIsSucceeded(s, n.task);
      ParentIsLineage(s, n);
      AttemptIsFree(s, n);
    }
  }

  /** The row a start inserts, and the task it sets running. */
  lemma StartedRow(s: State, a: Actor, n: NewRun)
    requires StartFits(s, a, n) && n.id !in s.runs
    ensures var b := Step(s, StartRun(a, n)).0;
      && n.id in b.runs && b.runs == s.runs[n.id := b.runs[n.id]] && b.requests == s.requests
      && b.tasks == s.tasks[n.task := s.tasks[n.task].(status := Running, claim := None, retryAt := None)]
      && var x := b.runs[n.id];
        && x.task == n.task && x.status == Starting && x.owner == a.user && x.taskRevision == n.revision
        && x.department == s.tasks[n.task].department && x.parent == n.parent && x.request.None?
        && (if n.claim.None? then IsNextAttempt(s, n.task, x.attempt) else x.attempt == ClaimedAttempt(s, n.task))
        && x.kind == (if n.parent.Some? || (n.claim.Some? && x.attempt > 1) then Retry else Primary)
        && (n.parent.None? ==> x.root == Some(n.id))
        && (n.parent.Some? ==> n.parent.value in s.runs && x.root == s.runs[n.parent.value].root)
  {
    StartedIff(s, a, n);
    NextAttemptIsNext(s, n.task);
    hide StartAdmits, NextAttempt, IsNextAttempt, Idle, ClaimFits;
    hide OnRequests, OnScheduler, OnApprovals, OnTasks;
  }

  /** The step that inserts run `r`. */
  ghost predicate Inserts(s: State, op: Op, r: Id)
  {
    || (op.DispatchRequest? && op.child == r && DispatchFits(s, op.id, op.worker, op.token, op.revision))
    || (op.StartRun? && op.start.id == r && StartFits(s, op.actor, op.start))
  }

  lemma NewRunInserted(s: State, op: Op, r: Id)
    requires Inv(s) && r !in s.runs && r in Step(s, op).0.runs
    ensures Inserts(s, op, r)
  {
    hide Inv, Step, DispatchFits, StartFits;
    if op.DispatchRequest? {
      DispatchAdds(s, op, r);
      DispatchAnswered(s, op, r);
      DispatchedIff(s, op.id, op.worker, op.token, op.child, op.revision);
    } else {
      OnlyStartAdds(s, op, r);
      StartedIff(s, op.actor, op.start);
    }
  }

  /**
    Every run that is there after a run of steps and was not before was inserted by exactly one of
    them: a dispatch or a start that fits the state at that point. So a scheduled start only ever
    inserts a run for a task whose prerequisites have all succeeded by then.
   */
  lemma {:induction false} RunOrigin(s: State, ops: seq<Op>, r: Id) returns (i: nat)
    requires Inv(s) && r !in s.runs && r in After(s, ops).runs
    ensures i < |ops| && Inserts(After(s, ops[..i]), ops[i], r)
    ensures forall j :: 0 <= j <= |ops| ==> (r in After(s, ops[..j]).runs <==> i < j)
  {
    hide Inv, Step, Inserts;
    var front, last := ops[..|ops| - 1], ops[|ops| - 1];
    assert forall j :: 0 <= j <= |front| ==> front[..j] == ops[..j];
    assert ops[..|ops|] == ops;
    RunKeepsInv(s, front);
    if r in After(s, front).runs {
      i := RunOrigin(s, front, r);
    } else {
      i := |ops| - 1;
      NewRunInserted(After(s, front), last, r);
      forall j | 0 <= j <= |front| ensures r !in After(s, ops[..j]).runs {
        AbsentBefore(s, front, j, r);
      }
    }
  }

  lemma {:induction false} AbsentBefore(s: State, ops: seq<Op>, j: nat, r: Id)
    requires Inv(s) && j <= |ops| && r !in After(s, ops).runs
    ensures r !in After(s, ops[..j]).runs
    decreases |ops|
  {
    hide Inv, Step;
    if j == |ops| {
      assert ops[..j] == ops;
    } else {
      var front := ops[..|ops| - 1];
      assert front[..j] == ops[..j];
      RunKeepsInv(s, front);
      StepMovesRuns(After(s, front), ops[|ops| - 1]);
      AbsentBefore(s, front, j, r);
    }
  }

  lemma DispatchAnswered(s: State, op: Op, r: Id)
    requires Inv(s) && op.DispatchRequest? && r !in s.runs && r in Step(s, op).0.runs
    ensures Step(s, op).1 == Done
  {
    hide Inv, DoDispatch, OnRuns, OnScheduler, OnApprovals, OnTasks;
    if DoDispatch(s, op.id, op.worker, op.token, op.child, op.revision).1 != Done {
      DispatchRefused(s, op.id, op.worker, op.token, op.child, op.revision);
    }
  }

  lemma OnlyStartAdds(s: State, op: Op, r: Id)
    requires Inv(s) && !op.DispatchRequest? && r !in s.runs && r in Step(s, op).0.runs
    ensures op.StartRun? && op.start.id == r && Step(s, op).1 == Done
  {
    hide Inv, Step;
    if Quiet(op) {
      QuietSteps(s, op);
    } else if op.StartRun? {
      StartAdds(s, op, r);
    } else {
      OthersAddNone(s, op, r);
    }
  }

  lemma StartAdds(s: State, op: Op, r: Id)
    requires op.StartRun? && r !in s.runs && r in Step(s, op).0.runs
    ensures op.start.id == r && Step(s, op).1 == Done
  {
    hide StartAdmits, StartedRun, OnRequests, OnScheduler, OnApprovals, OnTasks;
  }

  lemma OthersAddNone(s: State, op: Op, r: Id)
    requires Inv(s) && !Quiet(op) && !op.DispatchRequest? && !op.StartRun? && r !in s.runs
    ensures r !in Step(s, op).0.runs
  {
    hide Inv, DoCreate, DoFinish, CutTask, BumpTo, Settlement, ConcludeTask, OnScheduler, OnTasks;
    match op
    case CreateRequest(a, n, id) =>
      if DoCreate(s, a, n, id).1 == Inserted(id) {
        CreateEffect(s, a, n, id);
      } else {
        CreateRefused(s, a, n, id);
      }
    case CancelRequest(a, id) =>
    case RejectRequest(id, w, k) =>
    case AbortStart(x, cut, h) =>
    case FinishRun(x, e) =>
      if DoFinish(s, x, e).1 == Done {
        FinishEffect(s, x, e);
      } else {
        FinishRefused(s, x, e);
      }
    case RejectApproval(x) =>
  }

  // ------------------------------------------------------------------ how runs end

  /**
    A run ends exactly if it has not ended, is no repair, is tried again only after it failed, ends as
    interrupted only after an interruption, and the task of a request it settles is running or queued.
   */
  lemma FinishedIff(s: State, run: Id, e: Ending)
    requires Inv(s)
    ensures Step(s, FinishRun(run, e)).1 == Done <==>
      && run in s.runs && s.runs[run].status in {Starting, Active, OnHold} && s.runs[run].kind != Repair
      && e.outcome in {RunCompleted, RunFailed, RunCancelled} && (e.retryAt.Some? ==> e.outcome == RunFailed)
      && (e.drift ==> run in s.interrupted && e.outcome == RunCancelled)
      && (Settlement(s, run, e).Some? ==>
            s.runs[run].task in s.tasks && s.tasks[s.runs[run].task].status in {Running, Queued})
  {
    hide Inv, DoFinish, Settlement, OnRequests, OnScheduler, OnApprovals, OnTasks;
    if CanFinish(s, run, e) {
      SettlementDecides(s, run, e);
    } else {
      CannotFinish(s, run, e);
    }
  }

  lemma CannotFinish(s: State, run: Id, e: Ending)
    requires !CanFinish(s, run, e)
    ensures DoFinish(s, run, e).1 == Refused
  {
  }

  lemma SettlementDecides(s: State, run: Id, e: Ending)
    requires Inv(s) && CanFinish(s, run, e)
    ensures DoFinish(s, run, e).1 == Done <==>
      (Settlement(s, run, e).Some? ==>
         s.runs[run].task in s.tasks && s.tasks[s.runs[run].task].status in {Running, Queued})
  {
    hide Inv, Settled, ConcludeTask;
    SettledReads(EndRun(s, run, e), EndedAt(s, run, e.outcome), run);
    if Settlement(s, run, e).Some? {
      InvParts(s);
      SettlementFits(s, run, e);
    }
  }

  /**
    Which status the end of a run gives its task: queued if it is tried again; otherwise, unless it ends
    as interrupted and settles no request, succeeded, cancelled or failed as the run completed, was
    cancelled or failed; and in that last case the old one.
   */
  lemma EndingDecidesTask(s: State, run: Id, e: Ending)
    requires Inv(s) && Step(s, FinishRun(run, e)).1 == Done
    requires run in s.runs && s.runs[run].task in s.tasks
    ensures var b, t := Step(s, FinishRun(run, e)).0, s.runs[run].task;
      && t in b.tasks && run in b.runs && b.runs[run] == s.runs[run].(status := e.outcome)
      && b.tasks[t].hookFailures == (if e.hookFailures.Some? then e.hookFailures.value else s.tasks[t].hookFailures)
      && b.tasks[t].revision == s.tasks[t].revision + (if b.requests != s.requests then 1 else 0)
      && var x, y := s.tasks[t], b.tasks[t];
        if e.retryAt.Some? then
          && y.status == Queued && y.retryAt == e.retryAt && y.claim.None? && y.retryCount == x.retryCount + 1
          && b.requests == s.requests
        else if b.requests != s.requests || !e.drift then
          && (y.status == Succeeded <==> e.outcome == RunCompleted)
          && (y.status == Cancelled <==> e.outcome == RunCancelled)
          && (y.status == Failed <==> e.outcome == RunFailed)
          && y.claim.None? && y.retryAt.None? && y.retryCount == x.retryCount
        else y.status == x.status && y.claim == x.claim && y.retryAt == x.retryAt
  {
    hide Inv, DoFinish, Settled, OnRequests, OnScheduler, OnApprovals, OnTasks;
    FinishEffect(s, run, e);
    if Settlement(s, run, e).Some? {
      var id := Settlement(s, run, e).value;
      assert DoFinish(s, run, e).0.requests[id].status == Completed;
    }
  }

  /** A start may be aborted while its run is starting or has been ended by others, if no request asked for it. */
  lemma AbortedIff(s: State, run: Id, cut: Cut, h: Option<nat>)
    ensures Step(s, AbortStart(run, cut, h)).1 == Done <==>
      && run in s.runs && s.runs[run].request.None?
      && s.runs[run].status in {Starting, RunCompleted, RunFailed, RunCancelled}
      && (cut.Mark? ==> cut.status in {Failed, Queued})
  {
    hide OnRequests, OnScheduler, OnApprovals, OnTasks, DoStart, DoFinish;
  }

  /** Cutting a run short fails it unless it had ended, and writes to its task whatever that is doing. */
  lemma CutWrites(s: State, op: Op)
    requires op.AbortStart? || op.RejectApproval?
    requires Step(s, op).1 == Done && op.run in s.runs && s.runs[op.run].task in s.tasks
    ensures var b, t, x := Step(s, op).0, s.runs[op.run].task, s.tasks[s.runs[op.run].task];
      && b.requests == s.requests && op.run in b.runs && t in b.tasks
      && b.runs == s.runs[op.run := s.runs[op.run].(status := b.runs[op.run].status)]
      && b.runs[op.run].status == (if s.runs[op.run].status in {Starting, Active, OnHold} then RunFailed
                                   else s.runs[op.run].status)
      && b.tasks == s.tasks[t := b.tasks[t]] && b.tasks[t].revision == x.revision
      && b.tasks[t].hookFailures
         == (if op.AbortStart? && op.hookFailures.Some? then op.hookFailures.value else x.hookFailures)
      && (if op.RejectApproval? then
            b.tasks[t] == x.(status := Failed, claim := None, retryAt := None)
          else match op.cut
            case Leave => b.tasks[t] == x.(hookFailures := b.tasks[t].hookFailures)
            case Mark(status) =>
              && b.tasks[t].status == status && b.tasks[t].claim.None? && b.tasks[t].retryCount == x.retryCount
              && b.tasks[t].retryAt == (if status == Queued then x.retryAt else None)
            case Requeue(at) =>
              && b.tasks[t].status == Queued && b.tasks[t].claim.None?
              && b.tasks[t].retryCount == x.retryCount + 1 && b.tasks[t].retryAt == Some(at))
  {
    hide OnRequests, OnScheduler, OnTasks, DoStart, DoFinish, DoMarkWaiting, DoMarkResumed, DoFailExpiredRun;
  }

  /** The reconciler interrupts exactly the starting and active runs whose task is over or archived. */
  lemma InterruptedIff(s: State, run: Id)
    ensures Step(s, Interrupt(run)).1 == Done <==>
      && run in s.runs && s.runs[run].status in {Starting, Active} && s.runs[run].task in s.tasks
      && (s.tasks[s.runs[run].task].archived
          || s.tasks[s.runs[run].task].status in {Failed, Succeeded, Skipped, Archived})
    ensures var (b, answer) := Step(s, Interrupt(run));
      b == if answer == Done then s.(interrupted := s.interrupted + {run}) else s
  {
    hide OnRequests, OnScheduler, OnApprovals, OnTasks, DoStart, DoFinish, DoAbortStart;
  }

  // ------------------------------------------------------------------------ approvals

  /**
    A run is put on hold exactly while it is starting or active and its task runs, or is again when
    both wait already; it leaves hold exactly while both wait.
   */
  lemma HoldIff(s: State, run: Id, t: Id)
    ensures var joined := run in s.runs && t in s.tasks && s.runs[run].task == t;
      var waiting := joined && s.runs[run].status == OnHold && s.tasks[t].status == AwaitingApproval;
      && (Step(s, MarkWaiting(run, t)).1 == Done <==>
            waiting || (joined && s.runs[run].status in {Starting, Active} && s.tasks[t].status == Running))
      && (Step(s, MarkResumed(run, t)).1 == Done <==> waiting)
      && (Step(s, FailExpiredRun(run, t)).1 == Done <==> waiting)
  {
    hide OnRequests, OnRuns, OnScheduler, OnTasks, DoRejectApproval;
  }

  /** Holding a run and resuming it gives back the state, but that a starting run comes back active. */
  lemma HoldThenResume(s: State, run: Id, t: Id)
    requires run in s.runs && t in s.tasks && s.runs[run].task == t
    requires s.runs[run].status in {Starting, Active} && s.tasks[t].status == Running
    ensures var b := Step(s, MarkWaiting(run, t)).0;
      Step(b, MarkResumed(run, t)) == (s.(runs := s.runs[run := s.runs[run].(status := Active)]), Done)
  {
    hide OnRequests, OnRuns, OnScheduler, OnTasks, DoRejectApproval;
    var c := Step(Step(s, MarkWaiting(run, t)).0, MarkResumed(run, t)).0;
    assert c.tasks == s.tasks;
    assert c.runs == s.runs[run := s.runs[run].(status := Active)];
  }

  // --------------------------------------------------------------- creating requests

  predicate SourceAt(t: Task, x: Run, a: Actor, n: NewContinuation)
  {
    && Visible(a, t.owner, t.department) && Visible(a, x.owner, x.department)
    && t.status in {Succeeded, Failed} && t.status == n.priorStatus && t.revision == n.expectedRevision
    && x.status in {RunCompleted, RunFailed} && x.root == Some(n.rootRun) && x.turn == Some(n.turn)
  }

  /** What a creation needs: a finished task, an ended run of it as source, nothing live, and keys that are new. */
  ghost predicate CreationFits(s: State, a: Actor, n: NewContinuation, id: Id)
  {
    && n.task in s.tasks && n.sourceRun in s.runs && s.runs[n.sourceRun].task == n.task && id !in s.requests
    && SourceAt(s.tasks[n.task], s.runs[n.sourceRun], a, n) && Idle(s, n.task)
    && (forall r :: r in s.requests && s.requests[r].task == n.task ==>
          var q := s.requests[r];
          && q.key != n.key && q.sequence != n.sequence
          && !(q.sourceRun == n.sourceRun && q.trigger == n.trigger && q.evidenceRef == n.evidenceRef))
  }

  lemma NoneEarlier(s: State, a: Actor, n: NewContinuation, id: Id)
    requires CreationFits(s, a, n, id)
    ensures Earlier(s, a, n).None? && !Clashes(s, n, id)
  {
    hide Idle;
    assert KeyMatches(s, a, n) == {};
    assert EvidenceMatches(s, a, n) == {};
  }

  /** A request is inserted exactly if the creation fits; then the task waits for it, one revision on. */
  lemma InsertedIff(s: State, a: Actor, n: NewContinuation, id: Id)
    ensures Step(s, CreateRequest(a, n, id)).1 == Inserted(id) <==> CreationFits(s, a, n, id)
    ensures CreationFits(s, a, n, id) ==>
      var b := Step(s, CreateRequest(a, n, id)).0;
      && b.tasks == s.tasks[n.task := s.tasks[n.task].(status := ContinuationPending,
                                                        revision := s.tasks[n.task].revision + 1)]
      && id in b.requests && b.requests == s.requests[id := b.requests[id]] && b.runs == s.runs
      && var q := b.requests[id];
        && q.task == n.task && q.key == n.key && q.sequence == n.sequence && q.priorStatus == n.priorStatus
        && q.sourceRun == n.sourceRun && q.trigger == n.trigger && q.evidenceRef == n.evidenceRef
        && q.evidenceDigest == n.evidenceDigest && q.inputDigest == n.inputDigest && q.version == 1
        && q.owner == s.tasks[n.task].owner && q.department == s.tasks[n.task].department
        && q.status == Pending && q.lease.None? && q.child.None? && q.attempts == 0 && q.nextAttemptAt.None?
  {
    hide Idle, HasLiveRun, Earlier, Clashes, OnRuns, OnScheduler, OnApprovals, OnTasks;
    IdleIsNoLiveRun(s, n.task);
    if CreationFits(s, a, n, id) {
      NoneEarlier(s, a, n, id);
    }
    if DoCreate(s, a, n, id).1 == Inserted(id) {
      InsertedFits(s, a, n, id);
    }
  }

  lemma InsertedFits(s: State, a: Actor, n: NewContinuation, id: Id)
    requires DoCreate(s, a, n, id).1 == Inserted(id)
    ensures CreationFits(s, a, n, id)
  {
    hide Idle, HasLiveRun, Earlier;
    IdleIsNoLiveRun(s, n.task);
  }

  /** A request is withdrawn exactly while it is open, seen by the caller, and its task waits for it. */
  lemma CancelledIff(s: State, a: Actor, id: Id)
    ensures Step(s, CancelRequest(a, id)).1 == Done <==>
      && id in s.requests && s.requests[id].status in {Pending, Claimed}
      && Visible(a, s.requests[id].owner, s.requests[id].department)
      && s.requests[id].task in s.tasks && s.tasks[s.requests[id].task].status == ContinuationPending
  {
    hide Visible, DoCreate, DoDispatch, OnRuns, OnScheduler, OnApprovals, OnTasks;
  }

  /** It is rejected exactly by the worker that holds its claim, expired or not, while its task waits. */
  lemma RejectedIff(s: State, id: Id, w: string, k: Token)
    ensures Step(s, RejectRequest(id, w, k)).1 == Done <==>
      && id in s.requests && s.requests[id].status == Claimed && s.requests[id].lease.Some?
      && s.requests[id].lease.value.owner == w && s.requests[id].lease.value.token == k
      && s.requests[id].task in s.tasks && s.tasks[s.requests[id].task].status == ContinuationPending
  {
    hide DoCreate, DoDispatch, OnRuns, OnScheduler, OnApprovals, OnTasks;
  }

  // -------------------------------------------------------------------- the task API

  /** The status changes the API may ask for. */
  const API_MOVES: set<(Status, Status)> := {
    (Draft, Queued), (Draft, Cancelled), (Draft, Archived), (Queued, Cancelled), (Queued, Failed),
    (Running, AwaitingApproval), (Running, Succeeded), (Running, Failed), (Running, Cancelled),
    (AwaitingApproval, Running), (AwaitingApproval, Succeeded), (AwaitingApproval, Failed),
    (AwaitingApproval, Cancelled), (Succeeded, Archived), (Failed, Archived), (Cancelled, Archived),
    (Failed, Queued)}

  /** An API update goes through exactly on an unarchived task in scope, along these moves, with inputs only at rest. */
  lemma UpdatedIff(s: State, t: Id, inScope: bool, to: Option<Status>, limit: Option<int>, edit: bool)
    ensures Step(s, UpdateTask(t, inScope, to, limit, edit)).1 == Done
       <==> && t in s.tasks && inScope && !s.tasks[t].archived
            && (to.Some? && to.value != s.tasks[t].status ==> (s.tasks[t].status, to.value) in API_MOVES)
            && (edit ==> s.tasks[t].status !in {Queued, Running, AwaitingApproval, ContinuationPending})
  {
    hide OnRequests, OnRuns, OnScheduler, OnApprovals, DoReplaceDependencies;
  }

  /** What it writes: the status asked for, the limit when it queues, the archive mark, and a revision per edit. */
  lemma UpdatedRow(s: State, t: Id, inScope: bool, to: Option<Status>, limit: Option<int>, edit: bool)
    requires Step(s, UpdateTask(t, inScope, to, limit, edit)).1 == Done
    ensures t in s.tasks
    ensures var b, x := Step(s, UpdateTask(t, inScope, to, limit, edit)).0, s.tasks[t];
      b == s.(tasks := s.tasks[t := x.(
        status := match to case Some(y) => y case None => x.status,
        maxAttempts := match (to, limit) case (Some(Queued), Some(m)) => m case _ => x.maxAttempts,
        archived := (to == Some(Archived)),
        revision := if edit then x.revision + 1 else x.revision)])
  {
    hide OnRequests, OnRuns, OnScheduler, OnApprovals, DoReplaceDependencies;
  }

  /** A task that is neither in hand nor pending does not get there through the API, over any number of updates. */
  lemma {:induction false} ApiStartsNoWork(s: State, ops: seq<Op>, t: Id)
    requires t in s.tasks && !InHand(s.tasks[t].status)
    requires forall i :: 0 <= i < |ops| ==> ops[i].UpdateTask?
    ensures var b := After(s, ops);
      && t in b.tasks && !InHand(b.tasks[t].status)
      && (b.tasks[t].status == ContinuationPending <==> s.tasks[t].status == ContinuationPending)
      && (b.tasks[t].status in {Succeeded, Skipped, Draft} ==> b.tasks[t].status == s.tasks[t].status)
      && (s.tasks[t].archived ==> b.tasks[t] == s.tasks[t])
  {
    if ops != [] {
      ApiStartsNoWork(s, ops[..|ops| - 1], t);
      UpdateStartsNoWork(After(s, ops[..|ops| - 1]), ops[|ops| - 1], t);
    }
  }

  lemma UpdateStartsNoWork(s: State, op: Op, t: Id)
    requires t in s.tasks && !InHand(s.tasks[t].status) && op.UpdateTask?
    ensures var b := Step(s, op).0;
      && t in b.tasks && !InHand(b.tasks[t].status)
      && (b.tasks[t].status == ContinuationPending <==> s.tasks[t].status == ContinuationPending)
      && (b.tasks[t].status in {Succeeded, Skipped, Draft} ==> b.tasks[t].status == s.tasks[t].status)
      && (s.tasks[t].archived ==> b.tasks[t] == s.tasks[t])
  {
    hide OnRequests, OnRuns, OnScheduler, OnApprovals, DoReplaceDependencies;
  }
}
