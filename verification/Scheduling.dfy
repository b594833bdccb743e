/**
  Scheduler claims over whole runs: fencing by claim token, the retry budget, exhaustion,
  and the order in which tasks are claimed.
 */
module Scheduling {
  import opened Types
  import opened Propagation
  import opened Protocol
  import DependencyLedger
  import opened RequestInvariants
  import opened RequestFencing

  // ------------------------------------------------- how a step changes a task

  /** The step claims task `t`. */
  ghost predicate TakesTask(s: State, op: Op, t: Id)
  {
    op.ClaimTasks? && t in op.ids && Eligible(s, t, op.seconds)
  }

  /** The step is a retry that is accepted for task `t`. */
  predicate RetriesTask(s: State, op: Op, t: Id)
  {
    op.ScheduleRetry? && op.id == t && TaskHeldBy(s, t, op.token)
  }

  /** The step puts task `t` back in the queue after a run, or the start of one, failed. */
  predicate Requeues(s: State, op: Op, t: Id)
  {
    || (op.FinishRun? && CanFinish(s, op.run, op.ending) && op.ending.retryAt.Some? && s.runs[op.run].task == t)
    || (op.AbortStart? && AbortAdmits(s, op.run, op.cut) && op.cut.Requeue? && s.runs[op.run].task == t)
  }

  /** What one step may do to the scheduling columns of one task. */
  ghost predicate TaskMove(s: State, op: Op, t: Id, a: Task, b: Task)
  {
    && (if TakesTask(s, op, t) then b.claim == Some(Claim(op.token, s.now))
        else b.claim.Some? ==> a.claim.Some? && b.claim.value.token == a.claim.value.token)
    && b.retryCount == a.retryCount + (if RetriesTask(s, op, t) || Requeues(s, op, t) then 1 else 0)
    && (RetriesTask(s, op, t) ==> b.status == if a.retryCount + 1 >= a.maxAttempts then Failed else Queued)
    && (b.maxAttempts != a.maxAttempts ==> op.UpdateTask?)
  }

  ghost predicate TasksMove(s: State, op: Op, b: State)
  {
    forall t :: t in s.tasks ==> t in b.tasks && TaskMove(s, op, t, s.tasks[t], b.tasks[t])
  }

  /** A step that writes to one task, and is no retry or requeue of another. */
  lemma OneTaskMoves(s: State, op: Op, t: Id, b: State)
    requires t in s.tasks && t in b.tasks && b.tasks == s.tasks[t := b.tasks[t]]
    requires TaskMove(s, op, t, s.tasks[t], b.tasks[t]) && !op.ClaimTasks?
    requires forall u :: RetriesTask(s, op, u) || Requeues(s, op, u) ==> u == t
    requires op.RenewTask? ==> op.id == t
    ensures TasksMove(s, op, b)
  {
  }

  lemma SameTasksMove(s: State, op: Op, b: State)
    requires b.tasks == s.tasks && !op.ClaimTasks?
    requires op.RenewTask? ==> !Renewable(s, op.id, op.token, op.seconds)
    requires forall t :: !RetriesTask(s, op, t) && (t in s.tasks ==> !Requeues(s, op, t))
    ensures TasksMove(s, op, b)
  {
  }

  lemma ClaimMoves(s: State, op: Op)
    requires op.ClaimTasks?
    ensures TasksMove(s, op, OnScheduler(s, op).0)
  {
    hide DoPropagate, NextAttempt, Eligible;
  }

  lemma ReconcileMoves(s: State)
    ensures TasksMove(s, ReconcileScheduler, OnScheduler(s, ReconcileScheduler).0)
  {
    hide DoPropagate, Exhausted;
  }

  lemma HeldMoves(s: State, op: Op)
    requires op.RenewTask? || op.ReleaseTask? || op.ScheduleRetry? || op.FailTask?
    ensures TasksMove(s, op, OnScheduler(s, op).0)
  {
    hide DoPropagate, DoClaimTasks, DoReconcileScheduler, TasksMove;
    if TaskHeldBy(s, op.id, op.token) {
      OneTaskMoves(s, op, op.id, OnScheduler(s, op).0);
    } else {
      SameTasksMove(s, op, s);
    }
  }

  lemma ClaimsMove(s: State, op: Op)
    requires ForScheduler(op) && !op.PropagateDependencies?
    ensures TasksMove(s, op, Step(s, op).0)
  {
    hide OnScheduler, TasksMove;
    if op.ClaimTasks? {
      ClaimMoves(s, op);
    } else if op.ReconcileScheduler? {
      ReconcileMoves(s);
    } else {
      HeldMoves(s, op);
    }
  }

  lemma PropagationMoves(s: State)
    ensures TasksMove(s, PropagateDependencies, Step(s, PropagateDependencies).0)
  {
    hide Next;
  }

  /** The claim steps of requests touch no task. */
  lemma RequestClaimsMove(s: State, op: Op)
    requires op.ClaimRequests? || op.RenewRequest? || op.ReleaseExpired? || op.ReleaseRequest?
    ensures TasksMove(s, op, Step(s, op).0)
  {
  }

  lemma RequestEndsMove(s: State, op: Op)
    requires op.CancelRequest? || op.RejectRequest? || op.CreateRequest?
    ensures TasksMove(s, op, Step(s, op).0)
  {
    hide Earlier, HasLiveRun, Clashes;
  }

  lemma DispatchMoves(s: State, op: Op)
    requires op.DispatchRequest?
    ensures TasksMove(s, op, Step(s, op).0)
  {
    hide NextAttempt, CanSpawn, ChildrenOf;
  }

  lemma RequeueMoves(s: State, op: Op)
    requires op.FinishRun? && op.ending.retryAt.Some?
    ensures TasksMove(s, op, DoFinish(s, op.run, op.ending).0)
  {
    hide TasksMove, DoComplete, Settled;
    var b := DoFinish(s, op.run, op.ending).0;
    if CanFinish(s, op.run, op.ending) && s.runs[op.run].task in s.tasks {
      OneTaskMoves(s, op, s.runs[op.run].task, b);
    } else {
      SameTasksMove(s, op, b);
    }
  }

  lemma EndingMoves(s: State, op: Op)
    requires op.FinishRun? && op.ending.retryAt.None?
    ensures TasksMove(s, op, DoFinish(s, op.run, op.ending).0)
  {
    hide Settled;
  }

  lemma FinishMoves(s: State, op: Op)
    requires op.FinishRun?
    ensures TasksMove(s, op, Step(s, op).0)
  {
    hide DoFinish, TasksMove;
    if op.ending.retryAt.Some? {
      RequeueMoves(s, op);
    } else {
      EndingMoves(s, op);
    }
  }

  lemma StartsMove(s: State, op: Op)
    requires op.StartRun? || op.AbortStart? || op.Interrupt?
    ensures TasksMove(s, op, Step(s, op).0)
  {
    hide StartAdmits, StartedRun;
  }

  lemma ApprovalsMove(s: State, op: Op)
    requires ForApprovals(op)
    ensures TasksMove(s, op, Step(s, op).0)
  {
    hide TasksMove, OnRequests, OnRuns, OnScheduler, OnTasks;
    var b := Step(s, op).0;
    if b.tasks == s.tasks {
      SameTasksMove(s, op, b);
    } else {
      OneTaskMoves(s, op, if op.RejectApproval? then s.runs[op.run].task else op.task, b);
    }
  }

  lemma ApiMoves(s: State, op: Op)
    requires op.Tick? || ForTasks(op)
    ensures TasksMove(s, op, Step(s, op).0)
  {
    hide DependencyLedger.DoReplace;
  }

  lemma StepMovesTasks(s: State, op: Op)
    ensures TasksMove(s, op, Step(s, op).0)
  {
    hide TasksMove, Step;
    if op.CancelRequest? || op.RejectRequest? || op.CreateRequest? {
      RequestEndsMove(s, op);
    } else if op.DispatchRequest? {
      DispatchMoves(s, op);
    } else if ForRequests(op) {
      RequestClaimsMove(s, op);
    } else if op.FinishRun? {
      FinishMoves(s, op);
    } else if ForRuns(op) {
      StartsMove(s, op);
    } else if op.PropagateDependencies? {
      PropagationMoves(s);
    } else if ForScheduler(op) {
      ClaimsMove(s, op);
    } else if ForApprovals(op) {
      ApprovalsMove(s, op);
    } else {
      ApiMoves(s, op);
    }
  }

  // ------------------------------------------------------------------ fencing

  /**
    While nothing else keeps task `t` from being claimed, its claim is at every clock value
    either renewable by its holder or open to takeover, never both and never neither.
   */
  lemma RenewOrTakeover(s: State, t: Id, k: Token, k': Token, seconds: int)
    requires TaskHeldBy(s, t, k) && k' != k && !s.tasks[t].archived && WithinBudget(s.tasks[t]) && Unblocked(s, t)
    requires s.tasks[t].environmentReady && Due(s, s.tasks[t]) && !HasLiveRun(s, t)
    ensures Step(s, RenewTask(t, k, seconds)).1 == Done
       <==> Step(s, ClaimTasks({t}, k', seconds)).0.tasks[t].claim != Some(Claim(k', s.now))
  {
    hide HasLiveRun, NextAttempt, Unblocked;
  }

  /** `k` has been issued and no longer holds task `t`. */
  ghost predicate TaskSpent(s: State, t: Id, k: Token)
  {
    k in s.issued && t in s.tasks && !HoldsToken(s, t, k)
  }

  predicate HoldsToken(s: State, t: Id, k: Token)
  {
    t in s.tasks && s.tasks[t].claim.Some? && s.tasks[t].claim.value.token == k
  }

  lemma StepKeepsTaskSpent(s: State, op: Op, t: Id, k: Token)
    requires TaskSpent(s, t, k) && FreshToken(s, op)
    ensures TaskSpent(Step(s, op).0, t, k)
  {
    hide Step, Eligible;
    StepMovesTasks(s, op);
    IssuedOnlyGrows(s, op);
    assert TaskMove(s, op, t, s.tasks[t], Step(s, op).0.tasks[t]);
  }

  lemma {:induction false} RunKeepsTaskSpent(s: State, ops: seq<Op>, t: Id, k: Token)
    requires TaskSpent(s, t, k) && FreshTokens(s, ops)
    ensures TaskSpent(After(s, ops), t, k)
  {
    hide Step, TaskSpent;
    if ops != [] {
      RunKeepsTaskSpent(s, ops[..|ops| - 1], t, k);
      StepKeepsTaskSpent(After(s, ops[..|ops| - 1]), ops[|ops| - 1], t, k);
    }
  }

  /** The operations that present a claim token for task `t`. */
  predicate PresentsForTask(op: Op, t: Id, k: Token)
  {
    (op.RenewTask? || op.ReleaseTask? || op.ScheduleRetry? || op.FailTask?) && op.id == t && op.token == k
  }

  lemma TaskSpentIsRefused(s: State, op: Op, t: Id, k: Token)
    requires TaskSpent(s, t, k) && PresentsForTask(op, t, k)
    ensures Step(s, op) == (s, Refused)
  {
    hide OnRequests, OnRuns, DoPropagate, OnApprovals, OnTasks, DoClaimTasks, DoReconcileScheduler;
  }

  /**
    After a takeover, or any other loss of its claim, a worker's token changes nothing for the
    rest of the run, and its claim is never current again.
   */
  lemma LostTaskIsFenced(s: State, op: Op, ops: seq<Op>, late: Op, t: Id, k: Token, seconds: int)
    requires ClaimsIssued(s) && HoldsToken(s, t, k) && FreshToken(s, op)
    requires !HoldsToken(Step(s, op).0, t, k)
    requires FreshTokens(Step(s, op).0, ops) && PresentsForTask(late, t, k)
    ensures var b := After(Step(s, op).0, ops);
      Step(b, late) == (b, Refused) && !ClaimIsCurrent(b, t, k, seconds)
  {
    hide Step, Eligible;
    var a := Step(s, op).0;
    StepMovesTasks(s, op);
    assert TaskMove(s, op, t, s.tasks[t], a.tasks[t]);
    IssuedOnlyGrows(s, op);
    assert TaskSpent(a, t, k);
    RunKeepsTaskSpent(a, ops, t, k);
    TaskSpentIsRefused(After(a, ops), late, t, k);
  }

  /** Every claim on a task carries an issued token. */
  ghost predicate ClaimsIssued(s: State)
  {
    forall t :: t in s.tasks && s.tasks[t].claim.Some? ==> s.tasks[t].claim.value.token in s.issued
  }

  lemma ClaimIssuesToken(s: State, op: Op)
    requires op.ClaimTasks?
    ensures op.token in Step(s, op).0.issued
  {
    hide Eligible, NextAttempt;
  }

  lemma StepKeepsClaimsIssued(s: State, op: Op)
    requires Inv(s) && ClaimsIssued(s)
    ensures ClaimsIssued(Step(s, op).0)
  {
    hide Step, Eligible, Inv;
    var b := Step(s, op).0;
    StepMovesTasks(s, op);
    IssuedOnlyGrows(s, op);
    NoTaskAppears(s, op);
    if op.ClaimTasks? {
      ClaimIssuesToken(s, op);
    }
    forall t | t in b.tasks && b.tasks[t].claim.Some? ensures b.tasks[t].claim.value.token in b.issued {
      assert TaskMove(s, op, t, s.tasks[t], b.tasks[t]);
    }
  }

  lemma NoTaskAppears(s: State, op: Op)
    requires Inv(s)
    ensures Step(s, op).0.tasks.Keys == s.tasks.Keys
  {
    if Quiet(op) {
      hide Step;
      QuietSteps(s, op);
    } else if ForRequests(op) {
      RequestAddsNone(s, op);
    } else {
      RunAddsNone(s, op);
    }
  }

  lemma RequestAddsNone(s: State, op: Op)
    requires Inv(s) && !Quiet(op) && ForRequests(op)
    ensures Step(s, op).0.tasks.Keys == s.tasks.Keys
  {
    hide Inv, DoCreate, DoDispatch, NextAttempt, CanSpawn, BumpTo;
    match op
    case CreateRequest(a, n, id) =>
      if DoCreate(s, a, n, id).1 == Inserted(id) {
        CreateEffect(s, a, n, id);
      } else {
        CreateRefused(s, a, n, id);
      }
    case CancelRequest(a, id) => RestoreAddsNone(s);
    case RejectRequest(id, w, k) => RestoreAddsNone(s);
    case DispatchRequest(id, w, k, c, v) =>
      if DoDispatch(s, id, w, k, c, v).1 == Done {
        DispatchEffect(s, id, w, k, c, v);
        DispatchCloses(s, id, w, k, c, v);
      } else {
        DispatchRefused(s, id, w, k, c, v);
      }
  }

  lemma RunAddsNone(s: State, op: Op)
    requires Inv(s) && !Quiet(op) && !ForRequests(op)
    ensures Step(s, op).0.tasks.Keys == s.tasks.Keys
  {
    hide Inv, DoStart, DoFinish, Settlement, Concluded, CutTask, HasLiveRun;
    match op
    case StartRun(a, n) =>
      if DoStart(s, a, n).1 == Done {
        StartEffect(s, a, n);
      } else {
        StartRefused(s, a, n);
      }
    case AbortStart(r, c, h) =>
    case FinishRun(r, e) =>
      if DoFinish(s, r, e).1 == Done {
        FinishEffect(s, r, e);
      } else {
        FinishRefused(s, r, e);
      }
    case RejectApproval(r) =>
  }

  lemma RestoreAddsNone(s: State)
    ensures forall id, q :: Restore(s, id, q).0.tasks.Keys == s.tasks.Keys
  {
  }

  lemma {:induction false} RunKeepsClaimsIssued(s: State, ops: seq<Op>)
    requires Inv(s) && ClaimsIssued(s)
    ensures ClaimsIssued(After(s, ops))
  {
    hide Step, Inv, ClaimsIssued;
    if ops != [] {
      var front := ops[..|ops| - 1];
      RunKeepsClaimsIssued(s, front);
      RunKeepsInv(s, front);
      StepKeepsClaimsIssued(After(s, front), ops[|ops| - 1]);
    }
  }

  /** A takeover by a fresh token is such a loss. */
  lemma TakeoverLosesClaim(s: State, ids: set<Id>, t: Id, k: Token, k': Token, seconds: int)
    requires HoldsToken(s, t, k) && k != k' && t in ids && Eligible(s, t, seconds)
    ensures !HoldsToken(Step(s, ClaimTasks(ids, k', seconds)).0, t, k)
    ensures HoldsToken(Step(s, ClaimTasks(ids, k', seconds)).0, t, k')
  {
    hide Eligible, NextAttempt;
  }

  // ------------------------------------------------------------- retry budget

  /** How often the run puts task `t` back in the queue after a failed attempt. */
  ghost function Requeued(s: State, ops: seq<Op>, t: Id): nat
  {
    if ops == [] then 0
    else
      var front := ops[..|ops| - 1];
      Requeued(s, front, t) + if Requeues(After(s, front), ops[|ops| - 1], t) then 1 else 0
  }

  ghost function Retries(s: State, ops: seq<Op>, t: Id): nat
  {
    if ops == [] then 0
    else
      var front := ops[..|ops| - 1];
      Retries(s, front, t) + if RetriesTask(After(s, front), ops[|ops| - 1], t) then 1 else 0
  }

  /** Task `t` is queued, with attempt limit `m`, before every step of the run. */
  ghost predicate QueuedThroughout(s: State, ops: seq<Op>, t: Id, m: int)
  {
    forall i :: 0 <= i < |ops| ==> QueuedAt(After(s, ops[..i]), t, m)
  }

  predicate QueuedAt(s: State, t: Id, m: int)
  {
    t in s.tasks && s.tasks[t].status == Queued && s.tasks[t].maxAttempts == m
  }

  lemma {:induction false} RetryCountGrows(s: State, ops: seq<Op>, t: Id)
    requires t in s.tasks
    ensures t in After(s, ops).tasks
    ensures After(s, ops).tasks[t].retryCount == s.tasks[t].retryCount + Retries(s, ops, t) + Requeued(s, ops, t)
  {
    hide Step;
    if ops != [] {
      var front := ops[..|ops| - 1];
      RetryCountGrows(s, front, t);
      StepMovesTasks(After(s, front), ops[|ops| - 1]);
      assert TaskMove(After(s, front), ops[|ops| - 1], t, After(s, front).tasks[t], After(s, ops).tasks[t]);
    }
  }

  /**
    A task that stays queued accepts at most `max(1, m - c)` retries, `c` being its retry
    count at the start; as long as it is still queued after one, the count is below the limit.
   */
  lemma {:induction false} RetriesBounded(s: State, ops: seq<Op>, t: Id, m: int)
    requires t in s.tasks && QueuedThroughout(s, ops, t, m)
    ensures Retries(s, ops, t) <= if m - s.tasks[t].retryCount > 1 then m - s.tasks[t].retryCount else 1
    ensures Retries(s, ops, t) > 0 && QueuedAt(After(s, ops), t, m)
        ==> s.tasks[t].retryCount + Retries(s, ops, t) < m
  {
    hide Step;
    if ops != [] {
      var n := |ops| - 1;
      var front := ops[..n];
      assert forall i :: 0 <= i < n ==> front[..i] == ops[..i];
      RetriesBounded(s, front, t, m);
      RetryCountGrows(s, front, t);
      assert QueuedAt(After(s, front), t, m);
      StepMovesTasks(After(s, front), ops[n]);
      assert TaskMove(After(s, front), ops[n], t, After(s, front).tasks[t], After(s, ops).tasks[t]);
    }
  }

  // --------------------------------------------------------------- exhaustion

  /** The budget test of the claim and the exhaustion test of the reconciler are complements on due tasks. */
  lemma BudgetOrExhausted(s: State, t: Task)
    requires t.status == Queued && !t.archived && Due(s, t)
    ensures WithinBudget(t) <==> !Exhausted(s, t)
  {
  }

  predicate OverBudget(s: State, t: Task)
  {
    t.status == Queued && !t.archived && Due(s, t) && !WithinBudget(t)
  }

  /**
    Reconciling fails exactly the due queued tasks that have used up their budget, so
    afterwards no due queued task is kept from being claimed by its budget.
   */
  lemma NoneStuckOnBudget(s: State)
    ensures var b := Step(s, ReconcileScheduler).0;
      && b.tasks.Keys == s.tasks.Keys
      && (forall t :: t in s.tasks ==>
            b.tasks[t].status == if OverBudget(s, s.tasks[t]) then Failed else s.tasks[t].status)
      && (forall t :: t in b.tasks && b.tasks[t].status == Queued && !b.tasks[t].archived && Due(b, b.tasks[t])
            ==> WithinBudget(b.tasks[t]))
  {
    hide OnRequests, OnRuns, DoPropagate, OnApprovals, OnTasks, DoClaimTasks, DoRenewTask, DoReleaseTask,
         DoScheduleRetry, DoFailTask;
  }

  /**
    Exhaustion does not look at claims: a task that has just been claimed survives the next
    reconciliation exactly if the attempt it was claimed for is below the limit, or a hook
    failure is being retried.
   */
  lemma ClaimSurvivesReconcileIff(s: State, ids: set<Id>, k: Token, seconds: int, t: Id)
    requires t in ids && Eligible(s, t, seconds)
    ensures HoldsToken(DoReconcileScheduler(DoClaimTasks(s, ids, k, seconds).0).0, t, k)
       <==> NextAttempt(s, t) < s.tasks[t].maxAttempts || 0 < s.tasks[t].hookFailures < 5
  {
    hide NextAttempt, HasLiveRun, Unblocked;
  }

  /** A task limited to one attempt is claimed for its first run and failed by the next reconciliation. */
  lemma SingleAttemptLostToReconcile()
    ensures var t := Task(Queued, 1, 0, None, None, 0, 0, 1, None, 0, false, true, Normal, None, 0);
      var s := State(0, map[7 := t], map[], map[], map[], {}, {}, map[], {});
      && Eligible(s, 7, 60)
      && DoReconcileScheduler(DoClaimTasks(s, {7}, 1, 60).0).0.tasks[7].status == Failed
  {
    var t := Task(Queued, 1, 0, None, None, 0, 0, 1, None, 0, false, true, Normal, None, 0);
    var s := State(0, map[7 := t], map[], map[], map[], {}, {}, map[], {});
    assert TaskRuns(s, 7) == {};
    ClaimSurvivesReconcileIff(s, {7}, 1, 60, 7);
  }

  // ------------------------------------------------------------ the claim order

  function Base(p: Priority): int
  {
    match p
    case Urgent => 0
    case High => 1
    case Normal => 2
    case Low => 3
  }

  /** `CASE priority ... END - LEAST(3, FLOOR(age / aging))` */
  function Effective(now: int, aging: int, t: Task): int
    requires aging > 0
  {
    var periods := (now - t.createdAt) / aging;
    Base(t.priority) - if periods < 3 then periods else 3
  }

  /** `due_at ASC NULLS LAST` */
  predicate DueBefore(a: Option<int>, b: Option<int>)
  {
    a.Some? && (b.None? || a.value < b.value)
  }

  predicate Ahead(now: int, aging: int, i: Id, a: Task, j: Id, b: Task)
    requires aging > 0
  {
    var x, y := Effective(now, aging, a), Effective(now, aging, b);
    || x < y
    || (x == y && DueBefore(a.dueAt, b.dueAt))
    || (x == y && a.dueAt == b.dueAt && a.createdAt < b.createdAt)
    || (x == y && a.dueAt == b.dueAt && a.createdAt == b.createdAt && i < j)
  }

  lemma AheadIsTotalOrder(now: int, aging: int, i: Id, a: Task, j: Id, b: Task, k: Id, c: Task)
    requires aging > 0
    ensures !Ahead(now, aging, i, a, i, a)
    ensures i != j ==> (Ahead(now, aging, i, a, j, b) <==> !Ahead(now, aging, j, b, i, a))
    ensures Ahead(now, aging, i, a, j, b) && Ahead(now, aging, j, b, k, c) ==> Ahead(now, aging, i, a, k, c)
  {
  }

  /** At equal effective priority the earlier due date is ahead, and a task without one comes last. */
  lemma EarlierDueAhead(now: int, aging: int, i: Id, a: Task, j: Id, b: Task)
    requires aging > 0 && Effective(now, aging, a) == Effective(now, aging, b) && a.dueAt.Some?
    requires b.dueAt.Some? ==> a.dueAt.value < b.dueAt.value
    ensures Ahead(now, aging, i, a, j, b) && !Ahead(now, aging, j, b, i, a)
  {
  }

  lemma MulOrder(d: int, a: int, c: int)
    requires d > 0
    ensures a <= c <==> d * a <= d * c
  {
    assert d * c - d * a == d * (c - a);
  }

  lemma FloorMono(x: int, y: int, d: int)
    requires d > 0 && x <= y
    ensures x / d <= y / d
  {
    MulOrder(d, y / d + 1, x / d);
    assert d * (y / d + 1) == d * (y / d) + d;
  }

  /** With equal due dates an older task of equal or higher priority is ahead at every clock value. */
  lemma OlderIsAlwaysAhead(now: int, aging: int, i: Id, a: Task, j: Id, b: Task)
    requires aging > 0 && a.createdAt < b.createdAt && Base(a.priority) <= Base(b.priority) && a.dueAt == b.dueAt
    ensures Ahead(now, aging, i, a, j, b)
  {
    FloorMono(now - b.createdAt, now - a.createdAt, aging);
  }

  /** Of two tasks created together the one with the higher priority is ahead at every clock value. */
  lemma HigherIsAlwaysAhead(now: int, aging: int, i: Id, a: Task, j: Id, b: Task)
    requires aging > 0 && a.createdAt == b.createdAt
    requires (a.priority == Urgent && b.priority != Urgent) || (a.priority == High && b.priority in {Normal, Low})
             || (a.priority == Normal && b.priority == Low)
    ensures Ahead(now, aging, i, a, j, b)
  {
  }

  /**
    Aging stops after three periods: a low task that has waited that long or longer draws level with an
    urgent task younger than one period, and then due date, creation and id decide.
   */
  lemma LowDrawsLevel(now: int, aging: int, i: Id, a: Task, j: Id, b: Task)
    requires aging > 0 && a.priority == Low && b.priority == Urgent
    requires now - a.createdAt >= 3 * aging && 0 <= now - b.createdAt < aging
    ensures Ahead(now, aging, i, a, j, b)
       <==> match (a.dueAt, b.dueAt)
            case (None, None) => true
            case (Some(x), Some(y)) => x <= y
            case (Some(x), None) => true
            case (None, Some(y)) => false
  {
    FloorMono(3 * aging, now - a.createdAt, aging);
    ThreePeriods(aging);
    assert (now - b.createdAt) / aging == 0 by {
      FloorMono(0, now - b.createdAt, aging);
      FloorMono(now - b.createdAt, aging - 1, aging);
    }
  }

  lemma ThreePeriods(d: int)
    requires d > 0
    ensures (3 * d) / d == 3
  {
    var q := (3 * d) / d;
    assert 3 * d == d * q + (3 * d) % d;
    MulOrder(d, q, 2);
    MulOrder(d, 4, q);
  }

  /** A task above low priority that has waited three aging periods is ahead of every task younger than one. */
  lemma AgedOvertakesFresh(now: int, aging: int, i: Id, a: Task, j: Id, b: Task)
    requires aging > 0 && a.priority != Low
    requires now - a.createdAt >= 3 * aging && now - b.createdAt < aging
    ensures Ahead(now, aging, i, a, j, b)
  {
    FloorMono(3 * aging, now - a.createdAt, aging);
    FloorMono(now - b.createdAt, aging - 1, aging);
    assert (3 * aging) / aging == 3 && (aging - 1) / aging == 0 by {
      FloorExact(3, 0, aging);
      FloorExact(0, aging - 1, aging);
    }
  }

  lemma FloorExact(q: int, r: int, d: int)
    requires d > 0 && 0 <= r < d
    ensures (q * d + r) / d == q
  {
    var n := q * d + r;
    assert n == d * (n / d) + n % d;
    assert q * d == d * q;
    QuotientUnique(d, q, r, n / d, n % d);
  }

  lemma QuotientUnique(d: int, q: int, r: int, x: int, y: int)
    requires 0 <= r < d && 0 <= y < d && d * q + r == d * x + y
    ensures q == x
  {
    MulOrder(d, x + 1, q);
    MulOrder(d, q + 1, x);
    assert d * (x + 1) == d * x + d && d * (q + 1) == d * q + d;
  }

  /** `picked` is the first part of `rows` in claim order, in order. */
  ghost predicate PickedInOrder(now: int, aging: int, rows: map<Id, Task>, picked: seq<Id>)
    requires aging > 0
  {
    && (forall i :: 0 <= i < |picked| ==> picked[i] in rows)
    && (forall i, j :: 0 <= i < j < |picked|
          ==> Ahead(now, aging, picked[i], rows[picked[i]], picked[j], rows[picked[j]]))
    && (forall i, x :: 0 <= i < |picked| && x in rows && x !in picked
          ==> Ahead(now, aging, picked[i], rows[picked[i]], x, rows[x]))
  }

  /** The row that comes first in claim order. */
  method First(now: int, aging: int, rows: map<Id, Task>) returns (best: Id)
    requires aging > 0 && rows != map[]
    ensures best in rows
    ensures forall x :: x in rows && x != best ==> Ahead(now, aging, best, rows[best], x, rows[x])
  {
    best :| best in rows;
    var left := rows.Keys - {best};
    while left != {}
      invariant best in rows && left <= rows.Keys
      invariant forall x :: x in rows && x !in left && x != best ==> Ahead(now, aging, best, rows[best], x, rows[x])
      decreases |left|
    {
      var x :| x in left;
      if Ahead(now, aging, x, rows[x], best, rows[best]) {
        best := x;
      }
      left := left - {x};
    }
  }

  /** `ORDER BY ... LIMIT`: exactly the first `limit` rows, in order. */
  method Pick(now: int, aging: int, rows: map<Id, Task>, limit: nat) returns (picked: seq<Id>)
    requires aging > 0
    ensures |picked| == if |rows| < limit then |rows| else limit
    ensures PickedInOrder(now, aging, rows, picked)
  {
    hide Ahead;
    picked := [];
    var left := rows;
    assert rows.Keys - {} == rows.Keys;
    while |picked| < limit && left != map[]
      invariant |picked| <= limit && |picked| + |left| == |rows|
      invariant forall x :: x in left <==> x in rows && x !in picked
      invariant forall x :: x in left ==> left[x] == rows[x]
      invariant PickedInOrder(now, aging, rows, picked)
      decreases |left|
    {
      var best := First(now, aging, left);
      var rest := left - {best};
      assert rest.Keys == left.Keys - {best};
      picked := picked + [best];
      left := rest;
    }
  }
}
