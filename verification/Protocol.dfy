/**
  The orchestration protocol as a state machine: the transactions of the continuation, scheduler,
  propagation, approval, dependency, run-start and task-update code are atomic steps on the task,
  request, run and dependency tables. A refused or failing transaction leaves the state untouched.
 */
module Protocol {
  import opened Types
  import opened Extremes
  import opened Graph
  import opened Propagation
  import DependencyLedger

  /** A random UUID that fences a claim. */
  type Token = nat

  // -------------------------------------------------------------------- rows

  /** `scheduler_claim_token` and `scheduler_claimed_at`, which are always written together. */
  datatype Claim = Claim(token: Token, at: int)

  datatype Priority = Urgent | High | Normal | Low

  datatype Task = Task(
    status: Status,
    revision: int,
    owner: Id,
    department: Option<Id>,
    claim: Option<Claim>,
    attempt: int,
    retryCount: int,
    maxAttempts: int,
    retryAt: Option<int>,
    hookFailures: nat,
    archived: bool,
    environmentReady: bool,
    priority: Priority,
    dueAt: Option<int>,
    createdAt: int)

  datatype RequestStatus = Pending | Claimed | Dispatched | Completed | Withdrawn | Rejected

  /** `claim_owner`, `claim_token` and `claim_expires_at`. */
  datatype Lease = Lease(owner: string, token: Token, expires: int)

  datatype Request = Request(
    task: Id,
    sourceRun: Id,
    trigger: string,
    evidenceRef: string,
    evidenceDigest: string,
    inputDigest: string,
    key: string,
    sequence: nat,
    priorStatus: Status,
    owner: Id,
    department: Option<Id>,
    status: RequestStatus,
    version: int,
    lease: Option<Lease>,
    attempts: nat,
    nextAttemptAt: Option<int>,
    child: Option<Id>)

  /** Runs are inserted in `starting`; the column's default is never used. */
  datatype RunStatus = Starting | Active | OnHold | RunCompleted | RunFailed | RunCancelled

  datatype RunKind = Primary | Retry | Continuation | Repair | FollowUp

  datatype Run = Run(
    task: Id,
    status: RunStatus,
    kind: RunKind,
    owner: Id,
    department: Option<Id>,
    root: Option<Id>,
    turn: Option<string>,
    parent: Option<Id>,
    request: Option<Id>,
    taskRevision: int,
    attempt: nat)

  datatype Scope = All | Organization | DepartmentAndChildren | Department | SelfOnly

  /** `subtree`: the `visible_departments` of the actor's department. */
  datatype Actor = Actor(scope: Scope, user: Id, department: Option<Id>, subtree: set<Id>)

  /** `interrupted`: the runs that the reconciler has told to stop because their task was over. */
  datatype State = State(
    now: int,
    tasks: map<Id, Task>,
    requests: map<Id, Request>,
    runs: map<Id, Run>,
    rules: map<Edge, Rule>,
    timedOut: set<Id>,
    issued: set<Token>,
    mutations: map<(Id, string), DependencyLedger.Mutation>,
    interrupted: set<Id>)

  // ------------------------------------------------------------------- steps

  datatype NewContinuation = NewContinuation(
    task: Id,
    sourceRun: Id,
    rootRun: Id,
    turn: string,
    trigger: string,
    evidenceRef: string,
    evidenceDigest: string,
    inputDigest: string,
    key: string,
    sequence: nat,
    priorStatus: Status,
    expectedRevision: int)

  /**
    How a run ended. `retryAt`: the supervisor decided to run the task again. `drift`: the run was
    interrupted because its task was over. `hookFailures`: the task's new hook counter.
   */
  datatype Ending = Ending(outcome: RunStatus, retryAt: Option<int>, drift: bool, hookFailures: Option<nat>)

  /** `claim`: the scheduler's token, or none when a user starts the run. `parent`: the run it tries again. */
  datatype NewRun = NewRun(
    id: Id, task: Id, revision: int, claim: Option<Token>, seconds: int, parent: Option<Id>)

  /** What happens to the task of a run that is cut short. */
  datatype Cut = Requeue(at: int) | Mark(status: Status) | Leave

  datatype Op =
    | Tick(elapsed: nat)
    // continuation requests
    | CreateRequest(actor: Actor, input: NewContinuation, id: Id)
    | CancelRequest(actor: Actor, id: Id)
    | ClaimRequests(ids: set<Id>, worker: string, token: Token, seconds: int)
    | RenewRequest(id: Id, worker: string, token: Token, seconds: int)
    | ReleaseExpired(ids: set<Id>)
    | ReleaseRequest(id: Id, worker: string, token: Token, seconds: int)
    | RejectRequest(id: Id, worker: string, token: Token)
    | DispatchRequest(id: Id, worker: string, token: Token, child: Id, revision: int)
    // runs
    | StartRun(actor: Actor, start: NewRun)
    | AbortStart(run: Id, cut: Cut, hookFailures: Option<nat>)
    | FinishRun(run: Id, ending: Ending)
    | Interrupt(run: Id)
    // scheduler
    | ClaimTasks(ids: set<Id>, token: Token, seconds: int)
    | RenewTask(id: Id, token: Token, seconds: int)
    | ReleaseTask(id: Id, token: Token)
    | ScheduleRetry(id: Id, token: Token, at: int)
    | FailTask(id: Id, token: Token)
    | ReconcileScheduler
    | PropagateDependencies
    // approvals
    | MarkWaiting(run: Id, task: Id)
    | MarkResumed(run: Id, task: Id)
    | FailExpiredRun(run: Id, task: Id)
    | RejectApproval(run: Id)
    // task API
    | ReplaceDependencies(r: DependencyLedger.Replacement)
    | UpdateTask(task: Id, inScope: bool, to: Option<Status>, limit: Option<int>, inputsChanged: bool)

  datatype Answer =
    | Done
    | Refused
    | Inserted(id: Id)
    | Replayed(id: Id)
    | KeyConflict
    | NotFound
    | SourceMismatch
    | LiveRun
    | ConstraintViolated
    | TaskStateChanged

  // ----------------------------------------------------------------- helpers

  function Clamp(x: int, lo: int, hi: int): int
    requires lo <= hi
  {
    if x < lo then lo else if x > hi then hi else x
  }

  predicate Visible(a: Actor, owner: Id, department: Option<Id>)
  {
    match a.scope
    case All => true
    case Organization => true
    case SelfOnly => owner == a.user
    case Department => department.Some? && department == a.department
    case DepartmentAndChildren => department.Some? && department.value in a.subtree
  }

  predicate Ended(s: RunStatus)
  {
    s == RunCompleted || s == RunFailed || s == RunCancelled
  }

  predicate Live(s: RunStatus)
  {
    s == Starting || s == Active || s == OnHold
  }

  predicate HasLiveRun(s: State, t: Id)
  {
    exists r :: r in s.runs && s.runs[r].task == t && Live(s.runs[r].status)
  }

  predicate Open(q: Request)
  {
    q.status == Pending || q.status == Claimed
  }

  ghost function Cfg(s: State): Config
  {
    Config(s.rules, s.timedOut)
  }

  ghost function StatusesOf(s: State): Statuses
  {
    map t | t in s.tasks :: s.tasks[t].status
  }

  // ------------------------------------------------- continuation requests

  predicate SameEvidence(q: Request, n: NewContinuation)
  {
    q.sourceRun == n.sourceRun && q.trigger == n.trigger && q.evidenceRef == n.evidenceRef
  }

  function KeyMatches(s: State, a: Actor, n: NewContinuation): set<Id>
  {
    set r | r in s.requests && s.requests[r].task == n.task && s.requests[r].key == n.key
            && Visible(a, s.requests[r].owner, s.requests[r].department)
  }

  function EvidenceMatches(s: State, a: Actor, n: NewContinuation): set<Id>
  {
    set r | r in s.requests && s.requests[r].task == n.task && SameEvidence(s.requests[r], n)
            && Visible(a, s.requests[r].owner, s.requests[r].department)
  }

  /** The earlier request that a replay finds: one with the same key first, the lowest id otherwise. */
  ghost function Earlier(s: State, a: Actor, n: NewContinuation): Option<Id>
  {
    if KeyMatches(s, a, n) != {} then Some(Least(KeyMatches(s, a, n)))
    else if EvidenceMatches(s, a, n) != {} then Some(Least(EvidenceMatches(s, a, n)))
    else None
  }

  predicate SameRequest(q: Request, n: NewContinuation)
  {
    && q.sourceRun == n.sourceRun && q.inputDigest == n.inputDigest
    && q.evidenceDigest == n.evidenceDigest && q.trigger == n.trigger
    && (q.key == n.key ==> q.evidenceRef == n.evidenceRef)
  }

  predicate SourceFits(t: Task, r: Run, n: NewContinuation)
  {
    && t.status == n.priorStatus && t.revision == n.expectedRevision
    && (t.status == Succeeded || t.status == Failed)
    && (r.status == RunCompleted || r.status == RunFailed)
    && r.root == Some(n.rootRun) && r.turn == Some(n.turn)
  }

  /** The unique keys of the request table. */
  predicate Clashes(s: State, n: NewContinuation, id: Id)
  {
    || id in s.requests
    || exists r :: r in s.requests && s.requests[r].task == n.task
         && (s.requests[r].key == n.key || SameEvidence(s.requests[r], n) || s.requests[r].sequence == n.sequence)
  }

  function NewRequest(t: Task, n: NewContinuation): Request
  {
    Request(n.task, n.sourceRun, n.trigger, n.evidenceRef, n.evidenceDigest, n.inputDigest, n.key, n.sequence,
            n.priorStatus, t.owner, t.department, Pending, 1, None, 0, None, None)
  }

  function BumpTo(t: Task, status: Status): Task
  {
    t.(status := status, revision := t.revision + 1)
  }

  /** `create` */
  ghost function DoCreate(s: State, a: Actor, n: NewContinuation, id: Id): (State, Answer)
  {
    match Earlier(s, a, n)
    case Some(r) => (s, if r in s.requests && SameRequest(s.requests[r], n) then Replayed(r) else KeyConflict)
    case None =>
      if n.task !in s.tasks || n.sourceRun !in s.runs || s.runs[n.sourceRun].task != n.task
         || !Visible(a, s.tasks[n.task].owner, s.tasks[n.task].department)
         || !Visible(a, s.runs[n.sourceRun].owner, s.runs[n.sourceRun].department) then (s, NotFound)
      else if !SourceFits(s.tasks[n.task], s.runs[n.sourceRun], n) then (s, SourceMismatch)
      else if HasLiveRun(s, n.task) then (s, LiveRun)
      else if Clashes(s, n, id) then (s, ConstraintViolated)
      else (s.(requests := s.requests[id := NewRequest(s.tasks[n.task], n)],
               tasks := s.tasks[n.task := BumpTo(s.tasks[n.task], ContinuationPending)]),
            Inserted(id))
  }

  /** The task half of `cancel` and `reject_claim`: put the task back where the request found it. */
  function Restore(s: State, id: Id, q: Request): (State, Answer)
  {
    if q.task !in s.tasks || s.tasks[q.task].status != ContinuationPending then (s, TaskStateChanged)
    else (s.(requests := s.requests[id := q],
             tasks := s.tasks[q.task := BumpTo(s.tasks[q.task], q.priorStatus)]), Done)
  }

  /** `cancel` */
  function DoCancel(s: State, a: Actor, id: Id): (State, Answer)
  {
    if id !in s.requests || !Open(s.requests[id])
       || !Visible(a, s.requests[id].owner, s.requests[id].department) then (s, Refused)
    else
      var q := s.requests[id];
      Restore(s, id, q.(status := Withdrawn, version := q.version + 1, lease := None))
  }

  predicate Claimable(s: State, id: Id)
  {
    && id in s.requests && s.requests[id].status == Pending
    && (s.requests[id].nextAttemptAt.None? || s.requests[id].nextAttemptAt.value <= s.now)
  }

  function Leased(q: Request, worker: string, token: Token, expires: int): Request
  {
    q.(status := Claimed, version := q.version + 1, lease := Some(Lease(worker, token, expires)),
       attempts := q.attempts + 1)
  }

  /** `claim_pending`: `SKIP LOCKED` lets the batch be any part of the claimable requests. */
  function DoClaimRequests(s: State, ids: set<Id>, worker: string, token: Token, seconds: int): (State, Answer)
  {
    (s.(requests := map r | r in s.requests ::
          if r in ids && Claimable(s, r)
          then Leased(s.requests[r], worker, token, s.now + Clamp(seconds, 10, 3600)) else s.requests[r],
        issued := s.issued + {token}), Done)
  }

  predicate HeldBy(s: State, id: Id, worker: string, token: Token)
  {
    && id in s.requests && s.requests[id].status == Claimed && s.requests[id].lease.Some?
    && s.requests[id].lease.value.owner == worker && s.requests[id].lease.value.token == token
  }

  predicate Unexpired(s: State, id: Id)
  {
    id in s.requests && s.requests[id].lease.Some? && s.requests[id].lease.value.expires > s.now
  }

  /** `renew_claim` */
  function DoRenewRequest(s: State, id: Id, worker: string, token: Token, seconds: int): (State, Answer)
  {
    if !HeldBy(s, id, worker, token) || !Unexpired(s, id) then (s, Refused)
    else
      (s.(requests := s.requests[id := s.requests[id].(
            lease := Some(Lease(worker, token, s.now + Clamp(seconds, 10, 3600))))]), Done)
  }

  function Freed(q: Request, nextAttemptAt: int): Request
  {
    q.(status := Pending, version := q.version + 1, lease := None, nextAttemptAt := Some(nextAttemptAt))
  }

  predicate Expired(s: State, id: Id)
  {
    && id in s.requests && s.requests[id].status == Claimed
    && s.requests[id].lease.Some? && s.requests[id].lease.value.expires <= s.now
  }

  /** `release_expired_claims` */
  function DoReleaseExpired(s: State, ids: set<Id>): (State, Answer)
  {
    (s.(requests := map r | r in s.requests ::
          if r in ids && Expired(s, r) then Freed(s.requests[r], s.now) else s.requests[r]), Done)
  }

  /** `release_claim` */
  function DoReleaseRequest(s: State, id: Id, worker: string, token: Token, seconds: int): (State, Answer)
  {
    if !HeldBy(s, id, worker, token) then (s, Refused)
    else (s.(requests := s.requests[id := Freed(s.requests[id], s.now + Clamp(seconds, 0, 3600))]), Done)
  }

  /** `reject_claim` */
  function DoReject(s: State, id: Id, worker: string, token: Token): (State, Answer)
  {
    if !HeldBy(s, id, worker, token) then (s, Refused)
    else
      var q := s.requests[id];
      Restore(s, id, q.(status := Rejected, version := q.version + 1, lease := None))
  }

  function ChildrenOf(s: State, id: Id): set<Id>
  {
    set c | c in s.runs && s.runs[c].request == Some(id)
  }

  /** The guard of the insert in `create_continuation_run`. */
  predicate CanSpawn(s: State, q: Request, child: Id, revision: int)
  {
    && child !in s.runs
    && q.task in s.tasks && q.sourceRun in s.runs && s.runs[q.sourceRun].task == q.task
    && Ended(s.runs[q.sourceRun].status)
    && s.tasks[q.task].revision == revision && s.tasks[q.task].status == ContinuationPending
    && !HasLiveRun(s, q.task)
  }

  ghost function NextAttempt(s: State, t: Id): nat
  {
    if TaskRuns(s, t) == {} then 1
    else Greatest(set r | r in TaskRuns(s, t) :: s.runs[r].attempt) + 1
  }

  function TaskRuns(s: State, t: Id): set<Id>
  {
    set r | r in s.runs && s.runs[r].task == t
  }

  ghost function ChildRun(s: State, id: Id, q: Request, revision: int): Run
    requires q.sourceRun in s.runs
  {
    var source := s.runs[q.sourceRun];
    Run(q.task, Starting, Continuation, q.owner, q.department,
        Some(if source.root.Some? then source.root.value else q.sourceRun), None,
        Some(q.sourceRun), Some(id), revision, NextAttempt(s, q.task))
  }

  /** `mark_dispatched` */
  function DoMarkDispatched(s: State, id: Id, worker: string, token: Token, child: Id): (State, Answer)
  {
    if !HeldBy(s, id, worker, token) || !Unexpired(s, id) then (s, Refused)
    else
      var q := s.requests[id];
      if q.task !in s.tasks || s.tasks[q.task].status != ContinuationPending
         || child !in s.runs || s.runs[child].task != q.task || s.runs[child].request != Some(id)
         || s.runs[child].status != Starting then (s, TaskStateChanged)
      else (s.(requests := s.requests[id := q.(status := Dispatched, version := q.version + 1,
                                               child := Some(child), lease := None)],
               tasks := s.tasks[q.task := BumpTo(s.tasks[q.task], Running)]), Done)
  }

  /**
    The dispatch transaction: insert the child run, or pick up the one that already
    belongs to the request, then `mark_dispatched`; anything else rolls both back.
   */
  ghost function DoDispatch(s: State, id: Id, worker: string, token: Token, child: Id, revision: int): (State, Answer)
  {
    if id !in s.requests then (s, Refused)
    else if ChildrenOf(s, id) != {} then
      var (s', answer) := DoMarkDispatched(s, id, worker, token, Least(ChildrenOf(s, id)));
      (if answer == Done then s' else s, answer)
    else if !CanSpawn(s, s.requests[id], child, revision) then (s, Refused)
    else
      var spawned := s.(runs := s.runs[child := ChildRun(s, id, s.requests[id], revision)]);
      var (s', answer) := DoMarkDispatched(spawned, id, worker, token, child);
      (if answer == Done then s' else s, answer)
  }

  /** `run_lineage`: a run and the runs it descends from; a parent row is older than its child. */
  function Lineage(runs: map<Id, Run>, r: Id): set<Id>
    decreases r
  {
    if r !in runs then {}
    else if runs[r].parent.Some? && runs[r].parent.value < r then {r} + Lineage(runs, runs[r].parent.value)
    else {r}
  }

  function OwnMatches(s: State, run: Id): set<Id>
  {
    set q | q in s.requests && s.requests[q].status == Dispatched && run in s.runs
            && s.runs[run].request == Some(q) && Ended(s.runs[run].status)
  }

  predicate LineageMatch(s: State, run: Id, q: Id)
  {
    exists r :: r in Lineage(s.runs, run) && r in s.runs && s.runs[r].request == Some(q) && Ended(s.runs[r].status)
  }

  function LineageMatches(s: State, run: Id): set<Id>
  {
    set q | q in s.requests && s.requests[q].status == Dispatched && LineageMatch(s, run, q)
  }

  /** The request that `complete_for_child_run` settles: the run's own before an ancestor's, then the lowest id. */
  ghost function Settled(s: State, run: Id): Option<Id>
  {
    if OwnMatches(s, run) != {} then Some(Least(OwnMatches(s, run)))
    else if LineageMatches(s, run) != {} then Some(Least(LineageMatches(s, run)))
    else None
  }

  predicate Settles(s: Status)
  {
    s == Succeeded || s == Failed || s == Cancelled
  }

  /** `complete_for_child_run` */
  ghost function DoComplete(s: State, run: Id, result: Status): (State, Answer)
  {
    if !Settles(result) then (s, ConstraintViolated)
    else match Settled(s, run)
      case None => (s, Done)
      case Some(id) =>
        if id !in s.requests then (s, Refused)
        else
          var q := s.requests[id];
          if q.task !in s.tasks || !(s.tasks[q.task].status == Running || s.tasks[q.task].status == Queued)
          then (s, TaskStateChanged)
          else (s.(requests := s.requests[id := q.(status := Completed, version := q.version + 1)],
                   tasks := s.tasks[q.task := BumpTo(s.tasks[q.task], result).(claim := None, retryAt := None)]),
                Done)
  }

  function ResultOf(outcome: RunStatus): Status
  {
    if outcome == RunCompleted then Succeeded else if outcome == RunCancelled then Cancelled else Failed
  }

  /** `record_hook_failure` or `clear_hook_failure` */
  function Noted(t: Task, e: Ending): Task
  {
    if e.hookFailures.Some? then t.(hookFailures := e.hookFailures.value) else t
  }

  /** `requeue_task_after_run`, `update_task_status`, or neither: none of them looks at the task's status. */
  function Concluded(t: Task, e: Ending): Task
  {
    if e.retryAt.Some? then
      Noted(t, e).(status := Queued, claim := None, retryCount := t.retryCount + 1, retryAt := e.retryAt)
    else if e.drift then Noted(t, e)
    else Noted(t, e).(status := ResultOf(e.outcome), claim := None, retryAt := None)
  }

  function NoteTask(tasks: map<Id, Task>, id: Id, e: Ending): map<Id, Task>
  {
    if id in tasks then tasks[id := Noted(tasks[id], e)] else tasks
  }

  function ConcludeTask(tasks: map<Id, Task>, id: Id, e: Ending): map<Id, Task>
  {
    if id in tasks then tasks[id := Concluded(tasks[id], e)] else tasks
  }

  /** The run's own writes: its terminal status, and the hook counter of its task. */
  function EndRun(s: State, run: Id, e: Ending): State
    requires run in s.runs
  {
    s.(runs := s.runs[run := s.runs[run].(status := e.outcome)],
       tasks := NoteTask(s.tasks, s.runs[run].task, e))
  }

  /** Repair runs end elsewhere, only a failed run is run again, and drift needs an interruption. */
  predicate CanFinish(s: State, run: Id, e: Ending)
  {
    && run in s.runs && !Ended(s.runs[run].status) && Ended(e.outcome)
    && s.runs[run].kind != Repair && (e.retryAt.Some? ==> e.outcome == RunFailed)
    && (e.drift ==> run in s.interrupted && e.outcome == RunCancelled)
  }

  /**
    The supervisor's terminal transaction. A run that is tried again leaves its request alone;
    otherwise `complete_for_child_run` settles a request and the task with it, or else the
    outcome is written to the task.
   */
  ghost function DoFinish(s: State, run: Id, e: Ending): (State, Answer)
  {
    if !CanFinish(s, run, e) then (s, Refused)
    else
      var ended := EndRun(s, run, e);
      var concluded := ended.(tasks := ConcludeTask(s.tasks, s.runs[run].task, e));
      if e.retryAt.Some? then (concluded, Done)
      else
        var (s', answer) := DoComplete(ended, run, ResultOf(e.outcome));
        if answer != Done then (s, answer)
        else if Settled(ended, run).Some? then (s', Done)
        else (concluded, Done)
  }

  // ---------------------------------------------------- starting and cutting

  /** The newest failed run of the task, which a scheduled retry descends from. */
  predicate IsRetryParent(s: State, t: Id, p: Id)
  {
    && p in s.runs && s.runs[p].task == t && s.runs[p].status == RunFailed
    && forall q :: q in s.runs && s.runs[q].task == t && s.runs[q].status == RunFailed
         ==> s.runs[q].attempt <= s.runs[p].attempt
  }

  predicate ParentFits(s: State, n: NewRun)
    requires n.task in s.tasks
  {
    match n.parent
    case None => n.claim.None? || s.tasks[n.task].retryCount <= 0
    case Some(p) =>
      && p in s.runs && s.runs[p].task == n.task && Ended(s.runs[p].status)
      && (n.claim.Some? ==> s.tasks[n.task].retryCount > 0 && IsRetryParent(s, n.task, p))
  }

  ghost function StartAttempt(s: State, n: NewRun): nat
    requires n.task in s.tasks
  {
    if n.claim.None? then NextAttempt(s, n.task)
    else if s.tasks[n.task].attempt < 1 then 1 else s.tasks[n.task].attempt
  }

  /** The insert goes in unless a unique index is hit; a user's start looks at no status. */
  ghost predicate StartAdmits(s: State, a: Actor, n: NewRun)
  {
    && n.task in s.tasks && !s.tasks[n.task].archived && n.id !in s.runs
    && Visible(a, s.tasks[n.task].owner, s.tasks[n.task].department)
    && s.tasks[n.task].revision == n.revision && !HasLiveRun(s, n.task) && ParentFits(s, n)
    && (forall r :: r in TaskRuns(s, n.task) ==> s.runs[r].attempt != StartAttempt(s, n))
    && (n.claim.Some? ==> ClaimIsCurrent(s, n.task, n.claim.value, n.seconds))
  }

  ghost function StartedRun(s: State, a: Actor, n: NewRun): Run
    requires n.task in s.tasks && (n.parent.Some? ==> n.parent.value in s.runs)
  {
    var attempt := StartAttempt(s, n);
    var kind := if n.parent.Some? || (n.claim.Some? && attempt > 1) then Retry else Primary;
    var root := if n.parent.Some? then s.runs[n.parent.value].root else Some(n.id);
    Run(n.task, Starting, kind, a.user, s.tasks[n.task].department, root, None, n.parent, None, n.revision, attempt)
  }

  function StartedTask(t: Task): Task
  {
    t.(status := Running, claim := None, retryAt := None)
  }

  /** `create_run_with_context`: the transaction that inserts the run and sets its task running. */
  ghost function DoStart(s: State, a: Actor, n: NewRun): (State, Answer)
  {
    if !StartAdmits(s, a, n) then (s, Refused)
    else
      (s.(runs := s.runs[n.id := StartedRun(s, a, n)],
          tasks := s.tasks[n.task := StartedTask(s.tasks[n.task])]), Done)
  }

  function CutTask(t: Task, cut: Cut, hookFailures: Option<nat>): Task
  {
    var noted := if hookFailures.Some? then t.(hookFailures := hookFailures.value) else t;
    match cut
    case Requeue(at) => noted.(status := Queued, claim := None, retryCount := t.retryCount + 1, retryAt := Some(at))
    case Mark(status) =>
      noted.(status := status, claim := None, retryAt := if status == Queued then t.retryAt else None)
    case Leave => noted
  }

  /** Fails the run unless it has ended, and writes to its task in any case. */
  function DoCut(s: State, run: Id, cut: Cut, hookFailures: Option<nat>): (State, Answer)
  {
    if run !in s.runs then (s, Refused)
    else
      var x := s.runs[run];
      (s.(runs := s.runs[run := if Ended(x.status) then x else x.(status := RunFailed)],
          tasks := if x.task in s.tasks
                   then s.tasks[x.task := CutTask(s.tasks[x.task], cut, hookFailures)] else s.tasks), Done)
  }

  /** A start that fails before the run's process exists: the run is still starting, or somebody has ended it. */
  predicate AbortAdmits(s: State, run: Id, cut: Cut)
  {
    && run in s.runs && s.runs[run].request.None? && (s.runs[run].status == Starting || Ended(s.runs[run].status))
    && (cut.Mark? ==> cut.status == Failed || cut.status == Queued)
  }

  function DoAbortStart(s: State, run: Id, cut: Cut, hookFailures: Option<nat>): (State, Answer)
  {
    if !AbortAdmits(s, run, cut) then (s, Refused) else DoCut(s, run, cut, hookFailures)
  }

  /** The rejecting half of the approval decision. */
  function DoRejectApproval(s: State, run: Id): (State, Answer)
  {
    DoCut(s, run, Mark(Failed), None)
  }

  predicate Over(t: Task)
  {
    t.status in {Failed, Succeeded, Skipped, Archived} || t.archived
  }

  /** The reconciler interrupts a starting or active run whose task is over. */
  function DoInterrupt(s: State, run: Id): (State, Answer)
  {
    if run in s.runs && (s.runs[run].status == Starting || s.runs[run].status == Active)
       && s.runs[run].task in s.tasks && Over(s.tasks[s.runs[run].task])
    then (s.(interrupted := s.interrupted + {run}), Done)
    else (s, Refused)
  }

  // --------------------------------------------------------------- scheduler

  predicate WithinBudget(t: Task)
  {
    t.attempt < t.maxAttempts || (t.hookFailures > 0 && t.hookFailures < 5)
  }

  predicate Due(s: State, t: Task)
  {
    t.retryAt.None? || t.retryAt.value <= s.now
  }

  /** `dependency_eligible_sql` */
  predicate Unblocked(s: State, t: Id)
  {
    forall e :: e in s.rules && e.0 == t && e.1 in s.tasks ==> s.tasks[e.1].status == Succeeded
  }

  predicate ClaimLapsed(s: State, t: Task, seconds: int)
  {
    t.claim.None? || t.claim.value.at < s.now - seconds
  }

  predicate Eligible(s: State, id: Id, seconds: int)
  {
    && id in s.tasks && s.tasks[id].status == Queued && !s.tasks[id].archived
    && WithinBudget(s.tasks[id]) && Unblocked(s, id) && s.tasks[id].environmentReady
    && ClaimLapsed(s, s.tasks[id], seconds) && Due(s, s.tasks[id]) && !HasLiveRun(s, id)
  }

  /** `claim_scheduler_tasks` for the tasks it picks; which ones it picks is decided in `Scheduling`. */
  ghost function DoClaimTasks(s: State, ids: set<Id>, token: Token, seconds: int): (State, Answer)
  {
    (s.(tasks := map t | t in s.tasks ::
          if t in ids && Eligible(s, t, seconds)
          then s.tasks[t].(claim := Some(Claim(token, s.now)), attempt := NextAttempt(s, t)) else s.tasks[t],
        issued := s.issued + {token}), Done)
  }

  predicate TaskHeldBy(s: State, id: Id, token: Token)
  {
    && id in s.tasks && s.tasks[id].status == Queued
    && s.tasks[id].claim.Some? && s.tasks[id].claim.value.token == token
  }

  predicate Renewable(s: State, id: Id, token: Token, seconds: int)
  {
    TaskHeldBy(s, id, token) && s.tasks[id].claim.value.at >= s.now - seconds
  }

  /** `scheduler_claim_is_current` */
  predicate ClaimIsCurrent(s: State, id: Id, token: Token, seconds: int)
  {
    Renewable(s, id, token, seconds) && Unblocked(s, id)
  }

  /** `renew_scheduler_claim` */
  function DoRenewTask(s: State, id: Id, token: Token, seconds: int): (State, Answer)
  {
    if !Renewable(s, id, token, seconds) then (s, Refused)
    else (s.(tasks := s.tasks[id := s.tasks[id].(claim := Some(Claim(token, s.now)))]), Done)
  }

  /** `release_scheduler_claim` */
  function DoReleaseTask(s: State, id: Id, token: Token): (State, Answer)
  {
    if !TaskHeldBy(s, id, token) then (s, Refused)
    else (s.(tasks := s.tasks[id := s.tasks[id].(claim := None)]), Done)
  }

  /** `schedule_retry` */
  function DoScheduleRetry(s: State, id: Id, token: Token, at: int): (State, Answer)
  {
    if !TaskHeldBy(s, id, token) then (s, Refused)
    else
      var t := s.tasks[id];
      (s.(tasks := s.tasks[id := t.(claim := None, retryCount := t.retryCount + 1, retryAt := Some(at),
            status := if t.retryCount + 1 >= t.maxAttempts then Failed else t.status)]), Done)
  }

  /** `fail_scheduler_task` */
  function DoFailTask(s: State, id: Id, token: Token): (State, Answer)
  {
    if !TaskHeldBy(s, id, token) then (s, Refused)
    else (s.(tasks := s.tasks[id := s.tasks[id].(claim := None, status := Failed)]), Done)
  }

  predicate Exhausted(s: State, t: Task)
  {
    && t.status == Queued && !t.archived && t.attempt >= t.maxAttempts
    && (t.hookFailures == 0 || t.hookFailures >= 5) && Due(s, t)
  }

  /** The claim clean-up and exhaustion statements of `reconcile_scheduler_state`. */
  function DoReconcileScheduler(s: State): (State, Answer)
  {
    (s.(tasks := map i | i in s.tasks ::
          var t := s.tasks[i];
          if t.status != Queued then t.(claim := None)
          else if Exhausted(s, t) then t.(status := Failed, claim := None)
          else t), Done)
  }

  /** The reconciler's test for a continuation or repair run whose task has moved on. */
  predicate RevisionDrift(r: Run, t: Task)
  {
    if r.kind == Primary || r.kind == Retry then r.taskRevision != t.revision
    else if r.kind == Continuation || r.kind == Repair then
      r.taskRevision > t.revision || r.taskRevision + 1 < t.revision
    else false
  }

  /** `reconcile_task_dependencies` */
  ghost function DoPropagate(s: State): (State, Answer)
  {
    if !Total(Cfg(s), StatusesOf(s)) then (s, ConstraintViolated)
    else
      var after := Pass(Cfg(s), StatusesOf(s));
      (s.(tasks := map t | t in s.tasks ::
            if after[t] == s.tasks[t].status then s.tasks[t]
            else s.tasks[t].(status := after[t], claim := None)), Done)
  }

  // --------------------------------------------------------------- approvals

  predicate Joined(s: State, run: Id, task: Id)
  {
    run in s.runs && task in s.tasks && s.runs[run].task == task
  }

  predicate BothWaiting(s: State, run: Id, task: Id)
  {
    Joined(s, run, task) && s.runs[run].status == OnHold && s.tasks[task].status == AwaitingApproval
  }

  function SetBoth(s: State, run: Id, runStatus: RunStatus, task: Id, t: Task): State
    requires Joined(s, run, task)
  {
    s.(runs := s.runs[run := s.runs[run].(status := runStatus)], tasks := s.tasks[task := t])
  }

  /** `mark_waiting` */
  function DoMarkWaiting(s: State, run: Id, task: Id): (State, Answer)
  {
    if BothWaiting(s, run, task) then (s, Done)
    else if !Joined(s, run, task) || !(s.runs[run].status == Starting || s.runs[run].status == Active)
            || s.tasks[task].status != Running then (s, Refused)
    else (SetBoth(s, run, OnHold, task, s.tasks[task].(status := AwaitingApproval)), Done)
  }

  /** `mark_resumed` */
  function DoMarkResumed(s: State, run: Id, task: Id): (State, Answer)
  {
    if !BothWaiting(s, run, task) then (s, Refused)
    else (SetBoth(s, run, Active, task, s.tasks[task].(status := Running)), Done)
  }

  /** `fail_expired_run` */
  function DoFailExpiredRun(s: State, run: Id, task: Id): (State, Answer)
  {
    if !BothWaiting(s, run, task) then (s, Refused)
    else (SetBoth(s, run, RunFailed, task, s.tasks[task].(status := Failed, claim := None, retryAt := None)), Done)
  }

  // ---------------------------------------------------------------- task API

  predicate MayMove(from: Status, to: Status)
  {
    || from == to
    || (from == Draft && to in {Queued, Cancelled, Archived})
    || (from == Queued && to in {Cancelled, Failed})
    || (from == Running && to in {AwaitingApproval, Succeeded, Failed, Cancelled})
    || (from == AwaitingApproval && to in {Running, Succeeded, Failed, Cancelled})
    || (from in {Succeeded, Failed, Cancelled} && to == Archived)
    || (from == Failed && to == Queued)
  }

  /** Statuses in which the dispatch trigger keeps the inputs of a task from changing. */
  predicate InputsFrozen(s: Status)
  {
    s in {Queued, Running, AwaitingApproval, ContinuationPending}
  }

  predicate UpdateAdmits(s: State, id: Id, inScope: bool, to: Option<Status>, inputsChanged: bool)
  {
    && id in s.tasks && inScope && !s.tasks[id].archived
    && (to.Some? ==> MayMove(s.tasks[id].status, to.value))
    && !(inputsChanged && InputsFrozen(s.tasks[id].status))
  }

  /** `update_task`, with the trigger that raises the revision when inputs change. */
  function DoUpdateTask(s: State, id: Id, inScope: bool, to: Option<Status>, limit: Option<int>, inputsChanged: bool)
    : (State, Answer)
  {
    if !UpdateAdmits(s, id, inScope, to, inputsChanged) then (s, Refused)
    else
      var t := s.tasks[id];
      (s.(tasks := s.tasks[id := t.(
            status := if to.Some? then to.value else t.status,
            maxAttempts := if to == Some(Queued) && limit.Some? then limit.value else t.maxAttempts,
            archived := to == Some(Archived),
            revision := if inputsChanged then t.revision + 1 else t.revision)]), Done)
  }

  /** The dependency tables as `DependencyLedger` sees them. */
  ghost function Dependencies(s: State): DependencyLedger.State
  {
    DependencyLedger.State(map t | t in s.tasks :: s.tasks[t].revision, s.rules, s.mutations, {}, map[])
  }

  /** `replace_task_dependencies`, which tests the revision and raises it, and looks at no status. */
  ghost function DoReplaceDependencies(s: State, r: DependencyLedger.Replacement): (State, Answer)
  {
    var (d, outcome) := DependencyLedger.DoReplace(Dependencies(s), r);
    if outcome != DependencyLedger.Applied || r.task !in s.tasks then (s, Refused)
    else
      (s.(rules := d.rules, mutations := d.mutations,
          tasks := s.tasks[r.task := s.tasks[r.task].(revision := s.tasks[r.task].revision + 1)]), Done)
  }

  // ------------------------------------------------------------------- runs

  predicate ForRequests(op: Op)
  {
    || op.CreateRequest? || op.CancelRequest? || op.ClaimRequests? || op.RenewRequest? || op.ReleaseExpired?
    || op.ReleaseRequest? || op.RejectRequest? || op.DispatchRequest?
  }

  ghost function OnRequests(s: State, op: Op): (State, Answer)
    requires ForRequests(op)
  {
    match op
    case CreateRequest(a, n, id) => DoCreate(s, a, n, id)
    case CancelRequest(a, id) => DoCancel(s, a, id)
    case ClaimRequests(ids, w, k, n) => DoClaimRequests(s, ids, w, k, n)
    case RenewRequest(id, w, k, n) => DoRenewRequest(s, id, w, k, n)
    case ReleaseExpired(ids) => DoReleaseExpired(s, ids)
    case ReleaseRequest(id, w, k, n) => DoReleaseRequest(s, id, w, k, n)
    case RejectRequest(id, w, k) => DoReject(s, id, w, k)
    case DispatchRequest(id, w, k, c, v) => DoDispatch(s, id, w, k, c, v)
  }

  predicate ForRuns(op: Op)
  {
    op.StartRun? || op.AbortStart? || op.FinishRun? || op.Interrupt?
  }

  ghost function OnRuns(s: State, op: Op): (State, Answer)
    requires ForRuns(op)
  {
    match op
    case StartRun(a, n) => DoStart(s, a, n)
    case AbortStart(r, c, h) => DoAbortStart(s, r, c, h)
    case FinishRun(r, e) => DoFinish(s, r, e)
    case Interrupt(r) => DoInterrupt(s, r)
  }

  predicate ForScheduler(op: Op)
  {
    || op.ClaimTasks? || op.RenewTask? || op.ReleaseTask? || op.ScheduleRetry? || op.FailTask?
    || op.ReconcileScheduler? || op.PropagateDependencies?
  }

  ghost function OnScheduler(s: State, op: Op): (State, Answer)
    requires ForScheduler(op)
  {
    match op
    case ClaimTasks(ids, k, n) => DoClaimTasks(s, ids, k, n)
    case RenewTask(id, k, n) => DoRenewTask(s, id, k, n)
    case ReleaseTask(id, k) => DoReleaseTask(s, id, k)
    case ScheduleRetry(id, k, at) => DoScheduleRetry(s, id, k, at)
    case FailTask(id, k) => DoFailTask(s, id, k)
    case ReconcileScheduler => DoReconcileScheduler(s)
    case PropagateDependencies => DoPropagate(s)
  }

  predicate ForApprovals(op: Op)
  {
    op.MarkWaiting? || op.MarkResumed? || op.FailExpiredRun? || op.RejectApproval?
  }

  ghost function OnApprovals(s: State, op: Op): (State, Answer)
    requires ForApprovals(op)
  {
    match op
    case MarkWaiting(r, t) => DoMarkWaiting(s, r, t)
    case MarkResumed(r, t) => DoMarkResumed(s, r, t)
    case FailExpiredRun(r, t) => DoFailExpiredRun(s, r, t)
    case RejectApproval(r) => DoRejectApproval(s, r)
  }

  predicate ForTasks(op: Op)
  {
    op.ReplaceDependencies? || op.UpdateTask?
  }

  ghost function OnTasks(s: State, op: Op): (State, Answer)
    requires ForTasks(op)
  {
    match op
    case ReplaceDependencies(r) => DoReplaceDependencies(s, r)
    case UpdateTask(t, v, to, l, c) => DoUpdateTask(s, t, v, to, l, c)
  }

  ghost function Step(s: State, op: Op): (State, Answer)
  {
    if op.Tick? then (s.(now := s.now + op.elapsed), Done)
    else if ForRequests(op) then OnRequests(s, op)
    else if ForRuns(op) then OnRuns(s, op)
    else if ForScheduler(op) then OnScheduler(s, op)
    else if ForApprovals(op) then OnApprovals(s, op)
    else OnTasks(s, op)
  }

  /** The state after a serial run. */
  ghost function After(s: State, ops: seq<Op>): State
  {
    if ops == [] then s else Step(After(s, ops[..|ops| - 1]), ops[|ops| - 1]).0
  }
}
