/**
  What every step of every modelled writer keeps about requests and runs: requests agree with
  their task and child, their keys are unique, an unended run keeps its task from pending, and a
  run is of the same task as its parent.
 */
module RequestInvariants {
  import opened Types
  import opened Extremes
  import opened Propagation
  import opened Protocol
  import DependencyLedger

  ghost predicate SameIdentity(p: Request, q: Request)
  {
    && p.task == q.task && p.sourceRun == q.sourceRun && p.trigger == q.trigger
    && p.evidenceRef == q.evidenceRef && p.evidenceDigest == q.evidenceDigest
    && p.inputDigest == q.inputDigest && p.key == q.key && p.sequence == q.sequence
    && p.priorStatus == q.priorStatus && p.owner == q.owner && p.department == q.department
  }

  /** The row's own columns agree with each other. */
  ghost predicate RowOk(q: Request)
  {
    && (q.lease.Some? <==> q.status == Claimed)
    && (q.child.Some? <==> q.status == Dispatched || q.status == Completed)
    && (q.priorStatus == Succeeded || q.priorStatus == Failed)
  }

  ghost predicate FitsTask(s: State, q: Request)
  {
    q.task in s.tasks && q.owner == s.tasks[q.task].owner && q.department == s.tasks[q.task].department
  }

  ghost predicate Distinct(p: Request, q: Request)
  {
    p.task == q.task ==>
      && p.key != q.key && p.sequence != q.sequence
      && !(p.sourceRun == q.sourceRun && p.trigger == q.trigger && p.evidenceRef == q.evidenceRef)
  }

  ghost predicate RequestsOk(s: State)
  {
    forall r :: r in s.requests ==> RowOk(s.requests[r]) && FitsTask(s, s.requests[r])
  }

  ghost predicate RequestsDistinct(s: State)
  {
    forall p, q :: p in s.requests && q in s.requests && p != q ==> Distinct(s.requests[p], s.requests[q])
  }

  ghost predicate ChildOk(s: State, c: Id)
    requires c in s.runs
  {
    s.runs[c].request.Some? ==>
      var r := s.runs[c].request.value;
      r in s.requests && s.requests[r].child == Some(c) && s.requests[r].task == s.runs[c].task
  }

  ghost predicate ChildrenOk(s: State)
  {
    forall c :: c in s.runs ==> ChildOk(s, c)
  }

  /** A run that has not ended keeps its task from pending, and a run is of the same task as its parent. */
  ghost predicate RunOk(s: State, r: Id)
    requires r in s.runs
  {
    var x := s.runs[r];
    && (!Ended(x.status) && x.task in s.tasks ==> s.tasks[x.task].status != ContinuationPending)
    && (x.parent.Some? ==> x.parent.value in s.runs && s.runs[x.parent.value].task == x.task)
  }

  ghost predicate RunsOk(s: State)
  {
    forall r :: r in s.runs ==> RunOk(s, r)
  }

  ghost predicate Inv(s: State)
  {
    RequestsOk(s) && RequestsDistinct(s) && ChildrenOk(s) && RunsOk(s)
  }

  // ------------------------------------------------- steps that leave it alone

  ghost predicate TaskFrame(a: Task, b: Task)
  {
    && a.owner == b.owner && a.department == b.department
    && (a.status == ContinuationPending <==> b.status == ContinuationPending)
  }

  ghost predicate RequestFrame(p: Request, q: Request)
  {
    SameIdentity(p, q) && Open(p) == Open(q) && p.child == q.child && (RowOk(p) ==> RowOk(q))
  }

  /** The step neither opens nor closes a request, and moves no task into or out of `continuation_pending`. */
  ghost predicate Frame(a: State, b: State)
  {
    && a.tasks.Keys == b.tasks.Keys && (forall t :: t in a.tasks ==> TaskFrame(a.tasks[t], b.tasks[t]))
    && a.requests.Keys == b.requests.Keys
    && (forall r :: r in a.requests ==> RequestFrame(a.requests[r], b.requests[r]))
    && a.runs.Keys == b.runs.Keys
    && (forall c :: c in a.runs ==> RunFrame(a.runs[c], b.runs[c]))
  }

  /** A run keeps what ties it to other rows, and an ended run stays ended. */
  ghost predicate RunFrame(x: Run, y: Run)
  {
    && x.task == y.task && x.kind == y.kind && x.request == y.request && x.parent == y.parent
    && x.taskRevision == y.taskRevision && (Ended(x.status) ==> Ended(y.status))
  }

  lemma FrameKeepsRuns(a: State, b: State)
    requires RunsOk(a) && Frame(a, b)
    ensures RunsOk(b)
  {
    hide RequestFrame;
    forall r | r in b.runs ensures RunOk(b, r) {
      assert RunOk(a, r) && RunFrame(a.runs[r], b.runs[r]);
      var t := a.runs[r].task;
      assert t in a.tasks ==> TaskFrame(a.tasks[t], b.tasks[t]);
      var p := a.runs[r].parent;
      assert p.Some? ==> RunFrame(a.runs[p.value], b.runs[p.value]);
    }
  }

  lemma FrameKeepsRows(a: State, b: State)
    requires RequestsOk(a) && Frame(a, b)
    ensures RequestsOk(b)
  {
    hide RunFrame;
    forall r | r in b.requests ensures RowOk(b.requests[r]) && FitsTask(b, b.requests[r]) {
      assert RequestFrame(a.requests[r], b.requests[r]) && FitsTask(a, a.requests[r]);
      assert TaskFrame(a.tasks[a.requests[r].task], b.tasks[a.requests[r].task]);
    }
  }

  lemma FrameKeepsDistinct(a: State, b: State)
    requires RequestsDistinct(a) && Frame(a, b)
    ensures RequestsDistinct(b)
  {
    hide RunFrame, TaskFrame;
    forall p, q | p in b.requests && q in b.requests && p != q ensures Distinct(b.requests[p], b.requests[q]) {
      assert RequestFrame(a.requests[p], b.requests[p]) && RequestFrame(a.requests[q], b.requests[q]);
      assert Distinct(a.requests[p], a.requests[q]);
    }
  }

  lemma FrameKeepsChildren(a: State, b: State)
    requires ChildrenOk(a) && Frame(a, b)
    ensures ChildrenOk(b)
  {
    hide TaskFrame;
    forall c | c in b.runs ensures ChildOk(b, c) {
      assert ChildOk(a, c) && RunFrame(a.runs[c], b.runs[c]);
    }
  }

  lemma FrameKeepsInv(a: State, b: State)
    requires Inv(a) && Frame(a, b)
    ensures Inv(b)
  {
    hide Frame, RequestsOk, RequestsDistinct, ChildrenOk, RunsOk;
    FrameKeepsRows(a, b);
    FrameKeepsDistinct(a, b);
    FrameKeepsChildren(a, b);
    FrameKeepsRuns(a, b);
  }

  /** Tasks change within their frame; requests and runs not at all. */
  lemma TasksOnly(a: State, b: State)
    requires b.requests == a.requests && b.runs == a.runs && b.tasks.Keys == a.tasks.Keys
    requires forall t :: t in a.tasks ==> TaskFrame(a.tasks[t], b.tasks[t])
    ensures Frame(a, b)
  {
  }

  /** Requests change within their frame; tasks and runs not at all. */
  lemma RequestsOnly(a: State, b: State)
    requires b.tasks == a.tasks && b.runs == a.runs && b.requests.Keys == a.requests.Keys
    requires forall r :: r in a.requests ==> RequestFrame(a.requests[r], b.requests[r])
    ensures Frame(a, b)
  {
  }

  lemma NextKeepsPending(cfg: Config, sts: Statuses, t: Id, current: Status)
    requires Total(cfg, sts)
    ensures Next(cfg, sts, t, current) == ContinuationPending <==> current == ContinuationPending
  {
    hide Asked;
  }

  lemma PropagateFrame(s: State)
    ensures Frame(s, DoPropagate(s).0)
  {
    hide Next, Frame;
    var b := DoPropagate(s).0;
    if Total(Cfg(s), StatusesOf(s)) {
      forall t | t in s.tasks ensures TaskFrame(s.tasks[t], b.tasks[t]) {
        NextKeepsPending(Cfg(s), StatusesOf(s), t, s.tasks[t].status);
      }
    }
    TasksOnly(s, b);
  }

  predicate Quiet(op: Op)
  {
    && !(op.CreateRequest? || op.CancelRequest? || op.RejectRequest? || op.DispatchRequest?)
    && !(op.StartRun? || op.AbortStart? || op.FinishRun? || op.RejectApproval?)
  }

  lemma OneTask(s: State, id: Id, t: Task)
    requires id in s.tasks && TaskFrame(s.tasks[id], t)
    ensures Frame(s, s.(tasks := s.tasks[id := t]))
  {
  }

  lemma OneRequest(s: State, id: Id, q: Request)
    requires id in s.requests && RequestFrame(s.requests[id], q)
    ensures Frame(s, s.(requests := s.requests[id := q]))
  {
  }

  lemma OneRunOneTask(s: State, run: Id, status: RunStatus, id: Id, t: Task)
    requires Joined(s, run, id) && TaskFrame(s.tasks[id], t) && !Ended(s.runs[run].status)
    ensures Frame(s, SetBoth(s, run, status, id, t))
  {
  }

  lemma ClaimRequestsFrame(s: State, ids: set<Id>, w: string, k: Token, n: int)
    ensures Frame(s, DoClaimRequests(s, ids, w, k, n).0)
  {
    hide Frame;
    RequestsOnly(s, DoClaimRequests(s, ids, w, k, n).0);
  }

  lemma ReleaseExpiredFrame(s: State, ids: set<Id>)
    ensures Frame(s, DoReleaseExpired(s, ids).0)
  {
    hide Frame;
    RequestsOnly(s, DoReleaseExpired(s, ids).0);
  }

  /** What the scheduler's claims, retries and give-ups do to a task. */
  predicate TendsTask(x: Task, y: Task)
  {
    && y.owner == x.owner && y.department == x.department && y.revision == x.revision && y.archived == x.archived
    && (y.status == x.status || (x.status == Queued && y.status == Failed))
  }

  ghost predicate Tends(a: State, b: State)
  {
    && b.requests == a.requests && b.runs == a.runs && b.tasks.Keys == a.tasks.Keys
    && b.interrupted == a.interrupted && forall t :: t in a.tasks ==> TendsTask(a.tasks[t], b.tasks[t])
  }

  lemma ClaimTends(s: State, ids: set<Id>, k: Token, n: int)
    ensures Tends(s, DoClaimTasks(s, ids, k, n).0)
  {
    hide Eligible, NextAttempt;
  }

  lemma ReconcileTends(s: State)
    ensures Tends(s, DoReconcileScheduler(s).0)
  {
  }

  lemma OneTends(s: State, id: Id, t: Task)
    requires id in s.tasks && TendsTask(s.tasks[id], t)
    ensures Tends(s, s.(tasks := s.tasks[id := t]))
  {
  }

  lemma HeldTends(s: State, op: Op)
    requires op.RenewTask? || op.ReleaseTask? || op.ScheduleRetry? || op.FailTask?
    ensures Tends(s, OnScheduler(s, op).0)
  {
    hide Tends, DoPropagate, DoClaimTasks, DoReconcileScheduler;
    SelfTends(s);
    if TaskHeldBy(s, op.id, op.token) {
      OneTends(s, op.id, OnScheduler(s, op).0.tasks[op.id]);
    }
  }

  lemma SelfTends(s: State)
    ensures Tends(s, s)
  {
  }

  /** Every step of the scheduler but the propagation of dependencies tends its queue. */
  lemma SchedulerTends(s: State, op: Op)
    requires ForScheduler(op) && !op.PropagateDependencies?
    ensures Tends(s, OnScheduler(s, op).0)
  {
    hide Tends, DoClaimTasks, DoReconcileScheduler;
    match op
    case ClaimTasks(ids, k, n) => ClaimTends(s, ids, k, n);
    case ReconcileScheduler => ReconcileTends(s);
    case _ => HeldTends(s, op);
  }

  lemma RenewRequestFrame(s: State, id: Id, w: string, k: Token, n: int)
    ensures Frame(s, DoRenewRequest(s, id, w, k, n).0)
  {
    if id in s.requests {
      OneRequest(s, id, DoRenewRequest(s, id, w, k, n).0.requests[id]);
    }
  }

  lemma ReleaseRequestFrame(s: State, id: Id, w: string, k: Token, n: int)
    ensures Frame(s, DoReleaseRequest(s, id, w, k, n).0)
  {
    if id in s.requests {
      OneRequest(s, id, DoReleaseRequest(s, id, w, k, n).0.requests[id]);
    }
  }

  lemma OnHoldFrames(s: State, run: Id, id: Id)
    ensures Frame(s, DoMarkWaiting(s, run, id).0)
    ensures Frame(s, DoMarkResumed(s, run, id).0)
    ensures Frame(s, DoFailExpiredRun(s, run, id).0)
  {
    hide Frame;
    FrameRefl(s);
    if Joined(s, run, id) && s.tasks[id].status != ContinuationPending && !Ended(s.runs[run].status) {
      var t := s.tasks[id];
      OneRunOneTask(s, run, OnHold, id, t.(status := AwaitingApproval));
      OneRunOneTask(s, run, Active, id, t.(status := Running));
      OneRunOneTask(s, run, RunFailed, id, t.(status := Failed, claim := None, retryAt := None));
    }
  }

  lemma FrameRefl(s: State)
    ensures Frame(s, s)
  {
  }

  lemma UpdateTaskFrame(s: State, id: Id, v: bool, to: Option<Status>, l: Option<int>, c: bool)
    ensures Frame(s, DoUpdateTask(s, id, v, to, l, c).0)
  {
    hide Frame;
    FrameRefl(s);
    if DoUpdateTask(s, id, v, to, l, c).1 == Done {
      OneTask(s, id, DoUpdateTask(s, id, v, to, l, c).0.tasks[id]);
    }
  }

  lemma QuietSteps(s: State, op: Op)
    requires Quiet(op)
    ensures Frame(s, Step(s, op).0)
  {
    hide Frame, OnRequests, OnRuns, OnScheduler, OnApprovals, OnTasks;
    if op.Tick? {
      TasksOnly(s, s.(now := s.now + op.elapsed));
    } else if ForRequests(op) {
      QuietRequests(s, op);
    } else if ForRuns(op) {
      InterruptFrame(s, op.run);
    } else if ForScheduler(op) {
      QuietScheduler(s, op);
    } else if ForApprovals(op) {
      QuietApprovals(s, op);
    } else {
      QuietTasks(s, op);
    }
  }

  lemma QuietRequests(s: State, op: Op)
    requires Quiet(op) && ForRequests(op)
    ensures Frame(s, OnRequests(s, op).0)
  {
    hide Frame, DoClaimRequests, DoRenewRequest, DoReleaseExpired, DoReleaseRequest;
    match op
    case ClaimRequests(ids, w, k, n) => ClaimRequestsFrame(s, ids, w, k, n);
    case RenewRequest(id, w, k, n) => RenewRequestFrame(s, id, w, k, n);
    case ReleaseExpired(ids) => ReleaseExpiredFrame(s, ids);
    case ReleaseRequest(id, w, k, n) => ReleaseRequestFrame(s, id, w, k, n);
  }

  lemma InterruptFrame(s: State, run: Id)
    ensures Frame(s, OnRuns(s, Interrupt(run)).0)
  {
  }

  lemma QuietScheduler(s: State, op: Op)
    requires ForScheduler(op)
    ensures Frame(s, OnScheduler(s, op).0)
  {
    hide Frame, TendsTask, DoPropagate;
    if op.PropagateDependencies? {
      PropagateFrame(s);
    } else {
      SchedulerTends(s, op);
      TendsFrame(s, OnScheduler(s, op).0);
    }
  }

  lemma TendsFrame(a: State, b: State)
    requires Tends(a, b)
    ensures Frame(a, b)
  {
    hide Frame;
    TasksOnly(a, b);
  }

  lemma QuietApprovals(s: State, op: Op)
    requires Quiet(op) && ForApprovals(op)
    ensures Frame(s, OnApprovals(s, op).0)
  {
    hide Frame, DoMarkWaiting, DoMarkResumed, DoFailExpiredRun;
    OnHoldFrames(s, op.run, op.task);
  }

  lemma QuietTasks(s: State, op: Op)
    requires ForTasks(op)
    ensures Frame(s, OnTasks(s, op).0)
  {
    hide Frame, DoUpdateTask, DoReplaceDependencies;
    match op
    case ReplaceDependencies(r) => ReplaceFrame(s, r);
    case UpdateTask(t, v, to, l, c) => UpdateTaskFrame(s, t, v, to, l, c);
  }

  lemma ReplaceFrame(s: State, r: DependencyLedger.Replacement)
    ensures Frame(s, DoReplaceDependencies(s, r).0)
  {
    hide Frame, DependencyLedger.DoReplace;
    FrameRefl(s);
    if DoReplaceDependencies(s, r).1 == Done {
      TasksOnly(s, DoReplaceDependencies(s, r).0);
    }
  }

  // ------------------------------------------------------ steps that move it

  /** What a `create` that inserts does. */
  lemma CreateEffect(s: State, a: Actor, n: NewContinuation, id: Id)
    requires DoCreate(s, a, n, id).1 == Inserted(id)
    ensures n.task in s.tasks && n.sourceRun in s.runs && SourceFits(s.tasks[n.task], s.runs[n.sourceRun], n)
    ensures !HasLiveRun(s, n.task) && !Clashes(s, n, id)
    ensures DoCreate(s, a, n, id).0
         == s.(requests := s.requests[id := NewRequest(s.tasks[n.task], n)],
               tasks := s.tasks[n.task := BumpTo(s.tasks[n.task], ContinuationPending)])
  {
    hide Earlier, HasLiveRun, Clashes;
  }

  lemma CreateRefused(s: State, a: Actor, n: NewContinuation, id: Id)
    requires DoCreate(s, a, n, id).1 != Inserted(id)
    ensures DoCreate(s, a, n, id).0 == s
  {
    hide Earlier, HasLiveRun, Clashes;
  }

  lemma CreateKeepsRows(s: State, a: Actor, n: NewContinuation, id: Id)
    requires Inv(s) && DoCreate(s, a, n, id).1 == Inserted(id)
    ensures var b := DoCreate(s, a, n, id).0; RequestsOk(b) && ChildrenOk(b)
  {
    hide DoCreate, HasLiveRun, RequestsDistinct, RunsOk;
    CreateEffect(s, a, n, id);
    var b := DoCreate(s, a, n, id).0;
    forall r | r in b.requests ensures RowOk(b.requests[r]) && FitsTask(b, b.requests[r]) {
      assert r != id ==> RowOk(s.requests[r]) && FitsTask(s, s.requests[r]);
    }
    forall c | c in b.runs ensures ChildOk(b, c) {
      assert ChildOk(s, c);
    }
  }

  lemma CreateKeepsRuns(s: State, a: Actor, n: NewContinuation, id: Id)
    requires RunsOk(s) && DoCreate(s, a, n, id).1 == Inserted(id)
    ensures RunsOk(DoCreate(s, a, n, id).0)
  {
    hide DoCreate, Clashes;
    CreateEffect(s, a, n, id);
    var b := DoCreate(s, a, n, id).0;
    forall r | r in b.runs ensures RunOk(b, r) {
      assert RunOk(s, r);
      assert s.runs[r].task == n.task ==> !Live(s.runs[r].status);
    }
  }

  lemma CreateKeepsDistinct(s: State, a: Actor, n: NewContinuation, id: Id)
    requires RequestsOk(s) && RequestsDistinct(s) && DoCreate(s, a, n, id).1 == Inserted(id)
    ensures RequestsDistinct(DoCreate(s, a, n, id).0)
  {
    hide DoCreate, HasLiveRun;
    CreateEffect(s, a, n, id);
    var b := DoCreate(s, a, n, id).0;
    forall p, q | p in b.requests && q in b.requests && p != q ensures Distinct(b.requests[p], b.requests[q]) {
      if p != id && q != id {
        assert Distinct(s.requests[p], s.requests[q]);
      } else {
        var o := if p == id then q else p;
        assert FitsTask(s, s.requests[o]);
      }
    }
  }

  lemma CreateKeepsInv(s: State, a: Actor, n: NewContinuation, id: Id)
    requires Inv(s)
    ensures Inv(DoCreate(s, a, n, id).0)
  {
    hide DoCreate, RequestsOk, RequestsDistinct, ChildrenOk, RunsOk;
    if DoCreate(s, a, n, id).1 == Inserted(id) {
      CreateKeepsRows(s, a, n, id);
      CreateKeepsRuns(s, a, n, id);
      CreateKeepsDistinct(s, a, n, id);
    } else {
      CreateRefused(s, a, n, id);
    }
  }

  /** Request `id` is closed and its task leaves `continuation_pending`; the rest of both tables stays. */
  ghost predicate Closes(s: State, b: State, id: Id)
  {
    && id in s.requests && Open(s.requests[id]) && id in b.requests
    && b.requests == s.requests[id := b.requests[id]]
    && SameIdentity(s.requests[id], b.requests[id]) && RowOk(b.requests[id]) && !Open(b.requests[id])
    && var t := s.requests[id].task;
      && t in s.tasks && t in b.tasks && b.tasks == s.tasks[t := b.tasks[t]]
      && b.tasks[t].owner == s.tasks[t].owner && b.tasks[t].department == s.tasks[t].department
      && b.tasks[t].status != ContinuationPending
  }

  lemma CloseKeepsRows(s: State, b: State, id: Id)
    requires RequestsOk(s) && Closes(s, b, id)
    ensures RequestsOk(b)
  {
    forall r | r in b.requests ensures RowOk(b.requests[r]) && FitsTask(b, b.requests[r]) {
      assert r in s.requests && FitsTask(s, s.requests[r]);
    }
  }

  lemma CloseKeepsDistinct(s: State, b: State, id: Id)
    requires RequestsDistinct(s) && Closes(s, b, id)
    ensures RequestsDistinct(b)
  {
    forall p, q | p in b.requests && q in b.requests && p != q ensures Distinct(b.requests[p], b.requests[q]) {
      assert Distinct(s.requests[p], s.requests[q]);
    }
  }

  lemma CloseKeepsRuns(s: State, b: State, id: Id)
    requires RunsOk(s) && Closes(s, b, id) && b.runs == s.runs
    ensures RunsOk(b)
  {
    forall r | r in b.runs ensures RunOk(b, r) {
      assert RunOk(s, r);
    }
  }

  lemma CloseKeepsInv(s: State, b: State, id: Id)
    requires Inv(s) && Closes(s, b, id)
    requires b.runs == s.runs && b.requests[id].child == s.requests[id].child
    ensures Inv(b)
  {
    CloseKeepsRuns(s, b, id);
    hide RequestsOk, RequestsDistinct, RunsOk;
    CloseKeepsRows(s, b, id);
    CloseKeepsDistinct(s, b, id);
    forall c | c in b.runs ensures ChildOk(b, c) {
      assert ChildOk(s, c);
    }
  }

  lemma CancelKeepsInv(s: State, a: Actor, id: Id)
    requires Inv(s)
    ensures Inv(DoCancel(s, a, id).0)
  {
    var (b, answer) := DoCancel(s, a, id);
    if answer == Done {
      assert RowOk(s.requests[id]) && FitsTask(s, s.requests[id]);
      CloseKeepsInv(s, b, id);
    }
  }

  lemma RejectKeepsInv(s: State, id: Id, w: string, k: Token)
    requires Inv(s)
    ensures Inv(DoReject(s, id, w, k).0)
  {
    var (b, answer) := DoReject(s, id, w, k);
    if answer == Done {
      assert RowOk(s.requests[id]) && FitsTask(s, s.requests[id]);
      CloseKeepsInv(s, b, id);
    }
  }

  /** A request that is open has no child run yet. */
  lemma OpenHasNoChild(s: State, id: Id)
    requires Inv(s) && id in s.requests && Open(s.requests[id])
    ensures ChildrenOf(s, id) == {}
  {
    forall c | c in s.runs ensures s.runs[c].request != Some(id) {
      assert ChildOk(s, c) && RowOk(s.requests[id]);
    }
  }

  /** What a dispatch that goes through does. */
  lemma DispatchEffect(s: State, id: Id, w: string, k: Token, child: Id, v: int)
    requires Inv(s) && DoDispatch(s, id, w, k, child, v).1 == Done
    ensures id in s.requests && HeldBy(s, id, w, k) && Unexpired(s, id)
    ensures CanSpawn(s, s.requests[id], child, v)
    ensures var q, b := s.requests[id], DoDispatch(s, id, w, k, child, v).0;
      && b.runs == s.runs[child := ChildRun(s, id, q, v)]
      && b.requests == s.requests[id := q.(status := Dispatched, version := q.version + 1,
                                           child := Some(child), lease := None)]
      && b.tasks == s.tasks[q.task := BumpTo(s.tasks[q.task], Running)]
      && b == s.(runs := b.runs, requests := b.requests, tasks := b.tasks)
  {
    hide CanSpawn, NextAttempt;
    if ChildrenOf(s, id) != {} {
      var c := Least(ChildrenOf(s, id));
      assert HeldBy(s, id, w, k);
      OpenHasNoChild(s, id);
    }
  }

  lemma DispatchKeepsChildren(s: State, id: Id, w: string, k: Token, child: Id, v: int)
    requires Inv(s) && DoDispatch(s, id, w, k, child, v).1 == Done
    ensures ChildrenOk(DoDispatch(s, id, w, k, child, v).0)
  {
    hide NextAttempt, HasLiveRun, DoDispatch;
    DispatchEffect(s, id, w, k, child, v);
    hide RequestsDistinct, RunsOk;
    var b := DoDispatch(s, id, w, k, child, v).0;
    assert RowOk(s.requests[id]);
    forall c | c in b.runs ensures ChildOk(b, c) {
      assert c != child ==> ChildOk(s, c);
    }
  }

  lemma DispatchCloses(s: State, id: Id, w: string, k: Token, child: Id, v: int)
    requires Inv(s) && DoDispatch(s, id, w, k, child, v).1 == Done
    ensures Closes(s, DoDispatch(s, id, w, k, child, v).0, id)
  {
    hide NextAttempt, HasLiveRun, DoDispatch;
    DispatchEffect(s, id, w, k, child, v);
    hide RequestsDistinct, ChildrenOk, RunsOk;
    assert RowOk(s.requests[id]) && FitsTask(s, s.requests[id]);
  }

  lemma DispatchKeepsRuns(s: State, id: Id, w: string, k: Token, child: Id, v: int)
    requires Inv(s) && DoDispatch(s, id, w, k, child, v).1 == Done
    ensures RunsOk(DoDispatch(s, id, w, k, child, v).0)
  {
    hide NextAttempt, HasLiveRun, DoDispatch;
    DispatchEffect(s, id, w, k, child, v);
    hide RequestsDistinct, ChildrenOk, RequestsOk;
    var b := DoDispatch(s, id, w, k, child, v).0;
    forall r | r in b.runs ensures RunOk(b, r) {
      if r != child {
        assert RunOk(s, r);
      }
    }
  }

  lemma DispatchKeepsInv(s: State, id: Id, w: string, k: Token, child: Id, v: int)
    requires Inv(s)
    ensures Inv(DoDispatch(s, id, w, k, child, v).0)
  {
    hide DoDispatch, RequestsOk, RequestsDistinct, ChildrenOk, RunsOk, Closes;
    var b := DoDispatch(s, id, w, k, child, v).0;
    if DoDispatch(s, id, w, k, child, v).1 == Done {
      DispatchCloses(s, id, w, k, child, v);
      CloseKeepsRows(s, b, id);
      CloseKeepsDistinct(s, b, id);
      DispatchKeepsChildren(s, id, w, k, child, v);
      DispatchKeepsRuns(s, id, w, k, child, v);
    } else {
      DispatchRefused(s, id, w, k, child, v);
    }
  }

  lemma DispatchRefused(s: State, id: Id, w: string, k: Token, child: Id, v: int)
    requires DoDispatch(s, id, w, k, child, v).1 != Done
    ensures DoDispatch(s, id, w, k, child, v).0 == s
  {
  }

  // ----------------------------------------------------------- ending a run

  lemma {:induction false} LineageSameTask(s: State, r: Id, l: Id)
    requires RunsOk(s) && r in s.runs && l in Lineage(s.runs, r)
    ensures l in s.runs && s.runs[l].task == s.runs[r].task
    decreases r
  {
    assert RunOk(s, r);
    if l != r {
      LineageSameTask(s, s.runs[r].parent.value, l);
    }
  }

  /** The state between a run's terminal write and what follows it. */
  ghost function EndedAt(s: State, run: Id, outcome: RunStatus): State
    requires run in s.runs
  {
    s.(runs := s.runs[run := s.runs[run].(status := outcome)])
  }

  /** The request that ending the run settles, if any. */
  ghost function Settlement(s: State, run: Id, e: Ending): Option<Id>
    requires run in s.runs
  {
    if e.retryAt.Some? then None else Settled(EndedAt(s, run, e.outcome), run)
  }

  /** Lookup of the settled request reads runs and requests only. */
  lemma SettledReads(a: State, b: State, run: Id)
    requires a.runs == b.runs && a.requests == b.requests
    ensures Settled(a, run) == Settled(b, run)
  {
    assert OwnMatches(a, run) == OwnMatches(b, run);
    forall q | q in a.requests ensures LineageMatch(a, run, q) == LineageMatch(b, run, q) {
    }
    assert LineageMatches(a, run) == LineageMatches(b, run);
  }

  /** A settled request is dispatched and belongs to the task of the run that ends. */
  lemma SettledFits(s: State, run: Id)
    requires ChildrenOk(s) && RunsOk(s) && run in s.runs && Settled(s, run).Some?
    ensures var id := Settled(s, run).value;
      id in s.requests && s.requests[id].status == Dispatched && s.requests[id].task == s.runs[run].task
  {
    var id := Settled(s, run).value;
    if OwnMatches(s, run) != {} {
      assert id in OwnMatches(s, run) && ChildOk(s, run);
    } else {
      assert id in LineageMatches(s, run);
      var l :| l in Lineage(s.runs, run) && l in s.runs && s.runs[l].request == Some(id) && Ended(s.runs[l].status);
      LineageSameTask(s, run, l);
      assert ChildOk(s, l);
    }
  }

  lemma SettlementFits(s: State, run: Id, e: Ending)
    requires ChildrenOk(s) && RunsOk(s) && run in s.runs && Ended(e.outcome) && Settlement(s, run, e).Some?
    ensures var id := Settlement(s, run, e).value;
      id in s.requests && s.requests[id].status == Dispatched && s.requests[id].task == s.runs[run].task
  {
    var a := EndedAt(s, run, e.outcome);
    forall c | c in a.runs ensures ChildOk(a, c) && RunOk(a, c) {
      assert ChildOk(s, c) && RunOk(s, c);
    }
    hide Settled;
    SettledFits(a, run);
  }

  function CompletedRow(q: Request): Request
  {
    q.(status := Completed, version := q.version + 1)
  }

  function SettledTask(t: Task, e: Ending): Task
  {
    BumpTo(Noted(t, e), ResultOf(e.outcome)).(claim := None, retryAt := None)
  }

  /** What ending a run does: besides the run it touches its own task, and at most the request it settles. */
  ghost predicate Finishes(s: State, b: State, run: Id, e: Ending)
  {
    && CanFinish(s, run, e)
    && b == s.(runs := EndedAt(s, run, e.outcome).runs, tasks := b.tasks, requests := b.requests)
    && var t := s.runs[run].task;
      match Settlement(s, run, e)
      case None => b.requests == s.requests && b.tasks == ConcludeTask(s.tasks, t, e)
      case Some(id) =>
        && id in s.requests && s.requests[id].status == Dispatched && s.requests[id].task == t
        && t in s.tasks && (s.tasks[t].status == Running || s.tasks[t].status == Queued)
        && b.requests == s.requests[id := CompletedRow(s.requests[id])]
        && b.tasks == s.tasks[t := SettledTask(s.tasks[t], e)]
  }

  lemma FinishEffect(s: State, run: Id, e: Ending)
    requires Inv(s) && DoFinish(s, run, e).1 == Done
    ensures Finishes(s, DoFinish(s, run, e).0, run, e)
  {
    hide Settled, Inv, ConcludeTask, Concluded;
    var ended := EndRun(s, run, e);
    SettledReads(ended, EndedAt(s, run, e.outcome), run);
    if Settlement(s, run, e).Some? {
      assert ChildrenOk(s) && RunsOk(s) by {
        InvParts(s);
      }
      SettlementFits(s, run, e);
      var t := s.runs[run].task;
      assert t in s.tasks ==>
        ended.tasks[t := SettledTask(s.tasks[t], e)] == s.tasks[t := SettledTask(s.tasks[t], e)];
    }
  }

  lemma InvParts(s: State)
    requires Inv(s)
    ensures RequestsOk(s) && ChildrenOk(s) && RunsOk(s)
  {
  }

  lemma FinishRefused(s: State, run: Id, e: Ending)
    requires DoFinish(s, run, e).1 != Done
    ensures DoFinish(s, run, e).0 == s
  {
    hide DoComplete, Settled, ConcludeTask;
  }

  lemma FinishFrame(s: State, b: State, run: Id, e: Ending)
    requires RequestsOk(s) && RunsOk(s) && Finishes(s, b, run, e)
    ensures Frame(s, b)
  {
    hide Settlement, RequestsOk, RunsOk;
    assert RunOk(s, run) by {
      RunIsOk(s, run);
    }
    match Settlement(s, run, e)
    case None =>
    case Some(id) =>
      hide ConcludeTask;
      assert RowOk(s.requests[id]) by {
        RowIsOk(s, id);
      }
  }

  lemma RunIsOk(s: State, r: Id)
    requires RunsOk(s) && r in s.runs
    ensures RunOk(s, r)
  {
  }

  lemma RowIsOk(s: State, id: Id)
    requires RequestsOk(s) && id in s.requests
    ensures RowOk(s.requests[id]) && FitsTask(s, s.requests[id])
  {
  }

  lemma FinishKeepsInv(s: State, run: Id, e: Ending)
    requires Inv(s)
    ensures Inv(DoFinish(s, run, e).0)
  {
    hide Inv, DoFinish, Finishes, Frame;
    if DoFinish(s, run, e).1 == Done {
      FinishEffect(s, run, e);
      InvParts(s);
      FinishFrame(s, DoFinish(s, run, e).0, run, e);
      FrameKeepsInv(s, DoFinish(s, run, e).0);
    } else {
      FinishRefused(s, run, e);
    }
  }

  // ----------------------------------------------- starting and cutting runs

  /** One run and its task change; requests do not, and the task does not become pending. */
  lemma OneRunMovesInv(s: State, b: State, run: Id, t: Id)
    requires Inv(s) && b.requests == s.requests && run in b.runs && b.runs == s.runs[run := b.runs[run]]
    requires t in s.tasks && t in b.tasks && b.tasks == s.tasks[t := b.tasks[t]]
    requires b.tasks[t].owner == s.tasks[t].owner && b.tasks[t].department == s.tasks[t].department
    requires b.tasks[t].status == ContinuationPending ==> s.tasks[t].status == ContinuationPending
    requires if run in s.runs then RunFrame(s.runs[run], b.runs[run])
             else b.runs[run].request.None? && RunOk(b, run)
    ensures Inv(b)
  {
    forall r | r in b.runs ensures ChildOk(b, r) && RunOk(b, r) {
      assert r in s.runs ==> ChildOk(s, r) && RunOk(s, r);
    }
    forall r | r in b.requests ensures RowOk(b.requests[r]) && FitsTask(b, b.requests[r]) {
      assert FitsTask(s, s.requests[r]);
    }
  }

  lemma StartEffect(s: State, a: Actor, n: NewRun)
    requires DoStart(s, a, n).1 == Done
    ensures n.task in s.tasks && n.id !in s.runs && !HasLiveRun(s, n.task)
    ensures n.claim.Some? ==> s.tasks[n.task].status == Queued
    ensures var b := DoStart(s, a, n).0;
      && n.id in b.runs && b == s.(runs := s.runs[n.id := b.runs[n.id]],
                                   tasks := s.tasks[n.task := StartedTask(s.tasks[n.task])])
      && var x := b.runs[n.id];
        && x.task == n.task && x.status == Starting && x.request.None? && x.parent == n.parent
        && (n.parent.Some? ==> n.parent.value in s.runs && s.runs[n.parent.value].task == n.task)
  {
    hide HasLiveRun, NextAttempt, TaskRuns, Unblocked;
  }

  lemma StartKeepsInv(s: State, a: Actor, n: NewRun)
    requires Inv(s)
    ensures Inv(DoStart(s, a, n).0)
  {
    hide DoStart, Inv, HasLiveRun;
    if DoStart(s, a, n).1 == Done {
      StartEffect(s, a, n);
      OneRunMovesInv(s, DoStart(s, a, n).0, n.id, n.task);
    } else {
      StartRefused(s, a, n);
    }
  }

  lemma StartRefused(s: State, a: Actor, n: NewRun)
    requires DoStart(s, a, n).1 != Done
    ensures DoStart(s, a, n).0 == s
  {
    hide StartAdmits;
  }

  /** The cuts that the writers make: to failed, back to the queue, or no word to the task. */
  predicate Cuts(cut: Cut)
  {
    cut.Mark? ==> cut.status == Failed || cut.status == Queued
  }

  lemma CutKeepsInv(s: State, run: Id, cut: Cut, h: Option<nat>)
    requires Inv(s) && Cuts(cut)
    ensures Inv(DoCut(s, run, cut, h).0)
  {
    if run in s.runs {
      var b, t := DoCut(s, run, cut, h).0, s.runs[run].task;
      hide Inv;
      if t in s.tasks {
        OneRunMovesInv(s, b, run, t);
      } else {
        FrameKeepsInv(s, b);
      }
    }
  }

  lemma StepKeepsInv(s: State, op: Op)
    requires Inv(s)
    ensures Inv(Step(s, op).0)
  {
    if Quiet(op) {
      QuietSteps(s, op);
      FrameKeepsInv(s, Step(s, op).0);
    } else {
      hide Inv, DoCreate, DoCancel, DoReject, DoDispatch, DoStart, DoFinish, DoCut;
      match op
      case CreateRequest(a, n, id) => CreateKeepsInv(s, a, n, id);
      case CancelRequest(a, id) => CancelKeepsInv(s, a, id);
      case RejectRequest(id, w, k) => RejectKeepsInv(s, id, w, k);
      case DispatchRequest(id, w, k, c, v) => DispatchKeepsInv(s, id, w, k, c, v);
      case StartRun(a, n) => StartKeepsInv(s, a, n);
      case AbortStart(r, c, h) =>
        if AbortAdmits(s, r, c) {
          CutKeepsInv(s, r, c, h);
        }
      case FinishRun(r, e) => FinishKeepsInv(s, r, e);
      case RejectApproval(r) => CutKeepsInv(s, r, Mark(Failed), None);
    }
  }

  lemma {:induction false} RunKeepsInv(s: State, ops: seq<Op>)
    requires Inv(s)
    ensures Inv(After(s, ops))
  {
    hide Inv, Step;
    if ops != [] {
      RunKeepsInv(s, ops[..|ops| - 1]);
      StepKeepsInv(After(s, ops[..|ops| - 1]), ops[|ops| - 1]);
    }
  }

  // ---------------------------------------------- what most steps do not touch

  /** The clock and the dependency tables stay, and issued tokens stay issued. */
  predicate SameBackdrop(a: State, b: State)
  {
    && b.now == a.now && b.rules == a.rules && b.timedOut == a.timedOut && b.mutations == a.mutations
    && a.issued <= b.issued
  }

  lemma RequestsKeepBackdrop(s: State, op: Op)
    requires ForRequests(op)
    ensures SameBackdrop(s, OnRequests(s, op).0)
  {
    hide Earlier, HasLiveRun, Clashes, CanSpawn, NextAttempt, ChildrenOf, Visible, ChildRun;
  }

  lemma RunsKeepBackdrop(s: State, op: Op)
    requires ForRuns(op)
    ensures SameBackdrop(s, OnRuns(s, op).0)
  {
    hide StartAdmits, StartedRun, CutTask, ConcludeTask, Settled, CanFinish, Over;
  }

  lemma SchedulerKeepsBackdrop(s: State, op: Op)
    requires ForScheduler(op)
    ensures SameBackdrop(s, OnScheduler(s, op).0)
  {
    hide Pass, Eligible, NextAttempt, Exhausted, TaskHeldBy, Total;
  }

  /** Only the clock's own step moves it, and only a replacement touches the dependency tables. */
  lemma StepKeepsBackdrop(s: State, op: Op)
    requires !op.Tick? && !op.ReplaceDependencies?
    ensures SameBackdrop(s, Step(s, op).0)
  {
    hide OnRequests, OnRuns, OnScheduler, DoReplaceDependencies, UpdateAdmits;
    if ForRequests(op) {
      RequestsKeepBackdrop(s, op);
    } else if ForRuns(op) {
      RunsKeepBackdrop(s, op);
    } else if ForScheduler(op) {
      SchedulerKeepsBackdrop(s, op);
    }
  }
}
