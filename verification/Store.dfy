/**
  The protocol steps as the repositories run them: tables held as mutable fields, one
  statement after the other, and a rollback where a later statement of the transaction
  finds fewer rows than it must. Each method is proved equal to its atomic step.
 */
module Store {
  import opened Types
  import opened Extremes
  import opened Graph
  import opened Propagation
  import opened Protocol
  import DependencyLedger
  import opened Scheduling
  import opened Lockstep

  /** `COALESCE(MAX(attempt), 0) + 1` over the runs of a task. */
  method NextAttemptOf(s: State, t: Id) returns (n: nat)
    ensures n == NextAttempt(s, t)
  {
    var attempts := set r | r in TaskRuns(s, t) :: s.runs[r].attempt;
    n := 0;
    var left := attempts;
    while left != {}
      invariant left <= attempts
      invariant forall x :: x in attempts && x !in left ==> x <= n
      invariant n == 0 || n in attempts
      decreases |left|
    {
      var x :| x in left;
      if x > n {
        n := x;
      }
      left := left - {x};
    }
    assert TaskRuns(s, t) != {} ==> attempts != {} by {
      if r :| r in TaskRuns(s, t) {
        assert s.runs[r].attempt in attempts;
      }
    }
    n := n + 1;
  }

  /** The rows the claim chooses from: `SKIP LOCKED` drops those another transaction holds. */
  function Candidates(s: State, seconds: int, locked: set<Id>): map<Id, Task>
  {
    map t | t in s.tasks && t !in locked && Eligible(s, t, seconds) :: s.tasks[t]
  }

  function Lapsed(s: State): set<Id>
  {
    set t | t in s.tasks && s.tasks[t].status != Queued && s.tasks[t].claim.Some?
  }

  function Spent(s: State): set<Id>
  {
    set t | t in s.tasks && Exhausted(s, s.tasks[t])
  }

  function ReleaseLapsed(s: State): State
  {
    s.(tasks := map t | t in s.tasks :: if t in Lapsed(s) then s.tasks[t].(claim := None) else s.tasks[t])
  }

  function FailSpent(s: State): State
  {
    s.(tasks := map t | t in s.tasks ::
         if t in Spent(s) then s.tasks[t].(status := Failed, claim := None) else s.tasks[t])
  }

  lemma ReconcileRow(s: State, t: Id)
    requires t in s.tasks
    ensures t in DoReconcileScheduler(s).0.tasks && t in FailSpent(ReleaseLapsed(s)).tasks
    ensures FailSpent(ReleaseLapsed(s)).tasks[t] == DoReconcileScheduler(s).0.tasks[t]
    ensures t in Spent(ReleaseLapsed(s)) <==> DoReconcileScheduler(s).0.tasks[t].status != s.tasks[t].status
  {
    var m := ReleaseLapsed(s);
    assert m.tasks[t] == if s.tasks[t].status != Queued then s.tasks[t].(claim := None) else s.tasks[t];
    assert Exhausted(m, m.tasks[t]) == Exhausted(s, s.tasks[t]);
  }

  /** The reconciler's single step is its two statements in order; the second touches the rows whose status moves. */
  lemma ReconcileInTwo(s: State)
    ensures FailSpent(ReleaseLapsed(s)) == DoReconcileScheduler(s).0
    ensures Spent(ReleaseLapsed(s)) == set t | t in s.tasks && t in DoReconcileScheduler(s).0.tasks
                                              && DoReconcileScheduler(s).0.tasks[t].status != s.tasks[t].status
  {
    forall t | t in s.tasks
      ensures t in DoReconcileScheduler(s).0.tasks && t in FailSpent(ReleaseLapsed(s)).tasks
      ensures FailSpent(ReleaseLapsed(s)).tasks[t] == DoReconcileScheduler(s).0.tasks[t]
      ensures t in Spent(ReleaseLapsed(s)) <==> DoReconcileScheduler(s).0.tasks[t].status != s.tasks[t].status
    {
      ReconcileRow(s, t);
    }
    ReconcileDomain(s);
    hide Exhausted, Lapsed;
    assert FailSpent(ReleaseLapsed(s)).tasks == DoReconcileScheduler(s).0.tasks;
  }

  lemma ReconcileDomain(s: State)
    ensures FailSpent(ReleaseLapsed(s)).tasks.Keys == DoReconcileScheduler(s).0.tasks.Keys == s.tasks.Keys
    ensures Spent(ReleaseLapsed(s)) <= s.tasks.Keys
  {
  }

  class ProtocolStore {
    var now: int
    var tasks: map<Id, Task>
    var requests: map<Id, Request>
    var runs: map<Id, Run>
    var rules: map<Edge, Rule>
    var timedOut: set<Id>
    var issued: set<Token>
    var mutations: map<(Id, string), DependencyLedger.Mutation>
    var interrupted: set<Id>

    constructor (s: State)
      ensures Contents() == s
    {
      now, tasks, requests, runs := s.now, s.tasks, s.requests, s.runs;
      rules, timedOut, issued := s.rules, s.timedOut, s.issued;
      mutations, interrupted := s.mutations, s.interrupted;
    }

    function Contents(): State
      reads this
    {
      State(now, tasks, requests, runs, rules, timedOut, issued, mutations, interrupted)
    }

    // ------------------------------------------------ continuation requests

    /** The replay lookup: a request with the same key before one with the same evidence. */
    method FindEarlier(a: Actor, n: NewContinuation) returns (r: Option<Id>)
      ensures r == Earlier(Contents(), a, n)
    {
      var byKey := KeyMatches(Contents(), a, n);
      if byKey != {} {
        var m := LeastOf(byKey);
        return Some(m);
      }
      var byEvidence := EvidenceMatches(Contents(), a, n);
      if byEvidence != {} {
        var m := LeastOf(byEvidence);
        return Some(m);
      }
      return None;
    }

    method Create(a: Actor, n: NewContinuation, id: Id) returns (answer: Answer)
      modifies this
      ensures (Contents(), answer) == DoCreate(old(Contents()), a, n, id)
    {
      hide Earlier, KeyMatches, EvidenceMatches;
      var existing := FindEarlier(a, n);
      if existing.Some? {
        return if existing.value in requests && SameRequest(requests[existing.value], n)
               then Replayed(existing.value) else KeyConflict;
      }
      if n.task !in tasks || n.sourceRun !in runs || runs[n.sourceRun].task != n.task
         || !Visible(a, tasks[n.task].owner, tasks[n.task].department)
         || !Visible(a, runs[n.sourceRun].owner, runs[n.sourceRun].department) {
        return NotFound;
      }
      if !SourceFits(tasks[n.task], runs[n.sourceRun], n) {
        return SourceMismatch;
      }
      if HasLiveRun(Contents(), n.task) {
        return LiveRun;
      }
      if Clashes(Contents(), n, id) {
        return ConstraintViolated;
      }
      requests := requests[id := NewRequest(tasks[n.task], n)];
      if tasks[n.task].revision == n.expectedRevision && tasks[n.task].status == n.priorStatus {
        tasks := tasks[n.task := BumpTo(tasks[n.task], ContinuationPending)];
      } else {
        assert false;
      }
      return Inserted(id);
    }

    /** How `cancel` and `reject_claim` end: the request is closed, and reopened if the task cannot be restored. */
    method CloseAndRestore(id: Id, closed: Request) returns (answer: Answer)
      requires id in requests && closed.task == requests[id].task
      modifies this`tasks, this`requests
      ensures (Contents(), answer) == Restore(old(Contents()), id, closed)
    {
      var saved := requests;
      requests := requests[id := closed];
      if closed.task in tasks && tasks[closed.task].status == ContinuationPending {
        tasks := tasks[closed.task := BumpTo(tasks[closed.task], closed.priorStatus)];
        return Done;
      }
      requests := saved;
      return TaskStateChanged;
    }

    method Cancel(a: Actor, id: Id) returns (answer: Answer)
      modifies this
      ensures (Contents(), answer) == DoCancel(old(Contents()), a, id)
    {
      if id !in requests || !Open(requests[id]) || !Visible(a, requests[id].owner, requests[id].department) {
        return Refused;
      }
      var q := requests[id];
      answer := CloseAndRestore(id, q.(status := Withdrawn, version := q.version + 1, lease := None));
    }

    method RejectClaim(id: Id, worker: string, token: Token) returns (answer: Answer)
      modifies this
      ensures (Contents(), answer) == DoReject(old(Contents()), id, worker, token)
    {
      if !HeldBy(Contents(), id, worker, token) {
        return Refused;
      }
      var q := requests[id];
      answer := CloseAndRestore(id, q.(status := Rejected, version := q.version + 1, lease := None));
    }

    method MarkDispatched(id: Id, worker: string, token: Token, child: Id) returns (answer: Answer)
      modifies this
      ensures (Contents(), answer) == DoMarkDispatched(old(Contents()), id, worker, token, child)
    {
      if !HeldBy(Contents(), id, worker, token) || !Unexpired(Contents(), id) {
        return Refused;
      }
      var saved := requests;
      var q := requests[id];
      requests := requests[id := q.(status := Dispatched, version := q.version + 1, child := Some(child),
                                    lease := None)];
      if q.task in tasks && tasks[q.task].status == ContinuationPending && child in runs
         && runs[child].task == q.task && runs[child].request == Some(id) && runs[child].status == Starting {
        tasks := tasks[q.task := BumpTo(tasks[q.task], Running)];
        return Done;
      }
      requests := saved;
      return TaskStateChanged;
    }

    /** The dispatch transaction: `create_continuation_run`, then `mark_dispatched`. */
    method Dispatch(id: Id, worker: string, token: Token, child: Id, revision: int) returns (answer: Answer)
      modifies this
      ensures (Contents(), answer) == DoDispatch(old(Contents()), id, worker, token, child, revision)
    {
      hide NextAttempt, DoMarkDispatched;
      if id !in requests {
        return Refused;
      }
      var savedTasks, savedRequests, savedRuns := tasks, requests, runs;
      var found := ChildrenOf(Contents(), id);
      var used := child;
      if found != {} {
        used := LeastOf(found);
      } else {
        var q := requests[id];
        if !CanSpawn(Contents(), q, child, revision) {
          return Refused;
        }
        var attempt := NextAttemptOf(Contents(), q.task);
        var source := runs[q.sourceRun];
        var root := if source.root.Some? then source.root.value else q.sourceRun;
        runs := runs[child := Protocol.Run(q.task, Starting, Continuation, q.owner, q.department, Some(root), None,
                                           Some(q.sourceRun), Some(id), revision, attempt)];
      }
      MarkDispatchedFrame(Contents(), id, worker, token, used);
      answer := MarkDispatched(id, worker, token, used);
      if answer != Done {
        tasks, requests, runs := savedTasks, savedRequests, savedRuns;
      }
    }

    /** The request that a finished run settles: its own before one of its ancestors'. */
    method FindSettled(run: Id) returns (r: Option<Id>)
      ensures r == Settled(Contents(), run)
    {
      var own := OwnMatches(Contents(), run);
      if own != {} {
        var m := LeastOf(own);
        return Some(m);
      }
      var inherited := LineageMatches(Contents(), run);
      if inherited != {} {
        var m := LeastOf(inherited);
        return Some(m);
      }
      return None;
    }

    method CompleteForChildRun(run: Id, result: Status) returns (answer: Answer)
      modifies this`tasks, this`requests
      ensures (Contents(), answer) == DoComplete(old(Contents()), run, result)
    {
      hide Settled;
      if !Settles(result) {
        return ConstraintViolated;
      }
      var found := FindSettled(run);
      if found.None? {
        return Done;
      }
      var id := found.value;
      if id !in requests {
        return Refused;
      }
      var q, saved := requests[id], requests;
      requests := requests[id := q.(status := Completed, version := q.version + 1)];
      if q.task in tasks && (tasks[q.task].status == Running || tasks[q.task].status == Queued) {
        tasks := tasks[q.task := BumpTo(tasks[q.task], result).(claim := None, retryAt := None)];
        return Done;
      }
      requests := saved;
      return TaskStateChanged;
    }

    /**
      The supervisor's terminal transaction: the hook counter, the run's last write, then the
      requeue, the completion of a request, or the outcome written to the task.
     */
    method FinishRun(run: Id, e: Ending) returns (answer: Answer)
      modifies this`tasks, this`requests, this`runs
      ensures (Contents(), answer) == DoFinish(old(Contents()), run, e)
    {
      hide DoComplete, Settled;
      if !CanFinish(Contents(), run, e) {
        return Refused;
      }
      var savedTasks, savedRuns := tasks, runs;
      var t := runs[run].task;
      if t in tasks && e.hookFailures.Some? {
        tasks := tasks[t := tasks[t].(hookFailures := e.hookFailures.value)];
      }
      runs := runs[run := runs[run].(status := e.outcome)];
      ghost var ended := Contents();
      assert ended == EndRun(old(Contents()), run, e);
      if e.retryAt.Some? {
        if t in tasks {
          tasks := tasks[t := tasks[t].(status := Queued, claim := None, retryCount := tasks[t].retryCount + 1,
                                        retryAt := e.retryAt)];
        }
        assert tasks == ConcludeTask(old(tasks), t, e);
        return Done;
      }
      var settled := FindSettled(run);
      answer := CompleteForChildRun(run, ResultOf(e.outcome));
      if answer != Done {
        CompleteRefused(ended, run, ResultOf(e.outcome));
        tasks, runs := savedTasks, savedRuns;
      } else if settled.None? {
        CompleteNothing(ended, run, ResultOf(e.outcome));
        if !e.drift && t in tasks {
          tasks := tasks[t := tasks[t].(status := ResultOf(e.outcome), claim := None, retryAt := None)];
        }
        assert tasks == ConcludeTask(old(tasks), t, e);
      }
    }

    static lemma CompleteRefused(s: State, run: Id, result: Status)
      requires DoComplete(s, run, result).1 != Done
      ensures DoComplete(s, run, result).0 == s
    {
      hide Settled;
    }

    static lemma CompleteNothing(s: State, run: Id, result: Status)
      requires Settled(s, run).None?
      ensures DoComplete(s, run, result).0 == s
    {
      hide Settled;
    }

    // ----------------------------------------------------------------- runs

    /**
      `create_run_with_context`: the claim test, the insert that a unique index may turn down, the
      two statements that fill in the root, and the task set running.
     */
    method StartRun(a: Actor, n: NewRun) returns (answer: Answer)
      modifies this`tasks, this`runs
      ensures (Contents(), answer) == DoStart(old(Contents()), a, n)
    {
      hide NextAttempt, ClaimIsCurrent, IsRetryParent, HasLiveRun, Visible;
      if n.task !in tasks || tasks[n.task].archived || !Visible(a, tasks[n.task].owner, tasks[n.task].department) {
        return Refused;
      }
      if !ParentFits(Contents(), n) {
        return Refused;
      }
      if n.claim.Some? && !ClaimIsCurrent(Contents(), n.task, n.claim.value, n.seconds) {
        return Refused;
      }
      var attempt := tasks[n.task].attempt;
      if n.claim.None? {
        attempt := NextAttemptOf(Contents(), n.task);
      } else if attempt < 1 {
        attempt := 1;
      }
      if n.id in runs || tasks[n.task].revision != n.revision || HasLiveRun(Contents(), n.task)
         || exists r :: r in TaskRuns(Contents(), n.task) && runs[r].attempt == attempt {
        return Refused;
      }
      var kind := if n.parent.Some? || (n.claim.Some? && attempt > 1) then Retry else Primary;
      runs := runs[n.id := Protocol.Run(n.task, Starting, kind, a.user, tasks[n.task].department, None, None,
                                        n.parent, None, n.revision, attempt)];
      if n.parent.Some? {
        runs := runs[n.id := runs[n.id].(root := runs[n.parent.value].root)];
      } else {
        runs := runs[n.id := runs[n.id].(root := Some(n.id))];
      }
      assert runs == old(runs)[n.id := StartedRun(old(Contents()), a, n)];
      tasks := tasks[n.task := tasks[n.task].(status := Running, claim := None, retryAt := None)];
      return Done;
    }

    /** The rejecting half of `decide`: the run fails unless it has ended, its task fails whatever it is doing. */
    method RejectApproval(run: Id) returns (answer: Answer)
      modifies this`tasks, this`runs
      ensures (Contents(), answer) == DoRejectApproval(old(Contents()), run)
    {
      if run !in runs {
        return Refused;
      }
      if !Ended(runs[run].status) {
        runs := runs[run := runs[run].(status := RunFailed)];
      }
      var t := runs[run].task;
      if t in tasks {
        tasks := tasks[t := tasks[t].(status := Failed, claim := None, retryAt := None)];
      }
      assert runs == DoRejectApproval(old(Contents()), run).0.runs;
      return Done;
    }

    // ------------------------------------------------------------ scheduler

    /** The `next_attempt` column of the claim's candidates. */
    method NextAttempts(ids: seq<Id>) returns (attempts: map<Id, nat>)
      ensures forall t :: t in attempts <==> t in ids
      ensures forall t :: t in ids ==> attempts[t] == NextAttempt(Contents(), t)
    {
      attempts := map[];
      for i := 0 to |ids|
        invariant forall t :: t in attempts <==> t in ids[..i]
        invariant forall t :: t in ids[..i] ==> attempts[t] == NextAttempt(Contents(), t)
      {
        var n := NextAttemptOf(Contents(), ids[i]);
        attempts := attempts[ids[i] := n];
      }
    }

    /**
      `claim_scheduler_tasks`: the first `limit` eligible tasks that no other transaction has
      locked, best effective priority first, and nothing else.
     */
    method ClaimSchedulerTasks(token: Token, limit: nat, seconds: int, aging: int, locked: set<Id>)
      returns (picked: seq<Id>)
      requires aging > 0
      modifies this`tasks, this`issued
      ensures |picked| == if |old(Candidates(Contents(), seconds, locked))| < limit
                          then |old(Candidates(Contents(), seconds, locked))| else limit
      ensures PickedInOrder(now, aging, old(Candidates(Contents(), seconds, locked)), picked)
      ensures Contents() == DoClaimTasks(old(Contents()), (set t | t in picked), token, seconds).0
    {
      hide NextAttempt, Eligible, PickedInOrder, DoClaimTasks;
      var rows := Candidates(Contents(), seconds, locked);
      picked := Pick(now, aging, rows, limit);
      var attempts := NextAttempts(picked);
      PickedAreRows(now, aging, rows, picked);
      ClaimWrites(Contents(), picked, attempts, token, seconds);
      tasks := Claimed(Contents(), attempts, token);
      issued := issued + {token};
    }

    /** The update of the claim, over the rows of its `candidates` query. */
    static function Claimed(s: State, attempts: map<Id, nat>, token: Token): map<Id, Task>
    {
      map t | t in s.tasks ::
        if t in attempts then s.tasks[t].(claim := Some(Claim(token, s.now)), attempt := attempts[t]) else s.tasks[t]
    }

    static lemma ClaimWrites(s: State, picked: seq<Id>, attempts: map<Id, nat>, token: Token, seconds: int)
      requires forall t :: t in attempts <==> t in picked
      requires forall t :: t in picked ==> attempts[t] == NextAttempt(s, t) && Eligible(s, t, seconds)
      ensures s.(tasks := Claimed(s, attempts, token), issued := s.issued + {token})
           == DoClaimTasks(s, (set t | t in picked), token, seconds).0
    {
      hide NextAttempt, Eligible;
      assert Claimed(s, attempts, token) == DoClaimTasks(s, (set t | t in picked), token, seconds).0.tasks;
    }

    static lemma PickedAreRows(now: int, aging: int, rows: map<Id, Task>, picked: seq<Id>)
      requires aging > 0 && PickedInOrder(now, aging, rows, picked)
      ensures forall t :: t in picked ==> t in rows
    {
      hide Ahead;
    }

    /** The two task statements of `reconcile_scheduler_state`, and how many rows each touched. */
    method ReconcileSchedulerState() returns (released: nat, exhausted: nat)
      modifies this`tasks
      ensures Contents() == DoReconcileScheduler(old(Contents())).0
      ensures released == |Lapsed(old(Contents()))|
      ensures exhausted == |set t | t in old(tasks) && t in tasks && tasks[t].status != old(tasks)[t].status|
    {
      ReconcileInTwo(Contents());
      hide DoReconcileScheduler, Lapsed, Spent;
      released := |Lapsed(Contents())|;
      tasks := map t | t in tasks :: if t in Lapsed(Contents()) then tasks[t].(claim := None) else tasks[t];
      exhausted := |Spent(Contents())|;
      tasks := map t | t in tasks ::
        if t in Spent(Contents()) then tasks[t].(status := Failed, claim := None) else tasks[t];
    }

    // ------------------------------------------------------------ approvals

    method MarkWaiting(run: Id, task: Id) returns (ok: bool)
      modifies this`tasks, this`runs
      ensures (Contents(), if ok then Done else Refused) == DoMarkWaiting(old(Contents()), run, task)
      ensures ok ==> BothWaiting(Contents(), run, task)
      ensures InStep(old(Contents())) ==> InStep(Contents())
    {
      hide InStep;
      if InStep(Contents()) {
        WaitingKeeps(Contents(), run, task);
      }
      if !Joined(Contents(), run, task) {
        return false;
      }
      var runStatus, taskStatus := runs[run].status, tasks[task].status;
      if runStatus == OnHold && taskStatus == AwaitingApproval {
        return true;
      }
      if !(runStatus == Starting || runStatus == Active) || taskStatus != Running {
        return false;
      }
      runs := runs[run := runs[run].(status := OnHold)];
      tasks := tasks[task := tasks[task].(status := AwaitingApproval)];
      return true;
    }

    method MarkResumed(run: Id, task: Id) returns (ok: bool)
      modifies this`tasks, this`runs
      ensures (Contents(), if ok then Done else Refused) == DoMarkResumed(old(Contents()), run, task)
      ensures ok <==> BothWaiting(old(Contents()), run, task)
      ensures InStep(old(Contents())) ==> InStep(Contents())
    {
      hide InStep;
      if !Joined(Contents(), run, task) {
        return false;
      }
      if runs[run].status != OnHold || tasks[task].status != AwaitingApproval {
        return false;
      }
      if InStep(Contents()) {
        LeavingKeeps(Contents(), run, task, Active, tasks[task].(status := Running));
      }
      runs := runs[run := runs[run].(status := Active)];
      tasks := tasks[task := tasks[task].(status := Running)];
      return true;
    }

    method FailExpiredRun(run: Id, task: Id) returns (ok: bool)
      modifies this`tasks, this`runs
      ensures (Contents(), if ok then Done else Refused) == DoFailExpiredRun(old(Contents()), run, task)
      ensures ok <==> BothWaiting(old(Contents()), run, task)
      ensures InStep(old(Contents())) ==> InStep(Contents())
    {
      hide InStep;
      if !Joined(Contents(), run, task) {
        return false;
      }
      if runs[run].status != OnHold || tasks[task].status != AwaitingApproval {
        return false;
      }
      if InStep(Contents()) {
        LeavingKeeps(Contents(), run, task, RunFailed, tasks[task].(status := Failed, claim := None, retryAt := None));
      }
      runs := runs[run := runs[run].(status := RunFailed)];
      tasks := tasks[task := tasks[task].(status := Failed, claim := None, retryAt := None)];
      return true;
    }

    static lemma MarkDispatchedFrame(s: State, id: Id, worker: string, token: Token, child: Id)
      ensures var b := DoMarkDispatched(s, id, worker, token, child).0;
        && b.now == s.now && b.rules == s.rules && b.timedOut == s.timedOut && b.issued == s.issued
        && b.mutations == s.mutations && b.interrupted == s.interrupted
    {
    }
  }
}
