/**
  The revision account of continuation requests: what each step does to the revision of
  a task, and what a cancelled or rejected request leaves behind.
 */
module RequestAccount {
  import opened Types
  import opened Protocol
  import opened RequestInvariants
  import opened RequestTheorems
  import opened RequestFencing

  // ------------------------------------------------------- the revision account

  predicate ContinuationOp(op: Op)
  {
    op.Tick? || RequestOp(op)
  }

  /** Between `a` and `b` a request of task `t` was created, cancelled, rejected, dispatched or completed. */
  ghost predicate Recorded(a: State, b: State, t: Id)
  {
    exists r :: RowRecorded(a, b, t, r)
  }

  ghost predicate RowRecorded(a: State, b: State, t: Id, r: Id)
  {
    && r in b.requests && b.requests[r].task == t
    && (r !in a.requests
        || (a.requests[r].status != b.requests[r].status
            && b.requests[r].status in {Withdrawn, Rejected, Dispatched, Completed}))
  }

  ghost function Recordings(s: State, ops: seq<Op>, t: Id): nat
  {
    if ops == [] then 0
    else
      var front := ops[..|ops| - 1];
      Recordings(s, front, t) + if Recorded(After(s, front), After(s, ops), t) then 1 else 0
  }

  /** One request row and its task change together. */
  lemma PairRecorded(s: State, b: State, id: Id, t: Id)
    requires Inv(s) && id in b.requests
    requires b.requests == s.requests[id := b.requests[id]] && b.requests[id].task in s.tasks
    requires b.requests[id].task in b.tasks
    requires b.tasks == s.tasks[b.requests[id].task := b.tasks[b.requests[id].task]]
    requires b.tasks[b.requests[id].task].revision == s.tasks[b.requests[id].task].revision + 1
    requires RowRecorded(s, b, b.requests[id].task, id)
    requires t in s.tasks
    ensures t in b.tasks
    ensures b.tasks[t].revision == s.tasks[t].revision + if Recorded(s, b, t) then 1 else 0
  {
    if t == b.requests[id].task {
      assert Recorded(s, b, t);
    } else {
      assert forall r :: RowRecorded(s, b, t, r) ==> r == id;
    }
  }

  lemma NothingRecorded(s: State, b: State, t: Id)
    requires t in s.tasks && t in b.tasks && b.tasks[t].revision == s.tasks[t].revision
    requires b.requests.Keys == s.requests.Keys
    requires forall r :: r in s.requests ==>
               b.requests[r].status == s.requests[r].status || b.requests[r].status in {Pending, Claimed}
    ensures b.tasks[t].revision == s.tasks[t].revision + if Recorded(s, b, t) then 1 else 0
  {
  }

  ghost predicate Accounts(s: State, b: State, t: Id)
    requires t in s.tasks
  {
    t in b.tasks && b.tasks[t].revision == s.tasks[t].revision + if Recorded(s, b, t) then 1 else 0
  }

  lemma CreateAccounts(s: State, a: Actor, n: NewContinuation, id: Id, t: Id)
    requires Inv(s) && t in s.tasks
    ensures Accounts(s, DoCreate(s, a, n, id).0, t)
  {
    hide DoCreate, HasLiveRun;
    var b := DoCreate(s, a, n, id).0;
    if DoCreate(s, a, n, id).1 == Inserted(id) {
      CreateEffect(s, a, n, id);
      PairRecorded(s, b, id, t);
    } else {
      CreateRefused(s, a, n, id);
      NothingRecorded(s, b, t);
    }
  }

  lemma RestoreAccounts(s: State, id: Id, q: Request, t: Id)
    requires Inv(s) && t in s.tasks && id in s.requests && q.task == s.requests[id].task && Open(s.requests[id])
    requires q.status == Withdrawn || q.status == Rejected
    ensures Accounts(s, Restore(s, id, q).0, t)
  {
    var b := Restore(s, id, q).0;
    if Restore(s, id, q).1 == Done {
      assert FitsTask(s, s.requests[id]);
      PairRecorded(s, b, id, t);
    } else {
      NothingRecorded(s, b, t);
    }
  }

  lemma DispatchAccounts(s: State, id: Id, w: string, k: Token, c: Id, v: int, t: Id)
    requires Inv(s) && t in s.tasks
    ensures Accounts(s, DoDispatch(s, id, w, k, c, v).0, t)
  {
    hide DoDispatch, HasLiveRun, NextAttempt;
    var b := DoDispatch(s, id, w, k, c, v).0;
    if DoDispatch(s, id, w, k, c, v).1 == Done {
      DispatchEffect(s, id, w, k, c, v);
      assert FitsTask(s, s.requests[id]);
      PairRecorded(s, b, id, t);
    } else {
      DispatchRefused(s, id, w, k, c, v);
      NothingRecorded(s, b, t);
    }
  }

  lemma FinishAccounts(s: State, run: Id, e: Ending, t: Id)
    requires Inv(s) && t in s.tasks
    ensures Accounts(s, DoFinish(s, run, e).0, t)
  {
    hide DoFinish, Settlement;
    var b := DoFinish(s, run, e).0;
    if DoFinish(s, run, e).1 == Done {
      FinishEffect(s, run, e);
      match Settlement(s, run, e)
      case None => NothingRecorded(s, b, t);
      case Some(id) => PairRecorded(s, b, id, t);
    } else {
      FinishRefused(s, run, e);
      NothingRecorded(s, b, t);
    }
  }

  lemma ClaimAccounts(s: State, op: Op, t: Id)
    requires t in s.tasks && ClaimOp(op)
    ensures Accounts(s, Step(s, op).0, t)
  {
    ClaimStepLeavesTasks(s, op);
    hide DoCreate, DoCancel, DoReject, DoDispatch, OnRuns, OnScheduler, OnApprovals, OnTasks;
    NothingRecorded(s, Step(s, op).0, t);
  }

  lemma StepAccounts(s: State, op: Op, t: Id)
    requires Inv(s) && t in s.tasks && ContinuationOp(op)
    ensures Accounts(s, Step(s, op).0, t)
  {
    hide Accounts, Inv, DoCreate, DoCancel, DoReject, DoDispatch, DoFinish, OnScheduler, OnApprovals, OnTasks;
    match op
    case CreateRequest(a, n, id) => CreateAccounts(s, a, n, id, t);
    case CancelRequest(a, id) => CancelAccounts(s, a, id, t);
    case RejectRequest(id, w, k) => RejectAccounts(s, id, w, k, t);
    case DispatchRequest(id, w, k, c, v) => DispatchAccounts(s, id, w, k, c, v, t);
    case FinishRun(r, e) => FinishAccounts(s, r, e, t);
    case _ => ClaimAccounts(s, op, t);
  }

  lemma CancelAccounts(s: State, a: Actor, id: Id, t: Id)
    requires Inv(s) && t in s.tasks
    ensures Accounts(s, DoCancel(s, a, id).0, t)
  {
    hide Inv, Accounts, Restore;
    if id in s.requests && Open(s.requests[id]) {
      var q := s.requests[id];
      RestoreAccounts(s, id, q.(status := Withdrawn, version := q.version + 1, lease := None), t);
    }
    SameAccounts(s, t);
  }

  lemma RejectAccounts(s: State, id: Id, w: string, k: Token, t: Id)
    requires Inv(s) && t in s.tasks
    ensures Accounts(s, DoReject(s, id, w, k).0, t)
  {
    hide Inv, Accounts, Restore;
    if HeldBy(s, id, w, k) {
      var q := s.requests[id];
      RestoreAccounts(s, id, q.(status := Rejected, version := q.version + 1, lease := None), t);
    }
    SameAccounts(s, t);
  }

  lemma SameAccounts(s: State, t: Id)
    requires t in s.tasks
    ensures Accounts(s, s, t)
  {
  }

  /**
    Over a run of continuation steps the revision grows by the number of requests created,
    cancelled, rejected, dispatched and completed.
   */
  lemma {:induction false} RevisionCountsRecordings(s: State, ops: seq<Op>, t: Id)
    requires Inv(s) && t in s.tasks
    requires forall i :: 0 <= i < |ops| ==> ContinuationOp(ops[i])
    ensures t in After(s, ops).tasks
    ensures After(s, ops).tasks[t].revision == s.tasks[t].revision + Recordings(s, ops, t)
  {
    hide Inv, Step, Recorded;
    if ops != [] {
      var front := ops[..|ops| - 1];
      RevisionCountsRecordings(s, front, t);
      RunKeepsInv(s, front);
      StepAccounts(After(s, front), ops[|ops| - 1], t);
    }
  }

  // ----------------------------------------------------------- there and back

  predicate ClaimOp(op: Op)
  {
    op.Tick? || op.ClaimRequests? || op.RenewRequest? || op.ReleaseExpired? || op.ReleaseRequest?
  }

  lemma {:induction false} ClaimsLeaveTasks(s: State, ops: seq<Op>)
    requires Inv(s) && forall i :: 0 <= i < |ops| ==> ClaimOp(ops[i])
    ensures After(s, ops).tasks == s.tasks
  {
    hide Inv, Step;
    if ops != [] {
      var front := ops[..|ops| - 1];
      ClaimsLeaveTasks(s, front);
      ClaimStepLeavesTasks(After(s, front), ops[|ops| - 1]);
    }
  }

  lemma ClaimStepLeavesTasks(s: State, op: Op)
    requires ClaimOp(op)
    ensures Step(s, op).0.tasks == s.tasks
  {
    hide DoCreate, DoCancel, DoReject, DoDispatch, OnRuns, OnScheduler, OnApprovals, OnTasks;
  }

  /**
    Creating a request and later cancelling or rejecting it, with any claims, renewals,
    releases and expiries in between, gives the task back as it was, two revisions on.
   */
  lemma CreateThenCloseRestores(s: State, a: Actor, n: NewContinuation, id: Id, ops: seq<Op>, last: Op)
    requires Inv(s) && DoCreate(s, a, n, id).1 == Inserted(id)
    requires forall i :: 0 <= i < |ops| ==> ClaimOp(ops[i])
    requires (last.CancelRequest? || last.RejectRequest?) && last.id == id
    requires Step(After(DoCreate(s, a, n, id).0, ops), last).1 == Done
    ensures n.task in s.tasks
    ensures Step(After(DoCreate(s, a, n, id).0, ops), last).0.tasks
         == s.tasks[n.task := s.tasks[n.task].(revision := s.tasks[n.task].revision + 2)]
  {
    hide DoCreate, Step, After, Inv, Clashes, HasLiveRun;
    var c := DoCreate(s, a, n, id).0;
    CreateEffect(s, a, n, id);
    CreateKeepsInv(s, a, n, id);
    ClaimsLeaveTasks(c, ops);
    RunKeeps(c, ops);
    CloseEffect(c, After(c, ops), id, last);
  }

  lemma CloseEffect(c: State, b: State, id: Id, last: Op)
    requires id in c.requests && Keeps(c, b)
    requires (last.CancelRequest? || last.RejectRequest?) && last.id == id && Step(b, last).1 == Done
    ensures var q := c.requests[id];
      q.task in b.tasks && Step(b, last).0.tasks == b.tasks[q.task := BumpTo(b.tasks[q.task], q.priorStatus)]
  {
    hide DoCreate, DoClaimRequests, DoRenewRequest, DoReleaseExpired, DoReleaseRequest, DoDispatch, OnRuns,
         OnScheduler, OnApprovals, OnTasks;
  }
}
