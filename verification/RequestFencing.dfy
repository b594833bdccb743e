/**
  Fencing of continuation requests: how one step may change one request row, and what
  that means over whole runs for claim tokens, dispatches and attempt counts.
 */
module RequestFencing {
  import opened Types
  import opened Propagation
  import opened Protocol
  import DependencyLedger
  import opened RequestInvariants
  import opened RequestTheorems

  predicate RequestOp(op: Op)
  {
    ForRequests(op) || op.FinishRun?
  }

  /** The step claims request `r`. */
  predicate ClaimsRow(s: State, op: Op, r: Id)
  {
    op.ClaimRequests? && r in op.ids && Claimable(s, r)
  }

  /** How one step may change one request row. */
  ghost predicate RowMove(s: State, op: Op, r: Id, p: Request, q: Request)
  {
    if ClaimsRow(s, op, r) then
      q == Leased(p, op.worker, op.token, s.now + Clamp(op.seconds, 10, 3600))
    else
      || q == p
      || (op.RenewRequest? && HeldBy(s, r, op.worker, op.token)
          && q == p.(lease := Some(Lease(op.worker, op.token, s.now + Clamp(op.seconds, 10, 3600)))))
      || (op.ReleaseExpired? && Expired(s, r) && q == Freed(p, s.now))
      || (op.ReleaseRequest? && HeldBy(s, r, op.worker, op.token)
          && q == Freed(p, s.now + Clamp(op.seconds, 0, 3600)))
      || (op.CancelRequest? && Open(p) && q == p.(status := Withdrawn, version := p.version + 1, lease := None))
      || (op.RejectRequest? && HeldBy(s, r, op.worker, op.token)
          && q == p.(status := Rejected, version := p.version + 1, lease := None))
      || (op.DispatchRequest? && op.id == r && HeldBy(s, r, op.worker, op.token) && Unexpired(s, r)
          && q == p.(status := Dispatched, version := p.version + 1, child := Some(op.child), lease := None))
      || (op.FinishRun? && p.status == Dispatched && q == p.(status := Completed, version := p.version + 1))
  }

  lemma RowOfOthers(s: State, op: Op)
    requires !RequestOp(op)
    ensures Step(s, op).0.requests == s.requests
  {
    hide Pass, Eligible, NextAttempt;
  }

  lemma RowOfFinish(s: State, run: Id, e: Ending, r: Id)
    requires Inv(s) && r in s.requests
    ensures var b := Step(s, FinishRun(run, e)).0;
      r in b.requests && RowMove(s, FinishRun(run, e), r, s.requests[r], b.requests[r])
  {
    hide DoFinish, Inv, Settlement, ConcludeTask;
    if DoFinish(s, run, e).1 == Done {
      FinishEffect(s, run, e);
    } else {
      FinishRefused(s, run, e);
    }
  }

  lemma RowOfDispatch(s: State, op: Op, r: Id)
    requires Inv(s) && r in s.requests && op.DispatchRequest?
    ensures r in Step(s, op).0.requests && RowMove(s, op, r, s.requests[r], Step(s, op).0.requests[r])
  {
    hide DoDispatch, Inv, NextAttempt;
    if DoDispatch(s, op.id, op.worker, op.token, op.child, op.revision).1 == Done {
      DispatchEffect(s, op.id, op.worker, op.token, op.child, op.revision);
    } else {
      DispatchRefused(s, op.id, op.worker, op.token, op.child, op.revision);
    }
  }

  lemma RowOfCreate(s: State, op: Op, r: Id)
    requires r in s.requests && op.CreateRequest?
    ensures r in Step(s, op).0.requests && Step(s, op).0.requests[r] == s.requests[r]
  {
    hide DoCreate;
    if DoCreate(s, op.actor, op.input, op.id).1 == Inserted(op.id) {
      CreateEffect(s, op.actor, op.input, op.id);
    } else {
      CreateRefused(s, op.actor, op.input, op.id);
    }
  }

  lemma RowOfClaims(s: State, op: Op, r: Id)
    requires r in s.requests
    requires op.ClaimRequests? || op.RenewRequest? || op.ReleaseExpired? || op.ReleaseRequest?
    ensures r in Step(s, op).0.requests && RowMove(s, op, r, s.requests[r], Step(s, op).0.requests[r])
  {
    hide DoCreate, DoCancel, DoReject, DoDispatch, OnRuns, OnScheduler, OnApprovals, OnTasks;
  }

  lemma RowOfCloses(s: State, op: Op, r: Id)
    requires r in s.requests && (op.CancelRequest? || op.RejectRequest?)
    ensures r in Step(s, op).0.requests && RowMove(s, op, r, s.requests[r], Step(s, op).0.requests[r])
  {
    hide DoCreate, DoClaimRequests, DoRenewRequest, DoReleaseExpired, DoReleaseRequest, DoDispatch, OnRuns,
         OnScheduler, OnApprovals, OnTasks;
  }

  lemma StepMovesRow(s: State, op: Op, r: Id)
    requires Inv(s) && r in s.requests
    ensures r in Step(s, op).0.requests && RowMove(s, op, r, s.requests[r], Step(s, op).0.requests[r])
  {
    hide Inv, Step;
    if op.CreateRequest? {
      RowOfCreate(s, op, r);
    } else if op.DispatchRequest? {
      RowOfDispatch(s, op, r);
    } else if op.FinishRun? {
      RowOfFinish(s, op.run, op.ending, r);
    } else if op.CancelRequest? || op.RejectRequest? {
      RowOfCloses(s, op, r);
    } else if RequestOp(op) {
      RowOfClaims(s, op, r);
    } else {
      RowOfOthers(s, op);
    }
  }

  /** A request row appears only by `create`, unclaimed and without a child. */
  lemma RowAppears(s: State, op: Op, r: Id)
    requires Inv(s) && r !in s.requests && r in Step(s, op).0.requests
    ensures op.CreateRequest? && op.id == r && op.input.task in s.tasks
    ensures Step(s, op).0.requests[r] == NewRequest(s.tasks[op.input.task], op.input)
  {
    if op.CreateRequest? {
      hide DoCreate;
      if DoCreate(s, op.actor, op.input, op.id).1 == Inserted(op.id) {
        CreateEffect(s, op.actor, op.input, op.id);
      } else {
        CreateRefused(s, op.actor, op.input, op.id);
      }
    } else {
      StepKeeps(s, op);
    }
  }

  // --------------------------------------------------------- leases and versions

  /**
    At every clock value a claimed request can be renewed by its holder or is freed by the expiry
    worker, never both and never neither.
   */
  lemma RenewOrExpire(s: State, id: Id, w: string, k: Token, seconds: int)
    requires id in s.requests && s.requests[id].status == Claimed && s.requests[id].lease.Some?
    requires s.requests[id].lease.value.owner == w && s.requests[id].lease.value.token == k
    ensures Step(s, RenewRequest(id, w, k, seconds)).1 == Done <==> s.now < s.requests[id].lease.value.expires
    ensures var b := Step(s, ReleaseExpired({id})).0;
      id in b.requests && (b.requests[id] == s.requests[id] <==> s.now < s.requests[id].lease.value.expires)
    ensures var b := Step(s, RenewRequest(id, w, k, seconds)).0;
      id in b.requests && (s.now < s.requests[id].lease.value.expires ==> b.requests[id].lease == Some(
        Lease(w, k, s.now + if seconds < 10 then 10 else if seconds > 3600 then 3600 else seconds)))
  {
    hide DoCreate, DoCancel, DoReject, DoDispatch, OnRuns, OnScheduler, OnApprovals, OnTasks;
  }

  /** How often request `r` changed its status in the run. */
  ghost function MoveCount(s: State, ops: seq<Op>, r: Id): nat
  {
    if ops == [] then 0
    else
      var front := ops[..|ops| - 1];
      var a, b := After(s, front), After(s, ops);
      MoveCount(s, front, r)
      + if r in a.requests && r in b.requests && a.requests[r].status != b.requests[r].status then 1 else 0
  }

  /** Over every run `status_version` grows by exactly the changes of status. */
  lemma {:induction false} VersionCountsMoves(s: State, ops: seq<Op>, r: Id)
    requires Inv(s) && r in s.requests
    ensures r in After(s, ops).requests
    ensures After(s, ops).requests[r].version == s.requests[r].version + MoveCount(s, ops, r)
  {
    hide Inv, Step;
    if ops != [] {
      var front := ops[..|ops| - 1];
      VersionCountsMoves(s, front, r);
      RunKeepsInv(s, front);
      StepMovesRow(After(s, front), ops[|ops| - 1], r);
    }
  }

  // --------------------------------------------------------------- back-off

  /**
    A released request is not claimed again before its back-off is over: until the clock gets there
    it stays as it was left, or is withdrawn.
   */
  lemma {:induction false} BackOffHolds(s: State, ops: seq<Op>, r: Id)
    requires Inv(s) && r in s.requests && s.requests[r].status == Pending && s.requests[r].nextAttemptAt.Some?
    requires After(s, ops).now < s.requests[r].nextAttemptAt.value
    ensures var b := After(s, ops);
      r in b.requests && (b.requests[r] == s.requests[r]
        || b.requests[r] == s.requests[r].(status := Withdrawn, version := s.requests[r].version + 1, lease := None))
  {
    hide Inv, Step;
    if ops != [] {
      var front, last := ops[..|ops| - 1], ops[|ops| - 1];
      var a := After(s, front);
      ClockForward(a, last);
      BackOffHolds(s, front, r);
      RunKeepsInv(s, front);
      StepMovesRow(a, last, r);
    }
  }

  lemma ClockForward(s: State, op: Op)
    ensures s.now <= Step(s, op).0.now
  {
    hide OnRequests, OnRuns, OnScheduler, OnApprovals, DependencyLedger.DoReplace;
    if !op.Tick? && !op.ReplaceDependencies? {
      StepKeepsBackdrop(s, op);
    }
  }

  /** `release_claim` sets the back-off, at most an hour and not negative. */
  lemma ReleaseBacksOff(s: State, id: Id, w: string, k: Token, seconds: int)
    requires Step(s, ReleaseRequest(id, w, k, seconds)).1 == Done
    ensures var b := Step(s, ReleaseRequest(id, w, k, seconds)).0;
      && id in b.requests && b.requests[id].status == Pending && b.requests[id].lease.None?
      && b.requests[id].nextAttemptAt
         == Some(s.now + if seconds < 0 then 0 else if seconds > 3600 then 3600 else seconds)
  {
    hide OnRuns, OnScheduler, OnApprovals, OnTasks;
  }

  // ------------------------------------------------------------ claim tokens

  /** The claim tokens of a run are random: none has been issued before. */
  ghost predicate FreshTokens(s: State, ops: seq<Op>)
  {
    ops == [] ||
    (FreshTokens(s, ops[..|ops| - 1]) && FreshToken(After(s, ops[..|ops| - 1]), ops[|ops| - 1]))
  }

  predicate FreshToken(s: State, op: Op)
  {
    op.ClaimRequests? || op.ClaimTasks? ==> op.token !in s.issued
  }

  /** `k` has been issued and no longer holds request `r`. */
  ghost predicate Spent(s: State, r: Id, k: Token)
  {
    && k in s.issued && r in s.requests
    && !(s.requests[r].lease.Some? && s.requests[r].lease.value.token == k)
  }

  lemma IssuedOnlyGrows(s: State, op: Op)
    ensures s.issued <= Step(s, op).0.issued
  {
    hide OnRequests, OnRuns, OnScheduler, OnApprovals, DependencyLedger.DoReplace;
    if !op.Tick? && !op.ReplaceDependencies? {
      StepKeepsBackdrop(s, op);
    }
  }

  lemma StepKeepsSpent(s: State, op: Op, r: Id, k: Token)
    requires Inv(s) && Spent(s, r, k) && FreshToken(s, op)
    ensures Spent(Step(s, op).0, r, k)
  {
    hide Step, Inv;
    StepMovesRow(s, op, r);
    IssuedOnlyGrows(s, op);
  }

  lemma {:induction false} RunKeepsSpent(s: State, ops: seq<Op>, r: Id, k: Token)
    requires Inv(s) && Spent(s, r, k) && FreshTokens(s, ops)
    ensures Spent(After(s, ops), r, k)
  {
    hide Step, Inv, Spent;
    if ops != [] {
      var front := ops[..|ops| - 1];
      RunKeepsSpent(s, front, r, k);
      RunKeepsInv(s, front);
      StepKeepsSpent(After(s, front), ops[|ops| - 1], r, k);
    }
  }

  /** The operations that present a claim token for request `r`. */
  predicate Presents(op: Op, r: Id, k: Token)
  {
    (op.RenewRequest? || op.ReleaseRequest? || op.RejectRequest? || op.DispatchRequest?) && op.id == r && op.token == k
  }

  lemma SpentIsRefused(s: State, op: Op, r: Id, k: Token)
    requires Spent(s, r, k) && Presents(op, r, k)
    ensures Step(s, op) == (s, Refused)
  {
    hide CanSpawn, NextAttempt;
  }

  /**
    Once a holder has lost its claim, whether it expired and was released, or was given
    back, cancelled, rejected or dispatched, its token is refused for ever after.
   */
  lemma LostClaimIsFenced(s: State, op: Op, ops: seq<Op>, late: Op, r: Id, w: string, k: Token)
    requires Inv(s) && LeasesIssued(s) && HeldBy(s, r, w, k) && FreshToken(s, op)
    requires !HeldBy(Step(s, op).0, r, w, k) && FreshTokens(Step(s, op).0, ops)
    requires Presents(late, r, k)
    ensures var b := After(Step(s, op).0, ops); Step(b, late) == (b, Refused)
  {
    hide Step, Inv, Spent;
    var a := Step(s, op).0;
    StepKeepsInv(s, op);
    LossSpends(s, op, r, w, k);
    RunKeepsSpent(a, ops, r, k);
    SpentIsRefused(After(a, ops), late, r, k);
  }

  lemma LossSpends(s: State, op: Op, r: Id, w: string, k: Token)
    requires Inv(s) && LeasesIssued(s) && HeldBy(s, r, w, k) && !HeldBy(Step(s, op).0, r, w, k)
    ensures Spent(Step(s, op).0, r, k)
  {
    hide Step, Inv;
    LeaseMoves(s, op, r);
    IssuedOnlyGrows(s, op);
  }

  /** A step frees a lease, keeps its owner and token, or is a claim of a request that nobody holds. */
  lemma LeaseMoves(s: State, op: Op, r: Id)
    requires Inv(s) && r in s.requests
    ensures r in Step(s, op).0.requests
    ensures LeaseMove(s, op, r, s.requests[r], Step(s, op).0.requests[r])
  {
    hide Step, Inv, RowMove, LeaseMove;
    StepMovesRow(s, op, r);
    RowIsOk(s, r);
    MoveOfLease(s, op, r, s.requests[r], Step(s, op).0.requests[r]);
  }

  predicate LeaseMove(s: State, op: Op, r: Id, p: Request, q: Request)
  {
    || q.lease.None?
    || (p.lease.Some? && q.status == p.status && q.lease.value.owner == p.lease.value.owner
        && q.lease.value.token == p.lease.value.token)
    || (ClaimsRow(s, op, r) && p.status == Pending && q.lease.value.token == op.token)
  }

  lemma MoveOfLease(s: State, op: Op, r: Id, p: Request, q: Request)
    requires r in s.requests && s.requests[r] == p && RowOk(p) && RowMove(s, op, r, p, q)
    ensures LeaseMove(s, op, r, p, q)
  {
  }

  lemma RowIsOk(s: State, r: Id)
    requires Inv(s) && r in s.requests
    ensures RowOk(s.requests[r])
  {
  }

  /** Every lease carries an issued token. */
  ghost predicate LeasesIssued(s: State)
  {
    forall r :: r in s.requests && s.requests[r].lease.Some? ==> s.requests[r].lease.value.token in s.issued
  }

  lemma ClaimIssues(s: State, op: Op)
    requires op.ClaimRequests?
    ensures op.token in Step(s, op).0.issued
  {
  }

  lemma StepKeepsLeasesIssued(s: State, op: Op)
    requires Inv(s) && LeasesIssued(s)
    ensures LeasesIssued(Step(s, op).0)
  {
    hide Step, Inv;
    var b := Step(s, op).0;
    IssuedOnlyGrows(s, op);
    if op.ClaimRequests? {
      ClaimIssues(s, op);
    }
    forall r | r in b.requests && b.requests[r].lease.Some? ensures b.requests[r].lease.value.token in b.issued {
      if r in s.requests {
        LeaseMoves(s, op, r);
      } else {
        RowAppears(s, op, r);
      }
    }
  }

  lemma {:induction false} RunKeepsLeasesIssued(s: State, ops: seq<Op>)
    requires Inv(s) && LeasesIssued(s)
    ensures LeasesIssued(After(s, ops))
  {
    hide Step, Inv, LeasesIssued;
    if ops != [] {
      var front := ops[..|ops| - 1];
      RunKeepsLeasesIssued(s, front);
      RunKeepsInv(s, front);
      StepKeepsLeasesIssued(After(s, front), ops[|ops| - 1]);
    }
  }

  // -------------------------------------------------------------- dispatches

  /** A dispatched request keeps its child for ever and cannot be dispatched again. */
  lemma {:induction false} DispatchedOnce(s: State, ops: seq<Op>, r: Id, c: Id, w: string, k: Token, c': Id, v: int)
    requires Inv(s) && r in s.requests && s.requests[r].child == Some(c)
    ensures var b := After(s, ops);
      && r in b.requests && b.requests[r].child == Some(c)
      && Step(b, DispatchRequest(r, w, k, c', v)) == (b, Refused)
  {
    hide Step, Inv;
    var b := After(s, ops);
    if ops != [] {
      var front := ops[..|ops| - 1];
      DispatchedOnce(s, front, r, c, w, k, c', v);
      RunKeepsInv(s, front);
      StepMovesRow(After(s, front), ops[|ops| - 1], r);
      ChildRowOk(After(s, front), r);
    }
    RunKeepsInv(s, ops);
    ChildRowOk(b, r);
    NotHeldNotDispatched(b, r, w, k, c', v);
  }

  lemma ChildRowOk(s: State, r: Id)
    requires Inv(s) && r in s.requests
    ensures RowOk(s.requests[r])
  {
  }

  lemma NotHeldNotDispatched(s: State, r: Id, w: string, k: Token, c: Id, v: int)
    requires !HeldBy(s, r, w, k)
    ensures Step(s, DispatchRequest(r, w, k, c, v)) == (s, Refused)
  {
    hide CanSpawn, NextAttempt;
  }

  /** The worker and token of the newest claim of `r` in a run. */
  ghost function NewestClaim(s: State, ops: seq<Op>, r: Id): Option<(string, Token)>
  {
    if ops == [] then None
    else
      var front, last := ops[..|ops| - 1], ops[|ops| - 1];
      if ClaimsRow(After(s, front), last, r) then Some((last.worker, last.token)) else NewestClaim(s, front, r)
  }

  lemma {:induction false} LeaseIsNewestClaim(s: State, ops: seq<Op>, r: Id)
    requires Inv(s) && (r in s.requests ==> s.requests[r].lease.None?)
    ensures var b := After(s, ops);
      r in b.requests && b.requests[r].lease.Some?
      ==> NewestClaim(s, ops, r) == Some((b.requests[r].lease.value.owner, b.requests[r].lease.value.token))
  {
    hide Step, Inv;
    if ops != [] {
      var front, last := ops[..|ops| - 1], ops[|ops| - 1];
      var a := After(s, front);
      LeaseIsNewestClaim(s, front, r);
      RunKeepsInv(s, front);
      if r in a.requests {
        StepMovesRow(a, last, r);
      } else if r in After(s, ops).requests {
        RowAppears(a, last, r);
      }
    }
  }

  /** Only the newest claimant, with a lease that has not run out, dispatches a request. */
  lemma DispatchByNewestClaimant(s: State, ops: seq<Op>, r: Id, w: string, k: Token, c: Id, v: int)
    requires Inv(s) && (r in s.requests ==> s.requests[r].lease.None?)
    requires Step(After(s, ops), DispatchRequest(r, w, k, c, v)).1 == Done
    ensures NewestClaim(s, ops, r) == Some((w, k)) && Unexpired(After(s, ops), r)
  {
    hide Inv, After, CanSpawn, NextAttempt;
    var b := After(s, ops);
    LeaseIsNewestClaim(s, ops, r);
    RunKeepsInv(s, ops);
    DispatchEffect(b, r, w, k, c, v);
  }

  /** How often a run claims `r`. */
  ghost function Claims(s: State, ops: seq<Op>, r: Id): nat
  {
    if ops == [] then 0
    else
      var front, last := ops[..|ops| - 1], ops[|ops| - 1];
      Claims(s, front, r) + if ClaimsRow(After(s, front), last, r) then 1 else 0
  }

  /** `dispatch_attempts` counts the claims. */
  lemma {:induction false} AttemptsCountClaims(s: State, ops: seq<Op>, r: Id)
    requires Inv(s) && r in s.requests
    ensures r in After(s, ops).requests
    ensures After(s, ops).requests[r].attempts == s.requests[r].attempts + Claims(s, ops, r)
  {
    hide Step, Inv;
    if ops != [] {
      var front := ops[..|ops| - 1];
      AttemptsCountClaims(s, front, r);
      RunKeepsInv(s, front);
      StepMovesRow(After(s, front), ops[|ops| - 1], r);
    }
  }
}
