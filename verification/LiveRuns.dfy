/**
  Live runs under every modelled writer: no step revives a run or gives a task a second live one, and
  the request of a live child stays dispatched until that child ends.
 */
module LiveRuns {
  import opened Types
  import opened Protocol
  import opened RequestInvariants
  import opened RequestFencing

  ghost predicate LiveFor(s: State, r: Id, t: Id)
  {
    r in s.runs && s.runs[r].task == t && Live(s.runs[r].status)
  }

  ghost predicate OneLive(s: State)
  {
    forall p, q, t :: LiveFor(s, p, t) && LiveFor(s, q, t) ==> p == q
  }

  /** Runs stay and keep what they are; a new one comes from a dispatch to a task without a live run. */
  ghost predicate RunsMove(s: State, b: State)
  {
    && (forall r :: r in s.runs ==> r in b.runs && RunFrame(s.runs[r], b.runs[r]))
    && (forall r :: r in b.runs && r !in s.runs ==> !HasLiveRun(s, b.runs[r].task))
    && (forall p, q :: p in b.runs && q in b.runs && p !in s.runs && q !in s.runs ==> p == q)
  }

  lemma SameRunsMove(s: State, b: State)
    requires b.runs == s.runs
    ensures RunsMove(s, b)
  {
  }

  lemma DispatchMovesRuns(s: State, id: Id, w: string, k: Token, child: Id, v: int)
    requires Inv(s)
    ensures RunsMove(s, DoDispatch(s, id, w, k, child, v).0)
  {
    hide DoDispatch, Inv, NextAttempt, HasLiveRun;
    if DoDispatch(s, id, w, k, child, v).1 == Done {
      DispatchEffect(s, id, w, k, child, v);
    } else {
      DispatchRefused(s, id, w, k, child, v);
    }
  }

  lemma FinishMovesRuns(s: State, run: Id, e: Ending)
    requires Inv(s)
    ensures RunsMove(s, DoFinish(s, run, e).0)
  {
    hide DoFinish, Inv, Settlement, ConcludeTask, HasLiveRun;
    if DoFinish(s, run, e).1 == Done {
      FinishEffect(s, run, e);
    } else {
      FinishRefused(s, run, e);
    }
  }

  lemma CreateMovesRuns(s: State, a: Actor, n: NewContinuation, id: Id)
    ensures RunsMove(s, DoCreate(s, a, n, id).0)
  {
    hide DoCreate, RunsMove;
    if DoCreate(s, a, n, id).1 == Inserted(id) {
      CreateEffect(s, a, n, id);
    } else {
      CreateRefused(s, a, n, id);
    }
    SameRunsMove(s, DoCreate(s, a, n, id).0);
  }

  lemma QuietMovesRuns(s: State, op: Op)
    requires Quiet(op)
    ensures RunsMove(s, Step(s, op).0)
  {
    hide Step, HasLiveRun;
    QuietSteps(s, op);
  }

  lemma StartMovesRuns(s: State, a: Actor, n: NewRun)
    ensures RunsMove(s, DoStart(s, a, n).0)
  {
    hide DoStart, HasLiveRun;
    if DoStart(s, a, n).1 == Done {
      StartEffect(s, a, n);
    } else {
      StartRefused(s, a, n);
    }
  }

  lemma CutMovesRuns(s: State, run: Id, cut: Cut, h: Option<nat>)
    ensures RunsMove(s, DoCut(s, run, cut, h).0)
  {
    hide HasLiveRun, CutTask;
  }

  lemma MoverMovesRuns(s: State, op: Op)
    requires Inv(s) && !Quiet(op)
    ensures RunsMove(s, Step(s, op).0)
  {
    hide Inv, RunsMove, DoCreate, DoDispatch, DoStart, DoFinish, DoCut, BumpTo, HasLiveRun;
    match op
    case CreateRequest(a, n, id) => CreateMovesRuns(s, a, n, id);
    case CancelRequest(a, id) => SameRunsMove(s, DoCancel(s, a, id).0);
    case RejectRequest(id, w, k) => SameRunsMove(s, DoReject(s, id, w, k).0);
    case DispatchRequest(id, w, k, c, v) => DispatchMovesRuns(s, id, w, k, c, v);
    case StartRun(a, n) => StartMovesRuns(s, a, n);
    case AbortStart(r, c, h) =>
      CutMovesRuns(s, r, c, h);
      SameRunsMove(s, s);
    case FinishRun(r, e) => FinishMovesRuns(s, r, e);
    case RejectApproval(r) => CutMovesRuns(s, r, Mark(Failed), None);
  }

  lemma StepMovesRuns(s: State, op: Op)
    requires Inv(s)
    ensures RunsMove(s, Step(s, op).0)
  {
    hide Step, Inv, RunsMove;
    if Quiet(op) {
      QuietMovesRuns(s, op);
    } else {
      MoverMovesRuns(s, op);
    }
  }

  lemma MoveKeepsOneLive(s: State, b: State)
    requires OneLive(s) && RunsMove(s, b)
    ensures OneLive(b)
  {
    forall p, q, t | LiveFor(b, p, t) && LiveFor(b, q, t) ensures p == q {
      assert p in s.runs ==> LiveFor(s, p, t);
      assert q in s.runs ==> LiveFor(s, q, t);
    }
  }

  lemma StepKeepsOneLive(s: State, op: Op)
    requires Inv(s) && OneLive(s)
    ensures OneLive(Step(s, op).0)
  {
    hide Step, Inv;
    StepMovesRuns(s, op);
    MoveKeepsOneLive(s, Step(s, op).0);
  }

  lemma {:induction false} RunKeepsOneLive(s: State, ops: seq<Op>)
    requires Inv(s) && OneLive(s)
    ensures OneLive(After(s, ops))
  {
    hide Step, Inv, OneLive;
    if ops != [] {
      var front := ops[..|ops| - 1];
      RunKeepsOneLive(s, front);
      RunKeepsInv(s, front);
      StepKeepsOneLive(After(s, front), ops[|ops| - 1]);
    }
  }

  // ---------------------------------------------------- requests of live runs

  ghost predicate LiveChild(s: State, c: Id)
  {
    c in s.runs && s.runs[c].request.Some? && Live(s.runs[c].status)
  }

  ghost predicate LiveDispatched(s: State)
  {
    forall c :: LiveChild(s, c) ==>
      s.runs[c].request.value in s.requests && s.requests[s.runs[c].request.value].status == Dispatched
  }

  /** Ending one run settles no request of a run that is still live. */
  lemma FinishSparesLive(s: State, run: Id, e: Ending, c: Id)
    requires Inv(s) && CanFinish(s, run, e) && LiveChild(EndedAt(s, run, e.outcome), c)
    ensures Settlement(s, run, e) != s.runs[c].request
  {
    var id := s.runs[c].request.value;
    forall l | l in s.runs && s.runs[l].request == Some(id) ensures l == c {
      assert ChildOk(s, l) && ChildOk(s, c);
    }
    if Settlement(s, run, e) == Some(id) {
      var l := SettlementSource(s, run, e);
    }
  }

  lemma SettlementSource(s: State, run: Id, e: Ending) returns (l: Id)
    requires run in s.runs && Settlement(s, run, e).Some?
    ensures var a := EndedAt(s, run, e.outcome);
      l in a.runs && a.runs[l].request == Settlement(s, run, e) && Ended(a.runs[l].status)
  {
    var a := EndedAt(s, run, e.outcome);
    var id := Settlement(s, run, e).value;
    if OwnMatches(a, run) != {} {
      assert id in OwnMatches(a, run);
      l := run;
    } else {
      assert id in LineageMatches(a, run);
      l :| l in a.runs && a.runs[l].request == Some(id) && Ended(a.runs[l].status);
    }
  }

  lemma StepKeepsLiveDispatched(s: State, op: Op)
    requires Inv(s) && LiveDispatched(s)
    ensures LiveDispatched(Step(s, op).0)
  {
    var b := Step(s, op).0;
    forall c | LiveChild(b, c)
      ensures b.runs[c].request.value in b.requests && b.requests[b.runs[c].request.value].status == Dispatched
    {
      LiveStaysDispatched(s, op, c);
    }
  }

  lemma LiveStaysDispatched(s: State, op: Op, c: Id)
    requires Inv(s) && LiveDispatched(s) && LiveChild(Step(s, op).0, c)
    ensures var b := Step(s, op).0;
      b.runs[c].request.value in b.requests && b.requests[b.runs[c].request.value].status == Dispatched
  {
    hide Step, Inv;
    var b := Step(s, op).0;
    if c in s.runs {
      StepMovesRuns(s, op);
      assert RunFrame(s.runs[c], b.runs[c]) && LiveChild(s, c);
      var id := s.runs[c].request.value;
      if op.FinishRun? {
        FinishKeepsOther(s, op.run, op.ending, c, id);
      } else {
        StepMovesRow(s, op, id);
        ClaimableIsPending(s, op, id);
      }
    } else {
      OnlyDispatchAdds(s, op, c);
    }
  }

  lemma ClaimableIsPending(s: State, op: Op, id: Id)
    ensures ClaimsRow(s, op, id) ==> s.requests[id].status == Pending
  {
  }

  lemma FinishKeepsOther(s: State, run: Id, e: Ending, c: Id, id: Id)
    requires Inv(s) && id in s.requests && c in s.runs && s.runs[c].request == Some(id)
    requires LiveChild(Step(s, FinishRun(run, e)).0, c)
    ensures var b := Step(s, FinishRun(run, e)).0; id in b.requests && b.requests[id] == s.requests[id]
  {
    hide DoFinish, Inv, Settlement, ConcludeTask;
    if DoFinish(s, run, e).1 == Done {
      FinishEffect(s, run, e);
      FinishSparesLive(s, run, e, c);
    } else {
      FinishRefused(s, run, e);
    }
  }

  /** A new run with a request comes from the dispatch of that request. */
  lemma OnlyDispatchAdds(s: State, op: Op, c: Id)
    requires Inv(s) && c !in s.runs && c in Step(s, op).0.runs && Step(s, op).0.runs[c].request.Some?
    ensures op.DispatchRequest? && op.child == c
    ensures var b := Step(s, op).0;
      b.runs[c].request == Some(op.id) && op.id in b.requests && b.requests[op.id].status == Dispatched
  {
    if Quiet(op) {
      hide Step;
      QuietSteps(s, op);
    } else if op.DispatchRequest? {
      DispatchAdds(s, op, c);
    } else {
      hide Inv, DoCreate, DoStart, DoFinish, DoDispatch, CutTask, BumpTo;
      OtherAddsNone(s, op, c);
    }
  }

  lemma DispatchAdds(s: State, op: Op, c: Id)
    requires Inv(s) && op.DispatchRequest? && c !in s.runs && c in Step(s, op).0.runs
    ensures op.child == c
    ensures var b := Step(s, op).0;
      b.runs[c].request == Some(op.id) && op.id in b.requests && b.requests[op.id].status == Dispatched
  {
    hide Inv, DoDispatch, NextAttempt, CanSpawn, BumpTo;
    if DoDispatch(s, op.id, op.worker, op.token, op.child, op.revision).1 == Done {
      DispatchEffect(s, op.id, op.worker, op.token, op.child, op.revision);
    } else {
      DispatchRefused(s, op.id, op.worker, op.token, op.child, op.revision);
    }
  }

  lemma OtherAddsNone(s: State, op: Op, c: Id)
    requires Inv(s) && !Quiet(op) && !op.DispatchRequest? && c !in s.runs && c in Step(s, op).0.runs
    ensures Step(s, op).0.runs[c].request.None?
  {
    hide Inv, DoCreate, DoStart, DoFinish, CutTask, BumpTo, Settlement, ConcludeTask, HasLiveRun;
    match op
    case CreateRequest(a, n, id) =>
      if DoCreate(s, a, n, id).1 == Inserted(id) {
        CreateEffect(s, a, n, id);
      } else {
        CreateRefused(s, a, n, id);
      }
    case CancelRequest(a, id) =>
    case RejectRequest(id, w, k) =>
    case StartRun(a, n) =>
      if DoStart(s, a, n).1 == Done {
        StartEffect(s, a, n);
      } else {
        StartRefused(s, a, n);
      }
    case AbortStart(r, cut, h) =>
    case FinishRun(r, e) =>
      if DoFinish(s, r, e).1 == Done {
        FinishEffect(s, r, e);
      } else {
        FinishRefused(s, r, e);
      }
    case RejectApproval(r) =>
  }

  lemma {:induction false} RunKeepsLiveDispatched(s: State, ops: seq<Op>)
    requires Inv(s) && LiveDispatched(s)
    ensures LiveDispatched(After(s, ops))
  {
    hide Step, Inv, LiveDispatched;
    if ops != [] {
      var front := ops[..|ops| - 1];
      RunKeepsLiveDispatched(s, front);
      RunKeepsInv(s, front);
      StepKeepsLiveDispatched(After(s, front), ops[|ops| - 1]);
    }
  }

  /** A live child that ends for good settles its own request, whatever its ancestors left open. */
  lemma FinishSettlesOwn(s: State, run: Id, e: Ending)
    requires Inv(s) && LiveDispatched(s) && LiveChild(s, run) && Ended(e.outcome) && e.retryAt.None?
    ensures Settlement(s, run, e) == s.runs[run].request
  {
    var a, id := EndedAt(s, run, e.outcome), s.runs[run].request.value;
    assert OwnMatches(a, run) == {id};
  }

  /** Run `l` ended without its request being settled: it was tried again, or its approval expired or was rejected. */
  ghost predicate LeftOpen(s: State, l: Id)
  {
    && l in s.runs && Ended(s.runs[l].status) && s.runs[l].request.Some?
    && s.runs[l].request.value in s.requests && s.requests[s.runs[l].request.value].status == Dispatched
  }

  /** A run without a request settles one exactly if an ended ancestor left its request open. */
  lemma FinishSettlesInherited(s: State, run: Id, e: Ending)
    requires run in s.runs && s.runs[run].request.None? && Ended(e.outcome) && e.retryAt.None?
    ensures Settlement(s, run, e).Some? <==> exists l :: l in Lineage(s.runs, run) && LeftOpen(s, l)
  {
    var a := EndedAt(s, run, e.outcome);
    LineageUnchanged(s.runs, run, e.outcome, run);
    assert OwnMatches(a, run) == {};
    if l :| l in Lineage(s.runs, run) && LeftOpen(s, l) {
      var q := s.runs[l].request.value;
      assert l != run && LineageMatch(a, run, q);
      assert q in LineageMatches(a, run);
    }
    if Settlement(s, run, e).Some? {
      var q := Settlement(s, run, e).value;
      assert q in LineageMatches(a, run);
      var l :| l in Lineage(a.runs, run) && l in a.runs && a.runs[l].request == Some(q) && Ended(a.runs[l].status);
      assert LeftOpen(s, l);
    }
  }

  lemma {:induction false} LineageUnchanged(runs: map<Id, Run>, run: Id, outcome: RunStatus, r: Id)
    requires run in runs
    ensures Lineage(runs[run := runs[run].(status := outcome)], r) == Lineage(runs, r)
    decreases r
  {
    if r in runs && runs[r].parent.Some? && runs[r].parent.value < r {
      LineageUnchanged(runs, run, outcome, runs[r].parent.value);
    }
  }

  /** Letting the approval of a waiting child expire leaves its request open. */
  lemma ExpiryLeavesOpen(s: State, run: Id, t: Id)
    requires LiveDispatched(s) && LiveChild(s, run) && BothWaiting(s, run, t)
    ensures LeftOpen(Step(s, FailExpiredRun(run, t)).0, run)
  {
  }

  /** So does rejecting it. */
  lemma RejectionLeavesOpen(s: State, run: Id)
    requires LiveDispatched(s) && LiveChild(s, run)
    ensures LeftOpen(Step(s, RejectApproval(run)).0, run)
  {
  }

  /** So does trying a child again. */
  lemma RetryLeavesOpen(s: State, run: Id, e: Ending)
    requires Inv(s) && LiveDispatched(s) && LiveChild(s, run) && CanFinish(s, run, e) && e.retryAt.Some?
    ensures LeftOpen(Step(s, FinishRun(run, e)).0, run)
  {
  }
}
