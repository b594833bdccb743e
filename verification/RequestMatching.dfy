/**
  Open requests and pending tasks match: a task is `continuation_pending` exactly while one request
  for it is open. Every modelled step keeps that but writes to a pending task that look at no
  status: a user's run start, a rejected approval and an aborted start. Those always break it.
 */
module RequestMatching {
  import opened Types
  import opened Protocol
  import opened RequestInvariants

  ghost predicate OpenFor(s: State, t: Id, r: Id)
  {
    r in s.requests && s.requests[r].task == t && Open(s.requests[r])
  }

  predicate Pends(s: State, t: Id)
  {
    t in s.tasks && s.tasks[t].status == ContinuationPending
  }

  ghost predicate OpenIsPending(s: State)
  {
    forall r, t :: OpenFor(s, t, r) ==> Pends(s, t)
  }

  ghost predicate OneOpen(s: State)
  {
    forall p, q, t :: OpenFor(s, t, p) && OpenFor(s, t, q) ==> p == q
  }

  ghost predicate PendingHasOpen(s: State)
  {
    forall t :: Pends(s, t) ==> exists r :: OpenFor(s, t, r)
  }

  ghost predicate Matched(s: State)
  {
    OpenIsPending(s) && OneOpen(s) && PendingHasOpen(s)
  }

  /** The run's task is pending, so a write to it that looks at no status goes astray. */
  predicate OfPending(s: State, run: Id)
  {
    run in s.runs && Pends(s, s.runs[run].task)
  }

  /** The step writes another status to a pending task past its request. */
  ghost predicate Disrupts(s: State, op: Op)
  {
    match op
    case StartRun(a, n) => StartAdmits(s, a, n) && n.claim.None? && Pends(s, n.task)
    case AbortStart(run, cut, _) => AbortAdmits(s, run, cut) && !cut.Leave? && OfPending(s, run)
    case RejectApproval(run) => OfPending(s, run)
    case _ => false
  }

  // ------------------------------------------------------------ steps that keep it

  lemma FrameKeepsMatched(a: State, b: State)
    requires Matched(a) && Frame(a, b)
    ensures Matched(b)
  {
    hide RunFrame;
    forall r, t | OpenFor(b, t, r) ensures OpenFor(a, t, r) && Pends(b, t) {
      assert RequestFrame(a.requests[r], b.requests[r]);
      assert OpenFor(a, t, r) && TaskFrame(a.tasks[t], b.tasks[t]);
    }
    forall t | Pends(b, t) ensures exists r :: OpenFor(b, t, r) {
      assert TaskFrame(a.tasks[t], b.tasks[t]) && Pends(a, t);
      var r :| OpenFor(a, t, r);
      assert RequestFrame(a.requests[r], b.requests[r]);
      assert OpenFor(b, t, r);
    }
  }

  lemma CreateKeepsMatched(s: State, a: Actor, n: NewContinuation, id: Id)
    requires Matched(s)
    ensures Matched(DoCreate(s, a, n, id).0)
  {
    hide DoCreate, HasLiveRun;
    if DoCreate(s, a, n, id).1 == Inserted(id) {
      CreateEffect(s, a, n, id);
      var b := DoCreate(s, a, n, id).0;
      assert OpenFor(b, n.task, id) && !Pends(s, n.task);
      forall r, t | OpenFor(b, t, r) ensures Pends(b, t) && (r != id ==> OpenFor(s, t, r)) {
        assert r != id ==> OpenFor(s, t, r);
      }
      forall t | Pends(b, t) ensures exists r :: OpenFor(b, t, r) {
        if t != n.task {
          assert Pends(s, t);
          var r :| OpenFor(s, t, r);
          assert OpenFor(b, t, r);
        }
      }
    } else {
      CreateRefused(s, a, n, id);
    }
  }

  lemma CloseKeepsMatched(s: State, b: State, id: Id)
    requires Matched(s) && Closes(s, b, id)
    ensures Matched(b)
  {
    var t := s.requests[id].task;
    assert OpenFor(s, t, id);
    forall r, u | OpenFor(b, u, r) ensures OpenFor(s, u, r) && Pends(b, u) {
      assert r != id && OpenFor(s, u, r);
    }
    forall u | Pends(b, u) ensures exists r :: OpenFor(b, u, r) {
      assert Pends(s, u);
      var r :| OpenFor(s, u, r);
      assert OpenFor(b, u, r);
    }
  }

  lemma CancelKeepsMatched(s: State, a: Actor, id: Id)
    requires Inv(s) && Matched(s)
    ensures Matched(DoCancel(s, a, id).0)
  {
    hide Matched;
    var (b, answer) := DoCancel(s, a, id);
    if answer == Done {
      assert RowOk(s.requests[id]) && FitsTask(s, s.requests[id]);
      CloseKeepsMatched(s, b, id);
    }
  }

  lemma RejectKeepsMatched(s: State, id: Id, w: string, k: Token)
    requires Inv(s) && Matched(s)
    ensures Matched(DoReject(s, id, w, k).0)
  {
    hide Matched;
    var (b, answer) := DoReject(s, id, w, k);
    if answer == Done {
      assert RowOk(s.requests[id]) && FitsTask(s, s.requests[id]);
      CloseKeepsMatched(s, b, id);
    }
  }

  lemma DispatchKeepsMatched(s: State, id: Id, w: string, k: Token, child: Id, v: int)
    requires Inv(s) && Matched(s)
    ensures Matched(DoDispatch(s, id, w, k, child, v).0)
  {
    hide Inv, Matched, DoDispatch, Closes;
    if DoDispatch(s, id, w, k, child, v).1 == Done {
      DispatchCloses(s, id, w, k, child, v);
      CloseKeepsMatched(s, DoDispatch(s, id, w, k, child, v).0, id);
    } else {
      DispatchRefused(s, id, w, k, child, v);
    }
  }

  lemma FinishKeepsMatched(s: State, run: Id, e: Ending)
    requires Inv(s) && Matched(s)
    ensures Matched(DoFinish(s, run, e).0)
  {
    hide Inv, Matched, DoFinish, Finishes, Frame;
    if DoFinish(s, run, e).1 == Done {
      FinishEffect(s, run, e);
      InvParts(s);
      FinishFrame(s, DoFinish(s, run, e).0, run, e);
      FrameKeepsMatched(s, DoFinish(s, run, e).0);
    } else {
      FinishRefused(s, run, e);
    }
  }

  // --------------------------------------------------- writes that look at no status

  /** A status that is not pending is written to task `t`; the requests stay. */
  lemma WriteMatchedIff(s: State, b: State, t: Id)
    requires Matched(s) && b.requests == s.requests && t in s.tasks && t in b.tasks
    requires b.tasks == s.tasks[t := b.tasks[t]] && !Pends(b, t)
    ensures Matched(b) <==> !Pends(s, t)
  {
    assert forall u, r :: OpenFor(b, u, r) <==> OpenFor(s, u, r);
    if Pends(s, t) {
      var r :| OpenFor(s, t, r);
      assert OpenFor(b, t, r);
    } else {
      assert forall u :: Pends(b, u) <==> Pends(s, u);
    }
  }

  lemma StartMatchedIff(s: State, a: Actor, n: NewRun)
    requires Matched(s)
    ensures Matched(DoStart(s, a, n).0) <==> !Disrupts(s, StartRun(a, n))
  {
    hide Matched, StartAdmits;
    if DoStart(s, a, n).1 == Done {
      StartEffect(s, a, n);
      WriteMatchedIff(s, DoStart(s, a, n).0, n.task);
    }
  }

  lemma CutMatchedIff(s: State, run: Id, cut: Cut, h: Option<nat>)
    requires Matched(s) && Cuts(cut)
    ensures Matched(DoCut(s, run, cut, h).0) <==> cut.Leave? || !OfPending(s, run)
  {
    var b := DoCut(s, run, cut, h).0;
    hide Matched;
    if run in s.runs && s.runs[run].task in s.tasks && !cut.Leave? {
      WriteMatchedIff(s, b, s.runs[run].task);
    } else {
      FrameKeepsMatched(s, b);
    }
  }

  // ---------------------------------------------------------------- theorems

  /** A step of any modelled writer keeps requests and pending tasks matched exactly if it does not disrupt. */
  lemma MatchedIff(s: State, op: Op)
    requires Inv(s) && Matched(s)
    ensures Matched(Step(s, op).0) <==> !Disrupts(s, op)
  {
    if Quiet(op) {
      QuietSteps(s, op);
      FrameKeepsMatched(s, Step(s, op).0);
    } else {
      hide Inv, Matched, OfPending, StartAdmits, DoCreate, DoCancel, DoReject, DoDispatch, DoStart, DoFinish, DoCut;
      match op
      case CreateRequest(a, n, id) => CreateKeepsMatched(s, a, n, id);
      case CancelRequest(a, id) => CancelKeepsMatched(s, a, id);
      case RejectRequest(id, w, k) => RejectKeepsMatched(s, id, w, k);
      case DispatchRequest(id, w, k, c, v) => DispatchKeepsMatched(s, id, w, k, c, v);
      case StartRun(a, n) => StartMatchedIff(s, a, n);
      case AbortStart(r, c, h) =>
        if AbortAdmits(s, r, c) {
          CutMatchedIff(s, r, c, h);
        }
      case FinishRun(r, e) => FinishKeepsMatched(s, r, e);
      case RejectApproval(r) => CutMatchedIff(s, r, Mark(Failed), None);
    }
  }

  /** No step of the run disrupts. */
  ghost predicate NeverDisrupts(s: State, ops: seq<Op>)
  {
    forall i :: 0 <= i < |ops| ==> !Disrupts(After(s, ops[..i]), ops[i])
  }

  lemma {:induction false} RunKeepsMatched(s: State, ops: seq<Op>)
    requires Inv(s) && Matched(s) && NeverDisrupts(s, ops)
    ensures Matched(After(s, ops))
  {
    hide Inv, Matched, Step, Disrupts;
    if ops != [] {
      var front := ops[..|ops| - 1];
      assert forall i :: 0 <= i < |front| ==> front[..i] == ops[..i];
      RunKeepsMatched(s, front);
      RunKeepsInv(s, front);
      MatchedIff(After(s, front), ops[|ops| - 1]);
    }
  }

  /** Both invariants hold before the first request is made. */
  lemma HoldsAtFirst(s: State)
    requires s.requests == map[]
    requires forall t :: t in s.tasks ==> !Pends(s, t)
    requires forall c :: c in s.runs ==> s.runs[c].request.None? && (s.runs[c].parent.Some? ==>
      s.runs[c].parent.value in s.runs && s.runs[s.runs[c].parent.value].task == s.runs[c].task)
    ensures Inv(s) && Matched(s)
  {
  }

  ghost function OpenRequests(s: State, t: Id): set<Id>
  {
    set r | r in s.requests && OpenFor(s, t, r)
  }

  /** After any run that does not disrupt, a task has one open request if it is pending and none otherwise. */
  lemma PendingIffOneOpen(s: State, ops: seq<Op>, t: Id)
    requires Inv(s) && Matched(s) && NeverDisrupts(s, ops) && t in After(s, ops).tasks
    ensures |OpenRequests(After(s, ops), t)| == if Pends(After(s, ops), t) then 1 else 0
  {
    hide After;
    RunKeepsMatched(s, ops);
    var b := After(s, ops);
    if Pends(b, t) {
      var r: Id :| OpenFor(b, t, r);
      assert OpenRequests(b, t) == {r};
    } else {
      assert OpenRequests(b, t) == {};
    }
  }

  /** While matched, the errors for a task that changed under a cancellation, rejection or dispatch do not occur. */
  lemma TaskNeverChangesUnderneath(s: State, op: Op)
    requires Inv(s) && Matched(s) && (op.CancelRequest? || op.RejectRequest? || op.DispatchRequest?)
    ensures Step(s, op).1 != TaskStateChanged
  {
    if op.id in s.requests {
      var t := s.requests[op.id].task;
      assert OpenFor(s, t, op.id) ==> Pends(s, t);
    }
    hide Matched;
    if op.DispatchRequest? {
      hide OnRequests;
      DispatchNotChanged(s, op.id, op.worker, op.token, op.child, op.revision);
    }
  }

  lemma DispatchNotChanged(s: State, id: Id, w: string, k: Token, child: Id, v: int)
    requires Inv(s) && Matched(s)
    ensures OnRequests(s, DispatchRequest(id, w, k, child, v)).1 != TaskStateChanged
  {
    hide HasLiveRun, NextAttempt;
    if id in s.requests && Open(s.requests[id]) {
      assert OpenFor(s, s.requests[id].task, id);
      OpenHasNoChild(s, id);
    }
  }

  /** A user's start on a pending task strands its request: open on a running task, and not to be cancelled. */
  lemma StartStrandsRequest(s: State, a: Actor, n: NewRun, r: Id, other: Actor)
    requires Matched(s) && Disrupts(s, StartRun(a, n)) && OpenFor(s, n.task, r)
    requires Visible(other, s.requests[r].owner, s.requests[r].department)
    ensures var b := Step(s, StartRun(a, n)).0;
      && !Matched(b) && OpenFor(b, n.task, r) && b.tasks[n.task].status == Running
      && Step(b, CancelRequest(other, r)) == (b, TaskStateChanged)
  {
    StartMatchedIff(s, a, n);
    hide Matched, StartAdmits, StartedRun;
  }

  /** A task pends on request 5, which continues run 1. */
  function Pending7(): State
  {
    var t := Task(ContinuationPending, 2, 0, None, None, 0, 0, 3, None, 0, false, true, Normal, None, 0);
    var x := Protocol.Run(7, RunFailed, Primary, 0, None, Some(1), None, None, None, 1, 1);
    var q := Request(7, 1, "t", "e", "d", "i", "k", 1, Failed, 0, None, Pending, 1, None, 0, None, None);
    State(0, map[7 := t], map[5 := q], map[1 := x], map[], {}, {}, map[], {})
  }

  lemma Pending7Holds()
    ensures Inv(Pending7()) && Matched(Pending7()) && OpenFor(Pending7(), 7, 5)
  {
    var s := Pending7();
    assert OpenFor(s, 7, 5) && Pends(s, 7);
  }

  lemma Pending7Starts()
    ensures StartAdmits(Pending7(), Actor(All, 0, None, {}), NewRun(2, 7, 2, None, 60, None))
  {
    var s := Pending7();
    assert 1 in TaskRuns(s, 7);
    assert s.runs[1].attempt in (set r | r in TaskRuns(s, 7) :: s.runs[r].attempt);
    assert forall r :: r in TaskRuns(s, 7) ==> r == 1;
  }

  /** Such a state: a user starts a run on the pending task, and the cancellation finds the task changed. */
  lemma StartDisruptsPending()
    ensures var s, a := Pending7(), Actor(All, 0, None, {});
      var b := Step(s, StartRun(a, NewRun(2, 7, 2, None, 60, None))).0;
      Inv(s) && Matched(s) && !Matched(b) && Step(b, CancelRequest(a, 5)).1 == TaskStateChanged
  {
    hide Inv, Matched, StartAdmits, Step;
    Pending7Holds();
    Pending7Starts();
    var a := Actor(All, 0, None, {});
    assert Pends(Pending7(), 7);
    StartStrandsRequest(Pending7(), a, NewRun(2, 7, 2, None, 60, None), 5, a);
  }
}
