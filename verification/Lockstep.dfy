/**
  A run waits for approval exactly while its task does. Every modelled step keeps the two in
  lockstep but two kinds: an API update that moves a task into or out of waiting, and the outcome of
  an ended run written to a task that waits with another. Those always break it.
 */
module Lockstep {
  import opened Types
  import opened Propagation
  import opened Protocol
  import opened RequestInvariants
  import DependencyLedger
  import opened LiveRuns
  import opened Interruptions

  ghost predicate Waits(s: State, r: Id, t: Id)
  {
    r in s.runs && s.runs[r].task == t && s.runs[r].status == OnHold
  }

  predicate Awaits(s: State, t: Id)
  {
    t in s.tasks && s.tasks[t].status == AwaitingApproval
  }

  ghost predicate RunsWithTasks(s: State)
  {
    forall r, t :: Waits(s, r, t) ==> Awaits(s, t)
  }

  ghost predicate TasksWithRuns(s: State)
  {
    forall t :: Awaits(s, t) ==> exists r :: Waits(s, r, t)
  }

  ghost predicate InStep(s: State)
  {
    RunsWithTasks(s) && TasksWithRuns(s) && OneLive(s)
  }

  /** The step writes past a waiting run: through the API, or on behalf of an earlier run of the task. */
  predicate Crosses(s: State, op: Op)
  {
    match op
    case UpdateTask(t, inScope, to, _, inputsChanged) =>
      && UpdateAdmits(s, t, inScope, to, inputsChanged)
      && to.Some? && (to.value == AwaitingApproval) != Awaits(s, t)
    case RejectApproval(run) => run in s.runs && Ended(s.runs[run].status) && Awaits(s, s.runs[run].task)
    case AbortStart(run, cut, _) =>
      && AbortAdmits(s, run, cut) && !cut.Leave?
      && Ended(s.runs[run].status) && Awaits(s, s.runs[run].task)
    case _ => false
  }

  // ---------------------------------------------------------- calm steps

  ghost predicate SameWaiting(a: State, b: State)
  {
    a.tasks.Keys == b.tasks.Keys && forall t :: t in a.tasks ==> (Awaits(a, t) <==> Awaits(b, t))
  }

  ghost predicate Calm(a: State, b: State)
  {
    && SameWaiting(a, b) && a.runs.Keys == b.runs.Keys
    && (forall r :: r in a.runs ==>
          && b.runs[r].task == a.runs[r].task
          && (b.runs[r].status == OnHold <==> a.runs[r].status == OnHold)
          && (Live(b.runs[r].status) ==> Live(a.runs[r].status)))
  }

  lemma CalmKeeps(a: State, b: State)
    requires InStep(a) && Calm(a, b)
    ensures InStep(b)
  {
    forall r, t | Waits(b, r, t) ensures Awaits(b, t) {
      assert Waits(a, r, t);
    }
    forall t | Awaits(b, t) ensures exists r :: Waits(b, r, t) {
      var r :| Waits(a, r, t);
      assert Waits(b, r, t);
    }
    forall p, q, t | LiveFor(b, p, t) && LiveFor(b, q, t) ensures p == q {
      assert LiveFor(a, p, t) && LiveFor(a, q, t);
    }
  }

  lemma NextKeepsWaiting(cfg: Config, sts: Statuses, t: Id, current: Status)
    requires Total(cfg, sts)
    ensures Next(cfg, sts, t, current) == AwaitingApproval <==> current == AwaitingApproval
  {
    hide Asked;
  }

  lemma PropagateCalm(s: State)
    ensures Calm(s, OnScheduler(s, PropagateDependencies).0)
  {
    hide Next;
    if Total(Cfg(s), StatusesOf(s)) {
      forall t | t in s.tasks
        ensures Awaits(s, t) <==> Next(Cfg(s), StatusesOf(s), t, s.tasks[t].status) == AwaitingApproval
      {
        NextKeepsWaiting(Cfg(s), StatusesOf(s), t, s.tasks[t].status);
      }
    }
  }

  lemma RequestClaimsCalm(s: State, op: Op)
    requires op.Tick? || op.Interrupt? || (ForRequests(op) && Quiet(op))
    ensures Calm(s, Step(s, op).0)
  {
  }

  lemma SchedulerCalm(s: State, op: Op)
    requires ForScheduler(op) && !op.PropagateDependencies?
    ensures Calm(s, OnScheduler(s, op).0)
  {
    hide OnScheduler;
    SchedulerTends(s, op);
  }

  lemma ReplaceCalm(s: State, r: DependencyLedger.Replacement)
    ensures Calm(s, Step(s, ReplaceDependencies(r)).0)
  {
    hide DependencyLedger.DoReplace;
  }

  lemma CreateCalm(s: State, a: Actor, n: NewContinuation, id: Id)
    ensures Calm(s, DoCreate(s, a, n, id).0)
  {
    hide DoCreate;
    if DoCreate(s, a, n, id).1 == Inserted(id) {
      CreateEffect(s, a, n, id);
    } else {
      CreateRefused(s, a, n, id);
    }
  }

  lemma RestoreCalm(s: State, id: Id, q: Request)
    requires q.priorStatus != AwaitingApproval
    ensures Calm(s, Restore(s, id, q).0)
  {
  }

  lemma SettleCalm(s: State, op: Op)
    requires Inv(s) && (op.CancelRequest? || op.RejectRequest?)
    ensures Calm(s, OnRequests(s, op).0)
  {
    hide RunsOk, RequestsDistinct, ChildrenOk, Calm, Restore, Visible;
    if op.id in s.requests {
      var q := s.requests[op.id];
      assert RowOk(q);
      RestoreCalm(s, op.id, q.(status := Withdrawn, version := q.version + 1, lease := None));
      RestoreCalm(s, op.id, q.(status := Rejected, version := q.version + 1, lease := None));
    }
    CalmSelf(s);
  }

  lemma CalmSelf(s: State)
    ensures Calm(s, s)
  {
  }

  // ------------------------------------------------- the paired transitions

  lemma WaitingKeeps(s: State, run: Id, task: Id)
    requires InStep(s)
    ensures InStep(DoMarkWaiting(s, run, task).0)
  {
    var b := DoMarkWaiting(s, run, task).0;
    if b != s {
      assert Waits(b, run, task);
      forall r, t | Waits(b, r, t) ensures Awaits(b, t) {
        assert r != run ==> Waits(s, r, t);
      }
      forall t | Awaits(b, t) ensures exists r :: Waits(b, r, t) {
        if t != task {
          assert Awaits(s, t);
          var r :| Waits(s, r, t);
          assert Waits(b, r, t);
        }
      }
      forall p, q, t | LiveFor(b, p, t) && LiveFor(b, q, t) ensures p == q {
        assert LiveFor(s, p, t) && LiveFor(s, q, t);
      }
    }
  }

  /** Both leave waiting together: `mark_resumed` to running, `fail_expired_run` to failed. */
  lemma LeavingKeeps(s: State, run: Id, task: Id, runStatus: RunStatus, t': Task)
    requires InStep(s) && BothWaiting(s, run, task) && runStatus != OnHold && t'.status != AwaitingApproval
    ensures InStep(SetBoth(s, run, runStatus, task, t'))
  {
    var b := SetBoth(s, run, runStatus, task, t');
    assert LiveFor(s, run, task);
    forall r, t | Waits(b, r, t) ensures Awaits(b, t) {
      assert Waits(s, r, t) && LiveFor(s, r, t);
    }
    forall t | Awaits(b, t) ensures exists r :: Waits(b, r, t) {
      assert Awaits(s, t);
      var r :| Waits(s, r, t);
      assert Waits(b, r, t);
    }
    forall p, q, t | LiveFor(b, p, t) && LiveFor(b, q, t) ensures p == q {
      assert LiveFor(s, p, t) && LiveFor(s, q, t);
    }
  }

  lemma DispatchKeeps(s: State, id: Id, w: string, k: Token, child: Id, v: int)
    requires Inv(s) && InStep(s)
    ensures InStep(DoDispatch(s, id, w, k, child, v).0)
  {
    hide Inv, DoDispatch, NextAttempt;
    if DoDispatch(s, id, w, k, child, v).1 == Done {
      DispatchEffect(s, id, w, k, child, v);
      var b := DoDispatch(s, id, w, k, child, v).0;
      forall r, t | Waits(b, r, t) ensures Awaits(b, t) {
        assert Waits(s, r, t);
      }
      forall t | Awaits(b, t) ensures exists r :: Waits(b, r, t) {
        assert Awaits(s, t);
        var r :| Waits(s, r, t);
        assert Waits(b, r, t);
      }
      forall p, q, t | LiveFor(b, p, t) && LiveFor(b, q, t) ensures p == q {
        assert (p != child ==> LiveFor(s, p, t)) && (q != child ==> LiveFor(s, q, t));
      }
    } else {
      DispatchRefused(s, id, w, k, child, v);
    }
  }

  /** A waiting run ends and its task leaves waiting with it. */
  lemma EndingTogether(s: State, b: State, run: Id)
    requires InStep(s) && run in s.runs && s.runs[run].status == OnHold
    requires run in b.runs && b.runs == s.runs[run := b.runs[run]] && RunFrame(s.runs[run], b.runs[run])
    requires Ended(b.runs[run].status)
    requires var t := s.runs[run].task;
      t in s.tasks && t in b.tasks && b.tasks == s.tasks[t := b.tasks[t]] && !Awaits(b, t)
    ensures InStep(b)
  {
    var t := s.runs[run].task;
    assert LiveFor(s, run, t);
    forall r, u | Waits(b, r, u) ensures Awaits(b, u) {
      assert Waits(s, r, u) && LiveFor(s, r, u);
    }
    forall u | Awaits(b, u) ensures exists r :: Waits(b, r, u) {
      assert Awaits(s, u);
      var r :| Waits(s, r, u);
      assert Waits(b, r, u);
    }
    forall p, q, u | LiveFor(b, p, u) && LiveFor(b, q, u) ensures p == q {
      assert LiveFor(s, p, u) && LiveFor(s, q, u);
    }
  }

  /** A live run that does not wait has a task that does not. */
  lemma NotWaiting(s: State, run: Id)
    requires InStep(s) && run in s.runs && Live(s.runs[run].status) && s.runs[run].status != OnHold
    ensures !Awaits(s, s.runs[run].task)
  {
    var t := s.runs[run].task;
    if Awaits(s, t) {
      var r :| Waits(s, r, t);
      assert LiveFor(s, r, t) && LiveFor(s, run, t);
    }
  }

  /** Ending a waiting run moves its task along, unless it ends as interrupted. */
  lemma FinishedKeeps(s: State, b: State, run: Id, e: Ending)
    requires InStep(s) && Finishes(s, b, run, e)
    requires s.runs[run].status == OnHold && Settlement(s, run, e).None? ==> !e.drift
    ensures InStep(b)
  {
    hide InStep, Settlement;
    if s.runs[run].status == OnHold {
      WaitingTask(s, run);
      EndingTogether(s, b, run);
    } else {
      NotWaiting(s, run);
      CalmKeeps(s, b);
    }
  }

  lemma WaitingTask(s: State, run: Id)
    requires InStep(s) && run in s.runs && s.runs[run].status == OnHold
    ensures Awaits(s, s.runs[run].task)
  {
    assert Waits(s, run, s.runs[run].task);
  }

  /** A waiting run does not end as interrupted: on its own it never was, and a child settles its request. */
  lemma WaitingNotDrifted(s: State, run: Id, e: Ending)
    requires Inv(s) && LiveDispatched(s) && Stopped(s) && CanFinish(s, run, e) && s.runs[run].status == OnHold
    requires Settlement(s, run, e).None?
    ensures !e.drift
  {
    hide Inv, LiveDispatched, Settlement;
    if e.drift {
      assert OwnRun(s, run) || LiveChild(s, run);
      if LiveChild(s, run) {
        FinishSettlesOwn(s, run, e);
      }
    }
  }

  lemma FinishKeeps(s: State, run: Id, e: Ending)
    requires Inv(s) && InStep(s) && LiveDispatched(s) && Stopped(s)
    ensures InStep(DoFinish(s, run, e).0)
  {
    hide DoFinish, InStep, Inv, Settlement, LiveDispatched, Stopped, ConcludeTask;
    if DoFinish(s, run, e).1 == Done {
      FinishEffect(s, run, e);
      if s.runs[run].status == OnHold && Settlement(s, run, e).None? {
        WaitingNotDrifted(s, run, e);
      }
      FinishedKeeps(s, DoFinish(s, run, e).0, run, e);
    } else {
      FinishRefused(s, run, e);
    }
  }

  lemma StartKeeps(s: State, a: Actor, n: NewRun)
    requires InStep(s)
    ensures InStep(DoStart(s, a, n).0)
  {
    hide DoStart;
    if DoStart(s, a, n).1 == Done {
      StartEffect(s, a, n);
      var b := DoStart(s, a, n).0;
      forall r, t | Waits(b, r, t) ensures Awaits(b, t) {
        assert Waits(s, r, t) && LiveFor(s, r, t);
      }
      forall t | Awaits(b, t) ensures exists r :: Waits(b, r, t) {
        assert Awaits(s, t);
        var r :| Waits(s, r, t);
        assert Waits(b, r, t);
      }
      forall p, q, t | LiveFor(b, p, t) && LiveFor(b, q, t) ensures p == q {
        assert (p != n.id ==> LiveFor(s, p, t)) && (q != n.id ==> LiveFor(s, q, t));
      }
    } else {
      StartRefused(s, a, n);
    }
  }

  /** An outcome is written to a task that waits with another run: the run is left waiting alone. */
  lemma OverwritingBreaks(s: State, b: State, t: Id)
    requires InStep(s) && Awaits(s, t) && b.runs == s.runs && !Awaits(b, t)
    ensures !InStep(b)
  {
    var r :| Waits(s, r, t);
    assert Waits(b, r, t);
  }

  /** Cutting a run short crosses exactly if the run has ended, its task waits, and the task is written to. */
  lemma CutInStepIff(s: State, run: Id, cut: Cut, h: Option<nat>)
    requires InStep(s) && Cuts(cut) && run in s.runs
    requires s.runs[run].status == OnHold ==> !cut.Leave?
    ensures InStep(DoCut(s, run, cut, h).0)
       <==> !(!cut.Leave? && Ended(s.runs[run].status) && Awaits(s, s.runs[run].task))
  {
    hide InStep;
    var b, t := DoCut(s, run, cut, h).0, s.runs[run].task;
    if s.runs[run].status == OnHold {
      WaitingTask(s, run);
      EndingTogether(s, b, run);
    } else if !cut.Leave? && Ended(s.runs[run].status) && Awaits(s, t) {
      assert b.runs == s.runs;
      OverwritingBreaks(s, b, t);
    } else {
      if !Ended(s.runs[run].status) {
        NotWaiting(s, run);
      }
      CalmKeeps(s, b);
    }
  }

  /** A waiting child of a request cannot be ended for good: the task is not where the completion needs it. */
  lemma WaitingChildHolds(s: State, run: Id, e: Ending)
    requires Inv(s) && InStep(s) && LiveDispatched(s) && LiveChild(s, run) && s.runs[run].status == OnHold
    requires CanFinish(s, run, e) && e.retryAt.None?
    ensures Step(s, FinishRun(run, e)).0 == s && Step(s, FinishRun(run, e)).1 != Done
  {
    hide InStep, Inv, LiveDispatched, DoFinish, Settlement, ConcludeTask;
    FinishSettlesOwn(s, run, e);
    WaitingTask(s, run);
    if DoFinish(s, run, e).1 == Done {
      FinishEffect(s, run, e);
    } else {
      FinishRefused(s, run, e);
    }
  }

  /** Task 7 waits with run 9, after run 8 has failed. */
  function Waiting9(): State
  {
    var t := Task(AwaitingApproval, 1, 0, None, None, 0, 0, 3, None, 0, false, true, Normal, None, 0);
    var x := Protocol.Run(7, RunFailed, Primary, 0, None, None, None, None, None, 1, 1);
    var y := Protocol.Run(7, OnHold, Primary, 0, None, None, None, None, None, 1, 2);
    State(0, map[7 := t], map[], map[8 := x, 9 := y], map[], {}, {}, map[], {})
  }

  lemma Waiting9Holds()
    ensures Inv(Waiting9()) && InStep(Waiting9()) && Waits(Waiting9(), 9, 7) && Awaits(Waiting9(), 7)
  {
    var s := Waiting9();
    assert Waits(s, 9, 7) && Awaits(s, 7);
    assert forall x, y :: Waits(s, x, y) ==> x == 9 && y == 7;
  }

  /** The API can fail a waiting task and leave its run waiting. */
  lemma UpdateSeparates()
    ensures var s, op := Waiting9(), UpdateTask(7, true, Some(Failed), None, false);
      Inv(s) && InStep(s) && Waits(Step(s, op).0, 9, 7) && !Awaits(Step(s, op).0, 7)
  {
    Waiting9Holds();
    hide Inv, InStep;
  }

  /** So can the rejection of the approval that an earlier run left behind. */
  lemma RejectionSeparates()
    ensures var s, op := Waiting9(), RejectApproval(8);
      Inv(s) && InStep(s) && Waits(Step(s, op).0, 9, 7) && !Awaits(Step(s, op).0, 7)
  {
    Waiting9Holds();
    hide Inv, InStep;
  }

  lemma UpdateInStepIff(s: State, t: Id, v: bool, to: Option<Status>, l: Option<int>, c: bool)
    requires InStep(s)
    ensures InStep(DoUpdateTask(s, t, v, to, l, c).0) <==> !Crosses(s, UpdateTask(t, v, to, l, c))
  {
    var b := DoUpdateTask(s, t, v, to, l, c).0;
    if !Crosses(s, UpdateTask(t, v, to, l, c)) {
      CalmKeeps(s, b);
    } else if Awaits(s, t) {
      var r :| Waits(s, r, t);
      assert Waits(b, r, t) && !Awaits(b, t);
    } else {
      assert Awaits(b, t);
      forall r ensures !Waits(b, r, t) {
        assert Waits(b, r, t) ==> Waits(s, r, t);
      }
    }
  }

  // ---------------------------------------------------------------- theorems

  /** What lockstep rests on: live children have dispatched requests, and interrupted runs do not wait. */
  ghost predicate Sound(s: State)
  {
    Inv(s) && LiveDispatched(s) && Stopped(s)
  }

  /** A modelled step keeps runs and tasks in lockstep exactly when it is not one of the crossings. */
  lemma InStepIff(s: State, op: Op)
    requires Sound(s) && InStep(s)
    ensures InStep(Step(s, op).0) <==> !Crosses(s, op)
  {
    hide Inv, LiveDispatched, Stopped, InStep, DoDispatch, DoStart, DoFinish, DoCut;
    hide DoUpdateTask, UpdateAdmits, DoMarkWaiting, OnScheduler;
    match op
    case DispatchRequest(id, w, k, child, v) => DispatchKeeps(s, id, w, k, child, v);
    case StartRun(a, n) => StartKeeps(s, a, n);
    case FinishRun(r, e) => FinishKeeps(s, r, e);
    case AbortStart(r, cut, h) =>
      if AbortAdmits(s, r, cut) {
        CutInStepIff(s, r, cut, h);
      }
    case UpdateTask(t, v, to, l, c) => UpdateInStepIff(s, t, v, to, l, c);
    case MarkWaiting(r, t) => WaitingKeeps(s, r, t);
    case MarkResumed(r, t) =>
      if BothWaiting(s, r, t) {
        LeavingKeeps(s, r, t, Active, s.tasks[t].(status := Running));
      }
    case FailExpiredRun(r, t) =>
      if BothWaiting(s, r, t) {
        LeavingKeeps(s, r, t, RunFailed, s.tasks[t].(status := Failed, claim := None, retryAt := None));
      }
    case RejectApproval(r) => RejectionInStepIff(s, r);
    case _ =>
      CalmStep(s, op);
      CalmKeeps(s, Step(s, op).0);
  }

  lemma RejectionInStepIff(s: State, run: Id)
    requires InStep(s)
    ensures InStep(DoRejectApproval(s, run).0) <==> !Crosses(s, RejectApproval(run))
  {
    hide InStep;
    if run in s.runs {
      CutInStepIff(s, run, Mark(Failed), None);
    }
  }

  predicate CalmOp(op: Op)
  {
    && !op.DispatchRequest? && !op.StartRun? && !op.AbortStart? && !op.FinishRun? && !op.UpdateTask?
    && !ForApprovals(op)
  }

  lemma CalmStep(s: State, op: Op)
    requires Inv(s) && CalmOp(op)
    ensures Calm(s, Step(s, op).0)
  {
    hide Inv, Calm, OnScheduler, DoCreate, DoReplaceDependencies;
    if op.PropagateDependencies? {
      PropagateCalm(s);
    } else if op.ReplaceDependencies? {
      ReplaceCalm(s, op.r);
    } else if op.CreateRequest? {
      CreateCalm(s, op.actor, op.input, op.id);
    } else if op.CancelRequest? || op.RejectRequest? {
      SettleCalm(s, op);
    } else if ForScheduler(op) {
      SchedulerCalm(s, op);
    } else {
      RequestClaimsCalm(s, op);
    }
  }

  /** No step of the run crosses. */
  ghost predicate NeverCrosses(s: State, ops: seq<Op>)
  {
    forall i :: 0 <= i < |ops| ==> !Crosses(After(s, ops[..i]), ops[i])
  }

  lemma {:induction false} RunsStayInStep(s: State, ops: seq<Op>)
    requires Sound(s) && OneLive(s) && ArchivedOut(s) && InStep(s) && NeverCrosses(s, ops)
    ensures InStep(After(s, ops))
  {
    hide Inv, InStep, Step, Crosses, LiveDispatched, Stopped, ArchivedOut;
    if ops != [] {
      var front := ops[..|ops| - 1];
      assert forall i :: 0 <= i < |front| ==> front[..i] == ops[..i];
      RunsStayInStep(s, front);
      RunKeepsInv(s, front);
      RunKeepsLiveDispatched(s, front);
      RunKeepsStopped(s, front);
      InStepIff(After(s, front), ops[|ops| - 1]);
    }
  }
}
