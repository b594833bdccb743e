/**
  The reconciler interrupts runs whose task is over, and a run that ends for that reason writes
  nothing to its task. Such a run, unless a request asked for it, never waits for approval: while it
  lives its task is not in hand, and no modelled writer brings it back. A request may be dispatched
  on an archived task, so its child can be interrupted and wait all the same.
 */
module Interruptions {
  import opened Types
  import opened Propagation
  import opened Protocol
  import DependencyLedger
  import opened RequestInvariants
  import opened LiveRuns
  import opened RevisionWindow
  import opened Scheduling

  /** A live run that no request asked for. */
  ghost predicate OwnRun(s: State, r: Id)
  {
    r in s.runs && s.runs[r].request.None? && Live(s.runs[r].status)
  }

  predicate TaskOut(s: State, r: Id)
    requires r in s.runs
  {
    s.runs[r].task in s.tasks && !InHand(s.tasks[s.runs[r].task].status)
  }

  /** An interrupted run does not wait, and its task is not in hand. */
  ghost predicate Stopped(s: State)
  {
    forall r :: r in s.interrupted ==>
      r in s.runs && (OwnRun(s, r) ==> s.runs[r].status != OnHold && TaskOut(s, r))
  }

  predicate TaskArchived(s: State, r: Id)
    requires r in s.runs
  {
    s.runs[r].task in s.tasks && s.tasks[s.runs[r].task].archived
  }

  /** A task that is archived under a live run is not in hand. */
  ghost predicate ArchivedOut(s: State)
  {
    forall r :: OwnRun(s, r) && TaskArchived(s, r) ==> TaskOut(s, r)
  }

  // --------------------------------------------------------- single rows of a step

  /** Only a run whose task is running starts to wait. */
  lemma WaitsFromRunning(s: State, op: Op, r: Id)
    requires Inv(s) && r in s.runs && s.runs[r].status != OnHold
    requires r in Step(s, op).0.runs && Step(s, op).0.runs[r].status == OnHold
    ensures op.MarkWaiting? && s.runs[r].task in s.tasks && InHand(s.tasks[s.runs[r].task].status)
  {
    hide Inv, OnRequests, OnRuns, OnScheduler, DependencyLedger.DoReplace;
    if ForRequests(op) {
      RequestsStartNoWait(s, op, r);
    } else if ForRuns(op) {
      RunsStartNoWait(s, op, r);
    } else if ForScheduler(op) {
      SchedulerKeepsRuns(s, op);
    }
  }

  lemma SchedulerKeepsRuns(s: State, op: Op)
    requires ForScheduler(op)
    ensures OnScheduler(s, op).0.runs == s.runs
  {
    hide DoClaimTasks, DoReconcileScheduler, TendsTask;
    if !op.PropagateDependencies? {
      SchedulerTends(s, op);
    }
  }

  lemma RequestsStartNoWait(s: State, op: Op, r: Id)
    requires Inv(s) && ForRequests(op) && r in s.runs && r in Step(s, op).0.runs
    ensures Step(s, op).0.runs[r] == s.runs[r]
  {
    hide Inv, DoCreate, DoDispatch, NextAttempt, HasLiveRun, BumpTo;
    if op.CreateRequest? {
      if DoCreate(s, op.actor, op.input, op.id).1 == Inserted(op.id) {
        CreateEffect(s, op.actor, op.input, op.id);
      } else {
        CreateRefused(s, op.actor, op.input, op.id);
      }
    } else if op.DispatchRequest? {
      if DoDispatch(s, op.id, op.worker, op.token, op.child, op.revision).1 == Done {
        DispatchEffect(s, op.id, op.worker, op.token, op.child, op.revision);
      } else {
        DispatchRefused(s, op.id, op.worker, op.token, op.child, op.revision);
      }
    }
  }

  lemma RunsStartNoWait(s: State, op: Op, r: Id)
    requires Inv(s) && ForRuns(op) && r in s.runs && r in Step(s, op).0.runs
    ensures Step(s, op).0.runs[r].status == OnHold ==> s.runs[r].status == OnHold
  {
    hide Inv, DoStart, DoFinish, Settlement, ConcludeTask, CutTask, HasLiveRun;
    match op
    case StartRun(a, n) =>
      if DoStart(s, a, n).1 == Done {
        StartEffect(s, a, n);
      } else {
        StartRefused(s, a, n);
      }
    case AbortStart(x, c, h) =>
    case FinishRun(x, e) =>
      if DoFinish(s, x, e).1 == Done {
        FinishEffect(s, x, e);
      } else {
        FinishRefused(s, x, e);
      }
    case Interrupt(x) =>
  }

  /** A task is archived by the API alone, which gives it that status. */
  ghost predicate ArchivesOnlyAs(s: State, b: State)
  {
    forall t :: t in s.tasks && t in b.tasks && b.tasks[t].archived
      ==> s.tasks[t].archived || b.tasks[t].status == Archived
  }

  lemma RequestsArchive(s: State, op: Op)
    requires Inv(s) && ForRequests(op)
    ensures ArchivesOnlyAs(s, Step(s, op).0)
  {
    hide Inv, DoCreate, DoDispatch, NextAttempt, HasLiveRun;
    if op.CreateRequest? {
      if DoCreate(s, op.actor, op.input, op.id).1 == Inserted(op.id) {
        CreateEffect(s, op.actor, op.input, op.id);
      } else {
        CreateRefused(s, op.actor, op.input, op.id);
      }
    } else if op.DispatchRequest? {
      if DoDispatch(s, op.id, op.worker, op.token, op.child, op.revision).1 == Done {
        DispatchEffect(s, op.id, op.worker, op.token, op.child, op.revision);
      } else {
        DispatchRefused(s, op.id, op.worker, op.token, op.child, op.revision);
      }
    }
  }

  lemma RunsArchive(s: State, op: Op)
    requires Inv(s) && ForRuns(op)
    ensures ArchivesOnlyAs(s, Step(s, op).0)
  {
    hide Inv, DoStart, DoFinish, Settlement, HasLiveRun;
    match op
    case StartRun(a, n) =>
      if DoStart(s, a, n).1 == Done {
        StartEffect(s, a, n);
      } else {
        StartRefused(s, a, n);
      }
    case AbortStart(x, c, h) =>
    case FinishRun(x, e) =>
      if DoFinish(s, x, e).1 == Done {
        FinishEffect(s, x, e);
      } else {
        FinishRefused(s, x, e);
      }
    case Interrupt(x) =>
  }

  lemma OthersArchive(s: State, op: Op)
    requires !ForRequests(op) && !ForRuns(op)
    ensures ArchivesOnlyAs(s, Step(s, op).0)
  {
    hide OnRequests, OnRuns, OnScheduler, DependencyLedger.DoReplace;
    if ForScheduler(op) {
      SchedulerArchives(s, op);
    }
  }

  lemma SchedulerArchives(s: State, op: Op)
    requires ForScheduler(op)
    ensures ArchivesOnlyAs(s, OnScheduler(s, op).0)
  {
    hide DoClaimTasks, DoReconcileScheduler, Next;
    if !op.PropagateDependencies? {
      SchedulerTends(s, op);
    }
  }

  lemma StepArchives(s: State, op: Op)
    requires Inv(s)
    ensures ArchivesOnlyAs(s, Step(s, op).0)
  {
    hide Step, Inv, ArchivesOnlyAs;
    if ForRequests(op) {
      RequestsArchive(s, op);
    } else if ForRuns(op) {
      RunsArchive(s, op);
    } else {
      OthersArchive(s, op);
    }
  }

  /** A run without a request appears by a start, on a task that is not archived. */
  lemma NewOwnRun(s: State, op: Op, r: Id)
    requires Inv(s) && r !in s.runs && OwnRun(Step(s, op).0, r)
    ensures !TaskArchived(Step(s, op).0, r)
  {
    if op.StartRun? {
      hide HasLiveRun, NextAttempt, TaskRuns, Unblocked;
    } else {
      AddsNoOwnRun(s, op, r);
    }
  }

  lemma AddsNoOwnRun(s: State, op: Op, r: Id)
    requires Inv(s) && !op.StartRun? && r !in s.runs && r in Step(s, op).0.runs
    ensures Step(s, op).0.runs[r].request.Some?
  {
    hide Inv, DoCreate, DoDispatch, DoFinish, CutTask, BumpTo, Settlement, ConcludeTask, NextAttempt, CanSpawn;
    hide OnScheduler, OnTasks;
    if Quiet(op) {
      QuietSteps(s, op);
    } else {
      match op
      case CreateRequest(a, n, id) =>
        if DoCreate(s, a, n, id).1 == Inserted(id) {
          CreateEffect(s, a, n, id);
        } else {
          CreateRefused(s, a, n, id);
        }
      case CancelRequest(a, id) =>
      case RejectRequest(id, w, k) =>
      case DispatchRequest(id, w, k, c, v) =>
        if DoDispatch(s, id, w, k, c, v).1 == Done {
          DispatchEffect(s, id, w, k, c, v);
        } else {
          DispatchRefused(s, id, w, k, c, v);
        }
      case AbortStart(x, cut, h) =>
      case FinishRun(x, e) =>
        if DoFinish(s, x, e).1 == Done {
          FinishEffect(s, x, e);
        } else {
          FinishRefused(s, x, e);
        }
      case RejectApproval(x) =>
    }
  }

  /** Runs are marked by the reconciler alone, while they are at work and their task is over. */
  lemma NewlyInterrupted(s: State, op: Op, r: Id)
    requires Inv(s) && r in Step(s, op).0.interrupted && r !in s.interrupted
    ensures op == Interrupt(r) && Step(s, op).0 == s.(interrupted := s.interrupted + {r})
    ensures r in s.runs && s.runs[r].status != OnHold && s.runs[r].task in s.tasks && Over(s.tasks[s.runs[r].task])
  {
    if op.FinishRun? {
      hide DoFinish, Inv, Settlement, ConcludeTask;
      if DoFinish(s, op.run, op.ending).1 == Done {
        FinishEffect(s, op.run, op.ending);
      } else {
        FinishRefused(s, op.run, op.ending);
      }
    } else if !op.Interrupt? {
      OthersInterruptNone(s, op);
    }
  }

  lemma OthersInterruptNone(s: State, op: Op)
    requires !op.FinishRun? && !op.Interrupt?
    ensures Step(s, op).0.interrupted == s.interrupted
  {
    hide Earlier, HasLiveRun, Clashes, CanSpawn, NextAttempt, ChildrenOf, Next, Eligible, StartAdmits, StartedRun,
         CutTask, DependencyLedger.DoReplace;
  }

  // ---------------------------------------------------------------- theorems

  lemma OwnRunBefore(s: State, op: Op, r: Id)
    requires Inv(s) && r in s.runs && OwnRun(Step(s, op).0, r)
    ensures OwnRun(s, r) && s.runs[r].task == Step(s, op).0.runs[r].task
  {
    hide Step, Inv;
    StepMovesRuns(s, op);
  }

  /** A live run whose task is out of hand keeps it out of hand. */
  lemma OutStaysOut(s: State, op: Op, r: Id)
    requires Inv(s) && OneLive(s) && r in s.runs && OwnRun(Step(s, op).0, r) && TaskOut(s, r)
    ensures TaskOut(Step(s, op).0, r)
  {
    hide Step, Inv, OneLive;
    OwnRunBefore(s, op, r);
    StepGuardsTask(s, op, r);
  }

  lemma InterruptedStays(s: State, op: Op, r: Id)
    requires Inv(s) && OneLive(s) && Stopped(s) && r in s.interrupted && OwnRun(Step(s, op).0, r)
    ensures Step(s, op).0.runs[r].status != OnHold && TaskOut(Step(s, op).0, r)
  {
    hide Step, Inv, OneLive;
    OwnRunBefore(s, op, r);
    OutStaysOut(s, op, r);
    if Step(s, op).0.runs[r].status == OnHold {
      WaitsFromRunning(s, op, r);
    }
  }

  lemma StepKeepsStopped(s: State, op: Op)
    requires Inv(s) && OneLive(s) && Stopped(s) && ArchivedOut(s)
    ensures Stopped(Step(s, op).0)
  {
    hide Step, Inv, OneLive;
    var b := Step(s, op).0;
    forall r | r in b.interrupted
      ensures r in b.runs && (OwnRun(b, r) ==> b.runs[r].status != OnHold && TaskOut(b, r))
    {
      if r !in s.interrupted {
        NewlyInterrupted(s, op, r);
        assert OwnRun(b, r) ==> OwnRun(s, r);
      } else {
        StepMovesRuns(s, op);
        if OwnRun(b, r) {
          InterruptedStays(s, op, r);
        }
      }
    }
  }

  lemma StepKeepsArchivedOut(s: State, op: Op)
    requires Inv(s) && OneLive(s) && ArchivedOut(s)
    ensures ArchivedOut(Step(s, op).0)
  {
    hide Step, Inv, OneLive;
    var b := Step(s, op).0;
    forall r | OwnRun(b, r) && TaskArchived(b, r) ensures TaskOut(b, r) {
      if r !in s.runs {
        NewOwnRun(s, op, r);
      } else {
        ArchivedStaysOut(s, op, r);
      }
    }
  }

  lemma ArchivedStaysOut(s: State, op: Op, r: Id)
    requires Inv(s) && OneLive(s) && ArchivedOut(s) && r in s.runs
    requires OwnRun(Step(s, op).0, r) && TaskArchived(Step(s, op).0, r)
    ensures TaskOut(Step(s, op).0, r)
  {
    hide Step, Inv, OneLive;
    OwnRunBefore(s, op, r);
    NoTaskAppears(s, op);
    if TaskArchived(s, r) {
      OutStaysOut(s, op, r);
    } else {
      StepArchives(s, op);
    }
  }

  /** The interrupted runs stop, and archived tasks stay out of hand, over every run. */
  lemma {:induction false} RunKeepsStopped(s: State, ops: seq<Op>)
    requires Inv(s) && OneLive(s) && Stopped(s) && ArchivedOut(s)
    ensures Stopped(After(s, ops)) && ArchivedOut(After(s, ops))
  {
    hide Step, Inv, OneLive, Stopped, ArchivedOut;
    if ops != [] {
      var front, last := ops[..|ops| - 1], ops[|ops| - 1];
      RunKeepsStopped(s, front);
      RunKeepsInv(s, front);
      RunKeepsOneLive(s, front);
      StepKeepsStopped(After(s, front), last);
      StepKeepsArchivedOut(After(s, front), last);
    }
  }

  /** An interrupted run that no request asked for never waits for approval, over every run. */
  lemma InterruptedNeverWaits(s: State, ops: seq<Op>, r: Id)
    requires Inv(s) && OneLive(s) && Stopped(s) && ArchivedOut(s)
    requires var b := After(s, ops); r in b.interrupted && r in b.runs && b.runs[r].request.None?
    ensures After(s, ops).runs[r].status != OnHold
  {
    hide After, Inv, OneLive, ArchivedOut;
    RunKeepsStopped(s, ops);
  }

  /** The exception: a run at work on an archived task, as a dispatched child may be, is interrupted and then waits. */
  lemma ArchivedChildMayWait(s: State, c: Id)
    requires c in s.runs && (s.runs[c].status == Starting || s.runs[c].status == Active) && s.runs[c].task in s.tasks
    requires s.tasks[s.runs[c].task].status == Running && s.tasks[s.runs[c].task].archived
    ensures var b := Step(Step(s, Interrupt(c)).0, MarkWaiting(c, s.runs[c].task)).0;
      c in b.interrupted && c in b.runs && b.runs[c].status == OnHold
  {
    hide OnRequests, OnScheduler, OnTasks;
    assert Step(s, Interrupt(c)).0 == s.(interrupted := s.interrupted + {c});
  }
}
