/**
  The reconciler interrupts a live run whose recorded task revision has drifted. While a run is
  live no modelled writer raises the revision of its task but an API edit of its inputs, which needs
  the task out of hand, and a replacement of its dependencies. That decides exactly when a child drifts.
 */
module RevisionWindow {
  import opened Types
  import opened Propagation
  import opened Protocol
  import opened RequestInvariants
  import DependencyLedger
  import opened LiveRuns

  predicate InHand(s: Status)
  {
    s == Running || s == AwaitingApproval
  }

  /** The API changes inputs of task `t`; it may, because the task is not in work. */
  predicate Edits(s: State, op: Op, t: Id)
  {
    op.UpdateTask? && op.task == t && op.inputsChanged && UpdateAdmits(s, t, op.inScope, op.to, true)
  }

  /** The dependencies of task `t` are replaced. */
  ghost predicate Replaces(s: State, op: Op, t: Id)
  {
    && op.ReplaceDependencies? && op.r.task == t && t in s.tasks
    && DependencyLedger.DoReplace(Dependencies(s), op.r).1 == DependencyLedger.Applied
  }

  ghost predicate Raises(s: State, op: Op, t: Id)
  {
    Edits(s, op, t) || Replaces(s, op, t)
  }

  /** The outcome of an earlier run of task `t` is written to it: its approval is rejected, or its start aborted. */
  predicate Overwrites(s: State, op: Op, t: Id)
  {
    match op
    case RejectApproval(run) => run in s.runs && s.runs[run].task == t && Ended(s.runs[run].status)
    case AbortStart(run, cut, _) =>
      AbortAdmits(s, run, cut) && !cut.Leave? && s.runs[run].task == t && Ended(s.runs[run].status)
    case _ => false
  }

  /** Task `t` is taken out of hand, by the API or by what is left of an earlier run. */
  predicate TakesAway(s: State, op: Op, t: Id)
  {
    || Overwrites(s, op, t)
    || (op.UpdateTask? && op.task == t && UpdateAdmits(s, t, op.inScope, op.to, op.inputsChanged)
        && op.to.Some? && !InHand(op.to.value))
  }

  /** A task that is in hand cannot be edited. */
  lemma EditsOutOfHand(s: State, op: Op, t: Id)
    requires Edits(s, op, t)
    ensures !InHand(s.tasks[t].status)
  {
  }

  // --------------------------------------------------------- the quiet steps

  /** No revision changes, no task gets in hand, and one in hand keeps its status. */
  ghost predicate Leaves(a: State, b: State)
  {
    && a.tasks.Keys == b.tasks.Keys
    && (forall t :: t in a.tasks ==>
          && b.tasks[t].revision == a.tasks[t].revision
          && (InHand(a.tasks[t].status) || InHand(b.tasks[t].status) ==> b.tasks[t].status == a.tasks[t].status))
  }

  lemma NextKeepsInHand(cfg: Config, sts: Statuses, t: Id, current: Status)
    requires Total(cfg, sts)
    ensures InHand(current) || InHand(Next(cfg, sts, t, current)) ==> Next(cfg, sts, t, current) == current
  {
    hide Asked;
  }

  lemma PropagateLeaves(s: State)
    ensures Leaves(s, DoPropagate(s).0)
  {
    hide Next;
    if Total(Cfg(s), StatusesOf(s)) {
      forall t | t in s.tasks
        ensures var next := Next(Cfg(s), StatusesOf(s), t, s.tasks[t].status);
          InHand(s.tasks[t].status) || InHand(next) ==> next == s.tasks[t].status
      {
        NextKeepsInHand(Cfg(s), StatusesOf(s), t, s.tasks[t].status);
      }
    }
  }

  lemma RequestClaimsLeave(s: State, op: Op)
    requires op.Tick? || op.Interrupt? || (ForRequests(op) && Quiet(op))
    ensures Leaves(s, Step(s, op).0)
  {
  }

  lemma TaskClaimsLeave(s: State, op: Op)
    requires ForScheduler(op) && !op.PropagateDependencies?
    ensures Leaves(s, Step(s, op).0)
  {
    hide OnScheduler;
    SchedulerTends(s, op);
  }

  // ------------------------------------------------- what a step does to a task

  /** Task `t` of a live run moves as the named steps say, and not otherwise. */
  ghost predicate Guarded(s: State, op: Op, t: Id, b: State)
    requires t in s.tasks
  {
    && t in b.tasks
    && b.tasks[t].revision == s.tasks[t].revision + (if Raises(s, op, t) then 1 else 0)
    && (InHand(b.tasks[t].status) <==> InHand(s.tasks[t].status) && !TakesAway(s, op, t))
  }

  /** The steps that may raise a revision or take a task away. */
  predicate Watched(op: Op)
  {
    op.UpdateTask? || op.ReplaceDependencies? || op.RejectApproval? || op.AbortStart?
  }

  lemma LeavesGuards(s: State, op: Op, t: Id, b: State)
    requires t in s.tasks && Leaves(s, b) && !Watched(op)
    ensures Guarded(s, op, t, b)
  {
    hide DependencyLedger.DoReplace;
  }

  /** A step on another task. */
  lemma ElsewhereGuards(s: State, op: Op, t: Id, b: State)
    requires t in s.tasks && t in b.tasks && b.tasks[t] == s.tasks[t] && !Watched(op)
    ensures Guarded(s, op, t, b)
  {
  }

  lemma UpdateGuards(s: State, op: Op, t: Id)
    requires t in s.tasks && op.UpdateTask?
    ensures Guarded(s, op, t, Step(s, op).0)
  {
    hide DoReplaceDependencies;
  }

  lemma ReplaceGuards(s: State, op: Op, t: Id)
    requires t in s.tasks && op.ReplaceDependencies?
    ensures Guarded(s, op, t, Step(s, op).0)
  {
    hide DependencyLedger.DoReplace, DoUpdateTask;
  }

  /** Cutting another run short writes to its task, which is that of `r` only if the other run has ended. */
  lemma CutGuards(s: State, op: Op, r: Id)
    requires OneLive(s) && r in s.runs && Live(s.runs[r].status) && s.runs[r].task in s.tasks
    requires op.RejectApproval? || op.AbortStart?
    requires r in Step(s, op).0.runs && Live(Step(s, op).0.runs[r].status)
    ensures Guarded(s, op, s.runs[r].task, Step(s, op).0)
  {
    hide OnRequests, OnScheduler, OnTasks, DoStart, DoFinish, DoReplaceDependencies;
    assert LiveFor(s, r, s.runs[r].task);
    assert op.run in s.runs && !Ended(s.runs[op.run].status) ==> LiveFor(s, op.run, s.runs[op.run].task);
  }

  lemma StartGuards(s: State, op: Op, r: Id)
    requires op.StartRun? && r in s.runs && Live(s.runs[r].status) && s.runs[r].task in s.tasks
    ensures Guarded(s, op, s.runs[r].task, Step(s, op).0)
  {
    hide DoStart, Guarded;
    if DoStart(s, op.actor, op.start).1 == Done {
      StartEffect(s, op.actor, op.start);
    } else {
      StartRefused(s, op.actor, op.start);
    }
    ElsewhereGuards(s, op, s.runs[r].task, Step(s, op).0);
  }

  lemma OnHoldGuards(s: State, op: Op, r: Id)
    requires OneLive(s) && r in s.runs && LiveFor(s, r, s.runs[r].task) && s.runs[r].task in s.tasks
    requires op.MarkWaiting? || op.MarkResumed? || op.FailExpiredRun?
    requires r in Step(s, op).0.runs && Live(Step(s, op).0.runs[r].status)
    ensures Guarded(s, op, s.runs[r].task, Step(s, op).0)
  {
    hide OnRequests, OnRuns, OnScheduler, OnTasks, DoReplaceDependencies;
    assert BothWaiting(s, op.run, op.task) ==> LiveFor(s, op.run, op.task);
  }

  /** The task of an open request waits for it, so it is not that of a live run. */
  lemma RestoreGuards(s: State, op: Op, r: Id, id: Id, q: Request)
    requires RunsOk(s) && r in s.runs && Live(s.runs[r].status) && s.runs[r].task in s.tasks && !Watched(op)
    ensures Guarded(s, op, s.runs[r].task, Restore(s, id, q).0)
  {
    hide Guarded;
    assert RunOk(s, r);
    ElsewhereGuards(s, op, s.runs[r].task, Restore(s, id, q).0);
  }

  lemma CloseGuards(s: State, op: Op, r: Id)
    requires RunsOk(s) && r in s.runs && Live(s.runs[r].status) && s.runs[r].task in s.tasks
    requires op.CancelRequest? || op.RejectRequest?
    ensures Guarded(s, op, s.runs[r].task, Step(s, op).0)
  {
    hide RunsOk, Guarded, Restore;
    ElsewhereGuards(s, op, s.runs[r].task, s);
    if op.id in s.requests {
      var q := s.requests[op.id];
      RestoreGuards(s, op, r, op.id, q.(status := Withdrawn, version := q.version + 1, lease := None));
      RestoreGuards(s, op, r, op.id, q.(status := Rejected, version := q.version + 1, lease := None));
    }
  }

  lemma CreateGuards(s: State, op: Op, r: Id)
    requires r in s.runs && Live(s.runs[r].status) && s.runs[r].task in s.tasks && op.CreateRequest?
    ensures Guarded(s, op, s.runs[r].task, Step(s, op).0)
  {
    hide DoCreate, Guarded, Clashes;
    if DoCreate(s, op.actor, op.input, op.id).1 == Inserted(op.id) {
      CreateEffect(s, op.actor, op.input, op.id);
    } else {
      CreateRefused(s, op.actor, op.input, op.id);
    }
    ElsewhereGuards(s, op, s.runs[r].task, Step(s, op).0);
  }

  lemma DispatchGuards(s: State, op: Op, r: Id)
    requires Inv(s) && r in s.runs && Live(s.runs[r].status) && s.runs[r].task in s.tasks && op.DispatchRequest?
    ensures Guarded(s, op, s.runs[r].task, Step(s, op).0)
  {
    assert RunOk(s, r);
    hide DoDispatch, Guarded, Inv, NextAttempt, HasLiveRun;
    if DoDispatch(s, op.id, op.worker, op.token, op.child, op.revision).1 == Done {
      DispatchEffect(s, op.id, op.worker, op.token, op.child, op.revision);
    } else {
      DispatchRefused(s, op.id, op.worker, op.token, op.child, op.revision);
    }
    ElsewhereGuards(s, op, s.runs[r].task, Step(s, op).0);
  }

  lemma FinishGuards(s: State, run: Id, e: Ending, r: Id)
    requires Inv(s) && OneLive(s) && r in s.runs && Live(s.runs[r].status) && s.runs[r].task in s.tasks
    requires r in Step(s, FinishRun(run, e)).0.runs && Live(Step(s, FinishRun(run, e)).0.runs[r].status)
    ensures Guarded(s, FinishRun(run, e), s.runs[r].task, Step(s, FinishRun(run, e)).0)
  {
    hide DoFinish, Inv, Settlement, Guarded;
    var t, b := s.runs[r].task, Step(s, FinishRun(run, e)).0;
    if DoFinish(s, run, e).1 == Done {
      FinishEffect(s, run, e);
      assert run != r && LiveFor(s, run, s.runs[run].task) && LiveFor(s, r, t);
      assert s.runs[run].task != t;
    } else {
      FinishRefused(s, run, e);
    }
    ElsewhereGuards(s, FinishRun(run, e), t, b);
  }

  /**
    While a run is live, the revision of its task is raised by edits and replacements alone, and the
    task is in hand afterwards exactly if it was before and nothing took it away.
   */
  lemma StepGuardsTask(s: State, op: Op, r: Id)
    requires Inv(s) && OneLive(s) && r in s.runs && Live(s.runs[r].status) && s.runs[r].task in s.tasks
    requires r in Step(s, op).0.runs && Live(Step(s, op).0.runs[r].status)
    ensures Guarded(s, op, s.runs[r].task, Step(s, op).0)
  {
    InvParts(s);
    hide Step, Inv, OneLive, Guarded;
    var t := s.runs[r].task;
    if op.UpdateTask? {
      UpdateGuards(s, op, t);
    } else if op.ReplaceDependencies? {
      ReplaceGuards(s, op, t);
    } else if op.RejectApproval? || op.AbortStart? {
      CutGuards(s, op, r);
    } else if op.FinishRun? {
      FinishGuards(s, op.run, op.ending, r);
    } else if op.StartRun? {
      StartGuards(s, op, r);
    } else if op.CreateRequest? {
      CreateGuards(s, op, r);
    } else if op.DispatchRequest? {
      DispatchGuards(s, op, r);
    } else if op.CancelRequest? || op.RejectRequest? {
      CloseGuards(s, op, r);
    } else if ForApprovals(op) {
      OnHoldGuards(s, op, r);
    } else {
      QuietLeaves(s, op);
      LeavesGuards(s, op, t, Step(s, op).0);
    }
  }

  lemma QuietLeaves(s: State, op: Op)
    requires Quiet(op) && !ForTasks(op) && !ForApprovals(op)
    ensures Leaves(s, Step(s, op).0)
  {
    if op.PropagateDependencies? {
      PropagateLeaves(s);
    } else {
      hide Step;
      if ForScheduler(op) {
        TaskClaimsLeave(s, op);
      } else {
        RequestClaimsLeave(s, op);
      }
    }
  }

  // ---------------------------------------------------------------- whole runs

  ghost function RaiseCount(s: State, ops: seq<Op>, t: Id): nat
  {
    if ops == [] then 0
    else
      var front := ops[..|ops| - 1];
      RaiseCount(s, front, t) + if Raises(After(s, front), ops[|ops| - 1], t) then 1 else 0
  }

  lemma StayedLive(s: State, op: Op, r: Id)
    requires Inv(s) && r in s.runs && r in Step(s, op).0.runs && Live(Step(s, op).0.runs[r].status)
    ensures Live(s.runs[r].status) && RunFrame(s.runs[r], Step(s, op).0.runs[r])
  {
    hide Step, Inv;
    StepMovesRuns(s, op);
  }

  /** Over every run, as long as a run is live the revision of its task grows by edits and replacements alone. */
  lemma {:induction false} RevisionCountsRaises(s: State, ops: seq<Op>, r: Id)
    requires Inv(s) && OneLive(s) && r in s.runs && s.runs[r].task in s.tasks
    requires r in After(s, ops).runs && Live(After(s, ops).runs[r].status)
    ensures RunFrame(s.runs[r], After(s, ops).runs[r])
    ensures var b, t := After(s, ops), s.runs[r].task;
      t in b.tasks && b.tasks[t].revision == s.tasks[t].revision + RaiseCount(s, ops, t)
  {
    hide Inv, OneLive, Step;
    if ops != [] {
      var front, last := ops[..|ops| - 1], ops[|ops| - 1];
      var a := After(s, front);
      RunKeepsInv(s, front);
      RunKeepsOneLive(s, front);
      RunStays(s, front, r);
      StayedLive(a, last, r);
      RevisionCountsRaises(s, front, r);
      StepGuardsTask(a, last, r);
    }
  }

  lemma {:induction false} RunStays(s: State, ops: seq<Op>, r: Id)
    requires Inv(s) && r in s.runs
    ensures r in After(s, ops).runs
  {
    hide Inv, Step;
    if ops != [] {
      var front := ops[..|ops| - 1];
      RunStays(s, front, r);
      RunKeepsInv(s, front);
      StepMovesRuns(After(s, front), ops[|ops| - 1]);
    }
  }

  /**
    A child that is still live some time after its dispatch has drifted if and only if the inputs
    of its task have been edited or its dependencies replaced since.
   */
  lemma DriftIffRaised(s: State, id: Id, w: string, k: Token, c: Id, v: int, ops: seq<Op>)
    requires Inv(s) && OneLive(s) && DoDispatch(s, id, w, k, c, v).1 == Done
    requires var b := After(DoDispatch(s, id, w, k, c, v).0, ops); c in b.runs && Live(b.runs[c].status)
    ensures var d := DoDispatch(s, id, w, k, c, v).0;
      var b := After(d, ops);
      && c in d.runs && b.runs[c].task in b.tasks
      && (RevisionDrift(b.runs[c], b.tasks[b.runs[c].task]) <==> RaiseCount(d, ops, d.runs[c].task) > 0)
  {
    hide Inv, OneLive, DoDispatch, After, RaiseCount, NextAttempt, CanSpawn;
    var d := DoDispatch(s, id, w, k, c, v).0;
    DispatchEffect(s, id, w, k, c, v);
    DispatchKeepsInv(s, id, w, k, c, v);
    assert OneLive(d) by {
      DispatchMovesRuns(s, id, w, k, c, v);
      MoveKeepsOneLive(s, d);
    }
    DispatchStart(s, id, w, k, c, v);
    RevisionCountsRaises(d, ops, c);
  }

  /** A dispatch leaves the child one revision behind its task, which is in hand. */
  lemma DispatchStart(s: State, id: Id, w: string, k: Token, c: Id, v: int)
    requires Inv(s) && DoDispatch(s, id, w, k, c, v).1 == Done
    ensures var d := DoDispatch(s, id, w, k, c, v).0;
      && c in d.runs && d.runs[c].kind == Continuation && d.runs[c].task in d.tasks
      && d.tasks[d.runs[c].task].revision == d.runs[c].taskRevision + 1 && InHand(d.tasks[d.runs[c].task].status)
  {
    hide Inv, DoDispatch, NextAttempt, HasLiveRun;
    DispatchEffect(s, id, w, k, c, v);
  }

  /** A run that was started by a user or the scheduler, at the revision of its task, drifts by the same steps. */
  lemma StartedDriftIffRaised(s: State, a: Actor, n: NewRun, ops: seq<Op>)
    requires Inv(s) && OneLive(s) && DoStart(s, a, n).1 == Done
    requires var b := After(DoStart(s, a, n).0, ops); n.id in b.runs && Live(b.runs[n.id].status)
    ensures var d := DoStart(s, a, n).0;
      var b := After(d, ops);
      && n.task in b.tasks
      && (RevisionDrift(b.runs[n.id], b.tasks[n.task]) <==> RaiseCount(d, ops, n.task) > 0)
  {
    hide Inv, OneLive, DoStart, After, RaiseCount;
    var d := DoStart(s, a, n).0;
    StartEffect(s, a, n);
    StartAtRevision(s, a, n);
    StartKeepsInv(s, a, n);
    assert OneLive(d) by {
      StartMovesRuns(s, a, n);
      MoveKeepsOneLive(s, d);
    }
    RevisionCountsRaises(d, ops, n.id);
  }

  lemma StartAtRevision(s: State, a: Actor, n: NewRun)
    requires DoStart(s, a, n).1 == Done
    ensures var d := DoStart(s, a, n).0;
      && n.id in d.runs && n.task in d.tasks && d.runs[n.id].taskRevision == d.tasks[n.task].revision
      && (d.runs[n.id].kind == Primary || d.runs[n.id].kind == Retry)
  {
    hide HasLiveRun, NextAttempt, ParentFits, Unblocked;
  }

  /** The window: the task is no revision ahead of a started run, and at most one of a continuation or repair. */
  lemma WindowOfKind(r: Run, t: Task)
    ensures !RevisionDrift(r, t) <==>
      var ahead := t.revision - r.taskRevision;
      match r.kind
      case Primary => ahead == 0
      case Retry => ahead == 0
      case Continuation => ahead in {0, 1}
      case Repair => ahead in {0, 1}
      case FollowUp => true
  {
  }

  /** No step of the run takes task `t` out of hand. */
  ghost predicate NeverTakenAway(s: State, ops: seq<Op>, t: Id)
  {
    forall i :: 0 <= i < |ops| ==> !TakesAway(After(s, ops[..i]), ops[i], t)
  }

  /** The service's guard, as if it were tested with the write: dependencies change on drafts and queued tasks only. */
  ghost predicate ReplacedOnlyBefore(s: State, ops: seq<Op>, t: Id)
  {
    forall i :: 0 <= i < |ops| && Replaces(After(s, ops[..i]), ops[i], t) ==>
      After(s, ops[..i]).tasks[t].status in {Draft, Queued}
  }

  /**
    As long as nothing takes the task away it stays in hand, where it cannot be edited; under the
    service's guard its dependencies are not replaced either, and its revision stands still.
   */
  lemma {:induction false} InHandNeverRaised(s: State, ops: seq<Op>, r: Id)
    requires Inv(s) && OneLive(s) && r in s.runs && s.runs[r].task in s.tasks && InHand(s.tasks[s.runs[r].task].status)
    requires r in After(s, ops).runs && Live(After(s, ops).runs[r].status)
    requires NeverTakenAway(s, ops, s.runs[r].task) && ReplacedOnlyBefore(s, ops, s.runs[r].task)
    ensures var b, t := After(s, ops), s.runs[r].task;
      t in b.tasks && InHand(b.tasks[t].status) && RaiseCount(s, ops, t) == 0
  {
    hide Inv, OneLive, Step, TakesAway, Edits, Replaces;
    if ops != [] {
      var front, last := ops[..|ops| - 1], ops[|ops| - 1];
      var a, t := After(s, front), s.runs[r].task;
      RunKeepsInv(s, front);
      RunKeepsOneLive(s, front);
      RunStays(s, front, r);
      StayedLive(a, last, r);
      assert forall i :: 0 <= i < |front| ==> front[..i] == ops[..i];
      InHandNeverRaised(s, front, r);
      RevisionCountsRaises(s, front, r);
      assert !TakesAway(a, last, t);
      StepGuardsTask(a, last, r);
      if Edits(a, last, t) {
        EditsOutOfHand(a, last, t);
      }
    }
  }

  // ----------------------------------------------------------- a drifting child

  /** Clearing the dependencies of a task, at its revision and under a new key, always goes through. */
  lemma ClearingApplies(s: State, t: Id, key: string)
    requires t in s.tasks && (t, key) !in s.mutations
    ensures var r := DependencyLedger.Replacement(t, s.tasks[t].revision, key, "", [], {t});
      Replaces(s, ReplaceDependencies(r), t)
  {
    var r := DependencyLedger.Replacement(t, s.tasks[t].revision, key, "", [], {t});
    assert DependencyLedger.Prerequisites(r.deps) == {};
  }

  /** Task 7 runs child 9 of request 5, one revision behind. */
  function Child9(): State
  {
    var t := Task(Running, 3, 0, None, None, 0, 0, 3, None, 0, false, true, Normal, None, 0);
    var x := Protocol.Run(7, RunFailed, Primary, 0, None, Some(1), None, None, None, 1, 1);
    var c := Protocol.Run(7, Active, Continuation, 0, None, Some(1), None, Some(1), Some(5), 2, 2);
    var q := Request(7, 1, "t", "e", "d", "i", "k", 1, Failed, 0, None, Dispatched, 2, None, 1, None, Some(9));
    State(0, map[7 := t], map[5 := q], map[1 := x, 9 := c], map[], {}, {}, map[], {})
  }

  /** The API fails the task and queues it again, and its dependencies are replaced: no edit, and the child drifts. */
  lemma ReplacementDrifts()
    ensures var s := Child9();
      var fail, queue := UpdateTask(7, true, Some(Failed), None, false), UpdateTask(7, true, Some(Queued), None, false);
      var replace := ReplaceDependencies(DependencyLedger.Replacement(7, 3, "k", "", [], {7}));
      var a := Step(Step(s, fail).0, queue).0;
      var b := Step(a, replace).0;
      && Inv(s) && OneLive(s) && !RevisionDrift(s.runs[9], s.tasks[7])
      && 7 in a.tasks && a.tasks[7].status == Queued && Replaces(a, replace, 7)
      && 7 in b.tasks && 9 in b.runs && Live(b.runs[9].status) && RevisionDrift(b.runs[9], b.tasks[7])
  {
    hide Inv, OneLive, Step, Replaces;
    Child9Holds();
    var fail, queue := UpdateTask(7, true, Some(Failed), None, false), UpdateTask(7, true, Some(Queued), None, false);
    ApiMoves(Child9(), 7, Failed);
    var middle := Step(Child9(), fail).0;
    ApiMoves(middle, 7, Queued);
    var a := Step(middle, queue).0;
    ClearingApplies(a, 7, "k");
    ReplacementRaises(a, DependencyLedger.Replacement(7, 3, "k", "", [], {7}));
  }

  lemma ApiMoves(s: State, t: Id, to: Status)
    requires UpdateAdmits(s, t, true, Some(to), false) && to != Archived
    ensures Step(s, UpdateTask(t, true, Some(to), None, false)).0
         == s.(tasks := s.tasks[t := s.tasks[t].(status := to)])
  {
  }

  lemma ReplacementRaises(s: State, r: DependencyLedger.Replacement)
    requires Replaces(s, ReplaceDependencies(r), r.task)
    ensures var b := Step(s, ReplaceDependencies(r)).0;
      b.runs == s.runs && b.tasks == s.tasks[r.task := s.tasks[r.task].(revision := s.tasks[r.task].revision + 1)]
  {
    hide DependencyLedger.DoReplace;
  }

  lemma Child9Holds()
    ensures Inv(Child9()) && OneLive(Child9())
  {
  }
}
