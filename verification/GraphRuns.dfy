/**
  The dependency graph under the whole protocol: replacing dependencies is the step that
  `DependencyLedger` describes, no other modelled step touches the graph, so it stays acyclic over
  every run, and the reconciler's passes settle from every state that a run reaches.
 */
module GraphRuns {
  import opened Types
  import opened Graph
  import opened Propagation
  import opened Protocol
  import DependencyLedger
  import opened RequestInvariants
  import opened Scheduling

  /** Acyclic, and both ends of every dependency are task rows. */
  ghost predicate GraphOk(s: State)
  {
    Acyclic(s.rules.Keys) && Total(Cfg(s), StatusesOf(s))
  }

  /** Replacing dependencies in the protocol is replacing them in the ledger, with the same answer. */
  lemma ReplacementCommutes(s: State, r: DependencyLedger.Replacement)
    ensures var (b, answer) := Step(s, ReplaceDependencies(r));
      var (d, outcome) := DependencyLedger.DoReplace(Dependencies(s), r);
      && (answer == Done <==> outcome == DependencyLedger.Applied)
      && Dependencies(b) == d
      && b.requests == s.requests && b.runs == s.runs
      && (forall t :: t in s.tasks ==> t in b.tasks && b.tasks[t] == s.tasks[t].(revision := b.tasks[t].revision))
  {
    hide DependencyLedger.DoReplace, OnRequests, OnRuns, OnScheduler, OnApprovals, DoUpdateTask;
    if DependencyLedger.DoReplace(Dependencies(s), r).1 == DependencyLedger.Applied {
      AppliedCommutes(s, r);
    } else {
      LedgerRefused(Dependencies(s), r);
    }
  }

  lemma LedgerRefused(s: DependencyLedger.State, r: DependencyLedger.Replacement)
    requires DependencyLedger.DoReplace(s, r).1 != DependencyLedger.Applied
    ensures DependencyLedger.DoReplace(s, r).0 == s
  {
    DependencyLedger.RefusedInOrder(s, r);
  }

  lemma AppliedCommutes(s: State, r: DependencyLedger.Replacement)
    requires DependencyLedger.DoReplace(Dependencies(s), r).1 == DependencyLedger.Applied
    ensures r.task in s.tasks
    ensures Dependencies(DoReplaceDependencies(s, r).0) == DependencyLedger.DoReplace(Dependencies(s), r).0
  {
    hide DependencyLedger.DoReplace, Acyclic, Reach, Replaced, DependencyLedger.Prerequisites;
    DependencyLedger.ReplaceEffect(Dependencies(s), r);
    LedgerKeepsRest(Dependencies(s), r);
    var b, d := DoReplaceDependencies(s, r).0, DependencyLedger.DoReplace(Dependencies(s), r).0;
    assert Dependencies(b).revisions == d.revisions;
  }

  lemma LedgerKeepsRest(s: DependencyLedger.State, r: DependencyLedger.Replacement)
    ensures var d := DependencyLedger.DoReplace(s, r).0; d.runs == s.runs && d.followups == s.followups
  {
    hide DependencyLedger.Cyclic, DependencyLedger.Insertable, DependencyLedger.Rows;
  }

  lemma RulesStay(s: State, op: Op)
    requires !op.ReplaceDependencies?
    ensures Step(s, op).0.rules == s.rules && Step(s, op).0.timedOut == s.timedOut
  {
    if !op.Tick? {
      hide Step;
      StepKeepsBackdrop(s, op);
    }
  }

  lemma ReplacementKeepsGraph(s: State, r: DependencyLedger.Replacement)
    requires GraphOk(s)
    ensures GraphOk(Step(s, ReplaceDependencies(r)).0)
  {
    hide DependencyLedger.DoReplace, Acyclic, Reach, Replaced, OnRequests, OnRuns, OnScheduler, OnApprovals;
    if DependencyLedger.DoReplace(Dependencies(s), r).1 == DependencyLedger.Applied {
      var ps := DependencyLedger.Prerequisites(r.deps);
      DependencyLedger.ReplaceEffect(Dependencies(s), r);
      ReplaceCycleExact(s.rules.Keys, r.task, ps);
      DependencyLedger.EndsExist(s.rules.Keys, r.task, ps, s.tasks.Keys);
    }
  }

  lemma StepKeepsGraph(s: State, op: Op)
    requires Inv(s) && GraphOk(s)
    ensures GraphOk(Step(s, op).0)
  {
    hide Step, Inv, Acyclic;
    if op.ReplaceDependencies? {
      ReplacementKeepsGraph(s, op.r);
    } else {
      RulesStay(s, op);
      NoTaskAppears(s, op);
    }
  }

  /** Over every run the graph stays acyclic and complete, so propagation is never refused. */
  lemma {:induction false} RunKeepsGraph(s: State, ops: seq<Op>)
    requires Inv(s) && GraphOk(s)
    ensures GraphOk(After(s, ops))
    ensures Step(After(s, ops), PropagateDependencies).1 == Done
  {
    if ops != [] {
      hide Step, Inv, GraphOk;
      var front := ops[..|ops| - 1];
      RunKeepsGraph(s, front);
      RunKeepsInv(s, front);
      StepKeepsGraph(After(s, front), ops[|ops| - 1]);
    }
    PropagationAnswers(After(s, ops));
  }

  lemma PropagationAnswers(s: State)
    requires GraphOk(s)
    ensures Step(s, PropagateDependencies).1 == Done
  {
    hide Acyclic, OnRequests, OnRuns, OnApprovals, OnTasks, Pass;
  }

  // ------------------------------------------------------------- settling

  /**
    What the reconciler writes, by the columns of the dependency rows: a queued or skipped task fails or
    is skipped as they say and loses its claim; every other task stays as it was.
   */
  lemma PropagationWrites(s: State, t: Id)
    requires GraphOk(s) && t in s.tasks
    ensures var b := Step(s, PropagateDependencies).0;
      var fails := SomeColumnHolds(Cfg(s), StatusesOf(s), t, Fail);
      var skips := SomeColumnHolds(Cfg(s), StatusesOf(s), t, Skip);
      && t in b.tasks
      && b.tasks[t] ==
         if s.tasks[t].status in {Queued, Skipped} && fails then s.tasks[t].(status := Failed, claim := None)
         else if s.tasks[t].status == Queued && skips then s.tasks[t].(status := Skipped, claim := None)
         else s.tasks[t]
  {
    hide Acyclic, OnRequests, OnRuns, OnApprovals, OnTasks, SomeColumnHolds, Pass;
    PassByColumns(Cfg(s), StatusesOf(s), t);
  }

  lemma PropagationIsPass(s: State)
    requires GraphOk(s)
    ensures var b := Step(s, PropagateDependencies).0;
      GraphOk(b) && Cfg(b) == Cfg(s) && StatusesOf(b) == Pass(Cfg(s), StatusesOf(s))
  {
    hide Acyclic, OnRequests, OnRuns, OnApprovals, OnTasks, Next;
    var b := Step(s, PropagateDependencies).0;
    assert StatusesOf(b) == Pass(Cfg(s), StatusesOf(s));
  }

  function Reconciles(n: nat): seq<Op>
  {
    seq(n, i => PropagateDependencies)
  }

  lemma {:induction false} ReconcilesArePasses(s: State, n: nat)
    requires GraphOk(s)
    ensures var b := After(s, Reconciles(n));
      GraphOk(b) && Cfg(b) == Cfg(s) && StatusesOf(b) == Passes(Cfg(s), StatusesOf(s), n)
  {
    hide GraphOk, Step, Pass;
    if n > 0 {
      assert Reconciles(n)[..n - 1] == Reconciles(n - 1);
      ReconcilesArePasses(s, n - 1);
      GraphIsTotal(s);
      PropagationIsPass(After(s, Reconciles(n - 1)));
    }
  }

  lemma GraphIsTotal(s: State)
    requires GraphOk(s)
    ensures Total(Cfg(s), StatusesOf(s))
  {
  }

  /**
    From every state that a run reaches, as many reconciliations in a row as there are prerequisite
    tasks lead to a state that one more leaves exactly as it is.
   */
  lemma ReconcilingSettles(s: State, ops: seq<Op>)
    requires Inv(s) && GraphOk(s)
    ensures var a := After(s, ops);
      var b := After(a, Reconciles(|set e | e in a.rules :: e.1|));
      Step(b, PropagateDependencies) == (b, Done)
  {
    hide Inv, After, Step, Passes;
    RunKeepsGraph(s, ops);
    var a := After(s, ops);
    var n := |set e | e in a.rules :: e.1|;
    ReconcilesArePasses(a, n);
    hide Acyclic;
    SettlesOnAcyclic(Cfg(a), StatusesOf(a));
    QuietPropagation(After(a, Reconciles(n)));
  }

  lemma QuietPropagation(s: State)
    requires GraphOk(s) && Quiescent(Cfg(s), StatusesOf(s))
    ensures Step(s, PropagateDependencies) == (s, Done)
  {
    hide Acyclic, OnRequests, OnRuns, OnApprovals, OnTasks, Next;
    assert DoPropagate(s).0.tasks == s.tasks;
  }
}
