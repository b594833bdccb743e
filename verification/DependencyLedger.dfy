/**
  Editing the dependency graph: `replace_task_dependencies` and `create_followup_task`
  as atomic steps on the dependency, mutation and follow-up tables of one organization.
 */
module DependencyLedger {
  import opened Types
  import opened Graph
  import opened Propagation

  datatype NewDependency = NewDependency(prerequisite: Id, rule: Rule)

  datatype Mutation = Mutation(digest: string, revision: int)

  datatype Followup = Followup(digest: string, task: Id)

  /** `revisions` has one entry for each task row. */
  datatype State = State(
    revisions: map<Id, int>,
    rules: map<Edge, Rule>,
    mutations: map<(Id, string), Mutation>,
    runs: set<Id>,
    followups: map<(Id, string), Followup>)

  /** `visible`: the unarchived tasks within the data scope of the caller. */
  datatype Replacement = Replacement(
    task: Id, revision: int, key: string, digest: string, deps: seq<NewDependency>, visible: set<Id>)

  /** `task`: the key the insert of the new task row takes from its sequence. */
  datatype Proposal = Proposal(
    run: Id, key: string, digest: string, task: Id, deps: seq<NewDependency>, quota: nat)

  datatype Outcome =
    | Applied
    | Replayed
    | NotFound
    | KeyReused
    | StaleRevision
    | WouldCycle
    | QuotaUsedUp
    | ConstraintViolated

  datatype Op =
    | Replace(r: Replacement)
    | Propose(p: Proposal)
    | Bump(task: Id)  // any other writer that raises a revision

  function Prerequisites(deps: seq<NewDependency>): set<Id>
  {
    set i | 0 <= i < |deps| :: deps[i].prerequisite
  }

  /** The rows that inserting `deps` for task `t` one after the other adds. */
  function Rows(t: Id, deps: seq<NewDependency>): (m: map<Edge, Rule>)
    ensures m.Keys == set p | p in Prerequisites(deps) :: (t, p)
  {
    if deps == [] then map[]
    else
      var last := deps[|deps| - 1];
      assert Prerequisites(deps) == Prerequisites(deps[..|deps| - 1]) + {last.prerequisite};
      Rows(t, deps[..|deps| - 1])[(t, last.prerequisite) := last.rule]
  }

  function RulesOf(rules: map<Edge, Rule>, t: Id): map<Edge, Rule>
  {
    map e | e in rules && e.0 == t :: rules[e]
  }

  function RulesNotOf(rules: map<Edge, Rule>, t: Id): map<Edge, Rule>
  {
    map e | e in rules && e.0 != t :: rules[e]
  }

  /** The table constraints: no self-dependency, and one row for each (task, prerequisite). */
  predicate Insertable(t: Id, deps: seq<NewDependency>)
  {
    && t !in Prerequisites(deps)
    && forall i, j :: 0 <= i < j < |deps| ==> deps[i].prerequisite != deps[j].prerequisite
  }

  ghost predicate Cyclic(rules: map<Edge, Rule>, t: Id, deps: seq<NewDependency>)
  {
    exists p :: p in Prerequisites(deps) && Reach(rules.Keys, p, t)
  }

  ghost function DoReplace(s: State, r: Replacement): (State, Outcome)
  {
    if r.task !in s.revisions || r.task !in r.visible then (s, NotFound)
    else if (r.task, r.key) in s.mutations then
      (s, if s.mutations[(r.task, r.key)].digest == r.digest then Replayed else KeyReused)
    else if s.revisions[r.task] != r.revision then (s, StaleRevision)
    else if !(Prerequisites(r.deps) <= s.revisions.Keys * r.visible) then (s, NotFound)
    else if Cyclic(s.rules, r.task, r.deps) then (s, WouldCycle)
    else if !Insertable(r.task, r.deps) then (s, ConstraintViolated)
    else (s.(rules := RulesNotOf(s.rules, r.task) + Rows(r.task, r.deps),
             revisions := s.revisions[r.task := r.revision + 1],
             mutations := s.mutations[(r.task, r.key) := Mutation(r.digest, r.revision + 1)]),
          Applied)
  }

  function FollowupsOf(s: State, run: Id): set<(Id, string)>
  {
    set k | k in s.followups && k.0 == run
  }

  function DoPropose(s: State, p: Proposal): (State, Outcome)
  {
    if p.run !in s.runs then (s, NotFound)
    else if (p.run, p.key) in s.followups then
      (s, if s.followups[(p.run, p.key)].digest == p.digest then Replayed else KeyReused)
    else if |FollowupsOf(s, p.run)| >= p.quota then (s, QuotaUsedUp)
    else if p.task in s.revisions || !(Prerequisites(p.deps) <= s.revisions.Keys + {p.task})
            || !Insertable(p.task, p.deps) then (s, ConstraintViolated)
    else (s.(rules := s.rules + Rows(p.task, p.deps),
             revisions := s.revisions[p.task := 1],
             followups := s.followups[(p.run, p.key) := Followup(p.digest, p.task)]),
          Applied)
  }

  ghost function Step(s: State, op: Op): (State, Outcome)
  {
    match op
    case Replace(r) => DoReplace(s, r)
    case Propose(p) => DoPropose(s, p)
    case Bump(t) =>
      if t in s.revisions then (s.(revisions := s.revisions[t := s.revisions[t] + 1]), Applied)
      else (s, NotFound)
  }

  /** The state after a serial run. */
  ghost function After(s: State, ops: seq<Op>): State
  {
    if ops == [] then s else Step(After(s, ops[..|ops| - 1]), ops[|ops| - 1]).0
  }

  /** What the call at position `i` of a serial run answers. */
  ghost function Answer(s: State, ops: seq<Op>, i: nat): Outcome
    requires i < |ops|
  {
    Step(After(s, ops[..i]), ops[i]).1
  }

  /** Foreign keys of the dependency and mutation tables, and the graph is acyclic. */
  ghost predicate Inv(s: State)
  {
    && Acyclic(s.rules.Keys)
    && (forall e :: e in s.rules ==> e.0 in s.revisions && e.1 in s.revisions)
    && (forall k :: k in s.mutations ==> k.0 in s.revisions && s.mutations[k].revision <= s.revisions[k.0])
  }

  lemma ReplacedRules(s: State, r: Replacement)
    ensures (RulesNotOf(s.rules, r.task) + Rows(r.task, r.deps)).Keys
         == Replaced(s.rules.Keys, r.task, Prerequisites(r.deps))
  {
  }

  /**
    A replacement that gets past lookup, replay and revision and names distinct other
    tasks is applied exactly if the graph it asks for is acyclic; otherwise the answer
    is "would form a cycle" and nothing is written.
   */
  lemma AppliedIffAcyclic(s: State, r: Replacement)
    requires Inv(s)
    requires r.task in s.revisions && r.task in r.visible && (r.task, r.key) !in s.mutations
    requires s.revisions[r.task] == r.revision
    requires Prerequisites(r.deps) <= s.revisions.Keys * r.visible && Insertable(r.task, r.deps)
    ensures DoReplace(s, r).1 == Applied <==> Acyclic(Replaced(s.rules.Keys, r.task, Prerequisites(r.deps)))
    ensures DoReplace(s, r).1 != Applied ==> DoReplace(s, r) == (s, WouldCycle)
  {
    ReplaceCycleExact(s.rules.Keys, r.task, Prerequisites(r.deps));
  }

  /** The call gets past the lookup of its task, the replay of its key and the test of the revision. */
  predicate Current(s: State, r: Replacement)
  {
    && r.task in s.revisions && r.task in r.visible && (r.task, r.key) !in s.mutations
    && s.revisions[r.task] == r.revision
  }

  /** Every prerequisite is a task row that the caller sees. */
  predicate AllSeen(s: State, r: Replacement)
  {
    forall i :: 0 <= i < |r.deps| ==> r.deps[i].prerequisite in s.revisions && r.deps[i].prerequisite in r.visible
  }

  predicate DistinctOthers(r: Replacement)
  {
    && (forall i :: 0 <= i < |r.deps| ==> r.deps[i].prerequisite != r.task)
    && (forall i, j :: 0 <= i < j < |r.deps| ==> r.deps[i].prerequisite != r.deps[j].prerequisite)
  }

  lemma SeenAsSets(s: State, r: Replacement)
    ensures AllSeen(s, r) <==> Prerequisites(r.deps) <= s.revisions.Keys * r.visible
    ensures DistinctOthers(r) <==> Insertable(r.task, r.deps)
  {
    assert forall i :: 0 <= i < |r.deps| ==> r.deps[i].prerequisite in Prerequisites(r.deps);
  }

  /**
    A replacement is applied exactly if it is current, names distinct other tasks that the caller
    sees, and asks for an acyclic graph.
   */
  lemma AppliedIff(s: State, r: Replacement)
    requires Inv(s)
    ensures DoReplace(s, r).1 == Applied
       <==> && Current(s, r) && AllSeen(s, r) && DistinctOthers(r)
            && Acyclic(Replaced(s.rules.Keys, r.task, Prerequisites(r.deps)))
  {
    hide Inv, Acyclic, Replaced, Prerequisites, Insertable;
    SeenAsSets(s, r);
    if Current(s, r) && AllSeen(s, r) && DistinctOthers(r) {
      AppliedIffAcyclic(s, r);
    }
  }

  /**
    Which refusal a call gets: an unknown task or a used key before the revision, the revision before
    an unknown prerequisite, that before a cycle, and a cycle before a repeated or own prerequisite.
   */
  lemma RefusedInOrder(s: State, r: Replacement)
    ensures var (b, answer) := DoReplace(s, r);
      var known := r.task in s.revisions && r.task in r.visible;
      var used := known && (r.task, r.key) in s.mutations;
      var leads := exists i :: 0 <= i < |r.deps| && Reach(s.rules.Keys, r.deps[i].prerequisite, r.task);
      && (answer == Replayed <==> used && s.mutations[(r.task, r.key)].digest == r.digest)
      && (answer == KeyReused <==> used && s.mutations[(r.task, r.key)].digest != r.digest)
      && (answer == StaleRevision <==> known && !used && s.revisions[r.task] != r.revision)
      && (answer == NotFound <==> !known || (Current(s, r) && !AllSeen(s, r)))
      && (answer == WouldCycle <==> Current(s, r) && AllSeen(s, r) && leads)
      && (answer == ConstraintViolated <==> Current(s, r) && AllSeen(s, r) && !leads && !DistinctOthers(r))
      && (answer != Applied ==> b == s)
  {
    SeenAsSets(s, r);
    LeadsAsSet(s.rules, r.task, r.deps);
    hide Reach, Prerequisites, Cyclic, Insertable, AllSeen, DistinctOthers, Rows;
  }

  lemma LeadsAsSet(rules: map<Edge, Rule>, t: Id, deps: seq<NewDependency>)
    ensures Cyclic(rules, t, deps) <==> exists i :: 0 <= i < |deps| && Reach(rules.Keys, deps[i].prerequisite, t)
  {
    hide Reach;
    assert forall i :: 0 <= i < |deps| ==> deps[i].prerequisite in Prerequisites(deps);
  }

  /**
    What an applied replacement leaves: a row for each dependency it names, with its rule, no other
    row of the task, every row of other tasks, one revision more, and its key with digest and revision.
   */
  lemma AppliedWrites(s: State, r: Replacement, e: Edge)
    requires DoReplace(s, r).1 == Applied
    ensures var b := DoReplace(s, r).0;
      && (e.0 != r.task ==> (e in b.rules <==> e in s.rules) && (e in s.rules ==> b.rules[e] == s.rules[e]))
      && (e.0 == r.task ==> (e in b.rules <==> exists i :: 0 <= i < |r.deps| && r.deps[i].prerequisite == e.1))
      && (forall i :: 0 <= i < |r.deps| ==>
            var x := (r.task, r.deps[i].prerequisite); x in b.rules && b.rules[x] == r.deps[i].rule)
      && b.revisions == s.revisions[r.task := r.revision + 1]
      && b.mutations == s.mutations[(r.task, r.key) := Mutation(r.digest, r.revision + 1)]
      && b.followups == s.followups && b.runs == s.runs
  {
    SeenAsSets(s, r);
    hide Cyclic, Rows, Prerequisites, Insertable, AllSeen;
    RowsHold(r.task, r.deps);
    RowsOnly(r.task, r.deps, e);
  }

  lemma RowsOnly(t: Id, deps: seq<NewDependency>, e: Edge)
    ensures e in Rows(t, deps) <==> e.0 == t && exists i :: 0 <= i < |deps| && deps[i].prerequisite == e.1
  {
    hide Rows;
    if e in Rows(t, deps) {
      assert e.1 in Prerequisites(deps);
    }
    if i :| 0 <= i < |deps| && deps[i].prerequisite == e.1 {
      assert deps[i].prerequisite in Prerequisites(deps);
    }
  }

  lemma {:induction false} RowsHold(t: Id, deps: seq<NewDependency>)
    requires forall i, j :: 0 <= i < j < |deps| ==> deps[i].prerequisite != deps[j].prerequisite
    ensures forall i :: 0 <= i < |deps| ==>
      var x := (t, deps[i].prerequisite); x in Rows(t, deps) && Rows(t, deps)[x] == deps[i].rule
  {
    if deps != [] {
      var front := deps[..|deps| - 1];
      RowsHold(t, front);
      assert forall i :: 0 <= i < |front| ==> front[i] == deps[i];
    }
  }

  /** A refused call writes nothing. */
  lemma RefusedChangesNothing(s: State, op: Op)
    ensures Step(s, op).1 != Applied ==> Step(s, op).0 == s
  {
  }

  lemma StepKeepsInv(s: State, op: Op)
    requires Inv(s)
    ensures Inv(Step(s, op).0)
  {
    hide DoReplace, DoPropose;
    match op
    case Replace(r) => ReplaceKeepsInv(s, r);
    case Propose(p) => ProposeKeepsInv(s, p);
    case Bump(t) =>
  }

  lemma ReplaceEffect(s: State, r: Replacement)
    requires DoReplace(s, r).1 == Applied
    ensures var b, ps := DoReplace(s, r).0, Prerequisites(r.deps);
      && r.task in s.revisions && s.revisions[r.task] == r.revision && ps <= s.revisions.Keys && r.task !in ps
      && !(exists p :: p in ps && Reach(s.rules.Keys, p, r.task))
      && b.rules.Keys == Replaced(s.rules.Keys, r.task, ps)
      && b.revisions == s.revisions[r.task := r.revision + 1]
      && b.mutations == s.mutations[(r.task, r.key) := Mutation(r.digest, r.revision + 1)]
  {
    hide Rows;
    ReplacedRules(s, r);
  }

  lemma ReplaceKeepsInv(s: State, r: Replacement)
    requires Inv(s)
    ensures Inv(DoReplace(s, r).0)
  {
    if DoReplace(s, r).1 == Applied {
      ReplaceEffect(s, r);
      hide DoReplace, Acyclic, Reach, Prerequisites, Replaced;
      var ps := Prerequisites(r.deps);
      ReplaceCycleExact(s.rules.Keys, r.task, ps);
      EndsExist(s.rules.Keys, r.task, ps, s.revisions.Keys);
    }
  }

  lemma EndsExist(g: set<Edge>, t: Id, ps: set<Id>, tasks: set<Id>)
    requires t in tasks && ps <= tasks && forall e :: e in g ==> e.0 in tasks && e.1 in tasks
    ensures forall e :: e in Replaced(g, t, ps) ==> e.0 in tasks && e.1 in tasks
  {
  }

  lemma ProposeEffect(s: State, p: Proposal)
    requires DoPropose(s, p).1 == Applied && forall e :: e in s.rules ==> e.0 in s.revisions
    ensures var b, ps := DoPropose(s, p).0, Prerequisites(p.deps);
      && p.task !in s.revisions && p.task !in ps && ps <= s.revisions.Keys + {p.task}
      && b.rules.Keys == Replaced(s.rules.Keys, p.task, ps)
      && b.revisions == s.revisions[p.task := 1] && b.mutations == s.mutations
  {
    hide Rows, FollowupsOf;
    ProposedRules(s, p);
  }

  lemma ProposeKeepsInv(s: State, p: Proposal)
    requires Inv(s)
    ensures Inv(DoPropose(s, p).0)
  {
    if DoPropose(s, p).1 == Applied {
      ProposeEffect(s, p);
      hide DoPropose, Acyclic, Prerequisites, Replaced;
      var ps := Prerequisites(p.deps);
      FreshSourceAcyclic(s.rules.Keys, p.task, ps);
      EndsExist(s.rules.Keys, p.task, ps, s.revisions.Keys + {p.task});
    }
  }

  lemma ProposedRules(s: State, p: Proposal)
    requires forall e :: e in s.rules ==> e.0 != p.task
    ensures (s.rules + Rows(p.task, p.deps)).Keys == Replaced(s.rules.Keys, p.task, Prerequisites(p.deps))
  {
    hide Rows;
    assert forall e :: e in Rows(p.task, p.deps) <==> e in set q | q in Prerequisites(p.deps) :: (p.task, q);
  }

  /** Every serial run of replacements and follow-up creations keeps the graph acyclic. */
  lemma {:induction false} RunKeepsInv(s: State, ops: seq<Op>)
    requires Inv(s)
    ensures Inv(After(s, ops))
  {
    if ops != [] {
      RunKeepsInv(s, ops[..|ops| - 1]);
      StepKeepsInv(After(s, ops[..|ops| - 1]), ops[|ops| - 1]);
    }
  }

  // ----------------------------------------------------------- what a run remembers

  /** Recorded mutations stay as they are and revisions never fall. */
  ghost predicate Extends(a: State, b: State)
  {
    && (forall k :: k in a.mutations ==> k in b.mutations && b.mutations[k] == a.mutations[k])
    && (forall t :: t in a.revisions ==> t in b.revisions && a.revisions[t] <= b.revisions[t])
    && (forall k :: k in a.followups ==> k in b.followups && b.followups[k] == a.followups[k])
  }

  lemma StepExtends(s: State, op: Op)
    ensures Extends(s, Step(s, op).0)
  {
    hide Insertable, Rows, Cyclic, RulesNotOf, Prerequisites, FollowupsOf;
  }

  lemma {:induction false} RunExtends(s: State, ops: seq<Op>, i: nat)
    requires i <= |ops|
    ensures Extends(After(s, ops[..i]), After(s, ops))
    decreases |ops|
  {
    hide Step;
    if i == |ops| {
      assert ops[..i] == ops;
    } else {
      var front := ops[..|ops| - 1];
      assert front[..i] == ops[..i];
      RunExtends(s, front, i);
      StepExtends(After(s, front), ops[|ops| - 1]);
    }
  }

  ghost predicate AppliesTo(s: State, ops: seq<Op>, i: nat, t: Id)
  {
    i < |ops| && ops[i].Replace? && ops[i].r.task == t && Answer(s, ops, i) == Applied
  }

  lemma AppliedIsRecorded(s: State, ops: seq<Op>, i: nat, j: nat)
    requires i < j <= |ops| && ops[i].Replace? && Answer(s, ops, i) == Applied
    ensures var r, b := ops[i].r, After(s, ops[..j]);
      && (r.task, r.key) in b.mutations && b.mutations[(r.task, r.key)].digest == r.digest
      && r.task in b.revisions && r.revision < b.revisions[r.task]
  {
    assert ops[..i + 1][..i] == ops[..i];
    assert ops[..j][..i + 1] == ops[..i + 1];
    RunExtends(s, ops[..j], i + 1);
    assert After(s, ops[..i + 1]) == Step(After(s, ops[..i]), ops[i]).0;
  }

  /**
    Two applied replacements of one task carry different keys, and the later one names
    a later revision: a key is applied at most once and a revision is spent once.
   */
  lemma AppliedOnce(s: State, ops: seq<Op>, i: nat, j: nat, t: Id)
    requires i < j && AppliesTo(s, ops, i, t) && AppliesTo(s, ops, j, t)
    ensures ops[i].r.key != ops[j].r.key && ops[i].r.revision < ops[j].r.revision
  {
    AppliedIsRecorded(s, ops, i, j);
  }

  /** A call that repeats an applied key changes nothing, however late it arrives. */
  lemma LateReplay(s: State, ops: seq<Op>, i: nat, j: nat, t: Id)
    requires i < j < |ops| && AppliesTo(s, ops, i, t)
    requires ops[j].Replace? && ops[j].r.task == t && ops[j].r.key == ops[i].r.key && t in ops[j].r.visible
    ensures Step(After(s, ops[..j]), ops[j])
         == (After(s, ops[..j]), if ops[j].r.digest == ops[i].r.digest then Replayed else KeyReused)
  {
    AppliedIsRecorded(s, ops, i, j);
  }

  ghost predicate ProposesFor(s: State, ops: seq<Op>, i: nat, run: Id)
  {
    i < |ops| && ops[i].Propose? && ops[i].p.run == run && Answer(s, ops, i) == Applied
  }

  /** The same for follow-ups: a repeated key is a replay or a conflict, whatever the quota has become. */
  lemma LateFollowup(s: State, ops: seq<Op>, i: nat, j: nat, run: Id)
    requires i < j < |ops| && ProposesFor(s, ops, i, run)
    requires ops[j].Propose? && ops[j].p.run == run && ops[j].p.key == ops[i].p.key
    ensures Step(After(s, ops[..j]), ops[j])
         == (After(s, ops[..j]), if ops[j].p.digest == ops[i].p.digest then Replayed else KeyReused)
  {
    var a := After(s, ops[..i]);
    var b := After(s, ops[..i + 1]);
    assert ops[..i + 1][..i] == ops[..i];
    assert b == Step(a, ops[i]).0;
    assert ops[..j][..i + 1] == ops[..i + 1];
    RunExtends(s, ops[..j], i + 1);
    RunKeepsRuns(s, ops[..i]);
    RunKeepsRuns(s, ops[..j]);
    hide FollowupsOf, Rows, Insertable, Prerequisites, DoReplace, After;
  }

  lemma {:induction false} RunKeepsRuns(s: State, ops: seq<Op>)
    ensures After(s, ops).runs == s.runs
  {
    if ops != [] {
      RunKeepsRuns(s, ops[..|ops| - 1]);
    }
  }

  lemma StepKeepsRulesOf(s: State, op: Op, t: Id)
    requires t in s.revisions
    requires !(op.Replace? && op.r.task == t && Step(s, op).1 == Applied)
    ensures RulesOf(Step(s, op).0.rules, t) == RulesOf(s.rules, t)
  {
  }

  lemma ReplaceStores(s: State, r: Replacement)
    requires DoReplace(s, r).1 == Applied
    ensures RulesOf(DoReplace(s, r).0.rules, r.task) == Rows(r.task, r.deps)
  {
  }

  /** The stored dependencies of a task are the ones the last applied replacement asked for. */
  lemma {:induction false} LastAppliedStands(s: State, ops: seq<Op>, i: nat, t: Id)
    requires AppliesTo(s, ops, i, t)
    requires forall j :: i < j < |ops| ==> !AppliesTo(s, ops, j, t)
    ensures RulesOf(After(s, ops).rules, t) == Rows(t, ops[i].r.deps)
    decreases |ops|
  {
    hide DoReplace, DoPropose, Rows, RulesOf;
    var n := |ops| - 1;
    var front := ops[..n];
    if i == n {
      ReplaceStores(After(s, front), ops[n].r);
    } else {
      forall j | 0 <= j < n ensures AppliesTo(s, front, j, t) == AppliesTo(s, ops, j, t) {
        assert front[..j] == ops[..j];
      }
      LastAppliedStands(s, front, i, t);
      AppliedIsRecorded(s, ops, i, n);
      assert !AppliesTo(s, ops, n, t);
      StepKeepsRulesOf(After(s, front), ops[n], t);
    }
  }

  lemma StepKeepsQuota(s: State, op: Op, run: Id, quota: nat)
    requires |FollowupsOf(s, run)| <= quota
    requires op.Propose? && op.p.run == run ==> op.p.quota <= quota
    ensures |FollowupsOf(Step(s, op).0, run)| <= quota
  {
    hide Insertable, Rows, Cyclic, RulesNotOf, Prerequisites;
    var b := Step(s, op).0;
    if op.Propose? && Step(s, op).1 == Applied && op.p.run == run {
      assert FollowupsOf(b, run) == FollowupsOf(s, run) + {(run, op.p.key)};
    } else {
      assert FollowupsOf(b, run) == FollowupsOf(s, run);
    }
  }

  /** A source run never gets more follow-ups than its quota, and replays do not count. */
  lemma {:induction false} QuotaHolds(s: State, ops: seq<Op>, run: Id, quota: nat)
    requires |FollowupsOf(s, run)| <= quota
    requires forall i :: 0 <= i < |ops| && ops[i].Propose? && ops[i].p.run == run ==> ops[i].p.quota <= quota
    ensures |FollowupsOf(After(s, ops), run)| <= quota
  {
    hide Step, FollowupsOf;
    if ops != [] {
      QuotaHolds(s, ops[..|ops| - 1], run, quota);
      StepKeepsQuota(After(s, ops[..|ops| - 1]), ops[|ops| - 1], run, quota);
    }
  }

  // ------------------------------------------------------------------ the tables

  class DependencyStore {
    var revisions: map<Id, int>
    var rules: map<Edge, Rule>
    var mutations: map<(Id, string), Mutation>
    var runs: set<Id>
    var followups: map<(Id, string), Followup>

    constructor (s: State)
      ensures Contents() == s
    {
      revisions, rules, mutations, runs, followups := s.revisions, s.rules, s.mutations, s.runs, s.followups;
    }

    function Contents(): State
      reads this
    {
      State(revisions, rules, mutations, runs, followups)
    }

    /** `replace_task_dependencies`, statement by statement. */
    method ReplaceTaskDependencies(r: Replacement) returns (o: Outcome)
      modifies this
      ensures (Contents(), o) == DoReplace(old(Contents()), r)
    {
      hide Insertable, Rows, Cyclic;
      if r.task !in revisions || r.task !in r.visible {
        return NotFound;
      }
      if (r.task, r.key) in mutations {
        return if mutations[(r.task, r.key)].digest == r.digest then Replayed else KeyReused;
      }
      if revisions[r.task] != r.revision {
        return StaleRevision;
      }
      var locked := LockTasks(r.task, r.deps, revisions.Keys * r.visible);
      if !locked {
        return NotFound;
      }
      var cyclic := WouldFormCycle(rules, r.task, r.deps);
      if cyclic {
        return WouldCycle;
      }
      var saved := rules;
      rules := RulesNotOf(rules, r.task);
      var ok := InsertAll(r.task, r.deps);
      if !ok {
        rules := saved;
        return ConstraintViolated;
      }
      revisions := revisions[r.task := revisions[r.task] + 1];
      mutations := mutations[(r.task, r.key) := Mutation(r.digest, revisions[r.task])];
      return Applied;
    }

    /** Whether the task and all prerequisites are among the rows the lock query returns. */
    static method LockTasks(task: Id, deps: seq<NewDependency>, lockable: set<Id>) returns (all: bool)
      requires task in lockable
      ensures all <==> Prerequisites(deps) <= lockable
    {
      var ids := Prerequisites(deps) + {task};
      var locked := ids * lockable;
      all := |locked| == |ids|;
      if locked < ids {
        SubsetSize(locked, ids);
      }
      assert Prerequisites(deps) <= lockable <==> locked == ids;
    }

    /** The check made for each requested prerequisite in turn. */
    static method WouldFormCycle(rules: map<Edge, Rule>, task: Id, deps: seq<NewDependency>) returns (yes: bool)
      ensures yes <==> Cyclic(rules, task, deps)
    {
      var i := 0;
      while i < |deps|
        invariant 0 <= i <= |deps|
        invariant forall j :: 0 <= j < i ==> !Reach(rules.Keys, deps[j].prerequisite, task)
      {
        var reachable := Closure(rules.Keys, deps[i].prerequisite);
        if task in reachable {
          assert deps[i].prerequisite in Prerequisites(deps);
          return true;
        }
        i := i + 1;
      }
      return false;
    }

    /** Inserts rows until one violates a constraint. */
    method InsertAll(t: Id, deps: seq<NewDependency>) returns (ok: bool)
      requires RulesOf(rules, t) == map[]
      modifies this`rules
      ensures ok <==> Insertable(t, deps)
      ensures ok ==> rules == old(rules) + Rows(t, deps)
    {
      hide Insertable, Rows;
      var i := 0;
      InsertNone(t, deps);
      while i < |deps|
        invariant 0 <= i <= |deps|
        invariant Insertable(t, deps[..i])
        invariant rules == old(rules) + Rows(t, deps[..i])
      {
        var p := deps[i].prerequisite;
        InsertNext(t, deps, i, old(rules));
        if p == t || (t, p) in rules {
          return false;
        }
        rules := rules[(t, p) := deps[i].rule];
        i := i + 1;
      }
      assert deps[..i] == deps;
      return true;
    }

    static lemma InsertNone(t: Id, deps: seq<NewDependency>)
      ensures Insertable(t, deps[..0]) && Rows(t, deps[..0]) == map[]
    {
    }

    static lemma InsertNext(t: Id, deps: seq<NewDependency>, i: nat, before: map<Edge, Rule>)
      requires i < |deps| && Insertable(t, deps[..i]) && RulesOf(before, t) == map[]
      ensures var p, now := deps[i].prerequisite, before + Rows(t, deps[..i]);
        if p == t || (t, p) in now then !Insertable(t, deps)
        else Insertable(t, deps[..i + 1]) && before + Rows(t, deps[..i + 1]) == now[(t, p) := deps[i].rule]
    {
      hide Rows, Insertable, Prerequisites;
      var p := deps[i].prerequisite;
      RowsSnoc(t, deps, i);
      InsertableNext(t, deps, i);
      assert (t, p) in before ==> (t, p) in RulesOf(before, t);
      assert (t, p) in Rows(t, deps[..i]).Keys <==> p in Prerequisites(deps[..i]);
    }

    static lemma InsertableNext(t: Id, deps: seq<NewDependency>, i: nat)
      requires i < |deps| && Insertable(t, deps[..i])
      ensures var p := deps[i].prerequisite;
        if p == t || p in Prerequisites(deps[..i]) then !Insertable(t, deps) else Insertable(t, deps[..i + 1])
    {
      var p := deps[i].prerequisite;
      assert Prerequisites(deps[..i + 1]) == Prerequisites(deps[..i]) + {p};
      if p == t || p in Prerequisites(deps[..i]) {
        InsertableFront(t, deps, i + 1);
      } else {
        var front, next := deps[..i], deps[..i + 1];
        forall j, k | 0 <= j < k < |next| ensures next[j].prerequisite != next[k].prerequisite {
          assert front[j].prerequisite in Prerequisites(front);
          assert k < i ==> front[j].prerequisite != front[k].prerequisite;
        }
      }
    }

    static lemma RowsSnoc(t: Id, deps: seq<NewDependency>, i: nat)
      requires i < |deps|
      ensures Rows(t, deps[..i + 1]) == Rows(t, deps[..i])[(t, deps[i].prerequisite) := deps[i].rule]
    {
      assert deps[..i + 1][..i] == deps[..i];
    }

    static lemma InsertableFront(t: Id, deps: seq<NewDependency>, n: nat)
      requires n <= |deps| && !Insertable(t, deps[..n])
      ensures !Insertable(t, deps)
    {
      assert Prerequisites(deps[..n]) <= Prerequisites(deps);
    }

    /** `create_followup_task`, statement by statement. */
    method CreateFollowupTask(p: Proposal) returns (o: Outcome)
      modifies this
      requires forall e :: e in rules ==> e.0 in revisions
      ensures (Contents(), o) == DoPropose(old(Contents()), p)
    {
      if p.run !in runs {
        return NotFound;
      }
      if (p.run, p.key) in followups {
        return if followups[(p.run, p.key)].digest == p.digest then Replayed else KeyReused;
      }
      if |FollowupsOf(Contents(), p.run)| >= p.quota {
        return QuotaUsedUp;
      }
      if p.task in revisions {
        return ConstraintViolated;
      }
      var savedRevisions, savedRules := revisions, rules;
      revisions := revisions[p.task := 1];
      var ok := InsertAll(p.task, p.deps);
      if !ok || !(Prerequisites(p.deps) <= revisions.Keys) {
        revisions, rules := savedRevisions, savedRules;
        return ConstraintViolated;
      }
      followups := followups[(p.run, p.key) := Followup(p.digest, p.task)];
      return Applied;
    }
  }
}
