/**
  Terminal-state propagation along task dependencies.

  One pass reads every dependency whose prerequisite is terminal and then moves each
  dependent task once, on the strongest action its dependencies ask for. The module
  describes a pass as a function on statuses, bounds how many passes are needed, and
  compares where repeated passes stop with a verdict defined directly on the graph.
 */
module Propagation {
  import opened Types
  import opened Graph

  datatype Action = Fail | Skip | Wait

  /** The payload of one `devrail_task_dependencies` row. */
  datatype Rule = Rule(id: Id, onFailure: Action, onCancelled: Action, onTimeout: Action)

  /**
    What a pass reads besides the statuses: the dependency rows, keyed by
    (task, prerequisite), and the tasks whose latest failed run ended in
    `timeout` or `stall`.
   */
  datatype Config = Config(rules: map<Edge, Rule>, timedOut: set<Id>)

  type Statuses = map<Id, Status>

  function Rank(a: Action): nat
  {
    match a
    case Fail => 0
    case Skip => 1
    case Wait => 2
  }

  predicate Terminal(s: Status)
  {
    s == Failed || s == Cancelled || s == Skipped
  }

  predicate Movable(s: Status)
  {
    s == Queued || s == Skipped
  }

  function Level(s: Status): nat
  {
    match s
    case Failed => 2
    case Skipped => 1
    case _ => 0
  }

  /** What dependency `e` asks for when its prerequisite has status `s`; nothing unless `s` is terminal. */
  function Says(cfg: Config, e: Edge, s: Status): Action
    requires e in cfg.rules
  {
    if !Terminal(s) then Wait
    else if s == Cancelled then cfg.rules[e].onCancelled
    else if s == Failed && e.1 in cfg.timedOut then cfg.rules[e].onTimeout
    else cfg.rules[e].onFailure
  }

  /** The status change a winning action makes. */
  function Move(current: Status, action: Action): Status
  {
    match (current, action)
    case (Queued, Fail) => Failed
    case (Skipped, Fail) => Failed
    case (Queued, Skip) => Skipped
    case _ => current
  }

  /** Foreign keys: both ends of a dependency are task rows. */
  ghost predicate Total(cfg: Config, sts: Statuses)
  {
    forall e :: e in cfg.rules ==> e.0 in sts && e.1 in sts
  }

  ghost predicate Delivers(cfg: Config, sts: Statuses, t: Id, a: Action)
    requires Total(cfg, sts)
  {
    exists p :: (t, p) in cfg.rules && Says(cfg, (t, p), sts[p]) == a
  }

  /** The strongest action that the dependencies of `t` ask for. */
  ghost function Asked(cfg: Config, sts: Statuses, t: Id): Action
    requires Total(cfg, sts)
  {
    if Delivers(cfg, sts, t, Fail) then Fail else if Delivers(cfg, sts, t, Skip) then Skip else Wait
  }

  lemma AskedIsStrongest(cfg: Config, sts: Statuses, t: Id, p: Id)
    requires Total(cfg, sts) && (t, p) in cfg.rules
    ensures Rank(Asked(cfg, sts, t)) <= Rank(Says(cfg, (t, p), sts[p]))
  {
  }

  lemma AskedHasSource(cfg: Config, sts: Statuses, t: Id) returns (p: Id)
    requires Total(cfg, sts) && Asked(cfg, sts, t) != Wait
    ensures (t, p) in cfg.rules && Says(cfg, (t, p), sts[p]) == Asked(cfg, sts, t)
  {
    p :| (t, p) in cfg.rules && Says(cfg, (t, p), sts[p]) == Asked(cfg, sts, t);
  }

  /** The status a pass over `sts` gives to task `t` that is in status `current`. */
  ghost function Next(cfg: Config, sts: Statuses, t: Id, current: Status): Status
    requires Total(cfg, sts)
  {
    Move(current, Asked(cfg, sts, t))
  }

  /** One run of `reconcile_task_dependencies`, on statuses: all tasks move at once on the old statuses. */
  ghost function Pass(cfg: Config, sts: Statuses): Statuses
    requires Total(cfg, sts)
  {
    map t | t in sts :: Next(cfg, sts, t, sts[t])
  }

  /** Some prerequisite of `t` has ended in a way for which its dependency row holds action `a`. */
  ghost predicate SomeColumnHolds(cfg: Config, sts: Statuses, t: Id, a: Action)
  {
    exists p :: (t, p) in cfg.rules && p in sts &&
      var rule := cfg.rules[(t, p)];
      || (sts[p] == Cancelled && rule.onCancelled == a)
      || (sts[p] == Failed && p in cfg.timedOut && rule.onTimeout == a)
      || (sts[p] == Failed && p !in cfg.timedOut && rule.onFailure == a)
      || (sts[p] == Skipped && rule.onFailure == a)
  }

  /**
    What a pass does to a task, by the columns of its dependency rows: a queued or skipped task fails
    exactly if one of them says so, a queued task is skipped exactly if one says that and none says
    to fail, and everything else stays.
   */
  lemma PassByColumns(cfg: Config, sts: Statuses, t: Id)
    requires Total(cfg, sts) && t in sts
    ensures Pass(cfg, sts).Keys == sts.Keys
    ensures var movable, after := sts[t] == Queued || sts[t] == Skipped, Pass(cfg, sts)[t];
      var fails, skips := SomeColumnHolds(cfg, sts, t, Fail), SomeColumnHolds(cfg, sts, t, Skip);
      && (movable ==> (after == Failed <==> fails))
      && (sts[t] == Queued ==> (after == Skipped <==> skips && !fails))
      && (!movable || (!fails && !(sts[t] == Queued && skips)) ==> after == sts[t])
  {
    ColumnsAsk(cfg, sts, t, Fail);
    ColumnsAsk(cfg, sts, t, Skip);
  }

  lemma ColumnsAsk(cfg: Config, sts: Statuses, t: Id, a: Action)
    requires Total(cfg, sts) && a != Wait
    ensures SomeColumnHolds(cfg, sts, t, a) <==> Delivers(cfg, sts, t, a)
  {
  }

  ghost function Passes(cfg: Config, sts: Statuses, n: nat): (r: Statuses)
    requires Total(cfg, sts)
    ensures r.Keys == sts.Keys
  {
    if n == 0 then sts else Pass(cfg, Passes(cfg, sts, n - 1))
  }

  ghost function Changed(a: Statuses, b: Statuses): set<Id>
  {
    set t | t in a && t in b && a[t] != b[t]
  }

  // ------------------------------------------------------------- how long it takes

  /** What a pass does to a task depends on its prerequisites only, and a second time it does nothing. */
  lemma NextIsLocal(cfg: Config, a: Statuses, b: Statuses, t: Id, current: Status)
    requires Total(cfg, a) && Total(cfg, b)
    requires forall p :: (t, p) in cfg.rules ==> a[p] == b[p]
    ensures Next(cfg, a, t, current) == Next(cfg, b, t, current)
    ensures Next(cfg, b, t, Next(cfg, a, t, current)) == Next(cfg, a, t, current)
  {
    assert Delivers(cfg, a, t, Fail) == Delivers(cfg, b, t, Fail);
    assert Delivers(cfg, a, t, Skip) == Delivers(cfg, b, t, Skip);
  }

  lemma NextWithoutPrerequisites(cfg: Config, sts: Statuses, t: Id, current: Status)
    requires Total(cfg, sts) && forall p :: (t, p) !in cfg.rules
    ensures Next(cfg, sts, t, current) == current
  {
  }

  /** A task whose chains have at most `k` dependencies does not move after `k` passes. */
  lemma {:induction false} StableAtHeight(cfg: Config, sts: Statuses, t: Id, k: nat)
    requires Total(cfg, sts) && t in sts
    requires HeightAtMost(cfg.rules.Keys, t, k)
    ensures Passes(cfg, sts, k + 1)[t] == Passes(cfg, sts, k)[t]
    decreases k
  {
    hide Next;
    forall p | (t, p) in cfg.rules
      ensures k >= 1 && Passes(cfg, sts, k)[p] == Passes(cfg, sts, k - 1)[p]
    {
      HeightStep(cfg.rules.Keys, t, p, k);
      StableAtHeight(cfg, sts, p, k - 1);
    }
    if k >= 1 {
      var a, b := Passes(cfg, sts, k - 1), Passes(cfg, sts, k);
      NextIsLocal(cfg, a, b, t, a[t]);
    } else {
      NextWithoutPrerequisites(cfg, sts, t, sts[t]);
    }
  }

  ghost predicate Quiescent(cfg: Config, sts: Statuses)
    requires Total(cfg, sts)
  {
    Pass(cfg, sts) == sts
  }

  /** Passes settle within as many rounds as the longest dependency chain has links. */
  lemma SettlesWithinLongestChain(cfg: Config, sts: Statuses, k: nat)
    requires Total(cfg, sts)
    requires forall t :: t in sts ==> HeightAtMost(cfg.rules.Keys, t, k)
    ensures Quiescent(cfg, Passes(cfg, sts, k))
  {
    hide HeightAtMost, Next;
    forall t | t in sts
      ensures Passes(cfg, sts, k + 1)[t] == Passes(cfg, sts, k)[t]
    {
      StableAtHeight(cfg, sts, t, k);
    }
    assert Passes(cfg, sts, k + 1) == Pass(cfg, Passes(cfg, sts, k));
  }

  /** The number of tasks that are a prerequisite bounds every chain, so some number of passes always settles. */
  lemma SettlesOnAcyclic(cfg: Config, sts: Statuses)
    requires Total(cfg, sts) && Acyclic(cfg.rules.Keys)
    ensures Quiescent(cfg, Passes(cfg, sts, |set e | e in cfg.rules :: e.1|))
  {
    var g := cfg.rules.Keys;
    var targets := set e | e in cfg.rules :: e.1;
    forall t | t in sts ensures HeightAtMost(g, t, |targets|) {
      forall p | Path(g, p) && p[0] == t ensures |p| - 1 <= |targets| {
        ChainBounded(g, p);
        SubsetSizeLe(Below(g, t), targets);
      }
    }
    SettlesWithinLongestChain(cfg, sts, |targets|);
  }

  lemma SubsetSizeLe<T>(a: set<T>, b: set<T>)
    requires a <= b
    ensures |a| <= |b|
  {
    if a != b {
      SubsetSize(a, b);
    }
  }

  /** Once a pass changes nothing, no later pass does. */
  lemma {:induction false} ZeroStaysZero(cfg: Config, sts: Statuses, n: nat)
    requires Total(cfg, sts) && Changed(sts, Pass(cfg, sts)) == {}
    ensures Passes(cfg, sts, n) == sts
  {
    hide Next;
    if n > 0 {
      ZeroStaysZero(cfg, sts, n - 1);
      assert forall t :: t in sts ==> (t in Changed(sts, Pass(cfg, sts)) <==> Pass(cfg, sts)[t] != sts[t]);
      assert Pass(cfg, sts) == sts;
    }
  }

  ghost function WithStatus(sts: Statuses, s: Status): set<Id>
  {
    set t | t in sts && sts[t] == s
  }

  ghost function Weight(sts: Statuses): nat
  {
    2 * |WithStatus(sts, Queued)| + |WithStatus(sts, Skipped)|
  }

  lemma WeightAsUnion(sts: Statuses)
    ensures Weight(sts) == |WithStatus(sts, Queued)| + |WithStatus(sts, Queued) + WithStatus(sts, Skipped)|
  {
    assert WithStatus(sts, Queued) !! WithStatus(sts, Skipped);
  }

  /** Every pass that changes a task uses up weight: two for each queued task and one for each skipped one. */
  lemma PassLosesWeight(cfg: Config, sts: Statuses)
    requires Total(cfg, sts)
    ensures Weight(Pass(cfg, sts)) <= Weight(sts)
    ensures Changed(sts, Pass(cfg, sts)) != {} ==> Weight(Pass(cfg, sts)) < Weight(sts)
  {
    hide Asked;
    var after := Pass(cfg, sts);
    var q, q' := WithStatus(sts, Queued), WithStatus(after, Queued);
    var m, m' := q + WithStatus(sts, Skipped), q' + WithStatus(after, Skipped);
    WeightAsUnion(sts);
    WeightAsUnion(after);
    SubsetSizeLe(q', q);
    SubsetSizeLe(m', m);
    if t :| t in Changed(sts, after) {
      if sts[t] == Queued {
        assert t in q && t !in q';
        SubsetSize(q', q);
      } else {
        assert t in m && t !in m';
        SubsetSize(m', m);
      }
    }
  }

  // ------------------------------------------------------------------- the verdict

  lemma BelowShrinksAll(g: set<Edge>, t: Id)
    requires Acyclic(g)
    ensures forall p :: (t, p) in g ==> |Below(g, p)| < |Below(g, t)|
  {
    forall p | (t, p) in g ensures |Below(g, p)| < |Below(g, t)| {
      BelowShrinks(g, t, p);
    }
  }

  /**
    The reference definition: a queued or skipped task moves on the strongest action
    its dependencies ask for, given the verdicts of its prerequisites; every other
    task keeps its status.
   */
  ghost function Verdict(cfg: Config, sts: Statuses, t: Id): Status
    requires Total(cfg, sts) && Acyclic(cfg.rules.Keys) && t in sts
    decreases |Below(cfg.rules.Keys, t)|
  {
    BelowShrinksAll(cfg.rules.Keys, t);
    if exists p :: (t, p) in cfg.rules && Says(cfg, (t, p), Verdict(cfg, sts, p)) == Fail then
      Move(sts[t], Fail)
    else if exists p :: (t, p) in cfg.rules && Says(cfg, (t, p), Verdict(cfg, sts, p)) == Skip then
      Move(sts[t], Skip)
    else
      sts[t]
  }

  ghost function Verdicts(cfg: Config, sts: Statuses): Statuses
    requires Total(cfg, sts) && Acyclic(cfg.rules.Keys)
  {
    map t | t in sts :: Verdict(cfg, sts, t)
  }

  /** `v` gives every task the status it takes from `sts` when its prerequisites have their status in `v`. */
  ghost predicate Solves(cfg: Config, sts: Statuses, v: Statuses)
    requires Total(cfg, sts)
  {
    v.Keys == sts.Keys && forall t :: t in sts ==> v[t] == Next(cfg, v, t, sts[t])
  }

  lemma VerdictsSolve(cfg: Config, sts: Statuses)
    requires Total(cfg, sts) && Acyclic(cfg.rules.Keys)
    ensures Solves(cfg, sts, Verdicts(cfg, sts))
  {
    var v := Verdicts(cfg, sts);
    forall t | t in sts ensures v[t] == Next(cfg, v, t, sts[t]) {
      VerdictUnfolds(cfg, sts, v, t);
    }
  }

  lemma VerdictUnfolds(cfg: Config, sts: Statuses, v: Statuses, t: Id)
    requires Total(cfg, sts) && Acyclic(cfg.rules.Keys) && t in sts
    requires v.Keys == sts.Keys && forall p :: (t, p) in cfg.rules ==> v[p] == Verdict(cfg, sts, p)
    ensures Verdict(cfg, sts, t) == Next(cfg, v, t, sts[t])
  {
    assert Delivers(cfg, v, t, Fail)
        == exists p :: (t, p) in cfg.rules && Says(cfg, (t, p), Verdict(cfg, sts, p)) == Fail;
    assert Delivers(cfg, v, t, Skip)
        == exists p :: (t, p) in cfg.rules && Says(cfg, (t, p), Verdict(cfg, sts, p)) == Skip;
  }

  /**
    The condition under which passes and verdict agree, read off the dependency rows.
    Where `p` has timed out before and the action on `p`'s failure is stronger than
    the action on its timeout, `t` may act on `p` being skipped although `p` ends up
    failed. That is harmless exactly if every `q` able to fail `p` asks at least as
    much of `t` itself.
   */
  ghost predicate Confluent(cfg: Config)
  {
    forall t, p, q, x ::
      (t, p) in cfg.rules && (p, q) in cfg.rules && Weakens(cfg, t, p) && Says(cfg, (p, q), x) == Fail
      ==> Covers(cfg, t, p, q, x)
  }

  ghost predicate Weakens(cfg: Config, t: Id, p: Id)
    requires (t, p) in cfg.rules
  {
    p in cfg.timedOut && Rank(cfg.rules[(t, p)].onFailure) < Rank(cfg.rules[(t, p)].onTimeout)
  }

  ghost predicate Covers(cfg: Config, t: Id, p: Id, q: Id, x: Status)
    requires (t, p) in cfg.rules
  {
    (t, q) in cfg.rules && Rank(Says(cfg, (t, q), x)) <= Rank(cfg.rules[(t, p)].onFailure)
  }

  /** Where a task may be on its way from its first status to its last. */
  predicate OnTheWay(first: Status, now: Status, last: Status)
  {
    if Movable(first) then
      && (Movable(now) || now == Failed) && (Movable(last) || last == Failed)
      && Level(first) <= Level(now) <= Level(last)
    else first == now == last
  }

  ghost predicate AllOnTheWay(sts: Statuses, now: Statuses, v: Statuses)
  {
    && now.Keys == sts.Keys == v.Keys
    && forall t :: t in sts ==> OnTheWay(sts[t], now[t], v[t])
  }

  /** Whatever a prerequisite asks for on its way, a solution asks for at least as much. */
  lemma AskedGrows(cfg: Config, sts: Statuses, now: Statuses, v: Statuses, t: Id)
    requires Total(cfg, sts) && Confluent(cfg) && Solves(cfg, sts, v)
    requires AllOnTheWay(sts, now, v) && t in sts
    ensures Rank(Asked(cfg, v, t)) <= Rank(Asked(cfg, now, t))
  {
    hide Asked;
    if Asked(cfg, now, t) != Wait {
      var p := AskedHasSource(cfg, now, t);
      AskedIsStrongest(cfg, v, t, p);
      assert OnTheWay(sts[p], now[p], v[p]);
      if Rank(Says(cfg, (t, p), now[p])) < Rank(Says(cfg, (t, p), v[p])) {
        assert now[p] == Skipped && v[p] == Failed && Weakens(cfg, t, p);
        assert v[p] == Next(cfg, v, p, sts[p]);
        var q := AskedHasSource(cfg, v, p);
        assert Covers(cfg, t, p, q, v[q]);
        AskedIsStrongest(cfg, v, t, q);
      }
    }
  }

  lemma NextStaysOnTheWay(cfg: Config, sts: Statuses, now: Statuses, v: Statuses, t: Id)
    requires Total(cfg, sts) && Confluent(cfg) && Solves(cfg, sts, v)
    requires AllOnTheWay(sts, now, v) && t in sts
    ensures OnTheWay(sts[t], Next(cfg, now, t, now[t]), v[t])
  {
    hide Confluent, Asked;
    assert OnTheWay(sts[t], now[t], v[t]) && v[t] == Next(cfg, v, t, sts[t]);
    AskedGrows(cfg, sts, now, v, t);
  }

  lemma {:induction false} PassesOnTheWay(cfg: Config, sts: Statuses, v: Statuses, n: nat)
    requires Total(cfg, sts) && Confluent(cfg) && Solves(cfg, sts, v)
    ensures AllOnTheWay(sts, Passes(cfg, sts, n), v)
  {
    hide Next, Confluent, Pass, Solves, OnTheWay, AllOnTheWay;
    if n > 0 {
      PassesOnTheWay(cfg, sts, v, n - 1);
      PassStaysOnTheWay(cfg, sts, Passes(cfg, sts, n - 1), v);
    } else {
      StartsOnTheWay(cfg, sts, v);
    }
  }

  lemma StartsOnTheWay(cfg: Config, sts: Statuses, v: Statuses)
    requires Total(cfg, sts) && Solves(cfg, sts, v)
    ensures AllOnTheWay(sts, sts, v)
  {
    hide Asked;
  }

  lemma PassStaysOnTheWay(cfg: Config, sts: Statuses, now: Statuses, v: Statuses)
    requires Total(cfg, sts) && Confluent(cfg) && Solves(cfg, sts, v)
    requires AllOnTheWay(sts, now, v)
    ensures AllOnTheWay(sts, Pass(cfg, now), v)
  {
    hide Next, Confluent, Solves, OnTheWay;
    forall t | t in sts ensures OnTheWay(sts[t], Pass(cfg, now)[t], v[t]) {
      NextStaysOnTheWay(cfg, sts, now, v, t);
    }
  }

  /** Statuses on the way that a pass no longer changes are the solution. */
  lemma {:induction false} QuiescentIsSolution(cfg: Config, sts: Statuses, now: Statuses, v: Statuses, t: Id)
    requires Total(cfg, sts) && Acyclic(cfg.rules.Keys) && t in sts
    requires Solves(cfg, sts, v) && AllOnTheWay(sts, now, v) && Quiescent(cfg, now)
    ensures now[t] == v[t]
    decreases |Below(cfg.rules.Keys, t)|
  {
    hide Next, Solves, Quiescent, OnTheWay, Acyclic, Below;
    forall p | (t, p) in cfg.rules ensures now[p] == v[p] {
      BelowShrinks(cfg.rules.Keys, t, p);
      QuiescentIsSolution(cfg, sts, now, v, p);
    }
    QuiescentAt(cfg, now, t);
    SolvesAt(cfg, sts, v, t);
    SameAskedSameStatus(cfg, now, v, t, sts[t]);
  }

  lemma QuiescentAt(cfg: Config, now: Statuses, t: Id)
    requires Total(cfg, now) && Quiescent(cfg, now) && t in now
    ensures now[t] == Next(cfg, now, t, now[t])
  {
    hide Next;
    assert now[t] == Pass(cfg, now)[t];
  }

  lemma SolvesAt(cfg: Config, sts: Statuses, v: Statuses, t: Id)
    requires Total(cfg, sts) && Solves(cfg, sts, v) && t in sts
    ensures v.Keys == sts.Keys && v[t] == Next(cfg, v, t, sts[t])
  {
  }

  lemma SameAskedSameStatus(cfg: Config, now: Statuses, v: Statuses, t: Id, first: Status)
    requires Total(cfg, now) && Total(cfg, v) && t in now && t in v
    requires forall p :: (t, p) in cfg.rules ==> now[p] == v[p]
    requires now[t] == Next(cfg, now, t, now[t]) && v[t] == Next(cfg, v, t, first)
    requires OnTheWay(first, now[t], v[t])
    ensures now[t] == v[t]
  {
    assert Delivers(cfg, now, t, Fail) == Delivers(cfg, v, t, Fail);
    assert Delivers(cfg, now, t, Skip) == Delivers(cfg, v, t, Skip);
  }

  /** Wherever passes settle, from whatever statuses, every task holds its verdict. */
  ghost predicate SettlesOnVerdict(cfg: Config)
    requires Acyclic(cfg.rules.Keys)
  {
    forall sts, n: nat ::
      Total(cfg, sts) && Quiescent(cfg, Passes(cfg, sts, n))
      ==> Passes(cfg, sts, n) == Verdicts(cfg, sts)
  }

  lemma ConfluentSettles(cfg: Config, sts: Statuses, n: nat)
    requires Acyclic(cfg.rules.Keys) && Confluent(cfg)
    requires Total(cfg, sts) && Quiescent(cfg, Passes(cfg, sts, n))
    ensures Passes(cfg, sts, n) == Verdicts(cfg, sts)
  {
    hide Next, Confluent, Verdict, Passes, Quiescent;
    var v, now := Verdicts(cfg, sts), Passes(cfg, sts, n);
    VerdictsSolve(cfg, sts);
    PassesOnTheWay(cfg, sts, v, n);
    forall t | t in sts ensures now[t] == v[t] {
      QuiescentIsSolution(cfg, sts, now, v, t);
    }
  }

  lemma NextOnlyRises(cfg: Config, sts: Statuses, t: Id, s: Status)
    requires Total(cfg, sts)
    ensures Level(s) <= Level(Next(cfg, sts, t, s))
  {
  }

  lemma {:induction false} LevelsOnlyRise(cfg: Config, sts: Statuses, t: Id, m: nat, n: nat)
    requires Total(cfg, sts) && t in sts && m <= n
    ensures Level(Passes(cfg, sts, m)[t]) <= Level(Passes(cfg, sts, n)[t])
    decreases n - m
  {
    hide Next;
    if m < n {
      LevelsOnlyRise(cfg, sts, t, m, n - 1);
      NextOnlyRises(cfg, Passes(cfg, sts, n - 1), t, Passes(cfg, sts, n - 1)[t]);
    }
  }

  function Nodes(g: set<Edge>): set<Id>
  {
    (set e | e in g :: e.0) + (set e | e in g :: e.1)
  }

  /** Statuses that expose a violated condition: only `t`, `p` and `q` take part. */
  function Witness(cfg: Config, t: Id, p: Id, q: Id, x: Status): Statuses
  {
    map n | n in Nodes(cfg.rules.Keys) ::
      if n == t then Queued else if n == p then Skipped else if n == q then x else Draft
  }

  /** A task whose prerequisites are all drafts keeps its status, and so does any task that is no longer movable. */
  lemma VerdictOfIdle(cfg: Config, sts: Statuses, v: Statuses, n: Id)
    requires Total(cfg, sts) && Solves(cfg, sts, v) && n in sts
    requires !Movable(sts[n]) || forall m :: (n, m) in cfg.rules ==> sts[m] == Draft && v[m] == Draft
    ensures v[n] == sts[n]
  {
    hide Asked;
    assert v[n] == Next(cfg, v, n, sts[n]);
    if Movable(sts[n]) && Asked(cfg, v, n) != Wait {
      var m := AskedHasSource(cfg, v, n);
    }
  }

  lemma WitnessSolution(cfg: Config, v: Statuses, t: Id, p: Id, q: Id, x: Status)
    requires Acyclic(cfg.rules.Keys) && Total(cfg, Witness(cfg, t, p, q, x))
    requires (t, p) in cfg.rules && (p, q) in cfg.rules && Says(cfg, (p, q), x) == Fail
    requires Solves(cfg, Witness(cfg, t, p, q, x), v)
    ensures t != p && p != q && t != q
    ensures v[q] == x && v[p] == Failed
    ensures forall n :: n in v && n != t && n != p && n != q ==> v[n] == Draft
  {
    hide Next;
    var g, sts := cfg.rules.Keys, Witness(cfg, t, p, q, x);
    ReachEdge(g, t, p);
    ReachEdge(g, p, q);
    ReachTrans(g, t, p, q);
    forall n | n in v && n != t && n != p && n != q ensures v[n] == Draft {
      VerdictOfIdle(cfg, sts, v, n);
    }
    forall m | (q, m) in cfg.rules ensures m != t && m != p && m != q {
      ReachEdge(g, q, m);
      ReachTrans(g, p, q, m);
      ReachTrans(g, t, q, m);
    }
    VerdictOfIdle(cfg, sts, v, q);
    assert v[p] == Next(cfg, v, p, Skipped);
    NextOnFail(cfg, v, p, q, Skipped);
  }

  lemma NextOnFail(cfg: Config, sts: Statuses, t: Id, p: Id, s: Status)
    requires Total(cfg, sts) && (t, p) in cfg.rules && Says(cfg, (t, p), sts[p]) == Fail && Movable(s)
    ensures Next(cfg, sts, t, s) == Failed
  {
    AskedIsStrongest(cfg, sts, t, p);
  }

  lemma WitnessAsksLess(cfg: Config, v: Statuses, t: Id, p: Id, q: Id, x: Status)
    requires Total(cfg, v) && (t, p) in cfg.rules && (t, t) !in cfg.rules
    requires Weakens(cfg, t, p) && !Covers(cfg, t, p, q, x)
    requires q in v && v[q] == x && v[p] == Failed && p != q
    requires forall n :: n in v && n != t && n != p && n != q ==> v[n] == Draft
    ensures Rank(cfg.rules[(t, p)].onFailure) < Rank(Asked(cfg, v, t))
  {
    hide Asked;
    if Asked(cfg, v, t) != Wait {
      var n := AskedHasSource(cfg, v, t);
      assert n == p || n == q;
    }
  }

  lemma WitnessSeparates(cfg: Config, v: Statuses, t: Id, p: Id, q: Id, x: Status)
    requires Acyclic(cfg.rules.Keys) && Total(cfg, Witness(cfg, t, p, q, x))
    requires (t, p) in cfg.rules && (p, q) in cfg.rules && Weakens(cfg, t, p) && Says(cfg, (p, q), x) == Fail
    requires !Covers(cfg, t, p, q, x)
    requires Solves(cfg, Witness(cfg, t, p, q, x), v)
    ensures Level(v[t]) < Level(Pass(cfg, Witness(cfg, t, p, q, x))[t])
  {
    hide Asked, Covers, Acyclic, Solves, Weakens;
    var sts := Witness(cfg, t, p, q, x);
    WitnessSolution(cfg, v, t, p, q, x);
    NoSelfEdge(cfg.rules.Keys, t);
    SolvesAt(cfg, sts, v, t);
    hide Witness;
    WitnessAt(cfg, t, p, q, x);
    WitnessAsksLess(cfg, v, t, p, q, x);
    AskedIsStrongest(cfg, sts, t, p);
    MoveIsMonotone(Asked(cfg, sts, t), Asked(cfg, v, t));
  }

  lemma NoSelfEdge(g: set<Edge>, t: Id)
    requires Acyclic(g)
    ensures (t, t) !in g
  {
    if (t, t) in g {
      ReachEdge(g, t, t);
    }
  }

  lemma WitnessAt(cfg: Config, t: Id, p: Id, q: Id, x: Status)
    requires (t, p) in cfg.rules && t != p
    ensures t in Witness(cfg, t, p, q, x) && p in Witness(cfg, t, p, q, x)
    ensures Witness(cfg, t, p, q, x)[t] == Queued && Witness(cfg, t, p, q, x)[p] == Skipped
  {
    assert (t, p).0 in Nodes(cfg.rules.Keys) && (t, p).1 in Nodes(cfg.rules.Keys);
  }

  lemma MoveIsMonotone(a: Action, b: Action)
    ensures Rank(a) < Rank(b) ==> Level(Move(Queued, b)) < Level(Move(Queued, a))
  {
  }

  /** Propagation settles on the verdicts from every start if and only if the dependency rows are confluent. */
  lemma SettlesOnVerdictIffConfluent(cfg: Config)
    requires Acyclic(cfg.rules.Keys)
    ensures SettlesOnVerdict(cfg) <==> Confluent(cfg)
  {
    hide Next, Verdict, Quiescent, Verdicts;
    if Confluent(cfg) {
      hide Confluent, Passes;
      forall sts, n: nat | Total(cfg, sts) && Quiescent(cfg, Passes(cfg, sts, n))
        ensures Passes(cfg, sts, n) == Verdicts(cfg, sts)
      {
        ConfluentSettles(cfg, sts, n);
      }
    } else {
      var t, p, q, x :|
        (t, p) in cfg.rules && (p, q) in cfg.rules && Weakens(cfg, t, p) && Says(cfg, (p, q), x) == Fail
        && !Covers(cfg, t, p, q, x);
      ViolationShows(cfg, t, p, q, x);
    }
  }

  lemma ViolationShows(cfg: Config, t: Id, p: Id, q: Id, x: Status)
    requires Acyclic(cfg.rules.Keys)
    requires (t, p) in cfg.rules && (p, q) in cfg.rules && Weakens(cfg, t, p) && Says(cfg, (p, q), x) == Fail
    requires !Covers(cfg, t, p, q, x)
    ensures !SettlesOnVerdict(cfg)
  {
    hide Next, Verdict, Quiescent, Verdicts, Says, Weakens, Covers;
    var sts := Witness(cfg, t, p, q, x);
    var v := Verdicts(cfg, sts);
    var n := |set e | e in cfg.rules :: e.1|;
    VerdictsSolve(cfg, sts);
    WitnessSeparates(cfg, v, t, p, q, x);
    assert (t, p).1 in set e | e in cfg.rules :: e.1;
    SettlesOnAcyclic(cfg, sts);
    assert Passes(cfg, sts, 0) == sts && Passes(cfg, sts, 1) == Pass(cfg, sts);
    LevelsOnlyRise(cfg, sts, t, 1, n);
    assert Passes(cfg, sts, n) != v;
  }

  /** Task 3 depends on 2 and 2 on 1; 2 once timed out, and 3 skips when 2 fails but waits when 2 times out. */
  function Chain(): Config
  {
    Config(map[(3, 2) := Rule(1, Skip, Wait, Wait), (2, 1) := Rule(2, Fail, Wait, Wait)], {2})
  }

  /** The disagreement in the small: passes skip 3 on the way and stop there, though its verdict is to stay queued. */
  lemma DisagreementExample()
    ensures var cfg, sts := Chain(), map[1 := Failed, 2 := Skipped, 3 := Queued];
      && Acyclic(cfg.rules.Keys) && Total(cfg, sts) && !Confluent(cfg)
      && Pass(cfg, sts) == map[1 := Failed, 2 := Failed, 3 := Skipped] && Quiescent(cfg, Pass(cfg, sts))
      && Verdict(cfg, sts, 3) == Queued
  {
    hide Confluent, Acyclic, Pass, Verdict;
    var sts: Statuses := map[1 := Failed, 2 := Skipped, 3 := Queued];
    DescendingIsAcyclic(Chain().rules.Keys);
    ChainNotConfluent();
    ChainPass(sts);
    ChainPass(map[1 := Failed, 2 := Failed, 3 := Skipped]);
    ChainVerdict(sts);
  }

  lemma ChainNotConfluent()
    ensures !Confluent(Chain())
  {
    var cfg := Chain();
    assert (3, 2) in cfg.rules && (2, 1) in cfg.rules && Weakens(cfg, 3, 2) && Says(cfg, (2, 1), Failed) == Fail;
    assert (3, 1) !in cfg.rules;
  }

  lemma ChainPass(sts: Statuses)
    requires sts.Keys == {1, 2, 3}
    ensures Total(Chain(), sts)
    ensures Pass(Chain(), sts) == map[1 := sts[1], 2 := Move(sts[2], Says(Chain(), (2, 1), sts[1])),
                                      3 := Move(sts[3], Says(Chain(), (3, 2), sts[2]))]
  {
    ChainAsked(sts);
    hide Asked, Says;
  }

  lemma ChainAsked(sts: Statuses)
    requires sts.Keys == {1, 2, 3}
    ensures Total(Chain(), sts) && Asked(Chain(), sts, 1) == Wait
    ensures Asked(Chain(), sts, 2) == Says(Chain(), (2, 1), sts[1])
    ensures Asked(Chain(), sts, 3) == Says(Chain(), (3, 2), sts[2])
  {
    hide Asked;
    OneAsks(Chain(), sts, 1, None);
    OneAsks(Chain(), sts, 2, Some(1));
    OneAsks(Chain(), sts, 3, Some(2));
  }

  lemma ChainVerdict(sts: Statuses)
    requires sts == map[1 := Failed, 2 := Skipped, 3 := Queued]
    ensures Total(Chain(), sts) && Acyclic(Chain().rules.Keys) && Verdict(Chain(), sts, 3) == Queued
  {
    hide Verdict, Asked, Acyclic, Solves;
    DescendingIsAcyclic(Chain().rules.Keys);
    var v := Verdicts(Chain(), sts);
    VerdictsSolve(Chain(), sts);
    ChainAsked(v);
    SolvesAt(Chain(), sts, v, 1);
    SolvesAt(Chain(), sts, v, 2);
    SolvesAt(Chain(), sts, v, 3);
  }

  /** What a task with at most one prerequisite is asked is what that one asks. */
  lemma OneAsks(cfg: Config, sts: Statuses, t: Id, p: Option<Id>)
    requires Total(cfg, sts) && forall q :: (t, q) in cfg.rules <==> Some(q) == p
    ensures Asked(cfg, sts, t) == if p.Some? then Says(cfg, (t, p.value), sts[p.value]) else Wait
  {
    hide Asked;
    if p.Some? {
      AskedIsStrongest(cfg, sts, t, p.value);
    }
    if Asked(cfg, sts, t) != Wait {
      var q := AskedHasSource(cfg, sts, t);
    }
  }

  lemma DescendingIsAcyclic(g: set<Edge>)
    requires forall e :: e in g ==> e.0 > e.1
    ensures Acyclic(g)
  {
    forall v ensures !Reach(g, v, v) {
      if Reach(g, v, v) {
        var p :| PathFromTo(g, p, v, v);
        PathDescends(g, p);
      }
    }
  }

  lemma {:induction false} PathDescends(g: set<Edge>, p: seq<Id>)
    requires Path(g, p) && forall e :: e in g ==> e.0 > e.1
    ensures p[0] > p[|p| - 1]
    decreases |p|
  {
    assert (p[0], p[1]) in g && (p[0], p[1]).0 > (p[0], p[1]).1;
    if |p| > 2 {
      PathDescends(g, p[1..]);
    }
  }
}
