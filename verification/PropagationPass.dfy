/**
  One propagation pass as the backend runs it: query the terminal dependencies in
  order, walk them in groups of one task each, and update rows in place.
 */
module PropagationPass {
  import opened Types
  import opened Graph
  import opened Propagation

  /** A `devrail_task_status_history` row; its id is its position. */
  datatype HistoryRow = HistoryRow(task: Id, status: Status)

  /** A row of the candidate query. */
  datatype Candidate = Candidate(task: Id, prerequisite: Id, dependency: Id, historyId: nat, action: Action)

  /** The position of the newest history row that records `task` entering `status`. */
  function Newest(history: seq<HistoryRow>, task: Id, status: Status): (r: Option<nat>)
    ensures r.Some? <==> HistoryRow(task, status) in history
    ensures r.Some? ==> r.value < |history| && history[r.value] == HistoryRow(task, status)
    ensures r.Some? ==> forall i :: r.value < i < |history| ==> history[i] != HistoryRow(task, status)
  {
    if history == [] then None
    else if history[|history| - 1] == HistoryRow(task, status) then Some(|history| - 1)
    else Newest(history[..|history| - 1], task, status)
  }

  /** `ORDER BY task_id, <rank of action>, dependency_id` */
  predicate InOrder(a: Candidate, b: Candidate)
  {
    || a.task < b.task
    || (a.task == b.task && Rank(a.action) < Rank(b.action))
    || (a.task == b.task && Rank(a.action) == Rank(b.action) && a.dependency <= b.dependency)
  }

  predicate Sorted(rows: seq<Candidate>)
  {
    forall i, j :: 0 <= i < j < |rows| ==> InOrder(rows[i], rows[j])
  }

  function Insert(rows: seq<Candidate>, c: Candidate): (r: seq<Candidate>)
    requires Sorted(rows)
    ensures Sorted(r)
    ensures forall x :: x in r <==> x == c || x in rows
  {
    if rows == [] then [c]
    else if InOrder(c, rows[0]) then
      assert forall x :: x in [c] + rows <==> x == c || x in rows;
      [c] + rows
    else
      var rest := Insert(rows[1..], c);
      assert rows == [rows[0]] + rows[1..];
      assert forall x :: x in rest ==> InOrder(rows[0], x) by { TailInOrder(rows, c, rest); }
      assert forall i :: 0 <= i < |rest| ==> rest[i] in rest;
      [rows[0]] + rest
  }

  lemma TailInOrder(rows: seq<Candidate>, c: Candidate, rest: seq<Candidate>)
    requires rows != [] && Sorted(rows) && !InOrder(c, rows[0])
    requires forall x :: x in rest <==> x == c || x in rows[1..]
    ensures forall x :: x in rest ==> InOrder(rows[0], x)
  {
    forall x | x in rest ensures InOrder(rows[0], x) {
      if x != c {
        var i :| 1 <= i < |rows| && rows[i] == x;
      }
    }
  }

  /** `min_by_key` over the ranks: the first of the rows with the least rank. */
  method Winner(group: seq<Candidate>) returns (winner: Candidate)
    requires group != []
    ensures winner in group
    ensures forall c :: c in group ==> Rank(winner.action) <= Rank(c.action)
    ensures Sorted(group) && (forall c :: c in group ==> c.task == group[0].task) ==> winner == group[0]
  {
    winner := group[0];
    var i := 1;
    while i < |group|
      invariant 1 <= i <= |group| && winner in group
      invariant forall j :: 0 <= j < i ==> Rank(winner.action) <= Rank(group[j].action)
      invariant Sorted(group) && (forall c :: c in group ==> c.task == group[0].task) ==> winner == group[0]
    {
      if Rank(group[i].action) < Rank(winner.action) {
        winner := group[i];
      }
      i := i + 1;
    }
  }

  /** The status trigger has recorded how every terminal task got there. */
  ghost predicate Recorded(sts: Statuses, history: seq<HistoryRow>)
  {
    forall t :: t in sts && Terminal(sts[t]) ==> HistoryRow(t, sts[t]) in history
  }

  /** The `terminal_dependencies` rows. */
  ghost predicate IsCandidate(cfg: Config, sts: Statuses, history: seq<HistoryRow>, c: Candidate)
  {
    var e := (c.task, c.prerequisite);
    && e in cfg.rules && e.1 in sts && Terminal(sts[e.1])
    && c.dependency == cfg.rules[e].id
    && c.action == Says(cfg, e, sts[e.1])
    && Newest(history, e.1, sts[e.1]) == Some(c.historyId)
  }

  /** A candidate's action is the column for how its prerequisite ended: cancelled, timed out, failed or skipped. */
  lemma CandidateByColumns(cfg: Config, sts: Statuses, history: seq<HistoryRow>, c: Candidate)
    ensures IsCandidate(cfg, sts, history, c) <==>
      && (c.task, c.prerequisite) in cfg.rules && c.prerequisite in sts
      && var rule, p := cfg.rules[(c.task, c.prerequisite)], c.prerequisite;
        && c.dependency == rule.id && Newest(history, p, sts[p]) == Some(c.historyId)
        && ((sts[p] == Cancelled && c.action == rule.onCancelled)
            || (sts[p] == Failed && p in cfg.timedOut && c.action == rule.onTimeout)
            || (sts[p] == Failed && p !in cfg.timedOut && c.action == rule.onFailure)
            || (sts[p] == Skipped && c.action == rule.onFailure))
  {
  }

  /** Whatever moves a task is among the candidates. */
  lemma AskedIsCandidate(cfg: Config, sts: Statuses, history: seq<HistoryRow>, t: Id) returns (c: Candidate)
    requires Total(cfg, sts) && Recorded(sts, history) && Asked(cfg, sts, t) != Wait
    ensures IsCandidate(cfg, sts, history, c) && c.task == t && c.action == Asked(cfg, sts, t)
  {
    hide Asked;
    var p := AskedHasSource(cfg, sts, t);
    var h := Newest(history, p, sts[p]);
    c := Candidate(t, p, cfg.rules[(t, p)].id, h.value, Says(cfg, (t, p), sts[p]));
  }

  ghost predicate Query(cfg: Config, sts: Statuses, history: seq<HistoryRow>, rows: seq<Candidate>)
  {
    Sorted(rows) && forall c :: c in rows <==> IsCandidate(cfg, sts, history, c)
  }

  /** Positions `lo..hi` hold exactly the rows of one task. */
  ghost predicate Group(rows: seq<Candidate>, lo: nat, hi: nat)
  {
    && lo < hi <= |rows|
    && forall i :: 0 <= i < |rows| ==> (rows[i].task == rows[lo].task <==> lo <= i < hi)
  }

  /** The winner of a group moves its task as the pass says. */
  lemma GroupDecides(cfg: Config, sts: Statuses, history: seq<HistoryRow>,
                     rows: seq<Candidate>, lo: nat, hi: nat, winner: Candidate)
    requires Total(cfg, sts) && Recorded(sts, history) && Query(cfg, sts, history, rows)
    requires Group(rows, lo, hi) && winner in rows[lo..hi]
    requires forall c :: c in rows[lo..hi] ==> Rank(winner.action) <= Rank(c.action)
    ensures rows[lo].task in sts
    ensures Next(cfg, sts, rows[lo].task, sts[rows[lo].task]) == Move(sts[rows[lo].task], winner.action)
  {
    hide Asked;
    var t := rows[lo].task;
    assert winner in rows && winner.task == t;
    AskedIsStrongest(cfg, sts, t, winner.prerequisite);
    if Asked(cfg, sts, t) != Wait {
      var c := AskedIsCandidate(cfg, sts, history, t);
      assert c in rows;
      var i :| 0 <= i < |rows| && rows[i] == c;
      assert c == rows[lo..hi][i - lo];
    }
  }

  /** A prefix of the candidates speaks about `t`. */
  ghost predicate Seen(rows: seq<Candidate>, n: nat, t: Id)
    requires n <= |rows|
  {
    exists i :: 0 <= i < n && rows[i].task == t
  }

  lemma UnseenStays(cfg: Config, sts: Statuses, history: seq<HistoryRow>, rows: seq<Candidate>, t: Id)
    requires Total(cfg, sts) && Recorded(sts, history) && Query(cfg, sts, history, rows)
    requires t in sts
    ensures Seen(rows, |rows|, t) || Next(cfg, sts, t, sts[t]) == sts[t]
  {
    hide Asked;
    if Asked(cfg, sts, t) != Wait {
      var c := AskedIsCandidate(cfg, sts, history, t);
      assert c in rows;
    }
  }

  /** What the statuses are once the rows before `n` have been worked through. */
  ghost predicate DoneUpTo(cfg: Config, before: Statuses, rows: seq<Candidate>, n: nat, now: Statuses)
    requires Total(cfg, before) && n <= |rows|
  {
    && now.Keys == before.Keys
    && forall t :: t in before ==>
         now[t] == if Seen(rows, n, t) then Next(cfg, before, t, before[t]) else before[t]
  }

  lemma DoneIsPass(cfg: Config, before: Statuses, history: seq<HistoryRow>, rows: seq<Candidate>, now: Statuses)
    requires Total(cfg, before) && Recorded(before, history) && Query(cfg, before, history, rows)
    requires DoneUpTo(cfg, before, rows, |rows|, now)
    ensures now.Keys == before.Keys && now == Pass(cfg, before)
  {
    hide Next;
    forall t | t in before ensures now[t] == Pass(cfg, before)[t] {
      if !Seen(rows, |rows|, t) {
        UnseenStays(cfg, before, history, rows, t);
      }
    }
  }

  lemma NothingDone(cfg: Config, before: Statuses, rows: seq<Candidate>, history: seq<HistoryRow>)
    requires Total(cfg, before)
    ensures DoneUpTo(cfg, before, rows, 0, before)
    ensures Boundary(rows, 0) && Logs(before, before, history[|history|..])
  {
    hide Next;
    assert Changed(before, before) == {};
  }

  lemma DoneStep(cfg: Config, before: Statuses, rows: seq<Candidate>, lo: nat, hi: nat, now: Statuses,
                 winner: Candidate)
    requires Total(cfg, before) && Group(rows, lo, hi)
    requires DoneUpTo(cfg, before, rows, lo, now)
    requires rows[lo].task in before
    requires Next(cfg, before, rows[lo].task, before[rows[lo].task]) == Move(before[rows[lo].task], winner.action)
    ensures hi <= |rows| && rows[lo].task in now && now[rows[lo].task] == before[rows[lo].task]
    ensures DoneUpTo(cfg, before, rows, hi, now[rows[lo].task := Move(before[rows[lo].task], winner.action)])
  {
    hide Next;
    var t := rows[lo].task;
    assert Seen(rows, hi, t) && !Seen(rows, lo, t);
    forall u | u in before && u != t ensures Seen(rows, hi, u) == Seen(rows, lo, u) {
      if Seen(rows, hi, u) {
        var i :| 0 <= i < hi && rows[i].task == u;
        assert i < lo;
      }
    }
  }

  /** History rows that the trigger adds: one for each changed task, with its new status. */
  ghost predicate Logs(before: Statuses, now: Statuses, added: seq<HistoryRow>)
  {
    && |added| == |Changed(before, now)|
    && forall t :: t in Changed(before, now) ==> HistoryRow(t, now[t]) in added
  }

  lemma LogOne(before: Statuses, now: Statuses, added: seq<HistoryRow>, t: Id, s: Status)
    requires Logs(before, now, added) && t in before && t in now
    requires now[t] == before[t] && s != now[t]
    ensures |Changed(before, now[t := s])| == |added| + 1
    ensures Logs(before, now[t := s], added + [HistoryRow(t, s)])
  {
    assert Changed(before, now[t := s]) == Changed(before, now) + {t};
  }

  lemma RecordedAfter(before: Statuses, now: Statuses, was: seq<HistoryRow>, history: seq<HistoryRow>)
    requires now.Keys == before.Keys && Recorded(before, was)
    requires was <= history && Logs(before, now, history[|was|..])
    ensures Recorded(now, history) && |Changed(before, now)| == |history| - |was|
  {
    forall t | t in now && Terminal(now[t]) ensures HistoryRow(t, now[t]) in history {
      if t in Changed(before, now) {
        assert HistoryRow(t, now[t]) in history[|was|..];
      }
    }
  }

  /** Rows before `n` belong to earlier tasks than the rows from `n` on. */
  ghost predicate Boundary(rows: seq<Candidate>, n: nat)
  {
    n <= |rows| && forall i, j :: 0 <= i < n <= j < |rows| ==> rows[i].task < rows[j].task
  }

  /** The inner `while` that finds where the group of the row at `offset` ends. */
  method GroupEnd(rows: seq<Candidate>, offset: nat) returns (end: nat)
    requires Sorted(rows) && Boundary(rows, offset) && offset < |rows|
    ensures Group(rows, offset, end) && Boundary(rows, end)
  {
    end := offset + 1;
    while end < |rows| && rows[end].task == rows[offset].task
      invariant offset < end <= |rows|
      invariant forall i :: offset <= i < end ==> rows[i].task == rows[offset].task
    {
      end := end + 1;
    }
  }

  class TaskTable {
    var status: Statuses
    var history: seq<HistoryRow>
    const rules: map<Edge, Rule>
    const timedOut: set<Id>

    constructor (status: Statuses, history: seq<HistoryRow>, rules: map<Edge, Rule>, timedOut: set<Id>)
      ensures this.status == status && this.history == history
      ensures this.rules == rules && this.timedOut == timedOut
    {
      this.status, this.history, this.rules, this.timedOut := status, history, rules, timedOut;
    }

    function Cfg(): Config
    {
      Config(rules, timedOut)
    }

    ghost predicate Valid()
      reads this
    {
      Total(Cfg(), status) && Recorded(status, history)
    }

    method QueryCandidates() returns (rows: seq<Candidate>)
      requires Valid()
      ensures Query(Cfg(), status, history, rows)
    {
      rows := [];
      var left := rules.Keys;
      while left != {}
        invariant left <= rules.Keys && Sorted(rows)
        invariant forall c :: c in rows <==>
                    IsCandidate(Cfg(), status, history, c) && (c.task, c.prerequisite) !in left
        decreases |left|
      {
        var e :| e in left;
        var s := status[e.1];
        if Terminal(s) {
          var h := Newest(history, e.1, s);
          rows := Insert(rows, Candidate(e.0, e.1, rules[e].id, h.value, Says(Cfg(), e, s)));
        }
        left := left - {e};
      }
    }

    /** `reconcile_task_dependencies`. */
    method ReconcileTaskDependencies() returns (propagated: nat)
      requires Valid()
      modifies this
      ensures Valid()
      ensures status == Pass(Cfg(), old(status))
      ensures propagated == |Changed(old(status), status)|
      ensures old(history) <= history && Logs(old(status), status, history[|old(history)|..])
    {
      hide Next, DoneUpTo, IsCandidate, Recorded, Group, Boundary, Logs;
      ghost var before, was := status, history;
      var rows := QueryCandidates();
      propagated := 0;
      var offset := 0;
      NothingDone(Cfg(), before, rows, was);
      while offset < |rows|
        invariant Boundary(rows, offset)
        invariant offset <= |rows| && DoneUpTo(Cfg(), before, rows, offset, status)
        invariant was <= history && Logs(before, status, history[|was|..])
        invariant propagated == |history| - |was|
      {
        var task := rows[offset].task;
        var end := GroupEnd(rows, offset);
        var winner := Winner(rows[offset..end]);
        GroupDecides(Cfg(), before, was, rows, offset, end, winner);
        DoneStep(Cfg(), before, rows, offset, end, status, winner);
        var current := status[task];
        var target := Move(current, winner.action);
        if target != current {
          LogOne(before, status, history[|was|..], task, target);
          assert (history + [HistoryRow(task, target)])[|was|..] == history[|was|..] + [HistoryRow(task, target)];
          status := status[task := target];
          history := history + [HistoryRow(task, target)];
          propagated := propagated + 1;
        } else {
          assert status[task := target] == status;
        }
        offset := end;
      }
      DoneIsPass(Cfg(), before, was, rows, status);
      RecordedAfter(before, status, was, history);
    }
  }
}
