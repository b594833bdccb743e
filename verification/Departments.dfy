/**
  The department tree: which moves keep it a forest, that being a forest is what lets its
  recursive queries end, and that the listing is a pre-order walk of what the actor may see.
 */
module Departments {
  import opened Types
  import opened Graph
  import opened Protocol

  /** `departments.parent_id`; a root has no parent. */
  type Tree = map<Id, Option<Id>>

  function Edges(f: Tree): set<Edge>
  {
    set d | d in f && f[d].Some? :: (d, f[d].value)
  }

  ghost predicate ParentsExist(f: Tree)
  {
    forall d :: d in f && f[d].Some? ==> f[d].value in f
  }

  ghost predicate Forest(f: Tree)
  {
    ParentsExist(f) && Acyclic(Edges(f))
  }

  ghost function Height(f: Tree, d: Id): nat
  {
    |Below(Edges(f), d)|
  }

  lemma ParentIsLower(f: Tree, d: Id)
    requires Forest(f) && d in f && f[d].Some?
    ensures f[d].value in f && Height(f, f[d].value) < Height(f, d)
  {
    assert (d, f[d].value) in Edges(f);
    BelowShrinks(Edges(f), d, f[d].value);
  }

  // ------------------------------------------------------------ what is listed

  /** `d` is one of `base` or descends from one. */
  ghost predicate Under(f: Tree, base: set<Id>, d: Id)
    requires Forest(f) && d in f
    decreases Height(f, d)
  {
    d in base || (f[d].Some? && (ParentIsLower(f, d); Under(f, base, f[d].value)))
  }

  /** The ids from `base` down to `d`. */
  ghost function PathTo(f: Tree, base: set<Id>, d: Id): (p: seq<Id>)
    requires Forest(f) && d in f && Under(f, base, d)
    ensures |p| > 0 && p[|p| - 1] == d
    decreases Height(f, d)
  {
    if d in base then [d] else
      ParentIsLower(f, d);
      PathTo(f, base, f[d].value) + [d]
  }

  /** No member of `base` descends from another, or from itself. */
  ghost predicate Apart(f: Tree, base: set<Id>)
    requires Forest(f)
  {
    forall b :: b in base && b in f && f[b].Some? ==> f[b].value in f && !Under(f, base, f[b].value)
  }

  function Roots(f: Tree): set<Id>
  {
    set d | d in f && f[d].None?
  }

  lemma {:induction false} AllUnderRoots(f: Tree, d: Id)
    requires Forest(f) && d in f
    ensures Under(f, Roots(f), d)
    decreases Height(f, d)
  {
    if f[d].Some? {
      ParentIsLower(f, d);
      AllUnderRoots(f, f[d].value);
    }
  }

  lemma {:induction false} UnderIffReach(f: Tree, b: Id, d: Id)
    requires Forest(f) && d in f
    ensures Under(f, {b}, d) <==> d == b || Reach(Edges(f), d, b)
    decreases Height(f, d)
  {
    if f[d].Some? {
      ParentIsLower(f, d);
      var p := f[d].value;
      UnderIffReach(f, b, p);
      assert (d, p) in Edges(f);
      if p == b {
        ReachEdge(Edges(f), d, b);
      } else if Reach(Edges(f), p, b) {
        ReachCons(Edges(f), d, p, b);
      }
    }
    if Reach(Edges(f), d, b) {
      var c := ReachSplit(Edges(f), d, b);
    }
  }

  /**
    Who sees a row: organization-wide scopes every row, the own scope the actor's rows, the department
    scopes the rows of the actor's department, or of one below it when the actor's subtree is what the
    recursion yields. A row without a department is hidden from both.
   */
  lemma ScopeFollowsTree(f: Tree, a: Actor, owner: Id, department: Option<Id>)
    requires Forest(f) && (department.Some? ==> department.value in f)
    requires forall d :: d in f ==> (d in a.subtree <==> a.department.Some? && Under(f, {a.department.value}, d))
    ensures Visible(a, owner, department) <==>
      match a.scope
      case All => true
      case Organization => true
      case SelfOnly => a.user == owner
      case Department => department.Some? && a.department == Some(department.value)
      case DepartmentAndChildren =>
        && department.Some? && a.department.Some?
        && (department == a.department || Reach(Edges(f), department.value, a.department.value))
    ensures Visible(a.(scope := Department), owner, department)
        ==> Visible(a.(scope := DepartmentAndChildren), owner, department)
  {
    if department.Some? && a.department.Some? {
      UnderIffReach(f, a.department.value, department.value);
    }
  }

  lemma OneIsApart(f: Tree, b: Id)
    requires Forest(f) && b in f
    ensures Apart(f, {b})
  {
    if f[b].Some? {
      ParentIsLower(f, b);
      var p := f[b].value;
      UnderIffReach(f, b, p);
      assert (b, p) in Edges(f);
      if Under(f, {b}, p) {
        ReachEdge(Edges(f), b, p);
        if p != b {
          ReachTrans(Edges(f), b, p, b);
        }
      }
    }
  }

  // ------------------------------------------------------- the recursive query

  datatype Row = Row(id: Id, depth: nat, path: seq<Id>)

  function Ids(rows: seq<Row>): set<Id>
  {
    set r | r in rows :: r.id
  }

  ghost predicate DistinctIds(rows: seq<Row>)
  {
    forall i, j :: 0 <= i < j < |rows| ==> rows[i].id != rows[j].id
  }

  lemma NoIds()
    ensures Ids([]) == {} && DistinctIds([])
  {
  }

  lemma Appended(xs: seq<Row>, ys: seq<Row>)
    ensures Ids(xs + ys) == Ids(xs) + Ids(ys)
    ensures DistinctIds(xs) && DistinctIds(ys) && Ids(xs) !! Ids(ys) ==> DistinctIds(xs + ys)
  {
    if Ids(xs) !! Ids(ys) {
      forall i, j | 0 <= i < |xs| && 0 <= j < |ys| ensures xs[i].id != ys[j].id {
        assert xs[i].id in Ids(xs) && ys[j].id in Ids(ys);
      }
    }
  }

  lemma {:induction false} DistinctCount(rows: seq<Row>)
    requires DistinctIds(rows)
    ensures |Ids(rows)| == |rows|
  {
    if rows != [] {
      var n := |rows| - 1;
      DistinctCount(rows[..n]);
      assert rows == rows[..n] + [rows[n]];
      Appended(rows[..n], [rows[n]]);
      assert Ids([rows[n]]) == {rows[n].id};
      assert rows[n].id !in Ids(rows[..n]);
    }
  }

  predicate Extends(f: Tree, w: Row, r: Row)
  {
    r.id in f && f[r.id] == Some(w.id) && r.depth == w.depth + 1 && r.path == w.path + [r.id]
  }

  /** One parent row joined with the departments below it. */
  method ChildRows(f: Tree, w: Row) returns (rows: seq<Row>)
    ensures forall r :: r in rows ==> Extends(f, w, r)
    ensures Ids(rows) == set c | c in f && f[c] == Some(w.id)
    ensures DistinctIds(rows)
  {
    hide DistinctIds;
    NoIds();
    rows := [];
    var kids := set c | c in f && f[c] == Some(w.id);
    var left := kids;
    while left != {}
      invariant left <= kids && Ids(rows) == kids - left
      invariant forall r :: r in rows ==> Extends(f, w, r)
      invariant DistinctIds(rows)
      decreases |left|
    {
      var c :| c in left;
      var r := Row(c, w.depth + 1, w.path + [c]);
      OneMore(rows, r);
      rows, left := rows + [r], left - {c};
    }
  }

  lemma OneMore(rows: seq<Row>, r: Row)
    ensures Ids(rows + [r]) == Ids(rows) + {r.id}
    ensures DistinctIds(rows) && r.id !in Ids(rows) ==> DistinctIds(rows + [r])
  {
    Appended(rows, [r]);
    assert Ids([r]) == {r.id};
  }

  ghost predicate ExtendsSome(f: Tree, working: seq<Row>, r: Row)
  {
    exists w :: w in working && Extends(f, w, r)
  }

  /** The recursive term of the query: the working rows joined with their children. */
  method Join(f: Tree, working: seq<Row>) returns (next: seq<Row>)
    requires DistinctIds(working)
    ensures forall r :: r in next ==> ExtendsSome(f, working, r)
    ensures Ids(next) == set c | c in f && f[c].Some? && f[c].value in Ids(working)
    ensures DistinctIds(next)
  {
    next := [];
    for i := 0 to |working|
      invariant forall r :: r in next ==> ExtendsSome(f, working, r)
      invariant Ids(next) == set c | c in f && f[c].Some? && f[c].value in Ids(working[..i])
      invariant DistinctIds(next)
    {
      var rows := ChildRows(f, working[i]);
      forall r | r in rows ensures ExtendsSome(f, working, r) {
        assert working[i] in working;
      }
      assert working[..i + 1] == working[..i] + [working[i]];
      Appended(working[..i], [working[i]]);
      assert working[i].id !in Ids(working[..i]);
      assert Ids(working[..i + 1]) == Ids(working[..i]) + {working[i].id};
      Appended(next, rows);
      next := next + rows;
    }
    assert working[..|working|] == working;
  }

  ghost predicate RowRight(f: Tree, base: set<Id>, r: Row)
    requires Forest(f)
  {
    && r.id in f && Under(f, base, r.id)
    && r.path == PathTo(f, base, r.id) && r.depth == |r.path| - 1
  }

  /** The departments at distance `k` below `base`. */
  ghost predicate AtDepth(f: Tree, base: set<Id>, d: Id, k: nat)
    requires Forest(f)
  {
    d in f && Under(f, base, d) && |PathTo(f, base, d)| == k + 1
  }

  lemma ChildDepth(f: Tree, base: set<Id>, c: Id, k: nat)
    requires Forest(f) && Apart(f, base) && c in f
    ensures AtDepth(f, base, c, k + 1) <==> f[c].Some? && AtDepth(f, base, f[c].value, k)
    ensures AtDepth(f, base, c, 0) <==> c in base
  {
    if f[c].Some? {
      ParentIsLower(f, c);
    }
  }

  lemma ChildRight(f: Tree, base: set<Id>, w: Row, r: Row)
    requires Forest(f) && Apart(f, base) && RowRight(f, base, w) && Extends(f, w, r)
    ensures RowRight(f, base, r)
  {
    ParentIsLower(f, r.id);
  }

  /** The departments within distance `k`. */
  ghost function Within(f: Tree, base: set<Id>, k: nat): set<Id>
    requires Forest(f)
  {
    set d | d in f && Under(f, base, d) && |PathTo(f, base, d)| <= k + 1
  }

  ghost function Level(f: Tree, base: set<Id>, k: nat): set<Id>
    requires Forest(f)
  {
    set d | d in f && AtDepth(f, base, d, k)
  }

  ghost function Descendants(f: Tree, base: set<Id>): set<Id>
    requires Forest(f)
  {
    set d | d in f && Under(f, base, d)
  }

  lemma NextLevel(f: Tree, base: set<Id>, k: nat)
    requires Forest(f) && Apart(f, base)
    ensures Level(f, base, k + 1) == set c | c in f && f[c].Some? && f[c].value in Level(f, base, k)
    ensures Within(f, base, k + 1) == Within(f, base, k) + Level(f, base, k + 1)
    ensures Within(f, base, k) !! Level(f, base, k + 1)
  {
    forall c | c in f
      ensures AtDepth(f, base, c, k + 1) <==> f[c].Some? && f[c].value in f && AtDepth(f, base, f[c].value, k)
    {
      ChildDepth(f, base, c, k);
      if f[c].Some? {
        ParentIsLower(f, c);
      }
    }
  }

  lemma LevelZero(f: Tree, base: set<Id>)
    requires Forest(f) && Apart(f, base) && base <= f.Keys
    ensures Level(f, base, 0) == Within(f, base, 0) == base
  {
    forall c | c in f ensures AtDepth(f, base, c, 0) <==> c in base {
      ChildDepth(f, base, c, 0);
    }
  }

  /** Once a level is empty, everything has been listed. */
  lemma {:induction false} EmptyLevelIsLast(f: Tree, base: set<Id>, k: nat, d: Id)
    requires Forest(f) && Apart(f, base) && Level(f, base, k) == {}
    requires d in f && Under(f, base, d)
    ensures |PathTo(f, base, d)| <= k
    decreases Height(f, d)
  {
    assert AtDepth(f, base, d, k) <==> d in Level(f, base, k);
    if d !in base {
      ParentIsLower(f, d);
      EmptyLevelIsLast(f, base, k, f[d].value);
    }
  }

  /** The rows list each descendant of `base` once, with its path and distance. */
  ghost predicate ListsOnce(f: Tree, base: set<Id>, ids: set<Id>, rows: seq<Row>)
    requires Forest(f)
  {
    DistinctIds(rows) && Ids(rows) == ids && forall r :: r in rows ==> RowRight(f, base, r)
  }

  /** The non-recursive term of the query. */
  method BaseRows(f: Tree, base: set<Id>) returns (rows: seq<Row>)
    requires Forest(f) && base <= f.Keys
    ensures ListsOnce(f, base, base, rows)
  {
    rows := [];
    var left := base;
    while left != {}
      invariant left <= base && ListsOnce(f, base, base - left, rows)
      decreases |left|
    {
      var d :| d in left;
      Appended(rows, [Row(d, 0, [d])]);
      assert Ids([Row(d, 0, [d])]) == {d};
      assert base - (left - {d}) == base - left + {d};
      rows, left := rows + [Row(d, 0, [d])], left - {d};
    }
    assert base - left == base;
  }

  /**
    `UNION ALL`: each round joins the rows of the round before and keeps them all, without
    looking for duplicates. It ends because a forest has only so many levels.
   */
  method Expand(f: Tree, base: set<Id>) returns (rows: seq<Row>)
    requires Forest(f) && base <= f.Keys && Apart(f, base)
    ensures ListsOnce(f, base, Descendants(f, base), rows)
  {
    rows := BaseRows(f, base);
    var working := rows;
    ghost var k := 0;
    LevelZero(f, base);
    RowsFit(f, rows);
    while working != []
      invariant ListsOnce(f, base, Within(f, base, k), rows)
      invariant ListsOnce(f, base, Level(f, base, k), working)
      invariant |rows| <= |f|
      decreases |f| - |rows|, |working|
    {
      var next := Join(f, working);
      NextLevel(f, base, k);
      NextRight(f, base, working, next);
      Appended(rows, next);
      RowsFit(f, rows + next);
      rows, working, k := rows + next, next, k + 1;
    }
    AllListed(f, base, k);
  }

  lemma AllListed(f: Tree, base: set<Id>, k: nat)
    requires Forest(f) && Apart(f, base) && Level(f, base, k) == Ids([])
    ensures Within(f, base, k) == Descendants(f, base)
  {
    forall d | d in f && Under(f, base, d) ensures |PathTo(f, base, d)| <= k + 1 {
      EmptyLevelIsLast(f, base, k, d);
    }
  }

  lemma NextRight(f: Tree, base: set<Id>, working: seq<Row>, next: seq<Row>)
    requires Forest(f) && Apart(f, base)
    requires forall w :: w in working ==> RowRight(f, base, w)
    requires forall r :: r in next ==> ExtendsSome(f, working, r)
    ensures forall r :: r in next ==> RowRight(f, base, r)
  {
    forall r | r in next ensures RowRight(f, base, r) {
      var w :| w in working && Extends(f, w, r);
      ChildRight(f, base, w, r);
    }
  }

  lemma RowsFit(f: Tree, rows: seq<Row>)
    requires DistinctIds(rows) && forall r :: r in rows ==> r.id in f
    ensures |rows| <= |f|
  {
    DistinctCount(rows);
    assert Ids(rows) <= f.Keys && |f.Keys| == |f|;
    if Ids(rows) == f.Keys {
    } else {
      SubsetSize(Ids(rows), f.Keys);
    }
  }

  /** A department on a cycle is why a forest is needed: the rounds that start at it never run dry. */
  ghost function Round(f: Tree, d: Id, n: nat): set<Id>
  {
    if n == 0 then {d} else set c | c in f && f[c].Some? && f[c].value in Round(f, d, n - 1)
  }

  lemma {:induction false} CycleNeverEnds(f: Tree, d: Id, n: nat)
    requires Reach(Edges(f), d, d)
    ensures Round(f, d, n) != {}
  {
    var v := RoundHoldsAncestor(f, d, n);
  }

  lemma {:induction false} RoundHoldsAncestor(f: Tree, d: Id, n: nat) returns (v: Id)
    requires Reach(Edges(f), d, d)
    ensures v in Round(f, d, n) && Reach(Edges(f), d, v)
  {
    if n == 0 {
      v := d;
    } else {
      var u := RoundHoldsAncestor(f, d, n - 1);
      v := LastStep(Edges(f), d, u);
      assert (v, u) in Edges(f);
    }
  }

  /** The last edge of a walk, and what is left of it. */
  lemma {:induction false} PathLastStep(g: set<Edge>, p: seq<Id>, a: Id, b: Id) returns (c: Id)
    requires PathFromTo(g, p, a, b)
    ensures (c, b) in g && (c == a || Reach(g, a, c))
    decreases |p|
  {
    if |p| == 2 {
      c := a;
    } else {
      c := PathLastStep(g, p[1..], p[1], b);
      if c == p[1] {
        ReachEdge(g, a, c);
      } else {
        ReachCons(g, a, p[1], c);
      }
    }
  }

  lemma LastStep(g: set<Edge>, a: Id, b: Id) returns (c: Id)
    requires Reach(g, a, b) && Reach(g, a, a)
    ensures (c, b) in g && Reach(g, a, c)
  {
    var p :| PathFromTo(g, p, a, b);
    c := PathLastStep(g, p, a, b);
  }

  // ---------------------------------------------------------------- ordering

  /** How arrays of ids compare: element by element, a proper prefix first. */
  predicate Less(p: seq<Id>, q: seq<Id>)
  {
    q != [] && (p == [] || p[0] < q[0] || (p[0] == q[0] && Less(p[1..], q[1..])))
  }

  lemma {:induction false} LessIsTotalOrder(p: seq<Id>, q: seq<Id>, r: seq<Id>)
    ensures !Less(p, p)
    ensures p == q || Less(p, q) || Less(q, p)
    ensures Less(p, q) && Less(q, r) ==> Less(p, r)
    decreases |p| + |q| + |r|
  {
    if p != [] && q != [] && r != [] {
      LessIsTotalOrder(p[1..], q[1..], r[1..]);
      assert p[0] == q[0] && p[1..] == q[1..] ==> p == q by {
        assert p == [p[0]] + p[1..] && q == [q[0]] + q[1..];
      }
    } else if p != [] && q != [] {
      LessIsTotalOrder(p[1..], q[1..], r);
      assert p[0] == q[0] && p[1..] == q[1..] ==> p == q by {
        assert p == [p[0]] + p[1..] && q == [q[0]] + q[1..];
      }
    } else if p != [] {
      LessIsTotalOrder(p[1..], q, r);
    }
  }

  ghost predicate SortedByPath(rows: seq<Row>)
  {
    forall i, j :: 0 <= i < j < |rows| ==> Less(rows[i].path, rows[j].path)
  }

  lemma {:induction false} PrefixIsLess(p: seq<Id>, q: seq<Id>)
    requires p < q
    ensures Less(p, q)
  {
    if p != [] {
      PrefixIsLess(p[1..], q[1..]);
    }
  }

  /** What lies between two extensions of `p` extends `p`. */
  lemma {:induction false} PrefixIsConvex(p: seq<Id>, x: seq<Id>, y: seq<Id>, z: seq<Id>)
    requires p <= x && p <= z && Less(x, y) && Less(y, z)
    ensures p <= y
  {
    if p != [] {
      PrefixIsConvex(p[1..], x[1..], y[1..], z[1..]);
      assert y == [y[0]] + y[1..] && p == [p[0]] + p[1..];
    }
  }

  lemma {:induction false} SiblingsById(p: seq<Id>, a: Id, b: Id)
    ensures Less(p + [a], p + [b]) <==> a < b
  {
    if p != [] {
      assert (p + [a])[1..] == p[1..] + [a] && (p + [b])[1..] == p[1..] + [b];
      SiblingsById(p[1..], a, b);
    }
  }

  /** Two departments with the same path are the same. */
  lemma PathNamesRow(f: Tree, base: set<Id>, r: Row, q: Row)
    requires Forest(f) && RowRight(f, base, r) && RowRight(f, base, q) && r.path == q.path
    ensures r == q
  {
  }

  /** `ORDER BY tree_path` */
  method SortByPath(ghost f: Tree, ghost base: set<Id>, ghost ids: set<Id>, rows: seq<Row>) returns (sorted: seq<Row>)
    requires Forest(f) && ListsOnce(f, base, ids, rows)
    ensures SortedByPath(sorted) && ListsOnce(f, base, ids, sorted)
  {
    sorted := [];
    for i := 0 to |rows|
      invariant SortedByPath(sorted) && ListsOnce(f, base, Ids(rows[..i]), sorted)
    {
      assert rows[..i + 1] == rows[..i] + [rows[i]];
      Appended(rows[..i], [rows[i]]);
      assert rows[i].id !in Ids(rows[..i]);
      sorted := InsertByPath(f, base, Ids(rows[..i]), sorted, rows[i]);
    }
    assert rows[..|rows|] == rows;
  }

  method InsertByPath(ghost f: Tree, ghost base: set<Id>, ghost ids: set<Id>, rows: seq<Row>, r: Row)
    returns (sorted: seq<Row>)
    requires Forest(f) && SortedByPath(rows) && ListsOnce(f, base, ids, rows)
    requires RowRight(f, base, r) && r.id !in ids
    ensures SortedByPath(sorted) && ListsOnce(f, base, ids + Ids([r]), sorted)
  {
    hide RowRight, Forest, Ids, Less;
    var n := 0;
    while n < |rows| && Less(rows[n].path, r.path)
      invariant n <= |rows|
      invariant forall i :: 0 <= i < n ==> Less(rows[i].path, r.path)
    {
      n := n + 1;
    }
    forall j | n <= j < |rows| ensures Less(r.path, rows[j].path) {
      HasId(rows, n);
      LessIsTotalOrder(r.path, rows[n].path, rows[j].path);
      if r.path == rows[n].path {
        PathNamesRow(f, base, r, rows[n]);
      }
    }
    sorted := rows[..n] + [r] + rows[n..];
    InsertedOnce(rows, n, r);
    assert rows == rows[..n] + rows[n..];
    forall q | q in sorted ensures RowRight(f, base, q) {
      assert q in rows || q == r;
    }
  }

  lemma HasId(rows: seq<Row>, n: nat)
    requires n < |rows|
    ensures rows[n] in rows && rows[n].id in Ids(rows)
  {
  }

  lemma InsertedOnce(rows: seq<Row>, n: nat, r: Row)
    requires n <= |rows| && DistinctIds(rows) && r.id !in Ids(rows)
    ensures DistinctIds(rows[..n] + [r] + rows[n..])
    ensures Ids(rows[..n] + [r] + rows[n..]) == Ids(rows) + Ids([r])
  {
    hide DistinctIds;
    InsertedDistinct(rows, n, r);
    assert rows == rows[..n] + rows[n..];
    Appended(rows[..n], rows[n..]);
    Appended(rows[..n], [r]);
    Appended(rows[..n] + [r], rows[n..]);
  }

  lemma InsertedDistinct(rows: seq<Row>, n: nat, r: Row)
    requires n <= |rows| && DistinctIds(rows) && r.id !in Ids(rows)
    ensures DistinctIds(rows[..n] + [r] + rows[n..])
  {
    forall i | 0 <= i < |rows| ensures rows[i].id != r.id {
      assert rows[i].id in Ids(rows);
    }
    hide Ids;
  }

  // ------------------------------------------------------------------- list

  predicate Deep(scope: Scope)
  {
    scope == All || scope == Organization || scope == DepartmentAndChildren
  }

  function Base(f: Tree, scope: Scope, department: Option<Id>): set<Id>
  {
    if scope == All || scope == Organization then Roots(f)
    else set d | d in f && department == Some(d)
  }

  ghost function Listed(f: Tree, scope: Scope, department: Option<Id>): set<Id>
    requires Forest(f)
  {
    if scope == All || scope == Organization then f.Keys
    else set d | d in f && department.Some?
                 && (d == department.value || (scope == DepartmentAndChildren && Reach(Edges(f), d, department.value)))
  }

  lemma BaseIsApart(f: Tree, scope: Scope, department: Option<Id>)
    requires Forest(f)
    ensures Apart(f, Base(f, scope, department))
    ensures Deep(scope) ==> Descendants(f, Base(f, scope, department)) == Listed(f, scope, department)
    ensures !Deep(scope) ==> Base(f, scope, department) == Listed(f, scope, department)
  {
    if scope == All || scope == Organization {
      forall d | d in f ensures Under(f, Roots(f), d) {
        AllUnderRoots(f, d);
      }
    } else if department.Some? && department.value in f {
      var b := department.value;
      assert Base(f, scope, department) == {b};
      OneIsApart(f, b);
      forall d | d in f ensures Under(f, {b}, d) <==> d == b || Reach(Edges(f), d, b) {
        UnderIffReach(f, b, d);
      }
    } else {
      assert Base(f, scope, department) == {};
      NothingUnderNone(f, scope, department);
    }
  }

  lemma NothingUnderNone(f: Tree, scope: Scope, department: Option<Id>)
    requires Forest(f) && scope != All && scope != Organization && (department.Some? ==> department.value !in f)
    ensures Descendants(f, {}) == {} && Listed(f, scope, department) == {}
  {
    forall d | d in f ensures !Under(f, {}, d) {
      NotUnderNone(f, d);
    }
    if department.Some? {
      forall d | d in f ensures d != department.value && !Reach(Edges(f), d, department.value) {
        UnderIffReach(f, department.value, d);
        NotUnderMissing(f, department.value, d);
      }
    }
  }

  lemma {:induction false} NotUnderNone(f: Tree, d: Id)
    requires Forest(f) && d in f
    ensures !Under(f, {}, d)
    decreases Height(f, d)
  {
    if f[d].Some? {
      ParentIsLower(f, d);
      NotUnderNone(f, f[d].value);
    }
  }

  lemma {:induction false} NotUnderMissing(f: Tree, b: Id, d: Id)
    requires Forest(f) && d in f && b !in f
    ensures !Under(f, {b}, d)
    decreases Height(f, d)
  {
    if f[d].Some? {
      ParentIsLower(f, d);
      NotUnderMissing(f, b, f[d].value);
    }
  }

  /** `list`: everything the actor may see, once each, by path. */
  method List(f: Tree, scope: Scope, department: Option<Id>) returns (rows: seq<Row>)
    requires Forest(f)
    ensures ListsOnce(f, Base(f, scope, department), Listed(f, scope, department), rows)
    ensures SortedByPath(rows)
  {
    var base := Base(f, scope, department);
    BaseIsApart(f, scope, department);
    if Deep(scope) {
      rows := Expand(f, base);
    } else {
      rows := BaseRows(f, base);
    }
    rows := SortByPath(f, base, Listed(f, scope, department), rows);
  }

  /** Two rows at the top of the listing, or two with the same parent below it. */
  predicate SiblingRows(f: Tree, base: set<Id>, a: Row, b: Row)
  {
    && a.id in f && b.id in f && (a.id in base <==> b.id in base)
    && (a.id !in base ==> f[a.id] == f[b.id])
  }

  /** `r` is the row of an ancestor of the department of row `q`. */
  ghost predicate AncestorRow(f: Tree, r: Row, q: Row)
  {
    Reach(Edges(f), q.id, r.id)
  }

  lemma {:induction false} AncestorIsPrefix(f: Tree, base: set<Id>, a: Id, d: Id)
    requires Forest(f) && Apart(f, base) && a in f && d in f
    requires Under(f, base, a) && Under(f, base, d)
    ensures Reach(Edges(f), d, a) <==> PathTo(f, base, a) < PathTo(f, base, d)
    decreases Height(f, d)
  {
    var g := Edges(f);
    if d in base {
      assert PathTo(f, base, d) == [d];
      if Reach(g, d, a) {
        var p := ReachSplit(g, d, a);
        ReachUnder(f, base, p, a);
      }
    } else {
      ParentIsLower(f, d);
      var p := f[d].value;
      assert (d, p) in g && PathTo(f, base, d) == PathTo(f, base, p) + [d];
      AncestorIsPrefix(f, base, a, p);
      if p == a {
        ReachEdge(g, d, a);
      } else if Reach(g, p, a) {
        ReachCons(g, d, p, a);
      }
      if Reach(g, d, a) {
        var c := ReachSplit(g, d, a);
      }
      if PathTo(f, base, a) < PathTo(f, base, d) {
        var n := |PathTo(f, base, a)|;
        assert PathTo(f, base, a) == PathTo(f, base, p)[..n];
        if n == |PathTo(f, base, p)| {
          assert PathTo(f, base, a) == PathTo(f, base, p);
        }
      }
    }
  }

  /** Whatever lies below something listed is listed. */
  lemma {:induction false} ReachUnder(f: Tree, base: set<Id>, p: Id, a: Id)
    requires Forest(f) && p in f && a in f && Under(f, base, a)
    requires p == a || Reach(Edges(f), p, a)
    ensures Under(f, base, p)
    decreases Height(f, p)
  {
    if p != a {
      var c := ReachSplit(Edges(f), p, a);
      ParentIsLower(f, p);
      ReachUnder(f, base, c, a);
    }
  }

  /**
    Sorting by path is a pre-order walk: an ancestor comes before its descendants, the
    descendants of a department form one block, and siblings, top rows included, come by id.
   */
  lemma ListIsPreorder(f: Tree, base: set<Id>, ids: set<Id>, rows: seq<Row>, i: nat, j: nat, k: nat)
    requires Forest(f) && Apart(f, base) && ListsOnce(f, base, ids, rows) && SortedByPath(rows)
    requires i < |rows| && j < |rows| && k < |rows|
    ensures AncestorRow(f, rows[i], rows[j]) ==> i < j
    ensures AncestorRow(f, rows[i], rows[k]) && i < j < k ==> AncestorRow(f, rows[i], rows[j])
    ensures SiblingRows(f, base, rows[i], rows[j]) ==> (i < j <==> rows[i].id < rows[j].id)
  {
    var a, b, c := rows[i], rows[j], rows[k];
    assert a in rows && b in rows && c in rows;
    LessIsTotalOrder(a.path, b.path, c.path);
    LessIsTotalOrder(b.path, a.path, b.path);
    AncestorIsPrefix(f, base, a.id, b.id);
    AncestorIsPrefix(f, base, a.id, c.id);
    if AncestorRow(f, a, b) {
      PrefixIsLess(a.path, b.path);
      assert j < i ==> Less(b.path, a.path);
    }
    if AncestorRow(f, a, c) && i < j < k {
      PrefixIsConvex(a.path, a.path, b.path, c.path);
      assert a.path != b.path;
    }
    if SiblingRows(f, base, a, b) {
      SiblingOrder(f, base, a, b);
    }
  }

  lemma SiblingOrder(f: Tree, base: set<Id>, a: Row, b: Row)
    requires Forest(f) && RowRight(f, base, a) && RowRight(f, base, b)
    requires SiblingRows(f, base, a, b)
    ensures Less(a.path, b.path) <==> a.id < b.id
    ensures Less(b.path, a.path) <==> b.id < a.id
  {
    if a.id !in base {
      ParentIsLower(f, a.id);
    }
    var p := if a.id in base then [] else PathTo(f, base, f[a.id].value);
    assert a.path == p + [a.id] && b.path == p + [b.id];
    SiblingsById(p, a.id, b.id);
    SiblingsById(p, b.id, a.id);
  }
}
