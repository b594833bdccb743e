/**
  Directed graphs as edge sets, read "first depends on second". The module gives
  the transitive closure that the recursive SQL queries compute, and decides
  exactly when replacing the outgoing edges of one node closes a cycle.
 */
module Graph {
  import opened Types

  type Edge = (Id, Id)

  /** A walk along at least one edge. */
  ghost predicate Path(g: set<Edge>, p: seq<Id>)
  {
    && |p| >= 2
    && (p[0], p[1]) in g
    && (|p| == 2 || Path(g, p[1..]))
  }

  ghost predicate PathFromTo(g: set<Edge>, p: seq<Id>, a: Id, b: Id)
  {
    Path(g, p) && p[0] == a && p[|p| - 1] == b
  }

  ghost predicate Reach(g: set<Edge>, a: Id, b: Id)
  {
    exists p :: PathFromTo(g, p, a, b)
  }

  ghost predicate Acyclic(g: set<Edge>)
  {
    forall v :: !Reach(g, v, v)
  }

  lemma ReachEdge(g: set<Edge>, a: Id, b: Id)
    requires (a, b) in g
    ensures Reach(g, a, b)
  {
    assert PathFromTo(g, [a, b], a, b);
  }

  lemma ReachCons(g: set<Edge>, a: Id, c: Id, b: Id)
    requires (a, c) in g && Reach(g, c, b)
    ensures Reach(g, a, b)
  {
    var p :| PathFromTo(g, p, c, b);
    assert ([a] + p)[1..] == p;
    assert PathFromTo(g, [a] + p, a, b);
  }

  /** The first edge of a walk, and what is left of it. */
  lemma ReachSplit(g: set<Edge>, a: Id, b: Id) returns (c: Id)
    requires Reach(g, a, b)
    ensures (a, c) in g && (c == b || Reach(g, c, b))
  {
    var p :| PathFromTo(g, p, a, b);
    c := p[1];
    if |p| > 2 {
      assert PathFromTo(g, p[1..], c, b);
    }
  }

  lemma {:induction false} PathTrans(g: set<Edge>, p: seq<Id>, a: Id, b: Id, c: Id)
    requires PathFromTo(g, p, a, b) && Reach(g, b, c)
    ensures Reach(g, a, c)
    decreases |p|
  {
    if |p| > 2 {
      PathTrans(g, p[1..], p[1], b, c);
    }
    ReachCons(g, a, p[1], c);
  }

  lemma ReachTrans(g: set<Edge>, a: Id, b: Id, c: Id)
    requires Reach(g, a, b) && Reach(g, b, c)
    ensures Reach(g, a, c)
  {
    var p :| PathFromTo(g, p, a, b);
    PathTrans(g, p, a, b, c);
  }

  /** Taking away edges cannot add a walk. */
  lemma {:induction false} PathMono(g: set<Edge>, h: set<Edge>, p: seq<Id>)
    requires g <= h && Path(g, p)
    ensures Path(h, p)
    decreases |p|
  {
    if |p| > 2 {
      PathMono(g, h, p[1..]);
    }
  }

  lemma AcyclicSubset(g: set<Edge>, h: set<Edge>)
    requires g <= h && Acyclic(h)
    ensures Acyclic(g)
  {
    forall v ensures !Reach(g, v, v) {
      if Reach(g, v, v) {
        var p :| PathFromTo(g, p, v, v);
        PathMono(g, h, p);
        assert PathFromTo(h, p, v, v) && Reach(h, v, v);
      }
    }
  }

  // ---------------------------------------------------------------- closure

  function Successors(g: set<Edge>, from: set<Id>): set<Id>
  {
    set e | e in g && e.0 in from :: e.1
  }

  /**
    A set that holds the first step and is closed under stepping holds every
    reachable node.
   */
  lemma {:induction false} ClosedHoldsPath(g: set<Edge>, from: Id, seen: set<Id>, p: seq<Id>)
    requires Path(g, p) && (p[0] == from || p[0] in seen)
    requires Successors(g, {from}) <= seen && Successors(g, seen) <= seen
    ensures p[|p| - 1] in seen
    decreases |p|
  {
    assert (p[0], p[1]).1 in (Successors(g, {from}) + Successors(g, seen));
    if |p| > 2 {
      ClosedHoldsPath(g, from, seen, p[1..]);
    }
  }

  /**
    `WITH RECURSIVE reachable ... UNION ...`: each round joins the rows found in
    the previous round with the edges and keeps only rows not seen before.
   */
  method Closure(g: set<Edge>, from: Id) returns (seen: set<Id>)
    ensures forall v :: v in seen <==> Reach(g, from, v)
  {
    hide Reach, Path;
    seen := Successors(g, {from});
    var working := seen;
    ghost var targets := set e | e in g :: e.1;
    SuccessorsAreTargets(g, targets);
    forall v | v in seen ensures Reach(g, from, v) {
      ReachEdge(g, from, v);
    }
    NoSuccessors(g);
    hide Successors;
    while working != {}
      invariant working <= seen <= targets
      invariant Successors(g, {from}) <= seen
      invariant Successors(g, seen - working) <= seen
      invariant forall v :: v in seen ==> Reach(g, from, v)
      decreases |targets - seen|, |working|
    {
      var found := Successors(g, working) - seen;
      SuccessorsReach(g, from, working);
      RoundCloses(g, seen, working);
      RoundShrinks(targets, seen, found);
      seen, working := seen + found, found;
    }
    assert seen - working == seen;
    forall v | Reach(g, from, v) ensures v in seen {
      ClosedHoldsReach(g, from, seen, v);
    }
  }

  lemma RoundShrinks(targets: set<Id>, seen: set<Id>, found: set<Id>)
    requires found <= targets - seen
    ensures if found == {} then targets - (seen + found) == targets - seen
            else |targets - (seen + found)| < |targets - seen|
  {
    if found != {} {
      var x :| x in found;
      assert x in targets - seen && x !in targets - (seen + found);
      SubsetSize(targets - (seen + found), targets - seen);
    }
  }

  lemma ClosedHoldsReach(g: set<Edge>, from: Id, seen: set<Id>, v: Id)
    requires Reach(g, from, v) && Successors(g, {from}) <= seen && Successors(g, seen) <= seen
    ensures v in seen
  {
    var p :| PathFromTo(g, p, from, v);
    ClosedHoldsPath(g, from, seen, p);
  }

  lemma NoSuccessors(g: set<Edge>)
    ensures Successors(g, {}) == {}
  {
  }

  lemma SuccessorsAreTargets(g: set<Edge>, targets: set<Id>)
    requires targets == set e | e in g :: e.1
    ensures forall from: set<Id> :: Successors(g, from) <= targets
  {
  }

  lemma SuccessorsReach(g: set<Edge>, from: Id, working: set<Id>)
    requires forall w :: w in working ==> Reach(g, from, w)
    ensures forall v :: v in Successors(g, working) ==> Reach(g, from, v)
  {
    forall v | v in Successors(g, working) ensures Reach(g, from, v) {
      var e :| e in g && e.0 in working && e.1 == v;
      ReachEdge(g, e.0, v);
      ReachTrans(g, from, e.0, v);
    }
  }

  /** After a round, what is left to follow is what the round found. */
  lemma RoundCloses(g: set<Edge>, seen: set<Id>, working: set<Id>)
    requires Successors(g, seen - working) <= seen
    ensures var found := Successors(g, working) - seen; Successors(g, seen + found - found) <= seen + found
  {
    var found := Successors(g, working) - seen;
    forall v | v in Successors(g, seen + found - found) ensures v in seen + found {
      var e :| e in g && e.0 in seen + found - found && e.1 == v;
      assert e.0 in working || e.0 in seen - working;
      assert e.0 in seen - working ==> v in Successors(g, seen - working);
      assert e.0 in working ==> v in Successors(g, working);
    }
  }

  lemma SubsetSize<T>(a: set<T>, b: set<T>)
    requires a < b
    ensures |a| < |b|
  {
    assert b == a + (b - a);
    assert |b - a| > 0 by {
      var x :| x in b - a;
    }
  }

  // ------------------------------------------------------- replacing edges

  /** The graph after the outgoing edges of `t` are deleted and `t -> p` inserted for each `p`. */
  function Replaced(g: set<Edge>, t: Id, ps: set<Id>): set<Edge>
  {
    (set e | e in g && e.0 != t) + (set p | p in ps :: (t, p))
  }

  /** A walk to `t` in the old graph does not need the edges that leave `t`. */
  lemma {:induction false} PathToSurvives(g: set<Edge>, t: Id, ps: set<Id>, p: seq<Id>)
    requires Path(g, p) && p[0] != t && p[|p| - 1] == t
    ensures Reach(Replaced(g, t, ps), p[0], t)
    decreases |p|
  {
    var h := Replaced(g, t, ps);
    if p[1] == t {
      ReachEdge(h, p[0], t);
    } else {
      PathToSurvives(g, t, ps, p[1..]);
      ReachCons(h, p[0], p[1], t);
    }
  }

  ghost predicate ReachOrSame(g: set<Edge>, a: Id, b: Id)
  {
    a == b || Reach(g, a, b)
  }

  /** A walk in the new graph lives in the old one, or passes `t` and goes on from a new prerequisite. */
  lemma {:induction false} PathInReplaced(g: set<Edge>, t: Id, ps: set<Id>, p: seq<Id>)
    requires Path(Replaced(g, t, ps), p)
    ensures
      || Reach(g, p[0], p[|p| - 1])
      || (ReachOrSame(g, p[0], t) && exists q :: q in ps && ReachOrSame(g, q, p[|p| - 1]))
    decreases |p|
  {
    var a, c, b := p[0], p[1], p[|p| - 1];
    if |p| > 2 {
      PathInReplaced(g, t, ps, p[1..]);
    }
    if a != t {
      ReachEdge(g, a, c);
      if c != b && Reach(g, c, b) {
        ReachTrans(g, a, c, b);
      } else if c != b && c != t {
        ReachTrans(g, a, c, t);
      }
    } else if ReachOrSame(g, c, b) {
      assert c in ps;
    }
  }

  /**
    The check made on the old graph, before anything is deleted, is exact: some
    requested prerequisite reaches `t` if and only if the new graph has a cycle.
   */
  lemma ReplaceCycleExact(g: set<Edge>, t: Id, ps: set<Id>)
    requires Acyclic(g) && t !in ps
    ensures (exists p :: p in ps && Reach(g, p, t)) <==> !Acyclic(Replaced(g, t, ps))
  {
    var h := Replaced(g, t, ps);
    if p :| p in ps && Reach(g, p, t) {
      var w :| PathFromTo(g, w, p, t);
      PathToSurvives(g, t, ps, w);
      assert (t, p) in h;
      ReachCons(h, t, p, t);
    }
    if !Acyclic(h) {
      var v :| Reach(h, v, v);
      var w :| PathFromTo(h, w, v, v);
      PathInReplaced(g, t, ps, w);
      var q :| q in ps && ReachOrSame(g, q, v);
      if q != v && v != t {
        ReachTrans(g, q, v, t);
      }
      assert Reach(g, q, t);
    }
  }

  /** Edges out of a node nobody depends on, to other nodes, close no cycle. */
  lemma FreshSourceAcyclic(g: set<Edge>, t: Id, ps: set<Id>)
    requires Acyclic(g) && t !in ps
    requires forall e :: e in g ==> e.0 != t && e.1 != t
    ensures Acyclic(Replaced(g, t, ps))
  {
    ReplaceCycleExact(g, t, ps);
    forall p | p in ps ensures !Reach(g, p, t) {
      if Reach(g, p, t) {
        var w :| PathFromTo(g, w, p, t);
        LastEdge(g, w);
        assert false;
      }
    }
  }

  lemma {:induction false} LastEdge(g: set<Edge>, p: seq<Id>)
    requires Path(g, p)
    ensures (p[|p| - 2], p[|p| - 1]) in g
    decreases |p|
  {
    if |p| > 2 {
      LastEdge(g, p[1..]);
    }
  }

  // ------------------------------------------------------------ well-foundedness

  ghost function Below(g: set<Edge>, t: Id): set<Id>
  {
    set e | e in g && Reach(g, t, e.1) :: e.1
  }

  /** In an acyclic graph every edge leads to a node with strictly fewer nodes below it. */
  lemma BelowShrinks(g: set<Edge>, t: Id, p: Id)
    requires Acyclic(g) && (t, p) in g
    ensures |Below(g, p)| < |Below(g, t)|
  {
    ReachEdge(g, t, p);
    assert (t, p).1 in Below(g, t);
    forall v | v in Below(g, p) ensures v in Below(g, t) {
      ReachTrans(g, t, p, v);
    }
    assert p !in Below(g, p);
    SubsetSize(Below(g, p), Below(g, t));
  }

  /** Every chain that starts at `t` has at most `k` edges. */
  ghost predicate HeightAtMost(g: set<Edge>, t: Id, k: int)
  {
    forall p :: Path(g, p) && p[0] == t ==> |p| - 1 <= k
  }

  lemma HeightStep(g: set<Edge>, t: Id, p: Id, k: int)
    requires HeightAtMost(g, t, k) && (t, p) in g
    ensures k >= 1 && HeightAtMost(g, p, k - 1)
  {
    assert Path(g, [t, p]);
    forall w | Path(g, w) && w[0] == p ensures |w| - 1 <= k - 1 {
      assert ([t] + w)[1..] == w;
      assert Path(g, [t] + w);
    }
  }

  /** An acyclic graph has no chain with more edges than it has nodes below the start. */
  lemma {:induction false} ChainBounded(g: set<Edge>, p: seq<Id>)
    requires Acyclic(g) && Path(g, p)
    ensures |p| - 1 <= |Below(g, p[0])|
    decreases |p|
  {
    BelowShrinks(g, p[0], p[1]);
    if |p| > 2 {
      ChainBounded(g, p[1..]);
    }
  }
}
