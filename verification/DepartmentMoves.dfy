/**
  Writes to the department table. The cycle test refuses a move exactly when the move would
  close a cycle, so every serial run of creations, moves and deletions keeps the forest, its
  roots, and a department behind every user who names one.
 */
module DepartmentMoves {
  import opened Types
  import opened Graph
  import opened Departments
  import Protocol

  datatype User = User(department: Option<Id>, deleted: bool)

  datatype State = State(parents: Tree, users: map<Id, User>)

  datatype Op =
    | Create(under: Id, id: Id)
    | Move(id: Id, parent: Option<Id>)
    | Delete(id: Id)

  ghost predicate Inv(s: State)
  {
    && Forest(s.parents)
    && (forall u :: u in s.users && s.users[u].department.Some? ==> s.users[u].department.value in s.parents)
  }

  predicate CreateAdmits(s: State, parent: Id, id: Id)
  {
    parent in s.parents && id !in s.parents
  }

  /** `create`: `id` is the next value of the id sequence. */
  function DoCreate(s: State, parent: Id, id: Id): State
  {
    if CreateAdmits(s, parent, id) then s.(parents := s.parents[id := Some(parent)]) else s
  }

  /** Roots stay; the parent is left as it is, or becomes an existing department that does not sit below. */
  ghost predicate MoveAdmits(s: State, id: Id, parent: Option<Id>)
  {
    && id in s.parents && s.parents[id].Some?
    && (parent.Some? && parent != s.parents[id] ==>
          && parent.value in s.parents
          && parent.value != id && !Reach(Edges(s.parents), parent.value, id))
  }

  /** `update` */
  ghost function DoMove(s: State, id: Id, parent: Option<Id>): State
  {
    if MoveAdmits(s, id, parent) && parent.Some? then s.(parents := s.parents[id := parent]) else s
  }

  predicate DeleteAdmits(s: State, id: Id)
  {
    && id in s.parents && s.parents[id].Some?
    && (forall c :: c in s.parents ==> s.parents[c] != Some(id))
    && (forall u :: u in s.users && s.users[u].department == Some(id) ==> s.users[u].deleted)
  }

  function Unassigned(u: User, id: Id): User
  {
    if u.department == Some(id) && u.deleted then u.(department := None) else u
  }

  /** `delete_if_empty`: users deleted earlier let go of the department. */
  function DoDelete(s: State, id: Id): State
  {
    if DeleteAdmits(s, id) then State(s.parents - {id}, map u | u in s.users :: Unassigned(s.users[u], id)) else s
  }

  ghost function Step(s: State, op: Op): State
  {
    match op
    case Create(p, id) => DoCreate(s, p, id)
    case Move(id, p) => DoMove(s, id, p)
    case Delete(id) => DoDelete(s, id)
  }

  ghost function After(s: State, ops: seq<Op>): State
  {
    if ops == [] then s else Step(After(s, ops[..|ops| - 1]), ops[|ops| - 1])
  }

  lemma MovedEdges(f: Tree, id: Id, p: Id)
    ensures Edges(f[id := Some(p)]) == Replaced(Edges(f), id, {p})
  {
    var a, b := Edges(f[id := Some(p)]), Replaced(Edges(f), id, {p});
    forall e | e in a ensures e in b {
      assert e.0 != id ==> e in Edges(f);
    }
    forall e | e in b ensures e in a {
      var g := f[id := Some(p)];
      assert e.0 in g && g[e.0] == Some(e.1);
    }
  }

  /** The cycle test looks at the tree before the move and is exact about the tree after it. */
  lemma CycleTestExact(f: Tree, id: Id, p: Id)
    requires Forest(f) && id in f && p in f
    ensures (p == id || Reach(Edges(f), p, id)) <==> !Forest(f[id := Some(p)])
  {
    MovedEdges(f, id, p);
    var h := Edges(f[id := Some(p)]);
    if p == id {
      assert (id, id) in h;
      ReachEdge(h, id, id);
    } else {
      ReplaceCycleExact(Edges(f), id, {p});
      assert p in {p};
      assert ParentsExist(f[id := Some(p)]);
      if Reach(Edges(f), p, id) {
        assert exists q :: q in {p} && Reach(Edges(f), q, id);
      }
    }
  }

  /** Admission said without the test: a move of a non-root is refused only to keep the forest. */
  lemma MoveAdmitsIff(s: State, id: Id, parent: Id)
    requires Inv(s) && id in s.parents && s.parents[id].Some? && parent in s.parents
    ensures MoveAdmits(s, id, Some(parent)) <==> Forest(s.parents[id := Some(parent)])
  {
    CycleTestExact(s.parents, id, parent);
    if s.parents[id] == Some(parent) {
      assert s.parents[id := Some(parent)] == s.parents;
    }
  }

  lemma CreateKeeps(s: State, parent: Id, id: Id)
    requires Inv(s)
    ensures Inv(DoCreate(s, parent, id)) && Roots(DoCreate(s, parent, id).parents) == Roots(s.parents)
  {
    if CreateAdmits(s, parent, id) {
      MovedEdges(s.parents, id, parent);
      forall e | e in Edges(s.parents) ensures e.0 != id && e.1 != id {
      }
      FreshSourceAcyclic(Edges(s.parents), id, {parent});
    }
  }

  lemma MoveKeeps(s: State, id: Id, parent: Option<Id>)
    requires Inv(s)
    ensures Inv(DoMove(s, id, parent)) && Roots(DoMove(s, id, parent).parents) == Roots(s.parents)
  {
    if MoveAdmits(s, id, parent) && parent.Some? {
      if parent == s.parents[id] {
        assert s.parents[id := parent] == s.parents;
      } else {
        CycleTestExact(s.parents, id, parent.value);
      }
    }
  }

  lemma DeleteKeeps(s: State, id: Id)
    requires Inv(s)
    ensures Inv(DoDelete(s, id)) && Roots(DoDelete(s, id).parents) == Roots(s.parents)
  {
    if DeleteAdmits(s, id) {
      assert Edges(s.parents - {id}) <= Edges(s.parents);
      AcyclicSubset(Edges(s.parents - {id}), Edges(s.parents));
    }
  }

  lemma {:induction false} RunKeepsForest(s: State, ops: seq<Op>)
    requires Inv(s)
    ensures Inv(After(s, ops)) && Roots(After(s, ops).parents) == Roots(s.parents)
  {
    if ops != [] {
      var prior, op := ops[..|ops| - 1], ops[|ops| - 1];
      RunKeepsForest(s, prior);
      hide Inv, Roots, DoCreate, DoMove, DoDelete;
      match op
      case Create(p, id) => CreateKeeps(After(s, prior), p, id);
      case Move(id, p) => MoveKeeps(After(s, prior), id, p);
      case Delete(id) => DeleteKeeps(After(s, prior), id);
    }
  }

  class DepartmentStore {
    var parents: Tree
    var users: map<Id, User>

    constructor (s: State)
      ensures Contents() == s
    {
      parents, users := s.parents, s.users;
    }

    function Contents(): State
      reads this
    {
      State(parents, users)
    }

    /** The department and everything below it, searched for the new parent. */
    method ParentWouldCreateCycle(id: Id, parent: Id) returns (found: bool)
      requires Forest(parents)
      ensures found <==> id in parents && parent in parents && (parent == id || Reach(Edges(parents), parent, id))
    {
      var rows := List(parents, Protocol.DepartmentAndChildren, Some(id));
      found := parent in Ids(rows);
      ghost var listed := Listed(parents, Protocol.DepartmentAndChildren, Some(id));
      assert Ids(rows) == listed;
      assert id !in parents ==> listed == {} by {
        if id !in parents {
          NothingUnderNone(parents, Protocol.DepartmentAndChildren, Some(id));
        }
      }
    }

    method Create(parent: Id, id: Id) returns (created: bool)
      requires Inv(Contents())
      modifies this`parents
      ensures Contents() == DoCreate(old(Contents()), parent, id)
      ensures created == CreateAdmits(old(Contents()), parent, id)
      ensures Inv(Contents()) && Roots(parents) == old(Roots(parents))
    {
      CreateKeeps(Contents(), parent, id);
      created := parent in parents && id !in parents;
      if created {
        parents := parents[id := Some(parent)];
      }
    }

    method Move(id: Id, parent: Option<Id>) returns (moved: bool)
      requires Inv(Contents())
      modifies this`parents
      ensures Contents() == DoMove(old(Contents()), id, parent)
      ensures moved == MoveAdmits(old(Contents()), id, parent)
      ensures Inv(Contents()) && Roots(parents) == old(Roots(parents))
    {
      MoveKeeps(Contents(), id, parent);
      if id !in parents || parents[id].None? {
        return false;
      }
      if parent.Some? && parents[id] != parent {
        if parent.value == id || parent.value !in parents {
          return false;
        }
        var cycle := ParentWouldCreateCycle(id, parent.value);
        if cycle {
          return false;
        }
      }
      if parent.Some? {
        parents := parents[id := parent];
      }
      return true;
    }

    /** When nothing was deleted the transaction is dropped, and the users get their department back. */
    method DeleteIfEmpty(id: Id) returns (deleted: bool)
      requires Inv(Contents())
      modifies this
      ensures Contents() == DoDelete(old(Contents()), id)
      ensures deleted == DeleteAdmits(old(Contents()), id)
      ensures Inv(Contents()) && Roots(parents) == old(Roots(parents))
    {
      DeleteKeeps(Contents(), id);
      var saved := users;
      users := map u | u in users :: Unassigned(users[u], id);
      deleted := id in parents && parents[id].Some?
                 && (forall c :: c in parents ==> parents[c] != Some(id))
                 && (forall u :: u in users && users[u].department == Some(id) ==> users[u].deleted);
      DeletedUsersDoNotCount(saved, id);
      assert deleted == DeleteAdmits(old(Contents()), id);
      if deleted {
        parents := parents - {id};
      } else {
        users := saved;
      }
    }
  }

  lemma DeletedUsersDoNotCount(users: map<Id, User>, id: Id)
    ensures var after := map u | u in users :: Unassigned(users[u], id);
      (forall u :: u in after && after[u].department == Some(id) ==> after[u].deleted)
      <==> (forall u :: u in users && users[u].department == Some(id) ==> users[u].deleted)
  {
    var after := map u | u in users :: Unassigned(users[u], id);
    assert forall u :: u in users ==> after[u] == Unassigned(users[u], id);
  }
}
