/**
  Approval requests and their append-only decision log. The log holds exactly one row for
  each approval that has left `pending`, an approval leaves it at most once, and what it
  becomes is settled by the one step that moved it.
 */
module Approvals {
  import opened Types
  import Protocol

  datatype ApprovalStatus = Pending | Approved | Rejected | Expired | Withdrawn

  datatype Approval = Approval(
    run: Id,
    key: string,
    requester: Id,
    owner: Id,
    department: Option<Id>,
    expires: int,
    status: ApprovalStatus,
    decidedBy: Option<Id>)

  /** A row of the decision log; a decision by the expiry worker has no author. */
  datatype Decision = Decision(approval: Id, author: Option<Id>, verdict: ApprovalStatus)

  datatype Ledger = Ledger(now: int, approvals: map<Id, Approval>, log: multiset<Decision>)

  datatype NewApproval = NewApproval(
    run: Id, key: string, requester: Id, owner: Id, department: Option<Id>, expires: int)

  datatype Op =
    | Tick(elapsed: nat)
    | Raise(input: NewApproval, id: Id)
    | Decide(actor: Protocol.Actor, id: Id, approve: bool)
    | Withdraw(actor: Protocol.Actor, id: Id)
    | ExpireDue

  // ------------------------------------------------------------------- steps

  predicate SameKey(a: Approval, n: NewApproval)
  {
    a.run == n.run && a.key == n.key
  }

  function Matches(l: Ledger, n: NewApproval): set<Id>
  {
    set i | i in l.approvals && SameKey(l.approvals[i], n)
  }

  function NewRow(n: NewApproval): Approval
  {
    Approval(n.run, n.key, n.requester, n.owner, n.department, n.expires, Pending, None)
  }

  /** `create_pending`: the row that already has the key wins; `id` is the next value of the id sequence. */
  function DoRaise(l: Ledger, n: NewApproval, id: Id): Ledger
  {
    if Matches(l, n) != {} || id in l.approvals then l
    else l.(approvals := l.approvals[id := NewRow(n)])
  }

  predicate InScope(l: Ledger, actor: Protocol.Actor, id: Id)
  {
    id in l.approvals && Protocol.Visible(actor, l.approvals[id].owner, l.approvals[id].department)
  }

  predicate Decidable(l: Ledger, actor: Protocol.Actor, id: Id)
  {
    && InScope(l, actor, id) && l.approvals[id].status == Pending
    && l.approvals[id].expires > l.now && l.approvals[id].requester != actor.user
  }

  predicate Withdrawable(l: Ledger, actor: Protocol.Actor, id: Id)
  {
    InScope(l, actor, id) && l.approvals[id].status == Pending && l.approvals[id].requester == actor.user
  }

  predicate IsDue(l: Ledger, id: Id)
  {
    id in l.approvals && l.approvals[id].status == Pending && l.approvals[id].expires <= l.now
  }

  /** Moves one approval and appends its log row. */
  function Close(l: Ledger, id: Id, verdict: ApprovalStatus, author: Option<Id>): Ledger
    requires id in l.approvals
  {
    l.(approvals := l.approvals[id := l.approvals[id].(status := verdict, decidedBy := author)],
       log := l.log + multiset{Decision(id, author, verdict)})
  }

  /** `decide` */
  function DoDecide(l: Ledger, actor: Protocol.Actor, id: Id, approve: bool): Ledger
  {
    if Decidable(l, actor, id) then Close(l, id, if approve then Approved else Rejected, Some(actor.user)) else l
  }

  /** `withdraw` */
  function DoWithdraw(l: Ledger, actor: Protocol.Actor, id: Id): Ledger
  {
    if Withdrawable(l, actor, id) then Close(l, id, Withdrawn, Some(actor.user)) else l
  }

  function Due(l: Ledger): set<Id>
  {
    set i | i in l.approvals && IsDue(l, i)
  }

  function ExpiredRow(a: Approval): Approval
  {
    a.(status := Expired)
  }

  function ExpiryRows(ids: set<Id>): set<Decision>
  {
    set i | i in ids :: Decision(i, None, Expired)
  }

  /** `expire_due` */
  function DoExpireDue(l: Ledger): Ledger
  {
    l.(approvals := map i | i in l.approvals :: if i in Due(l) then ExpiredRow(l.approvals[i]) else l.approvals[i],
       log := l.log + multiset(ExpiryRows(Due(l))))
  }

  function Step(l: Ledger, op: Op): Ledger
  {
    match op
    case Tick(n) => l.(now := l.now + n)
    case Raise(n, id) => DoRaise(l, n, id)
    case Decide(a, id, approve) => DoDecide(l, a, id, approve)
    case Withdraw(a, id) => DoWithdraw(l, a, id)
    case ExpireDue => DoExpireDue(l)
  }

  function After(l: Ledger, ops: seq<Op>): Ledger
  {
    if ops == [] then l else Step(After(l, ops[..|ops| - 1]), ops[|ops| - 1])
  }

  // --------------------------------------------------------------- invariant

  /** The decision a row records. */
  function RowDecision(id: Id, a: Approval): Decision
  {
    Decision(id, a.decidedBy, a.status)
  }

  ghost function Recorded(approvals: map<Id, Approval>): set<Decision>
  {
    set i | i in approvals && approvals[i].status != Pending :: RowDecision(i, approvals[i])
  }

  /** Who may have moved a row where: never its requester to a verdict, only its requester to a withdrawal. */
  ghost predicate AuthorOk(a: Approval)
  {
    match a.status
    case Pending => a.decidedBy.None?
    case Expired => a.decidedBy.None?
    case Withdrawn => a.decidedBy == Some(a.requester)
    case Approved => a.decidedBy.Some? && a.decidedBy.value != a.requester
    case Rejected => a.decidedBy.Some? && a.decidedBy.value != a.requester
  }

  ghost predicate LogOk(l: Ledger)
  {
    l.log == multiset(Recorded(l.approvals))
  }

  ghost predicate AuthorsOk(l: Ledger)
  {
    forall i :: i in l.approvals ==> AuthorOk(l.approvals[i])
  }

  ghost predicate KeysUnique(l: Ledger)
  {
    forall i, j :: i in l.approvals && j in l.approvals && i != j ==>
      l.approvals[i].run != l.approvals[j].run || l.approvals[i].key != l.approvals[j].key
  }

  ghost predicate Inv(l: Ledger)
  {
    LogOk(l) && AuthorsOk(l) && KeysUnique(l)
  }

  lemma OnlyMatch(l: Ledger, n: NewApproval, row: Id)
    requires KeysUnique(l) && row in Matches(l, n)
    ensures Matches(l, n) == {row}
  {
  }

  lemma CloseRecords(l: Ledger, id: Id, verdict: ApprovalStatus, author: Option<Id>)
    requires id in l.approvals && l.approvals[id].status == Pending && verdict != Pending
    ensures Recorded(Close(l, id, verdict, author).approvals) == Recorded(l.approvals) + {Decision(id, author, verdict)}
    ensures Decision(id, author, verdict) !in Recorded(l.approvals)
  {
    var b := Close(l, id, verdict, author).approvals;
    forall d | d in Recorded(l.approvals) ensures d in Recorded(b) {
      var i :| i in l.approvals && l.approvals[i].status != Pending && d == RowDecision(i, l.approvals[i]);
      assert b[i] == l.approvals[i];
    }
    assert RowDecision(id, b[id]) == Decision(id, author, verdict);
    forall d | d in Recorded(b) ensures d in Recorded(l.approvals) + {Decision(id, author, verdict)} {
      var i :| i in b && b[i].status != Pending && d == RowDecision(i, b[i]);
      assert i != id ==> b[i] == l.approvals[i];
    }
  }

  lemma ExpireRecords(l: Ledger)
    requires AuthorsOk(l)
    ensures Recorded(DoExpireDue(l).approvals) == Recorded(l.approvals) + ExpiryRows(Due(l))
    ensures Recorded(l.approvals) !! ExpiryRows(Due(l))
  {
    var b := DoExpireDue(l).approvals;
    var added := ExpiryRows(Due(l));
    forall d | d in Recorded(b) ensures d in Recorded(l.approvals) + added {
      var i :| i in b && b[i].status != Pending && d == RowDecision(i, b[i]);
      assert i in Due(l) ==> AuthorOk(l.approvals[i]) && d == Decision(i, None, Expired);
    }
    forall d | d in Recorded(l.approvals) ensures d in Recorded(b) && d !in added {
      var i :| i in l.approvals && l.approvals[i].status != Pending && d == RowDecision(i, l.approvals[i]);
      assert b[i] == l.approvals[i];
    }
    forall d | d in added ensures d in Recorded(b) {
      var i :| i in Due(l) && d == Decision(i, None, Expired);
      assert AuthorOk(l.approvals[i]) && RowDecision(i, b[i]) == d;
    }
  }

  lemma RaiseRecords(l: Ledger, n: NewApproval, id: Id)
    ensures Recorded(DoRaise(l, n, id).approvals) == Recorded(l.approvals)
  {
    var b := DoRaise(l, n, id).approvals;
    forall i | i in l.approvals ensures i in b && b[i] == l.approvals[i] {
    }
  }

  lemma StepKeepsLog(l: Ledger, op: Op)
    requires LogOk(l) && AuthorsOk(l)
    ensures LogOk(Step(l, op))
  {
    hide Recorded, ExpiryRows, Due, Matches;
    match op
    case Tick(n) =>
    case Raise(n, id) =>
      RaiseRecords(l, n, id);
    case Decide(a, id, approve) =>
      if Decidable(l, a, id) {
        CloseRecords(l, id, if approve then Approved else Rejected, Some(a.user));
      }
    case Withdraw(a, id) =>
      if Withdrawable(l, a, id) {
        CloseRecords(l, id, Withdrawn, Some(a.user));
      }
    case ExpireDue =>
      ExpireRecords(l);
  }

  lemma StepKeepsAuthors(l: Ledger, op: Op)
    requires AuthorsOk(l)
    ensures AuthorsOk(Step(l, op))
  {
    hide ExpiryRows, Matches;
  }

  lemma StepKeepsKeys(l: Ledger, op: Op)
    requires KeysUnique(l)
    ensures KeysUnique(Step(l, op))
  {
    hide ExpiryRows, Due;
    if op.Raise? {
      assert forall i :: i in l.approvals && SameKey(l.approvals[i], op.input) ==> i in Matches(l, op.input);
    }
  }

  lemma StepKeepsInv(l: Ledger, op: Op)
    requires Inv(l)
    ensures Inv(Step(l, op))
  {
    hide Step, LogOk, AuthorsOk, KeysUnique;
    StepKeepsLog(l, op);
    StepKeepsAuthors(l, op);
    StepKeepsKeys(l, op);
  }

  lemma KeepsInv(l: Ledger, op: Op)
    ensures Inv(l) ==> Inv(Step(l, op))
  {
    hide Inv, Step;
    if Inv(l) {
      StepKeepsInv(l, op);
    }
  }

  lemma {:induction false} RunKeepsInv(l: Ledger, ops: seq<Op>)
    requires Inv(l)
    ensures Inv(After(l, ops))
  {
    hide Inv, Step;
    if ops != [] {
      RunKeepsInv(l, ops[..|ops| - 1]);
      StepKeepsInv(After(l, ops[..|ops| - 1]), ops[|ops| - 1]);
    }
  }

  /** The log rows of approval `id`: none while it is pending, otherwise one, and it says what the row says. */
  lemma OneLogRowPerDecision(l: Ledger, ops: seq<Op>, id: Id, author: Option<Id>, verdict: ApprovalStatus)
    requires Inv(l)
    ensures var e := After(l, ops);
      e.log[Decision(id, author, verdict)]
        == if id in e.approvals && e.approvals[id].status == verdict != Pending && e.approvals[id].decidedBy == author
           then 1 else 0
  {
    RunKeepsInv(l, ops);
    var e := After(l, ops);
    var d := Decision(id, author, verdict);
    if id in e.approvals && e.approvals[id].status == verdict != Pending && e.approvals[id].decidedBy == author {
      assert RowDecision(id, e.approvals[id]) in Recorded(e.approvals);
    } else {
      assert d !in Recorded(e.approvals);
    }
  }

  // ------------------------------------------------------------- whole runs

  /** The step that may take approval `id` from its pending row to `after`. */
  ghost predicate Cause(l: Ledger, op: Op, id: Id, after: Approval)
    requires id in l.approvals
  {
    var a := l.approvals[id];
    match after.status
    case Pending => false
    case Expired => op.ExpireDue? && a.expires <= l.now && after == a.(status := Expired)
    case Withdrawn =>
      op.Withdraw? && op.id == id && op.actor.user == a.requester
      && after == a.(status := Withdrawn, decidedBy := Some(a.requester))
    case _ =>
      && op.Decide? && op.id == id && op.actor.user != a.requester && a.expires > l.now
      && Protocol.Visible(op.actor, a.owner, a.department)
      && after == a.(status := if op.approve then Approved else Rejected, decidedBy := Some(op.actor.user))
  }

  lemma StepRow(l: Ledger, op: Op, id: Id)
    requires id in l.approvals
    ensures id in Step(l, op).approvals
    ensures var a, b := l.approvals[id], Step(l, op).approvals[id];
      b == a || (a.status == Pending && Cause(l, op, id, b))
  {
  }

  lemma {:induction false} RowStays(l: Ledger, ops: seq<Op>, id: Id)
    requires id in l.approvals
    ensures id in After(l, ops).approvals
    ensures l.approvals[id].status != Pending ==> After(l, ops).approvals[id] == l.approvals[id]
  {
    hide Step;
    if ops != [] {
      RowStays(l, ops[..|ops| - 1], id);
      StepRow(After(l, ops[..|ops| - 1]), ops[|ops| - 1], id);
    }
  }

  /**
    In any run, an approval that starts pending and ends decided was moved by exactly one
    step: pending before it, its final row ever after. A verdict came before the deadline from
    someone else than the requester, an expiry not before it, a withdrawal from the requester.
   */
  lemma {:induction false} DecidedByOneStep(l: Ledger, ops: seq<Op>, id: Id) returns (k: nat)
    requires id in l.approvals && l.approvals[id].status == Pending
    requires id in After(l, ops).approvals && After(l, ops).approvals[id].status != Pending
    ensures k < |ops|
    ensures id in After(l, ops[..k]).approvals && After(l, ops[..k]).approvals[id] == l.approvals[id]
    ensures Cause(After(l, ops[..k]), ops[k], id, After(l, ops).approvals[id])
    ensures forall j :: k < j <= |ops| ==> id in After(l, ops[..j]).approvals
                                           && After(l, ops[..j]).approvals[id] == After(l, ops).approvals[id]
  {
    hide Step, Cause;
    assert ops != [];
    var n := |ops| - 1;
    var prior := ops[..n];
    assert ops[..|ops|] == ops;
    RowStays(l, prior, id);
    StepRow(After(l, prior), ops[n], id);
    if After(l, prior).approvals[id].status == Pending {
      k := n;
      PendingUnchanged(l, prior, id);
    } else {
      k := DecidedByOneStep(l, prior, id);
      assert prior[..k] == ops[..k];
      forall j | k < j <= |ops|
        ensures id in After(l, ops[..j]).approvals && After(l, ops[..j]).approvals[id] == After(l, ops).approvals[id]
      {
        assert j <= n ==> ops[..j] == prior[..j];
      }
    }
  }

  /** A row that is still pending has not changed at all. */
  lemma {:induction false} PendingUnchanged(l: Ledger, ops: seq<Op>, id: Id)
    requires id in l.approvals
    requires id in After(l, ops).approvals && After(l, ops).approvals[id].status == Pending
    ensures After(l, ops).approvals[id] == l.approvals[id]
  {
    hide Step;
    if ops != [] {
      RowStays(l, ops[..|ops| - 1], id);
      StepRow(After(l, ops[..|ops| - 1]), ops[|ops| - 1], id);
      PendingUnchanged(l, ops[..|ops| - 1], id);
    }
  }

  /** At every clock value a pending approval either is due to expire or can take a verdict, never both. */
  lemma VerdictOrExpiry(l: Ledger, actor: Protocol.Actor, id: Id)
    requires InScope(l, actor, id) && l.approvals[id].status == Pending && l.approvals[id].requester != actor.user
    ensures Decidable(l, actor, id) <==> !IsDue(l, id)
    ensures Step(l, ExpireDue).approvals[id].status == Expired <==> !Decidable(l, actor, id)
  {
    assert id in Due(l) <==> IsDue(l, id);
  }

  lemma {:induction false} ClockForward(l: Ledger, ops: seq<Op>)
    ensures l.now <= After(l, ops).now
  {
    if ops != [] {
      ClockForward(l, ops[..|ops| - 1]);
    }
  }

  /**
    Past its deadline an approval never takes a verdict any more, over any run: it stays pending,
    expires, or is withdrawn. The deadline does not stop the requester.
   */
  lemma OverdueTakesNoVerdict(l: Ledger, ops: seq<Op>, id: Id)
    requires IsDue(l, id)
    ensures id in After(l, ops).approvals
    ensures After(l, ops).approvals[id].status in {Pending, Expired, Withdrawn}
  {
    hide After, Step;
    RowStays(l, ops, id);
    if After(l, ops).approvals[id].status != Pending {
      var k := DecidedByOneStep(l, ops, id);
      ClockForward(l, ops[..k]);
    }
  }

  /** Until the expiry worker gets there, an overdue approval can still be withdrawn. */
  lemma OverdueWithdrawal()
    ensures exists l: Ledger, actor: Protocol.Actor, id: Id ::
      IsDue(l, id) && id in Step(l, Withdraw(actor, id)).approvals
      && Step(l, Withdraw(actor, id)).approvals[id].status == Withdrawn
  {
    var a := Approval(1, "k", 7, 7, None, 5, Pending, None);
    var l := Ledger(9, map[3 := a], multiset{});
    var actor := Protocol.Actor(Protocol.SelfOnly, 7, None, {});
    assert IsDue(l, 3) && 3 in Step(l, Withdraw(actor, 3)).approvals;
    assert Step(l, Withdraw(actor, 3)).approvals[3].status == Withdrawn;
  }

  /**
    Raising an approval again under its run and key changes nothing, whatever happened in
    between and whatever the second call says about the rest.
   */
  lemma ReplayChangesNothing(l: Ledger, n: NewApproval, id: Id, ops: seq<Op>, m: NewApproval, id': Id)
    requires Inv(l) && id !in l.approvals && n.run == m.run && n.key == m.key
    ensures var e := After(Step(l, Raise(n, id)), ops);
      && Step(e, Raise(m, id')) == e
      && exists first :: Matches(e, m) == {first} && first in Step(l, Raise(n, id)).approvals
  {
    var b := Step(l, Raise(n, id));
    StepKeepsInv(l, Raise(n, id));
    RunKeepsInv(b, ops);
    var first :| first in b.approvals && SameKey(b.approvals[first], n) by {
      if Matches(l, n) != {} {
        var i :| i in Matches(l, n);
        assert i in b.approvals && SameKey(b.approvals[i], n);
      } else {
        assert id in b.approvals && SameKey(b.approvals[id], n);
      }
    }
    KeyStays(b, ops, first);
    var e := After(b, ops);
    assert first in Matches(e, m);
    OnlyMatch(e, m, first);
  }

  /** Whoever raises an approval never decides it, over any run; only they may withdraw it. */
  lemma RequesterNeverDecides(l: Ledger, n: NewApproval, id: Id, ops: seq<Op>, actor: Protocol.Actor)
    requires Inv(l) && Matches(l, n) == {} && id !in l.approvals
    ensures var b := After(DoRaise(l, n, id), ops);
      && id in b.approvals && b.approvals[id].requester == n.requester && b.approvals[id].owner == n.owner
      && b.approvals[id].department == n.department && b.approvals[id].expires == n.expires
      && (Decidable(b, actor, id) ==> actor.user != n.requester)
      && (Withdrawable(b, actor, id) ==> actor.user == n.requester)
      && (b.approvals[id].status in {Approved, Rejected} ==>
            b.approvals[id].decidedBy.Some? && b.approvals[id].decidedBy.value != n.requester)
  {
    hide Inv, After, Matches;
    var a := DoRaise(l, n, id);
    KeepsInv(l, Raise(n, id));
    RunKeepsInv(a, ops);
    KeyStays(a, ops, id);
    InvAuthors(After(a, ops));
  }

  lemma InvAuthors(l: Ledger)
    requires Inv(l)
    ensures AuthorsOk(l)
  {
  }

  lemma {:induction false} KeyStays(l: Ledger, ops: seq<Op>, id: Id)
    requires id in l.approvals
    ensures id in After(l, ops).approvals
    ensures var a, b := l.approvals[id], After(l, ops).approvals[id];
      && b.run == a.run && b.key == a.key && b.requester == a.requester && b.owner == a.owner
      && b.department == a.department && b.expires == a.expires
  {
    hide Step;
    if ops != [] {
      KeyStays(l, ops[..|ops| - 1], id);
      StepRow(After(l, ops[..|ops| - 1]), ops[|ops| - 1], id);
    }
  }

  // ------------------------------------------------------- the repository's form

  class ApprovalStore {
    var now: int
    var approvals: map<Id, Approval>
    var log: multiset<Decision>

    function Contents(): Ledger
      reads this
    {
      Ledger(now, approvals, log)
    }

    constructor (l: Ledger)
      ensures Contents() == l
    {
      now, approvals, log := l.now, l.approvals, l.log;
    }

    /** The row that holds the run and key afterwards, new or not. */
    method CreatePending(n: NewApproval, id: Id) returns (row: Id)
      requires Inv(Contents()) && id !in approvals
      modifies this`approvals
      ensures Contents() == DoRaise(old(Contents()), n, id)
      ensures Inv(Contents())
      ensures row in approvals && SameKey(approvals[row], n) && Matches(Contents(), n) == {row}
    {
      ghost var before := Contents();
      StepKeepsInv(before, Raise(n, id));
      var found := Matches(Contents(), n);
      if found != {} {
        row :| row in found;
      } else {
        approvals := approvals[id := NewRow(n)];
        row := id;
      }
      assert Inv(Contents()) && row in Matches(Contents(), n);
      OnlyMatch(Contents(), n, row);
    }

    method Decide(actor: Protocol.Actor, id: Id, approve: bool) returns (decided: bool)
      modifies this`approvals, this`log
      ensures Contents() == DoDecide(old(Contents()), actor, id, approve)
      ensures Inv(old(Contents())) ==> Inv(Contents())
      ensures decided == Decidable(old(Contents()), actor, id)
      ensures decided ==> !IsDue(Contents(), id)
      ensures decided ==> forall a :: !Decidable(Contents(), a, id) && !Withdrawable(Contents(), a, id)
    {
      KeepsInv(Contents(), Op.Decide(actor, id, approve));
      hide Inv;
      if !Decidable(Contents(), actor, id) {
        return false;
      }
      var verdict := if approve then Approved else Rejected;
      approvals := approvals[id := approvals[id].(status := verdict, decidedBy := Some(actor.user))];
      log := log + multiset{Decision(id, Some(actor.user), verdict)};
      return true;
    }

    method Withdraw(actor: Protocol.Actor, id: Id) returns (withdrawn: bool)
      modifies this`approvals, this`log
      ensures Contents() == DoWithdraw(old(Contents()), actor, id)
      ensures Inv(old(Contents())) ==> Inv(Contents())
      ensures withdrawn == Withdrawable(old(Contents()), actor, id)
      ensures withdrawn ==> !IsDue(Contents(), id) && forall a :: !Decidable(Contents(), a, id)
    {
      KeepsInv(Contents(), Op.Withdraw(actor, id));
      hide Inv;
      if !Withdrawable(Contents(), actor, id) {
        return false;
      }
      approvals := approvals[id := approvals[id].(status := Withdrawn, decidedBy := Some(actor.user))];
      log := log + multiset{Decision(id, Some(actor.user), Withdrawn)};
      return true;
    }

    /** The update returns the rows it touched, in any order; the loop logs them one by one. */
    method ExpireDue() returns (rows: set<Id>)
      modifies this`approvals, this`log
      ensures rows == Due(old(Contents()))
      ensures Contents() == DoExpireDue(old(Contents()))
      ensures Inv(old(Contents())) ==> Inv(Contents())
    {
      KeepsInv(Contents(), Op.ExpireDue);
      rows := Due(Contents());
      hide Due, ExpiryRows, Inv;
      approvals := map i | i in approvals :: if i in rows then ExpiredRow(approvals[i]) else approvals[i];
      assert approvals == DoExpireDue(old(Contents())).approvals;
      LogExpiries(rows);
    }

    method LogExpiries(rows: set<Id>)
      modifies this`log
      ensures log == old(log) + multiset(ExpiryRows(rows))
    {
      hide ExpiryRows;
      var left := rows;
      NoRows();
      assert rows - left == {};
      while left != {}
        invariant left <= rows
        invariant log == old(log) + multiset(ExpiryRows(rows - left))
        decreases |left|
      {
        var i :| i in left;
        OneMoreRow(rows - left, i);
        assert rows - (left - {i}) == rows - left + {i};
        log := log + multiset{Decision(i, None, Expired)};
        left := left - {i};
      }
      assert rows - left == rows;
    }
  }

  lemma NoRows()
    ensures ExpiryRows({}) == {}
  {
  }

  lemma OneMoreRow(ids: set<Id>, i: Id)
    requires i !in ids
    ensures multiset(ExpiryRows(ids + {i})) == multiset(ExpiryRows(ids)) + multiset{Decision(i, None, Expired)}
  {
    assert ExpiryRows(ids + {i}) == ExpiryRows(ids) + {Decision(i, None, Expired)};
    assert Decision(i, None, Expired) !in ExpiryRows(ids);
  }
}
