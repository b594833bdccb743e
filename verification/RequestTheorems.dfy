/**
  What holds over whole runs of the protocol for the identity of continuation requests: keys that
  never refuse an insert, and idempotent creation.
 */
module RequestTheorems {
  import opened Types
  import opened Extremes
  import opened Protocol
  import opened RequestInvariants

  // ------------------------------------------------------ idempotent creation

  ghost function Sequences(s: State, t: Id): set<nat>
  {
    set r | r in s.requests && s.requests[r].task == t :: s.requests[r].sequence
  }

  /** `next_sequence_in_connection` */
  ghost function NextSequence(s: State, t: Id): nat
  {
    Greatest(Sequences(s, t)) + 1
  }

  /**
    An actor who may insert sees every earlier request of the task, so the replay lookup
    finds whatever the unique keys would clash with, and the keys never refuse an insert.
   */
  lemma UniqueKeysNeverRefuse(s: State, a: Actor, n: NewContinuation, id: Id)
    requires Inv(s) && id !in s.requests && n.sequence == NextSequence(s, n.task)
    ensures DoCreate(s, a, n, id).1 != ConstraintViolated
  {
    hide HasLiveRun;
    forall r | r in s.requests && s.requests[r].task == n.task
      ensures s.requests[r].sequence != n.sequence
      ensures Earlier(s, a, n).None? && Visible(a, s.tasks[n.task].owner, s.tasks[n.task].department)
          ==> s.requests[r].key != n.key && !SameEvidence(s.requests[r], n)
    {
      assert s.requests[r].sequence in Sequences(s, n.task);
      assert FitsTask(s, s.requests[r]);
      if Visible(a, s.tasks[n.task].owner, s.tasks[n.task].department) {
        assert s.requests[r].key == n.key ==> r in KeyMatches(s, a, n);
        assert SameEvidence(s.requests[r], n) ==> r in EvidenceMatches(s, a, n);
      }
    }
  }

  /** Requests stay in the table and keep their identity; tasks keep owner and department. */
  ghost predicate Keeps(a: State, b: State)
  {
    && (forall r :: r in a.requests ==> r in b.requests && SameIdentity(a.requests[r], b.requests[r]))
    && (forall t :: t in a.tasks ==> t in b.tasks && b.tasks[t].owner == a.tasks[t].owner
                                     && b.tasks[t].department == a.tasks[t].department)
  }

  lemma FinishKeeps(s: State, run: Id, e: Ending)
    requires Inv(s)
    ensures Keeps(s, DoFinish(s, run, e).0)
    ensures DoFinish(s, run, e).0.requests.Keys == s.requests.Keys
  {
    hide DoFinish, Inv, Finishes;
    if DoFinish(s, run, e).1 == Done {
      FinishEffect(s, run, e);
      InvParts(s);
      FinishFrame(s, DoFinish(s, run, e).0, run, e);
    } else {
      FinishRefused(s, run, e);
    }
  }

  lemma CreateKeeps(s: State, a: Actor, n: NewContinuation, id: Id)
    ensures Keeps(s, DoCreate(s, a, n, id).0)
  {
    hide DoCreate;
    if DoCreate(s, a, n, id).1 == Inserted(id) {
      CreateEffect(s, a, n, id);
    } else {
      CreateRefused(s, a, n, id);
    }
  }

  lemma DispatchKeeps(s: State, id: Id, w: string, k: Token, child: Id, v: int)
    requires Inv(s)
    ensures Keeps(s, DoDispatch(s, id, w, k, child, v).0)
    ensures DoDispatch(s, id, w, k, child, v).0.requests.Keys == s.requests.Keys
  {
    hide DoDispatch, Inv, CanSpawn;
    if DoDispatch(s, id, w, k, child, v).1 == Done {
      DispatchEffect(s, id, w, k, child, v);
      DispatchCloses(s, id, w, k, child, v);
    } else {
      DispatchRefused(s, id, w, k, child, v);
    }
  }

  lemma RestoreKeeps(s: State, id: Id, q: Request)
    requires id in s.requests && SameIdentity(s.requests[id], q)
    ensures Keeps(s, Restore(s, id, q).0) && Restore(s, id, q).0.requests.Keys == s.requests.Keys
  {
  }

  lemma SameKeeps(s: State)
    ensures Keeps(s, s)
  {
  }

  lemma CancelKeeps(s: State, a: Actor, id: Id)
    ensures Keeps(s, DoCancel(s, a, id).0) && DoCancel(s, a, id).0.requests.Keys == s.requests.Keys
  {
    hide Keeps, Restore, Visible;
    SameKeeps(s);
    if id in s.requests {
      var q := s.requests[id];
      RestoreKeeps(s, id, q.(status := Withdrawn, version := q.version + 1, lease := None));
    }
  }

  lemma RejectKeeps(s: State, id: Id, w: string, k: Token)
    ensures Keeps(s, DoReject(s, id, w, k).0) && DoReject(s, id, w, k).0.requests.Keys == s.requests.Keys
  {
    hide Keeps, Restore;
    SameKeeps(s);
    if id in s.requests {
      var q := s.requests[id];
      RestoreKeeps(s, id, q.(status := Rejected, version := q.version + 1, lease := None));
    }
  }

  lemma StartKeeps(s: State, a: Actor, n: NewRun)
    ensures Keeps(s, DoStart(s, a, n).0) && DoStart(s, a, n).0.requests.Keys == s.requests.Keys
  {
    hide DoStart, HasLiveRun;
    if DoStart(s, a, n).1 == Done {
      StartEffect(s, a, n);
    } else {
      StartRefused(s, a, n);
    }
  }

  lemma CutKeeps(s: State, run: Id, cut: Cut, h: Option<nat>)
    ensures Keeps(s, DoCut(s, run, cut, h).0) && DoCut(s, run, cut, h).0.requests.Keys == s.requests.Keys
  {
  }

  lemma QuietKeeps(s: State, op: Op)
    requires Quiet(op)
    ensures Keeps(s, Step(s, op).0) && Step(s, op).0.requests.Keys == s.requests.Keys
  {
    hide Step;
    QuietSteps(s, op);
  }

  lemma MoverKeeps(s: State, op: Op)
    requires Inv(s) && !Quiet(op)
    ensures Keeps(s, Step(s, op).0)
    ensures !op.CreateRequest? ==> Step(s, op).0.requests.Keys == s.requests.Keys
  {
    hide Inv, Keeps, DoCreate, DoCancel, DoReject, DoDispatch, DoStart, DoFinish, DoCut;
    SameKeeps(s);
    match op
    case CreateRequest(a, n, id) => CreateKeeps(s, a, n, id);
    case CancelRequest(a, id) => CancelKeeps(s, a, id);
    case RejectRequest(id, w, k) => RejectKeeps(s, id, w, k);
    case DispatchRequest(id, w, k, c, v) => DispatchKeeps(s, id, w, k, c, v);
    case StartRun(a, n) => StartKeeps(s, a, n);
    case AbortStart(r, c, h) => CutKeeps(s, r, c, h);
    case FinishRun(r, e) => FinishKeeps(s, r, e);
    case RejectApproval(r) => CutKeeps(s, r, Mark(Failed), None);
  }

  lemma StepKeeps(s: State, op: Op)
    requires Inv(s)
    ensures Keeps(s, Step(s, op).0)
    ensures !op.CreateRequest? ==> Step(s, op).0.requests.Keys == s.requests.Keys
  {
    hide Step, Inv, Keeps;
    if Quiet(op) {
      QuietKeeps(s, op);
    } else {
      MoverKeeps(s, op);
    }
  }

  lemma {:induction false} RunKeeps(s: State, ops: seq<Op>)
    requires Inv(s)
    ensures Keeps(s, After(s, ops))
  {
    hide Step, Inv;
    if ops != [] {
      var front := ops[..|ops| - 1];
      RunKeeps(s, front);
      RunKeepsInv(s, front);
      StepKeeps(After(s, front), ops[|ops| - 1]);
    }
  }

  /** A request in the table answers every later call with its key and content, or its evidence and a new key. */
  lemma LookupFinds(s: State, a: Actor, n: NewContinuation, r: Id)
    requires Inv(s) && r in s.requests && s.requests[r].task == n.task
    requires Visible(a, s.requests[r].owner, s.requests[r].department)
    requires s.requests[r].key == n.key || (SameEvidence(s.requests[r], n) && KeyMatches(s, a, n) == {})
    ensures Earlier(s, a, n) == Some(r)
  {
    if s.requests[r].key == n.key {
      assert r in KeyMatches(s, a, n);
      forall q | q in KeyMatches(s, a, n) ensures q == r {
        assert q != r ==> Distinct(s.requests[q], s.requests[r]);
      }
      assert KeyMatches(s, a, n) == {r};
    } else {
      assert r in EvidenceMatches(s, a, n);
      forall q | q in EvidenceMatches(s, a, n) ensures q == r {
        assert q != r ==> Distinct(s.requests[q], s.requests[r]);
      }
      assert EvidenceMatches(s, a, n) == {r};
    }
  }

  /**
    Once a request has been created, repeating the call, by any actor who may see the
    task and after any run, returns the original and changes nothing.
   */
  lemma ReplayReturnsOriginal(s: State, a: Actor, n: NewContinuation, id: Id, ops: seq<Op>, a': Actor, id': Id)
    requires Inv(s) && DoCreate(s, a, n, id).1 == Inserted(id)
    requires n.task in s.tasks && Visible(a', s.tasks[n.task].owner, s.tasks[n.task].department)
    ensures var b := After(DoCreate(s, a, n, id).0, ops);
      DoCreate(b, a', n, id') == (b, Replayed(id))
  {
    var c := DoCreate(s, a, n, id).0;
    CreateEffect(s, a, n, id);
    CreateKeepsInv(s, a, n, id);
    var b := After(c, ops);
    assert b == After(c, ops);
    ReplayIn(c, b, a', n, id, id') by {
      RunKeeps(c, ops);
      RunKeepsInv(c, ops);
    }
  }

  /**
    Whoever sees a request that holds the key of a call gets it back, after any run, exactly if source
    run, trigger, evidence and both digests are the stored ones, and a conflict otherwise.
   */
  lemma KeyAnswers(s: State, ops: seq<Op>, a: Actor, n: NewContinuation, r: Id, id: Id)
    requires Inv(s) && r in s.requests && s.requests[r].task == n.task && s.requests[r].key == n.key
    requires Visible(a, s.requests[r].owner, s.requests[r].department)
    ensures var b, q := After(s, ops), s.requests[r];
      Step(b, CreateRequest(a, n, id)) == (b,
        if q.sourceRun == n.sourceRun && q.trigger == n.trigger && q.evidenceRef == n.evidenceRef
           && q.evidenceDigest == n.evidenceDigest && q.inputDigest == n.inputDigest
        then Replayed(r) else KeyConflict)
  {
    hide Inv, After, Earlier;
    RunKeeps(s, ops);
    RunKeepsInv(s, ops);
    LookupFinds(After(s, ops), a, n, r);
  }

  /** The same for a request with the evidence of a call whose key is new to the caller. */
  lemma EvidenceAnswers(s: State, ops: seq<Op>, a: Actor, n: NewContinuation, r: Id, id: Id)
    requires Inv(s) && r in s.requests && s.requests[r].task == n.task
    requires s.requests[r].sourceRun == n.sourceRun && s.requests[r].trigger == n.trigger
    requires s.requests[r].evidenceRef == n.evidenceRef
    requires Visible(a, s.requests[r].owner, s.requests[r].department)
    requires var b := After(s, ops);
      forall q :: q in b.requests && b.requests[q].task == n.task && b.requests[q].key == n.key
        ==> !Visible(a, b.requests[q].owner, b.requests[q].department)
    ensures var b, q := After(s, ops), s.requests[r];
      Step(b, CreateRequest(a, n, id)) == (b,
        if q.evidenceDigest == n.evidenceDigest && q.inputDigest == n.inputDigest then Replayed(r) else KeyConflict)
  {
    hide Inv, After, Earlier;
    RunKeeps(s, ops);
    RunKeepsInv(s, ops);
    assert KeyMatches(After(s, ops), a, n) == {};
    LookupFinds(After(s, ops), a, n, r);
  }

  lemma ReplayIn(c: State, b: State, a: Actor, n: NewContinuation, id: Id, id': Id)
    requires Keeps(c, b) && Inv(b)
    requires id in c.requests && n.task in c.tasks && c.requests[id] == NewRequest(c.tasks[n.task], n)
    requires Visible(a, c.tasks[n.task].owner, c.tasks[n.task].department)
    ensures DoCreate(b, a, n, id') == (b, Replayed(id))
  {
    hide Earlier;
    LookupFinds(b, a, n, id);
  }
}
